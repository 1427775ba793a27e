/**
 * `SliceStream` (concourse/stream.go): a finite stream over a list that is
 * loaded lazily, at most once, by a loader function. The loader is outside the
 * model; what it would return is fixed when the stream is built, and a ghost
 * counter records how often it has been called.
 */
module SliceStreams {
  import opened Errors

  /** Where the values come from: a list given directly, or a loader's outcome. */
  datatype Source<T> = Values(values: seq<T>) | Loader(outcome: Result<seq<T>>)

  /**
   * Everything the stream will still produce, as one value: `Ok(vs)` means the
   * next pulls return `vs` in order and then end of stream; `Err(e)` means
   * every pull returns `e`.
   */
  type Pending<T> = Result<seq<T>>

  function Initial<T>(src: Source<T>): (p: Pending<T>)
    ensures src.Values? ==> p == Ok(src.values)
    ensures src.Loader? ==> p == src.outcome
  {
    match src
    case Values(vs) => Ok(vs)
    case Loader(outcome) => outcome
  }

  /** The values a stream built from `src` yields before it ends (none on a load failure). */
  function SourceValues<T>(src: Source<T>): seq<T> {
    match Initial(src)
    case Ok(vs) => vs
    case Err(_) => []
  }

  /** One pull, on the abstract state: what `Next` returns and what is left. */
  function Pull<T>(p: Pending<T>): (Result<T>, Pending<T>) {
    match p
    case Err(e) => (Err(e), p)
    case Ok(vs) => if vs == [] then (Err(EndOfStream), p) else (Ok(vs[0]), Ok(vs[1..]))
  }

  /** The results of `n` consecutive pulls. */
  function Pulls<T>(p: Pending<T>, n: nat): (r: seq<Result<T>>)
    ensures |r| == n
    decreases n
  {
    if n == 0 then [] else var (x, rest) := Pull(p); [x] + Pulls(rest, n - 1)
  }

  /**
   * The promise of a slice stream: after a load failure every pull returns that
   * error; otherwise the pulls return the values in order and then end of
   * stream on every later call.
   */
  lemma {:induction false} PullsInOrder<T>(p: Pending<T>, n: nat, i: nat)
    requires i < n
    ensures p.Err? ==> Pulls(p, n)[i] == Err(p.error)
    ensures p.Ok? && i < |p.value| ==> Pulls(p, n)[i] == Ok(p.value[i])
    ensures p.Ok? && i >= |p.value| ==> Pulls(p, n)[i] == Err(EndOfStream)
    decreases n
  {
    var (x, rest) := Pull(p);
    if i > 0 {
      PullsInOrder(rest, n - 1, i - 1);
    }
  }

  class SliceStream<T> {
    const source: Source<T>
    var loaded: bool          // the `sync.Once` guarding the load has run
    var loadErr: Option<Error>
    var values: seq<T>
    var offset: nat
    var closed: bool
    ghost var loadCalls: nat  // how many times the loader has been called

    ghost predicate Valid()
      reads this
    {
      && loadCalls == (if loaded then 1 else 0)
      && (loaded ==> source.Loader?)
      && (source.Loader? && !loaded ==> offset == 0 && loadErr == None)
      && (source.Values? ==> values == source.values && loadErr == None)
      && (loaded ==> match source.outcome
                     case Ok(vs) => values == vs && loadErr == None
                     case Err(e) => loadErr == Some(e))
      && (loadErr == None ==> offset <= |values|)
    }

    /** What the stream will still produce. */
    ghost function Pending(): Pending<T>
      reads this
      requires Valid()
    {
      if source.Loader? && !loaded then Initial(source)
      else if loadErr.Some? then Err(loadErr.value)
      else Ok(values[offset..])
    }

    constructor (src: Source<T>)
      ensures Valid() && source == src && !closed
      ensures Pending() == Initial(src) && loadCalls == 0
    {
      source := src;
      loaded := false;
      loadErr := None;
      values := if src.Values? then src.values else [];
      offset := 0;
      closed := false;
      loadCalls := 0;
    }

    /** `SliceStream.Next`: load once if there is a loader, then pop the next value. */
    method Next() returns (r: Result<T>)
      requires Valid()
      modifies this
      ensures Valid() && closed == old(closed)
      ensures (r, Pending()) == Pull(old(Pending()))
      ensures loadCalls == (if source.Loader? then 1 else 0)
    {
      if source.Loader? {
        if !loaded {
          match source.outcome {
            case Ok(vs) => values, loadErr := vs, None;
            case Err(e) => values, loadErr := [], Some(e);
          }
          loaded := true;
          loadCalls := loadCalls + 1;
        }
        if loadErr.Some? {
          return Err(loadErr.value);
        }
      }
      if offset >= |values| {
        return Err(EndOfStream);
      }
      r := Ok(values[offset]);
      offset := offset + 1;
    }

    /** `SliceStream.Close`: only sets the flag; later pulls behave as before. */
    method Close()
      requires Valid()
      modifies this
      ensures Valid() && closed
      ensures Pending() == old(Pending()) && loadCalls == old(loadCalls)
    {
      closed := true;
    }
  }
}
