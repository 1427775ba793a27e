/**
 * Resource version streams (concourse/resource.go). A finite stream runs one
 * check lazily; an infinite stream chains finite streams, each checking from
 * the last version seen. The checks are outside the model: `checks(k, cursor)`
 * is what the `k`-th check of the resource (0 for the first) reports when run
 * from `cursor`.
 */
module Resources {
  import opened Errors
  import opened SliceStreams
  import opened Chains

  /** A JSON document, kept as its text. */
  type Json = string

  /** `ResourceVersion`: the resource it belongs to and its version payload. */
  datatype ResourceVersion = ResourceVersion(resource: string, version: Json)

  /**
   * The loader of `finiteStream(from)`: a check error is passed on, an empty
   * result stays empty, and with an empty cursor only the latest version is kept.
   */
  function FiniteLoad(from: Json, check: Result<seq<ResourceVersion>>): (r: Result<seq<ResourceVersion>>)
    ensures check.Err? ==> r == check
    ensures check.Ok? ==> r.Ok? && (r.value == [] <==> check.value == [])
    ensures check.Ok? && from == "" && check.value != [] ==> r.value == [check.value[|check.value| - 1]]
    ensures check.Ok? && from != "" ==> r.value == check.value
  {
    match check
    case Err(_) => check
    case Ok(vs) =>
      if |vs| == 0 then check
      else if from == "" then Ok(vs[|vs| - 1..])
      else check
  }

  /** `finiteStream(from)`: a slice stream whose loader runs the check. */
  function FiniteStream(from: Json, check: Result<seq<ResourceVersion>>): (src: Source<ResourceVersion>)
    ensures src.Loader? && Initial(src) == FiniteLoad(from, check)
  {
    Loader(FiniteLoad(from, check))
  }

  /** The cursor of a continuation: the last version seen, or the original cursor when none has been. */
  function Cursor(from: Json, last: Option<ResourceVersion>): (c: Json)
    ensures last.None? ==> c == from
    ensures last.Some? ==> c == last.value.version
  {
    if last.Some? then last.value.version else from
  }

  /** The continuation of `infiniteStream(from)`; it never fails itself. */
  function Continuation(from: Json, checks: (nat, Json) -> Result<seq<ResourceVersion>>)
    : (nat, Option<ResourceVersion>) -> Result<Source<ResourceVersion>>
  {
    (k: nat, last: Option<ResourceVersion>) =>
      Ok(FiniteStream(Cursor(from, last), checks(k + 1, Cursor(from, last))))
  }

  /**
   * `infiniteStream(from)`: the finite stream from `from`, chained with a
   * continuation whose `k`-th call checks from the last version returned.
   */
  method InfiniteStream(from: Json, checks: (nat, Json) -> Result<seq<ResourceVersion>>)
    returns (c: Chained<ResourceVersion>)
    ensures fresh(c) && fresh(c.stream) && c.Valid()
    ensures c.stream.Pending() == FiniteLoad(from, checks(0, from)) && c.stream.loadCalls == 0
    ensures c.emitted == [] && c.last == None && c.calls == 0
    ensures forall k: nat, last: Option<ResourceVersion> ::
      c.cont(k, last) == Ok(FiniteStream(Cursor(from, last), checks(k + 1, Cursor(from, last))))
  {
    var first := new SliceStream(FiniteStream(from, checks(0, from)));
    c := new Chained(first, Continuation(from, checks));
  }

  /**
   * The cursor a chained resource stream hands to its continuation is the
   * payload of the last version it returned, or the original cursor.
   */
  lemma ContinuationChecksFromLastSeen(from: Json, checks: (nat, Json) -> Result<seq<ResourceVersion>>,
                                       emitted: seq<ResourceVersion>, k: nat)
    ensures var last := if emitted == [] then None else Some(emitted[|emitted| - 1]);
      var cursor := if emitted == [] then from else emitted[|emitted| - 1].version;
      Continuation(from, checks)(k, last) == Ok(FiniteStream(cursor, checks(k + 1, cursor)))
  {
    var last := if emitted == [] then None else Some(emitted[|emitted| - 1]);
    var cursor := Cursor(from, last);
    assert Continuation(from, checks)(k, last) == Ok(FiniteStream(cursor, checks(k + 1, cursor)));
  }

  /** With an empty cursor a non-empty check yields exactly its latest version. */
  lemma EmptyCursorYieldsLatest(vs: seq<ResourceVersion>, n: nat)
    requires vs != [] && 1 < n
    ensures Pulls(Initial(FiniteStream("", Ok(vs))), n)[0] == Ok(vs[|vs| - 1])
    ensures Pulls(Initial(FiniteStream("", Ok(vs))), n)[1] == Err(EndOfStream)
  {
    PullsInOrder(Initial(FiniteStream("", Ok(vs))), n, 0);
    PullsInOrder(Initial(FiniteStream("", Ok(vs))), n, 1);
  }

  /** With a cursor, the stream yields every checked version in check order, then ends. */
  lemma CursorYieldsAll(from: Json, vs: seq<ResourceVersion>, n: nat, i: nat)
    requires from != "" && i < n
    ensures i < |vs| ==> Pulls(Initial(FiniteStream(from, Ok(vs))), n)[i] == Ok(vs[i])
    ensures i >= |vs| ==> Pulls(Initial(FiniteStream(from, Ok(vs))), n)[i] == Err(EndOfStream)
  {
    PullsInOrder(Initial(FiniteStream(from, Ok(vs))), n, i);
  }

  /** A failed check is what every pull of the finite stream returns. */
  lemma CheckErrorIsReturned(from: Json, e: Error, n: nat, i: nat)
    requires i < n
    ensures Pulls(Initial(FiniteStream(from, Err(e))), n)[i] == Err(e)
  {
    PullsInOrder(Initial(FiniteStream(from, Err(e))), n, i);
  }

  /**
   * A continuation that re-reports the cursor version `v` before the newer
   * ones extends the output by the newer ones only: `v` is not emitted twice.
   */
  lemma ReportedCursorNotRepeated(segs: seq<seq<ResourceVersion>>, from: Json, v: ResourceVersion,
                                  newer: seq<ResourceVersion>)
    requires segs != [] && from != ""
    ensures ChainOf(segs + [SourceValues(FiniteStream(from, Ok([v] + newer)))]) == ChainOf(segs) + newer
  {
    var s := SourceValues(FiniteStream(from, Ok([v] + newer)));
    assert s == [v] + newer;
    ChainOfAppend(segs, s);
    assert DropFirst(s) == newer;
  }

  /**
   * A continuation checked from an empty cursor (nothing seen yet) yields only
   * the latest version, which the chain drops: it adds nothing to the output.
   */
  lemma EmptyCursorContinuationDiscarded(segs: seq<seq<ResourceVersion>>, vs: seq<ResourceVersion>)
    requires segs != [] && vs != []
    ensures ChainOf(segs + [SourceValues(FiniteStream("", Ok(vs)))]) == ChainOf(segs)
  {
    var s := SourceValues(FiniteStream("", Ok(vs)));
    assert s == [vs[|vs| - 1]];
    ChainOfAppend(segs, s);
  }

  /**
   * A continuation whose check finds nothing cannot give up its first value,
   * so the chain fails with a wrapped end of stream instead of moving on.
   */
  lemma EmptyContinuationFails(cursor: Json, r: Round<ResourceVersion>, s0: SliceStream<ResourceVersion>,
                               s1: SliceStream<ResourceVersion>, segs0: seq<seq<ResourceVersion>>,
                               segs1: seq<seq<ResourceVersion>>)
    requires ContinueOutcome(Ok(FiniteStream(cursor, Ok([]))), r, s0, s1, segs0, segs1)
    ensures r == Failed(Wrapped(SkipContext, EndOfStream)) && s1 == s0 && segs1 == segs0
  {
    assert FirstPull(Initial(FiniteStream(cursor, Ok([])))) == Err(EndOfStream);
  }
}
