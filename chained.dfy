/**
 * `Chained` (concourse/stream.go): turns a finite stream and a continuation
 * into one endless stream. When the current stream ends, the continuation is
 * called with the last value returned, the old stream is closed, and the first
 * value of the new stream is pulled and dropped (it is assumed to repeat the
 * last one).
 *
 * The streams chained here are `SliceStream`s, the only kind the repository
 * chains. The continuation sleeps and checks a resource in the source; here it
 * is a function of how many times it has been called and of its argument, so
 * that successive checks may see different results.
 */
module Chains {
  import opened Errors
  import opened SliceStreams

  const ContinueContext := "continue"
  const SkipContext := "skip first object"

  /** `s` without its first element. */
  function DropFirst<T>(s: seq<T>): seq<T> {
    if s == [] then [] else s[1..]
  }

  /** The continuation segments, each without its first element, one after another. */
  function Tails<T>(segs: seq<seq<T>>): seq<T>
    decreases |segs|
  {
    if segs == [] then [] else DropFirst(segs[0]) + Tails(segs[1..])
  }

  /**
   * The values a chain yields when its first stream produces `segs[0]` and the
   * continuations produce `segs[1]`, `segs[2]`, ...: all of the first, then
   * every value after the first of each continuation.
   */
  function ChainOf<T>(segs: seq<seq<T>>): seq<T> {
    if segs == [] then [] else segs[0] + Tails(segs[1..])
  }

  lemma {:induction false} TailsAppend<T>(segs: seq<seq<T>>, s: seq<T>)
    ensures Tails(segs + [s]) == Tails(segs) + DropFirst(s)
    decreases |segs|
  {
    if segs == [] {
      assert Tails([s]) == DropFirst(s) + Tails([]);
    } else {
      assert (segs + [s])[1..] == segs[1..] + [s];
      TailsAppend(segs[1..], s);
    }
  }

  /** Installing one more continuation extends the output by that continuation's values after its first. */
  lemma ChainOfAppend<T>(segs: seq<seq<T>>, s: seq<T>)
    requires segs != []
    ensures ChainOf(segs + [s]) == ChainOf(segs) + DropFirst(s)
  {
    assert (segs + [s])[0] == segs[0];
    assert (segs + [s])[1..] == segs[1..] + [s];
    TailsAppend(segs[1..], s);
  }

  /** A stream yielding `[v1]`, continued by one yielding `[v1, v2]`, yields `v1, v2`. */
  lemma ChainDropsRepeatedFirst<T>(v1: T, v2: T)
    ensures ChainOf([[v1], [v1, v2]]) == [v1, v2]
  {
    ChainOfAppend([[v1]], [v1, v2]);
  }

  /** What remains to be pulled from a stream, as values. */
  function Remaining<T>(p: Pending<T>): seq<T> {
    if p.Ok? then p.value else []
  }

  /** A successful pull takes the first remaining value; a failed one leaves what remains. */
  lemma PullRemaining<T>(p: Pending<T>)
    ensures FirstPull(p).Ok? ==> Remaining(p) == [FirstPull(p).value] + Remaining(Pull(p).1)
    ensures FirstPull(p).Err? ==> Pull(p).1 == p && Remaining(p) == []
  {
  }

  /** What the next pull on `p` returns. */
  function FirstPull<T>(p: Pending<T>): Result<T> {
    Pull(p).0
  }

  /** The outcome of one round of the loop in `Chained.Next`. */
  datatype Round<T> = Yielded(value: T) | Failed(error: Error) | Continued

  /**
   * What the end-of-stream branch does with the continuation's outcome `c`: a
   * failing continuation or a failing first pull is returned wrapped and the old
   * stream stays; otherwise the new stream, less its first value, is installed.
   */
  ghost predicate ContinueOutcome<T>(c: Result<Source<T>>, r: Round<T>, s0: SliceStream<T>, s1: SliceStream<T>,
                                     segs0: seq<seq<T>>, segs1: seq<seq<T>>)
    reads s0
  {
    match c
    case Err(ce) => r == Failed(Wrapped(ContinueContext, ce)) && s1 == s0 && segs1 == segs0
    case Ok(src) =>
      && s0.closed
      && (FirstPull(Initial(src)).Err? ==>
            r == Failed(Wrapped(SkipContext, FirstPull(Initial(src)).error)) && s1 == s0 && segs1 == segs0)
      && (FirstPull(Initial(src)).Ok? ==>
            r == Continued && s1 != s0 && segs1 == segs0 + [SourceValues(src)])
  }

  /**
   * The error a chain returns when the continuation it called came back with
   * `c`: the continuation's own error wrapped with "continue", or the error of
   * the new stream's first pull wrapped with "skip first object".
   */
  ghost predicate ContinuationFailure<T>(e: Error, c: Result<Source<T>>) {
    match c
    case Err(ce) => e == Wrapped(ContinueContext, ce)
    case Ok(src) => FirstPull(Initial(src)).Err? && e == Wrapped(SkipContext, FirstPull(Initial(src)).error)
  }

  /**
   * Installing a continuation whose first value has been pulled: what was
   * emitted, then what the new stream still holds, is the chain extended by
   * that continuation.
   */
  lemma InstallKeepsChain<T>(emitted: seq<T>, segs: seq<seq<T>>, src: Source<T>, rest: Pending<T>)
    requires segs != [] && emitted == ChainOf(segs)
    requires FirstPull(Initial(src)).Ok? && rest == Pull(Initial(src)).1
    ensures emitted + Remaining(rest) == ChainOf(segs + [SourceValues(src)])
  {
    var vs := SourceValues(src);
    assert Remaining(rest) == vs[1..];
    ChainOfAppend(segs, vs);
  }

  /** A new stream built from `src`, after its first pull, and what that pull returned. */
  method OpenSkipping<T>(src: Source<T>) returns (next: SliceStream<T>, skipped: Result<T>)
    ensures fresh(next) && next.Valid() && !next.closed
    ensures (skipped, next.Pending()) == Pull(Initial(src))
  {
    next := new SliceStream(src);
    skipped := next.Next();
  }

  /**
   * `segs1` is `segs0` followed by one segment per continuation call from the
   * `k0`-th on, each called with `arg` and installed: the values of the stream
   * that call came back with. `InstalledAt` states it segment by segment.
   */
  ghost predicate Installed<T>(cont: (nat, Option<T>) -> Result<Source<T>>, k0: nat, arg: Option<T>,
                               segs0: seq<seq<T>>, segs1: seq<seq<T>>)
    decreases |segs1|
  {
    if |segs1| <= |segs0| then segs1 == segs0
    else
      var k := k0 + |segs1| - 1 - |segs0|;
      && cont(k, arg).Ok?
      && segs1[|segs1| - 1] == SourceValues(cont(k, arg).value)
      && Installed(cont, k0, arg, segs0, segs1[..|segs1| - 1])
  }

  /** Installing the stream of the next continuation call extends what was installed. */
  lemma InstalledSnoc<T>(cont: (nat, Option<T>) -> Result<Source<T>>, k0: nat, arg: Option<T>,
                         segs0: seq<seq<T>>, segs1: seq<seq<T>>)
    requires Installed(cont, k0, arg, segs0, segs1) && |segs0| <= |segs1|
    requires cont(k0 + |segs1| - |segs0|, arg).Ok?
    ensures Installed(cont, k0, arg, segs0, segs1 + [SourceValues(cont(k0 + |segs1| - |segs0|, arg).value)])
  {
    var segs2 := segs1 + [SourceValues(cont(k0 + |segs1| - |segs0|, arg).value)];
    assert segs2[..|segs2| - 1] == segs1;
  }

  /** `seg` holds the values of the stream that call `k` with `arg` came back with. */
  ghost predicate FromCall<T>(cont: (nat, Option<T>) -> Result<Source<T>>, k: nat, arg: Option<T>, seg: seq<T>)
  {
    cont(k, arg).Ok? && seg == SourceValues(cont(k, arg).value)
  }

  /** What was installed, segment by segment: the old segments are kept and the `j`-th new one comes from call `k0 + j`. */
  lemma {:induction false} InstalledAt<T>(cont: (nat, Option<T>) -> Result<Source<T>>, k0: nat, arg: Option<T>,
                                          segs0: seq<seq<T>>, segs1: seq<seq<T>>)
    requires Installed(cont, k0, arg, segs0, segs1)
    ensures segs0 <= segs1
    ensures forall i :: |segs0| <= i < |segs1| ==> FromCall(cont, k0 + i - |segs0|, arg, segs1[i])
    decreases |segs1|
  {
    if |segs1| > |segs0| {
      var prev := segs1[..|segs1| - 1];
      assert FromCall(cont, k0 + |segs1| - 1 - |segs0|, arg, segs1[|segs1| - 1]);
      InstalledAt(cont, k0, arg, segs0, prev);
      assert segs0 <= segs1 by {
        assert segs1[..|segs0|] == prev[..|segs0|];
      }
      forall i | |segs0| <= i < |segs1|
        ensures FromCall(cont, k0 + i - |segs0|, arg, segs1[i])
      {
        if i < |segs1| - 1 {
          assert segs1[i] == prev[i];
        }
      }
    } else {
      assert segs1[..|segs0|] == segs0;
    }
  }

  /** `args1` is `args0` followed by calls that were all given `arg`. */
  ghost predicate CalledWith<T>(args0: seq<Option<T>>, args1: seq<Option<T>>, arg: Option<T>)
  {
    && args0 <= args1
    && forall i :: |args0| <= i < |args1| ==> args1[i] == arg
  }

  class Chained<T> {
    var stream: SliceStream<T>
    const cont: (nat, Option<T>) -> Result<Source<T>>
    var last: Option<T>       // the last value returned; `None` is Go's zero value
    var calls: nat            // how many times `cont` has been called
    ghost var contArgs: seq<Option<T>>   // the argument of each call of `cont`
    ghost var emitted: seq<T>            // every value returned so far
    ghost var segments: seq<seq<T>>      // the values of the first stream and of each installed continuation

    ghost predicate Valid()
      reads this, stream
    {
      && stream.Valid()
      && |contArgs| == calls
      && segments != []
      && last == (if emitted == [] then None else Some(emitted[|emitted| - 1]))
      && emitted + Remaining(stream.Pending()) == ChainOf(segments)
    }

    /** `Chain(stream, cont)`. */
    constructor (s: SliceStream<T>, cont: (nat, Option<T>) -> Result<Source<T>>)
      requires s.Valid()
      ensures Valid() && stream == s && this.cont == cont
      ensures last == None && calls == 0 && emitted == [] && segments == [Remaining(s.Pending())]
    {
      stream := s;
      this.cont := cont;
      last := None;
      calls := 0;
      contArgs := [];
      emitted := [];
      segments := [Remaining(s.Pending())];
    }

    /**
     * One round of the loop in `Chained.Next`: pull from the current stream;
     * return a value, return a non-end error as it is, or on end of stream move
     * on to the continuation.
     */
    method Step() returns (r: Round<T>)
      requires Valid()
      modifies this, stream
      ensures Valid() && old(segments) <= segments
      ensures stream == old(stream) || fresh(stream)
      ensures var x := FirstPull(old(stream.Pending()));
        && (x.Ok? ==>
              r == Yielded(x.value) && emitted == old(emitted) + [x.value] && calls == old(calls) && segments == old(segments)
              && contArgs == old(contArgs))
        && (x.Err? && !IsEndOfStream(x.error) ==>
              && r == Failed(x.error)
              && emitted == old(emitted) && calls == old(calls) && stream == old(stream) && segments == old(segments)
              && stream.Pending() == old(stream.Pending()) && contArgs == old(contArgs))
        && (x.Err? && IsEndOfStream(x.error) ==>
              && emitted == old(emitted) && calls == old(calls) + 1 && contArgs == old(contArgs) + [old(last)]
              && ContinueOutcome(cont(old(calls), old(last)), r, old(stream), stream, old(segments), segments))
    {
      ghost var p0 := stream.Pending();
      PullRemaining(p0);
      var x := stream.Next();
      assert x == FirstPull(p0);
      if x.Ok? {
        assert Remaining(p0) == [x.value] + Remaining(stream.Pending());
        Record(x.value);
        return Yielded(x.value);
      }
      if !IsEndOfStream(x.error) {
        return Failed(x.error);
      }
      assert stream.Pending() == p0;
      r := Continue();
    }

    /** `Step`, seen from `Next`: what each kind of round leaves behind. */
    method Round() returns (r: Round<T>)
      requires Valid()
      modifies this, stream
      ensures Valid()
      ensures stream == old(stream) || fresh(stream)
      ensures CalledWith(old(contArgs), contArgs, old(last))
      ensures r.Yielded? ==> emitted == old(emitted) + [r.value]
      ensures !r.Yielded? ==> emitted == old(emitted) && last == old(last)
      ensures r.Yielded? ==> calls == old(calls) && segments == old(segments)
      ensures r.Continued? ==>
        && calls == old(calls) + 1 && cont(old(calls), old(last)).Ok?
        && segments == old(segments) + [SourceValues(cont(old(calls), old(last)).value)]
      ensures r.Failed? ==>
        && segments == old(segments)
        && (|| (calls == old(calls) && !IsEndOfStream(r.error) && FirstPull(stream.Pending()) == Err(r.error))
            || (calls == old(calls) + 1 && ContinuationFailure(r.error, cont(old(calls), old(last)))))
    {
      r := Step();
    }

    /** Remember `v` as the last value returned. */
    method Record(v: T)
      requires stream.Valid() && |contArgs| == calls && segments != []
      requires emitted + [v] + Remaining(stream.Pending()) == ChainOf(segments)
      modifies this
      ensures Valid() && last == Some(v) && emitted == old(emitted) + [v]
      ensures stream == old(stream) && calls == old(calls) && contArgs == old(contArgs) && segments == old(segments)
    {
      last := Some(v);
      emitted := emitted + [v];
    }

    /**
     * The end-of-stream branch of `Chained.Next`: call the continuation with the
     * last value, close the old stream, and pull and drop the first value of the
     * new one. A failing continuation or a failing skip is returned wrapped.
     */
    method Continue() returns (r: Round<T>)
      requires Valid() && Remaining(stream.Pending()) == []
      modifies this, stream
      ensures Valid()
      ensures emitted == old(emitted) && calls == old(calls) + 1 && contArgs == old(contArgs) + [old(last)]
      ensures ContinueOutcome(cont(old(calls), old(last)), r, old(stream), stream, old(segments), segments)
      ensures stream == old(stream) || fresh(stream)
    {
      var c := cont(calls, last);
      contArgs := contArgs + [last];
      calls := calls + 1;
      if c.Err? {
        return Failed(Wrapped(ContinueContext, c.error));
      }
      r := Switch(c.value);
    }

    /** Close the ended stream, then install a stream built from `src` once its first value is dropped. */
    method Switch(src: Source<T>) returns (r: Round<T>)
      requires Valid() && Remaining(stream.Pending()) == []
      modifies this, stream
      ensures Valid()
      ensures emitted == old(emitted) && calls == old(calls) && contArgs == old(contArgs) && last == old(last)
      ensures ContinueOutcome(Ok(src), r, old(stream), stream, old(segments), segments)
      ensures stream == old(stream) || fresh(stream)
    {
      stream.Close();
      r := Install(src);
    }

    /** Build a stream from `src` and pull its first value; install it unless that pull fails. */
    method Install(src: Source<T>) returns (r: Round<T>)
      requires Valid() && stream.closed && Remaining(stream.Pending()) == []
      modifies this
      ensures Valid()
      ensures emitted == old(emitted) && calls == old(calls) && contArgs == old(contArgs) && last == old(last)
      ensures ContinueOutcome(Ok(src), r, old(stream), stream, old(segments), segments)
      ensures stream == old(stream) || fresh(stream)
    {
      var next, skipped := OpenSkipping(src);
      if skipped.Err? {
        return Failed(Wrapped(SkipContext, skipped.error));
      }
      ghost var vs := SourceValues(src);
      InstallKeepsChain(emitted, segments, src, next.Pending());
      stream := next;
      segments := segments + [vs];
      r := Continued;
    }

    /**
     * `Chained.Next`: rounds until one yields a value or fails. The source loops
     * for as long as continuations keep coming back with nothing new; after
     * `fuel` such rounds this returns `None`, and since the loop keeps no state
     * of its own, calling `Next` again carries on where it stopped.
     */
    method Next(fuel: nat) returns (r: Option<Result<T>>)
      requires Valid()
      modifies this, stream
      ensures Valid()
      ensures Installed(cont, old(calls), old(last), old(segments), segments)
      ensures (r.Some? && r.value.Ok?) ==> last == Some(r.value.value)
      ensures (r.Some? && r.value.Ok?) ==> emitted == old(emitted) + [r.value.value]
      ensures (r.Some? && r.value.Ok?) ==> r.value.value == ChainOf(segments)[|old(emitted)|]
      ensures !(r.Some? && r.value.Ok?) ==> emitted == old(emitted)
      ensures CalledWith(old(contArgs), contArgs, old(last))
      ensures !(r.Some? && r.value.Err?) ==> calls == old(calls) + (|segments| - |old(segments)|)
      ensures (r.Some? && r.value.Err?) ==>
        || (&& calls == old(calls) + (|segments| - |old(segments)|)
            && !IsEndOfStream(r.value.error) && FirstPull(stream.Pending()) == r.value)
        || (&& calls == old(calls) + (|segments| - |old(segments)|) + 1
            && ContinuationFailure(r.value.error, cont(old(calls) + (|segments| - |old(segments)|), old(last))))
    {
      var n := fuel;
      while true
        invariant Valid() && emitted == old(emitted) && last == old(last)
        invariant Installed(cont, old(calls), old(last), old(segments), segments)
        invariant calls == old(calls) + (|segments| - |old(segments)|)
        invariant stream == old(stream) || fresh(stream)
        invariant CalledWith(old(contArgs), contArgs, old(last))
        decreases n
      {
        ghost var segs := segments;
        var round := Round();
        match round
        case Yielded(v) =>
          assert emitted + Remaining(stream.Pending()) == ChainOf(segments);
          return Some(Ok(v));
        case Failed(e) => return Some(Err(e));
        case Continued =>
          InstalledSnoc(cont, old(calls), old(last), old(segments), segs);
          if n == 0 {
            return None;
          }
          n := n - 1;
      }
    }

    /** `Chained.Close` closes the current stream. */
    method Close()
      requires Valid()
      modifies stream
      ensures Valid() && stream.closed
    {
      stream.Close();
    }
  }
}
