/**
 * `Aggregated` (concourse/stream.go): merges named streams into one object.
 * Each input stream is pulled by its own goroutine (`update`) and handed over
 * on an unbuffered channel; here the value pulled and not yet received is a
 * queue per stream, filled by `Update`. A goroutine blocked in its send pulls
 * nothing more, so a queue never holds more than one value. The streams are
 * numbered in the order the map was walked when the aggregate was built.
 */
module Aggregations {
  import opened Errors
  import opened Objects

  /** The stream names, as a set. */
  function NameSet(names: seq<Keyword>): set<Keyword> {
    set n | n in names
  }

  /** How the selects of one call of `Next` come out, chosen by the scheduler. */
  datatype Schedule =
    | Interrupt               // the context is done and its case is the one selected
    | Batch(picks: seq<nat>)  // these streams are received from, in order, then the default case fires
    | Blocked(pick: nat)      // nothing is ready: the default fires, then a blocking receive from `pick`

  /** The streams received from under a schedule. */
  function Picks(s: Schedule): (ps: seq<nat>)
    ensures ps == [] <==> s.Interrupt? || (s.Batch? && s.picks == [])
    ensures s.Blocked? ==> ps == [s.pick]
  {
    match s
    case Interrupt => []
    case Batch(picks) => picks
    case Blocked(pick) => [pick]
  }

  function Init(ps: seq<nat>): seq<nat>
    requires ps != []
  {
    ps[..|ps| - 1]
  }

  function Last(ps: seq<nat>): nat
    requires ps != []
  {
    ps[|ps| - 1]
  }

  /** The queues after receiving from `picks` in order (a receive from an empty queue takes nothing). */
  function Drain<T>(pending: seq<seq<T>>, picks: seq<nat>): (r: seq<seq<T>>)
    ensures |r| == |pending|
    decreases |picks|
  {
    if picks == [] then pending
    else
      var p := Drain(pending, Init(picks));
      var j := Last(picks);
      if j < |p| && p[j] != [] then p[j := p[j][1..]] else p
  }

  /** Every receive of `picks` finds a value waiting. */
  predicate Available<T>(pending: seq<seq<T>>, picks: seq<nat>)
    decreases |picks|
  {
    picks == [] ||
    (Available(pending, Init(picks)) && Last(picks) < |pending| && Drain(pending, Init(picks))[Last(picks)] != [])
  }

  /** The working object after receiving from `picks` in order: each value is stored under its stream's name. */
  function Gather<T>(names: seq<Keyword>, next: Object<T>, pending: seq<seq<T>>, picks: seq<nat>): Object<T>
    requires |pending| == |names| && Available(pending, picks)
    decreases |picks|
  {
    if picks == [] then next
    else
      var j := Last(picks);
      Gather(names, next, pending, Init(picks))[names[j] := Drain(pending, Init(picks))[j][0]]
  }

  /** The indices below `n` whose name is not yet a key of `obj`, in order: the streams phase one waits on. */
  function Missing(names: seq<Keyword>, present: set<Keyword>, n: nat): (m: seq<nat>)
    requires n <= |names|
    ensures forall k :: 0 <= k < |m| ==> m[k] < n && names[m[k]] !in present
  {
    if n == 0 then [] else Missing(names, present, n - 1) + (if names[n - 1] !in present then [n - 1] else [])
  }

  /** How many times `i` occurs in `ps`. */
  function Count(ps: seq<nat>, i: nat): nat
    decreases |ps|
  {
    if ps == [] then 0 else Count(Init(ps), i) + if Last(ps) == i then 1 else 0
  }

  /** Every stream with a value waiting is received from by `picks`: the default case cannot fire before. */
  predicate Exhausts<T>(pending: seq<seq<T>>, picks: seq<nat>) {
    forall i :: 0 <= i < |pending| && pending[i] != [] ==> i in picks
  }

  /** A stream occurs in `picks` exactly when it is picked at least once. */
  lemma {:induction false} CountIn(ps: seq<nat>, i: nat)
    ensures i in ps <==> Count(ps, i) > 0
    decreases |ps|
  {
    if ps != [] {
      CountIn(Init(ps), i);
      assert ps == Init(ps) + [Last(ps)];
    }
  }

  lemma AvailablePrefix<T>(pending: seq<seq<T>>, picks: seq<nat>, k: nat)
    requires Available(pending, picks) && k <= |picks|
    ensures Available(pending, picks[..k])
    decreases |picks|
  {
    if k < |picks| {
      assert picks[..k] == Init(picks)[..k];
      AvailablePrefix(pending, Init(picks), k);
    } else {
      assert picks[..k] == picks;
    }
  }

  /** Receiving from `picks` takes the first `c` waiting values of a stream received from `c` times. */
  lemma {:induction false} DrainAt<T>(pending: seq<seq<T>>, picks: seq<nat>, i: nat)
    requires Available(pending, picks) && i < |pending|
    ensures Count(picks, i) <= |pending[i]|
    ensures Drain(pending, picks)[i] == pending[i][Count(picks, i)..]
    decreases |picks|
  {
    if picks != [] {
      var pre, j := Init(picks), Last(picks);
      DrainAt(pending, pre, i);
      assert picks == pre + [j];
      assert Count(picks, i) == Count(pre, i) + if i == j then 1 else 0;
    }
  }

  /** No key is ever removed, and only the streams' names are added. */
  lemma {:induction false} GatherKeys<T>(names: seq<Keyword>, next: Object<T>, pending: seq<seq<T>>, picks: seq<nat>)
    requires |pending| == |names| && Available(pending, picks)
    ensures next.Keys <= Gather(names, next, pending, picks).Keys <= next.Keys + (NameSet(names))
    decreases |picks|
  {
    if picks != [] {
      GatherKeys(names, next, pending, Init(picks));
    }
  }

  /**
   * What receiving from `picks` does to one name: a stream received from `c`
   * times holds the `c`-th value it handed over (later arrivals overwrite
   * earlier ones); a stream not received from keeps its entry, or its absence.
   */
  lemma {:induction false} GatherAt<T>(names: seq<Keyword>, next: Object<T>, pending: seq<seq<T>>, picks: seq<nat>, i: nat)
    requires Distinct(names) && |pending| == |names| && Available(pending, picks) && i < |names|
    ensures Count(picks, i) == 0 ==> (names[i] in Gather(names, next, pending, picks) <==> names[i] in next)
    ensures Count(picks, i) == 0 && names[i] in next ==> Gather(names, next, pending, picks)[names[i]] == next[names[i]]
    ensures Count(picks, i) > 0 ==>
      && Count(picks, i) <= |pending[i]|
      && names[i] in Gather(names, next, pending, picks)
      && Gather(names, next, pending, picks)[names[i]] == pending[i][Count(picks, i) - 1]
    decreases |picks|
  {
    DrainAt(pending, picks, i);
    if picks != [] {
      var pre, j := Init(picks), Last(picks);
      GatherAt(names, next, pending, pre, i);
      assert picks == pre + [j];
      if i == j {
        assert Count(picks, i) == Count(pre, i) + 1;
        DrainAt(pending, pre, i);
      } else {
        assert Count(picks, i) == Count(pre, i);
        assert names[i] != names[j];
      }
    }
  }

  /** No name is missing exactly when every name is a key. */
  lemma {:induction false} MissingNone(names: seq<Keyword>, present: set<Keyword>)
    ensures Missing(names, present, |names|) == [] <==> NameSet(names) <= present
  {
    forall i | 0 <= i < |names|
      ensures Count(Missing(names, present, |names|), i) == if names[i] !in present then 1 else 0
    {
      CountMissing(names, present, |names|, i);
    }
    if Missing(names, present, |names|) != [] {
      var m := Missing(names, present, |names|);
      assert names[m[0]] !in present;
    } else {
      forall x | x in NameSet(names) ensures x in present {
        var i :| 0 <= i < |names| && names[i] == x;
        assert Count([], i) == 0;
      }
    }
  }

  /** Distinct names and keys among them: there are as many keys as names exactly when no name is missing. */
  lemma ReadyIff(names: seq<Keyword>, keys: set<Keyword>)
    requires Distinct(names) && keys <= NameSet(names)
    ensures |keys| == |names| <==> NameSet(names) <= keys
  {
    DistinctCard(names);
    var all := NameSet(names);
    if all <= keys {
      assert keys == all;
    } else {
      var x :| x in all && x !in keys;
      var rest := all - {x};
      assert keys <= rest;
      SubsetCard(keys, rest);
    }
  }

  lemma SubsetCard(a: set<Keyword>, b: set<Keyword>)
    requires a <= b
    ensures |a| <= |b|
  {
    assert b == a + (b - a);
  }

  /** Phase one waits once on each stream whose name is missing, and on no other. */
  lemma {:induction false} CountMissing(names: seq<Keyword>, present: set<Keyword>, n: nat, i: nat)
    requires n <= |names|
    ensures Count(Missing(names, present, n), i) == if i < n && names[i] !in present then 1 else 0
    decreases n
  {
    if n > 0 {
      var before := Missing(names, present, n - 1);
      if names[n - 1] !in present {
        assert Init(before + [n - 1]) == before;
      } else {
        assert Missing(names, present, n) == before;
      }
      CountMissing(names, present, n - 1, i);
    }
  }

  /** After phase one a name that was present keeps its value and a missing one holds its stream's first value. */
  lemma MissingFilledAt<T>(names: seq<Keyword>, obj: Object<T>, pending: seq<seq<T>>, i: nat)
    requires Distinct(names) && |pending| == |names| && i < |names|
    requires Available(pending, Missing(names, obj.Keys, |names|))
    ensures names[i] in Gather(names, obj, pending, Missing(names, obj.Keys, |names|))
    ensures names[i] in obj ==> Gather(names, obj, pending, Missing(names, obj.Keys, |names|))[names[i]] == obj[names[i]]
    ensures names[i] !in obj ==>
      pending[i] != [] && Gather(names, obj, pending, Missing(names, obj.Keys, |names|))[names[i]] == pending[i][0]
  {
    CountMissing(names, obj.Keys, |names|, i);
    GatherAt(names, obj, pending, Missing(names, obj.Keys, |names|), i);
  }

  /** After phase one every name has an entry, and nothing else does. */
  lemma MissingFilled<T>(names: seq<Keyword>, obj: Object<T>, pending: seq<seq<T>>)
    requires Distinct(names) && |pending| == |names| && obj.Keys <= NameSet(names)
    requires Available(pending, Missing(names, obj.Keys, |names|))
    ensures Gather(names, obj, pending, Missing(names, obj.Keys, |names|)).Keys == NameSet(names)
  {
    var m := Missing(names, obj.Keys, |names|);
    GatherKeys(names, obj, pending, m);
    forall i | 0 <= i < |names| ensures names[i] in Gather(names, obj, pending, m) {
      MissingFilledAt(names, obj, pending, i);
    }
  }

  /** The error `Close` reports for the close results `results` of the streams, numbered like `names`. */
  function CloseFailures(names: seq<Keyword>, results: seq<Option<Error>>): (fs: seq<Error>)
    requires |results| == |names|
    ensures |fs| <= |results|
    ensures fs == [] <==> forall i :: 0 <= i < |results| ==> results[i].None?
    decreases |names|
  {
    if names == [] then []
    else
      var rest := CloseFailures(names[1..], results[1..]);
      assert forall i :: 1 <= i < |results| ==> results[i] == results[1..][i - 1];
      if results[0].Some? then [CloseFailure(names[0], results[0].value)] + rest else rest
  }

  /** The close failure `e` of the stream `name`, labelled "close stream <name>: <error>". */
  function CloseFailure(name: Keyword, e: Error): Error {
    Wrapped("close stream " + name, e)
  }

  /** Collecting the failures of two runs of streams, one after the other. */
  lemma {:induction false} CloseFailuresAppend(n1: seq<Keyword>, r1: seq<Option<Error>>, n2: seq<Keyword>, r2: seq<Option<Error>>)
    requires |n1| == |r1| && |n2| == |r2|
    ensures CloseFailures(n1 + n2, r1 + r2) == CloseFailures(n1, r1) + CloseFailures(n2, r2)
    decreases |n1|
  {
    if n1 == [] {
      assert n1 + n2 == n2 && r1 + r2 == r2;
    } else {
      assert (n1 + n2)[0] == n1[0] && (r1 + r2)[0] == r1[0];
      assert (n1 + n2)[1..] == n1[1..] + n2 && (r1 + r2)[1..] == r1[1..] + r2;
      CloseFailuresAppend(n1[1..], r1[1..], n2, r2);
    }
  }

  /**
   * `Close` reports the failing streams in stream order, each labelled with
   * its own name: the j-th failure reported is that of the j-th failing stream.
   */
  lemma {:induction false} CloseFailuresInOrder(names: seq<Keyword>, results: seq<Option<Error>>)
    requires |results| == |names|
    ensures var idx := Positions(results, true);
      && |CloseFailures(names, results)| == |idx|
      && forall j :: 0 <= j < |idx| ==>
           results[idx[j]].Some? && CloseFailures(names, results)[j] == CloseFailure(names[idx[j]], results[idx[j]].value)
    decreases |names|
  {
    if names != [] {
      var k := |names| - 1;
      var ni, ri := names[..k], results[..k];
      CloseFailuresSnoc(names, results);
      CloseFailuresInOrder(ni, ri);
      var idx0 := Positions(ri, true);
      var idx := Positions(results, true);
      PositionsSnoc(ri, results[k], true);
      assert results == ri + [results[k]];
      PositionsExact(results, true);
      forall j | 0 <= j < |idx|
        ensures results[idx[j]].Some? && CloseFailures(names, results)[j] == CloseFailure(names[idx[j]], results[idx[j]].value)
      {
        if j < |idx0| {
          assert ni[idx0[j]] == names[idx0[j]] && ri[idx0[j]] == results[idx0[j]];
        }
      }
    }
  }

  /** The failures of all streams but the last, then the last one's. */
  lemma {:induction false} CloseFailuresSnoc(names: seq<Keyword>, results: seq<Option<Error>>)
    requires |results| == |names| && names != []
    ensures var k := |names| - 1;
      CloseFailures(names, results)
        == CloseFailures(names[..k], results[..k]) + (if results[k].Some? then [CloseFailure(names[k], results[k].value)] else [])
  {
    var k := |names| - 1;
    var n1, r1 := [names[k]], [results[k]];
    assert n1[1..] == [] && r1[1..] == [];
    assert CloseFailures(n1[1..], r1[1..]) == [];
    assert CloseFailures(n1, r1) == (if results[k].Some? then [CloseFailure(names[k], results[k].value)] else []);
    assert names == names[..k] + n1 && results == results[..k] + r1;
    CloseFailuresAppend(names[..k], results[..k], n1, r1);
  }

  class Aggregated<T> {
    const names: seq<Keyword>
    var next: Object<T>
    var pending: seq<seq<T>>  // per stream: values its goroutine has pulled and not yet handed over
    var stopped: seq<bool>    // per stream: its goroutine has returned

    ghost predicate Valid()
      reads this
    {
      && Distinct(names)
      && |pending| == |names| && |stopped| == |names|
      && next.Keys <= NameSet(names)
      && forall i :: 0 <= i < |pending| ==> |pending[i]| <= 1
    }

    /** `Aggregate(streams)`: an empty working object and nothing received yet. */
    constructor (names: seq<Keyword>)
      requires Distinct(names)
      ensures Valid() && this.names == names && next == map[]
      ensures pending == seq(|names|, _ => []) && stopped == seq(|names|, _ => false)
    {
      this.names := names;
      next := map[];
      pending := seq(|names|, _ => []);
      stopped := seq(|names|, _ => false);
    }

    /**
     * One round of `update` for stream `i`: its pull returned `pulled`; an
     * error ends the goroutine and is dropped, and so is a value whose
     * hand-over loses to a cancelled context. Nothing happens once stopped.
     * The goroutine pulls again only after its previous value was received.
     */
    method Update(i: nat, pulled: Result<T>, cancelled: bool)
      requires Valid() && i < |names| && pending[i] == []
      modifies this
      ensures Valid() && next == old(next)
      ensures old(stopped[i]) ==> pending == old(pending) && stopped == old(stopped)
      ensures !old(stopped[i]) && (pulled.Err? || cancelled) ==>
        pending == old(pending) && stopped == old(stopped)[i := true]
      ensures !old(stopped[i]) && pulled.Ok? && !cancelled ==>
        pending == old(pending)[i := old(pending[i]) + [pulled.value]] && stopped == old(stopped)
    {
      if stopped[i] {
        return;
      }
      if pulled.Err? || cancelled {
        stopped := stopped[i := true];
        return;
      }
      pending := pending[i := pending[i] + [pulled.value]];
    }

    /** `Aggregated.ready`: one entry per stream. */
    predicate Ready()
      reads this
    {
      |next| == |names|
    }

    /**
     * `Aggregated.Next`. While some name has no entry, wait on each missing
     * stream in turn and return as soon as every name has one. After that,
     * receive whatever the schedule delivers and return the updated object;
     * the blocking receive of `Blocked` has no done case, so cancellation
     * cannot end it. A call that would wait forever has not returned, so the
     * schedule must be one that lets it return. The default case fires only
     * when no receive is ready, so a batch takes every waiting value, and the
     * select blocks only when nothing at all is waiting.
     */
    method Next(sched: Schedule) returns (r: Result<Object<T>>)
      requires Valid()
      requires !sched.Interrupt? && Missing(names, next.Keys, |names|) != [] ==>
        Available(pending, Missing(names, next.Keys, |names|))
      requires !sched.Interrupt? && Missing(names, next.Keys, |names|) == [] ==>
        Picks(sched) != [] && Available(pending, Picks(sched))
      requires sched.Batch? && Missing(names, next.Keys, |names|) == [] ==> Exhausts(pending, sched.picks)
      requires sched.Blocked? && Missing(names, next.Keys, |names|) == [] ==>
        forall i :: 0 <= i < |names| && i != sched.pick ==> pending[i] == []
      modifies this
      ensures Valid() && stopped == old(stopped) && old(next).Keys <= next.Keys
      ensures sched.Interrupt? ==> r == Err(StreamInterrupted) && next == old(next) && pending == old(pending)
      ensures var m := Missing(names, old(next).Keys, |names|);
        !sched.Interrupt? && m != [] ==>
          && r == Ok(next)
          && next == Gather(names, old(next), old(pending), m) && pending == Drain(old(pending), m)
          && next.Keys == NameSet(names) && Ready()
      ensures var m := Missing(names, old(next).Keys, |names|);
        !sched.Interrupt? && m == [] ==>
          && r == Ok(next)
          && next == Gather(names, old(next), old(pending), Picks(sched))
          && pending == Drain(old(pending), Picks(sched))
      ensures var m := Missing(names, old(next).Keys, |names|);
        !sched.Interrupt? && m == [] ==>
          && old(next).Keys == NameSet(names) && next.Keys == NameSet(names)
          && forall i :: 0 <= i < |names| ==>
               && pending[i] == []
               && next[names[i]] == if old(pending[i]) != [] then old(pending[i])[0] else old(next)[names[i]]
    {
      var first := WaitMissing(sched.Interrupt?);
      if first.Some? {
        return first.value;
      }
      if sched.Interrupt? {
        return Err(StreamInterrupted);
      }
      if sched.Blocked? {
        assert Exhausts(pending, Picks(sched));
      }
      ghost var next0, pending0 := next, pending;
      ReceiveAll(Picks(sched));
      LaterResultFoldsEveryArrival(names, next0, pending0, Picks(sched));
      MissingNone(names, next0.Keys);
      GatherKeys(names, next0, pending0, Picks(sched));
      r := Ok(next);
    }

    /**
     * The first loop of `Aggregated.Next`: for each name without an entry, in
     * order, receive from its stream; the object is returned once every name
     * has one, which is after the last missing name. `None` when no name was
     * missing; a done context stops it at the first missing name.
     */
    method WaitMissing(interrupted: bool) returns (r: Option<Result<Object<T>>>)
      requires Valid()
      requires !interrupted ==> Available(pending, Missing(names, next.Keys, |names|))
      modifies this
      ensures Valid() && stopped == old(stopped)
      ensures var m := Missing(names, old(next).Keys, |names|);
        && (m == [] ==> r.None? && next == old(next) && pending == old(pending))
        && (m != [] && interrupted ==> r == Some(Err(StreamInterrupted)) && next == old(next) && pending == old(pending))
        && (m != [] && !interrupted ==>
             && r == Some(Ok(next))
             && next == Gather(names, old(next), old(pending), m) && pending == Drain(old(pending), m)
             && next.Keys == NameSet(names) && Ready())
    {
      var missing := Missing(names, next.Keys, |names|);
      if missing == [] {
        return None;
      }
      if interrupted {
        return Some(Err(StreamInterrupted));
      }
      ghost var next0 := next;
      ReceiveAll(missing);
      MissingFilled(names, next0, old(pending));
      ReadyIff(names, next.Keys);
      assert |next| == |next.Keys|;
      r := Some(Ok(next));
    }

    /** One receive: the next waiting value of stream `i` is stored under its name, in a fresh object. */
    method Take(i: nat)
      requires Valid() && i < |names| && pending[i] != []
      modifies this
      ensures Valid() && stopped == old(stopped)
      ensures next == old(next)[names[i] := old(pending[i][0])]
      ensures pending == old(pending)[i := old(pending[i][1..])]
    {
      var updated := Clone(next);
      updated := updated[names[i] := pending[i][0]];
      next := updated;
      pending := pending[i := pending[i][1..]];
    }

    /** The second loop of `Aggregated.Next`: receive from `picks` in order, each value under its name. */
    method ReceiveAll(picks: seq<nat>)
      requires Valid() && Available(pending, picks)
      modifies this
      ensures Valid() && stopped == old(stopped)
      ensures next == Gather(names, old(next), old(pending), picks) && pending == Drain(old(pending), picks)
      ensures old(next).Keys <= next.Keys
    {
      var k := 0;
      assert picks[..0] == [];
      while k < |picks|
        invariant 0 <= k <= |picks| && Valid() && stopped == old(stopped)
        invariant Available(old(pending), picks[..k])
        invariant next == Gather(names, old(next), old(pending), picks[..k])
        invariant pending == Drain(old(pending), picks[..k])
        invariant old(next).Keys <= next.Keys
      {
        AvailablePrefix(old(pending), picks, k + 1);
        assert Init(picks[..k + 1]) == picks[..k] && Last(picks[..k + 1]) == picks[k];
        Take(picks[k]);
        k := k + 1;
      }
      assert picks[..k] == picks;
    }

    /** `Aggregated.Close`: closes every stream and reports the failures together, or nothing. */
    method Close(results: seq<Option<Error>>) returns (err: Option<Error>)
      requires Valid() && |results| == |names|
      ensures err.None? <==> forall i :: 0 <= i < |results| ==> results[i].None?
      ensures err.Some? ==> err.value == Joined(CloseFailures(names, results))
    {
      var fs: seq<Error> := [];
      var i := |names|;
      while i > 0
        invariant 0 <= i <= |names|
        invariant fs == CloseFailures(names[i..], results[i..])
      {
        i := i - 1;
        assert names[i..][1..] == names[i + 1..] && results[i..][1..] == results[i + 1..];
        if results[i].Some? {
          fs := [CloseFailure(names[i], results[i].value)] + fs;
        }
      }
      assert names[0..] == names && results[0..] == results;
      err := if fs == [] then None else Some(Joined(fs));
    }
  }

  /**
   * The first object `Next` returns has exactly one entry per stream, holding
   * the first value that stream delivered (when nothing had been received
   * before).
   */
  lemma FirstResultComplete<T>(names: seq<Keyword>, pending: seq<seq<T>>)
    requires Distinct(names) && |pending| == |names|
    requires Available(pending, Missing(names, {}, |names|))
    ensures var o := Gather(names, map[], pending, Missing(names, {}, |names|));
      && o.Keys == NameSet(names)
      && forall i :: 0 <= i < |names| ==> pending[i] != [] && o[names[i]] == pending[i][0]
  {
    var empty: Object<T> := map[];
    assert empty.Keys == {};
    MissingFilled(names, empty, pending);
    forall i | 0 <= i < |names|
      ensures pending[i] != [] && Gather(names, empty, pending, Missing(names, {}, |names|))[names[i]] == pending[i][0]
    {
      MissingFilledAt(names, empty, pending, i);
    }
  }

  /**
   * A later result folds in at least one new arrival: the stream received
   * from last has its name set to a value it handed over, and its queue is
   * shorter than before.
   */
  lemma LaterResultFoldsArrival<T>(names: seq<Keyword>, next: Object<T>, pending: seq<seq<T>>, sched: Schedule)
    requires Distinct(names) && |pending| == |names|
    requires Picks(sched) != [] && Available(pending, Picks(sched))
    ensures var ps := Picks(sched); var j := Last(ps);
      && j < |names| && 1 <= Count(ps, j) <= |pending[j]|
      && Gather(names, next, pending, ps)[names[j]] == pending[j][Count(ps, j) - 1]
      && |Drain(pending, ps)[j]| < |pending[j]|
  {
    var ps := Picks(sched);
    var j := Last(ps);
    assert Count(ps, j) == Count(Init(ps), j) + 1;
    GatherAt(names, next, pending, ps, j);
    DrainAt(pending, ps, j);
  }

  /**
   * A later result folds in every arrival: when the batch takes each waiting
   * value (each queue holding at most one), every stream with a value waiting
   * has its name set to that value, every other name keeps its entry, and no
   * value is left waiting.
   */
  lemma LaterResultFoldsEveryArrival<T>(names: seq<Keyword>, next: Object<T>, pending: seq<seq<T>>, ps: seq<nat>)
    requires Distinct(names) && |pending| == |names| && forall i :: 0 <= i < |pending| ==> |pending[i]| <= 1
    requires Available(pending, ps) && Exhausts(pending, ps)
    ensures forall i :: 0 <= i < |names| ==> Drain(pending, ps)[i] == []
    ensures forall i :: 0 <= i < |names| && pending[i] != [] ==>
      names[i] in Gather(names, next, pending, ps) && Gather(names, next, pending, ps)[names[i]] == pending[i][0]
    ensures forall i :: 0 <= i < |names| && pending[i] == [] ==>
      && (names[i] in Gather(names, next, pending, ps) <==> names[i] in next)
      && (names[i] in next ==> Gather(names, next, pending, ps)[names[i]] == next[names[i]])
  {
    forall i | 0 <= i < |names|
      ensures Drain(pending, ps)[i] == []
      ensures pending[i] != [] ==>
        names[i] in Gather(names, next, pending, ps) && Gather(names, next, pending, ps)[names[i]] == pending[i][0]
      ensures pending[i] == [] ==>
        && (names[i] in Gather(names, next, pending, ps) <==> names[i] in next)
        && (names[i] in next ==> Gather(names, next, pending, ps)[names[i]] == next[names[i]])
    {
      CountIn(ps, i);
      DrainAt(pending, ps, i);
      GatherAt(names, next, pending, ps, i);
    }
  }
}
