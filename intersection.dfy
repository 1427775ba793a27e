/**
 * `Intersection` (concourse/stream.go): combines objects from several streams
 * into candidates and emits a candidate once every one of its keys has been
 * vouched for by as many objects as there are input streams.
 *
 * One goroutine per input stream (`spawn`) pulls objects and passes them to
 * `emit`; here each of its pulls is delivered by `Receive`. The unbuffered
 * output channel is the FIFO `out` of emitted objects not yet taken by `Next`.
 */
module Intersections {
  import opened Errors
  import opened Objects
  import opened Aggregations

  /** A partial intersection: the merged object, how many objects went into it, and per-key voucher counts. */
  datatype Candidate<T> = Candidate(value: Object<T>, streams: nat, vouchers: map<Keyword, nat>)

  /** No key present in both the candidate's value and `obj` has different values. */
  predicate Compatible<T(==)>(co: Object<T>, obj: Object<T>) {
    forall k :: k in co && k in obj ==> co[k] == obj[k]
  }

  /**
   * The voucher update of a merge: each of the candidate's pre-merge keys gets
   * one more voucher, or, if it had none, the new `streams` count.
   */
  function Vouch(vouchers: map<Keyword, nat>, keys: set<Keyword>, streams: nat): (r: map<Keyword, nat>)
    ensures r.Keys == vouchers.Keys + keys
    ensures forall k :: k in keys && k in vouchers ==> r[k] == vouchers[k] + 1
    ensures forall k :: k in keys && k !in vouchers ==> r[k] == streams
    ensures forall k :: k in vouchers && k !in keys ==> r[k] == vouchers[k]
  {
    map k | k in vouchers.Keys + keys ::
      if k in keys then (if k in vouchers then vouchers[k] + 1 else streams) else vouchers[k]
  }

  /** Merging a compatible object into a candidate. */
  function Merge<T>(c: Candidate<T>, obj: Object<T>): Candidate<T> {
    Candidate(Concat(c.value, obj), c.streams + 1, Vouch(c.vouchers, c.value.Keys, c.streams + 1))
  }

  /** The candidate started by an object no candidate was compatible with: one voucher per key. */
  function Fresh<T>(obj: Object<T>): (c: Candidate<T>)
    ensures c.value == obj && c.streams == 1
    ensures c.vouchers.Keys == obj.Keys && forall k :: k in c.vouchers ==> c.vouchers[k] == 1
  {
    Candidate(obj, 1, map k | k in obj :: 1)
  }

  predicate AnyCompatible<T(==)>(cands: seq<Candidate<T>>, obj: Object<T>) {
    exists i :: 0 <= i < |cands| && Compatible(cands[i].value, obj)
  }

  /** Every compatible candidate merged with `obj`, the others untouched. */
  function MergeAll<T(==)>(cands: seq<Candidate<T>>, obj: Object<T>): (r: seq<Candidate<T>>)
    ensures |r| == |cands|
  {
    seq(|cands|, i requires 0 <= i < |cands| =>
      if Compatible(cands[i].value, obj) then Merge(cands[i], obj) else cands[i])
  }

  /** The candidates after `obj` is offered: merged into every compatible one, or appended as a new one. */
  function Offered<T(==)>(cands: seq<Candidate<T>>, obj: Object<T>): seq<Candidate<T>> {
    if AnyCompatible(cands, obj) then MergeAll(cands, obj) else MergeAll(cands, obj) + [Fresh(obj)]
  }

  /** Every voucher count has reached the number of input streams. */
  predicate Complete<T>(c: Candidate<T>, width: nat) {
    forall k :: k in c.vouchers ==> c.vouchers[k] >= width
  }

  /** The first complete candidate at or after `from`. */
  function FirstComplete<T>(cands: seq<Candidate<T>>, width: nat, from: nat): (r: Option<nat>)
    requires from <= |cands|
    ensures r.Some? ==> from <= r.value < |cands| && Complete(cands[r.value], width)
    ensures r.Some? ==> forall j :: from <= j < r.value ==> !Complete(cands[j], width)
    ensures r.None? ==> forall j :: from <= j < |cands| ==> !Complete(cands[j], width)
    decreases |cands| - from
  {
    if from == |cands| then None
    else if Complete(cands[from], width) then Some(from)
    else FirstComplete(cands, width, from + 1)
  }

  /** The candidates after a call of `emit`, and the object it sent, if any. */
  datatype Emission<T> = Emission(candidates: seq<Candidate<T>>, sent: Option<Object<T>>)

  /**
   * One call of `emit`: the candidates afterwards and the object sent, if any.
   * The first complete candidate is sent, and it is dropped together with
   * every candidate before it.
   */
  function EmitStep<T(==)>(cands: seq<Candidate<T>>, obj: Object<T>, width: nat): Emission<T> {
    var offered := Offered(cands, obj);
    match FirstComplete(offered, width, 0)
    case None => Emission(offered, None)
    case Some(i) => Emission(offered[i + 1..], Some(offered[i].value))
  }

  /** What a candidate keeps: at least one object, vouchers only for its keys, each between 1 and its object count. */
  predicate Sound<T>(c: Candidate<T>) {
    && c.streams >= 1
    && c.vouchers.Keys <= c.value.Keys
    && forall k :: k in c.vouchers ==> 1 <= c.vouchers[k] <= c.streams
  }

  /** The state of one `spawn` goroutine. */
  datatype Feed = Running | Ended | Failed

  /** How many input streams are in state `f`. */
  function Tally(feeds: seq<Feed>, f: Feed): (n: nat)
    ensures n <= |feeds|
  {
    if feeds == [] then 0 else (if feeds[0] == f then 1 else 0) + Tally(feeds[1..], f)
  }

  /** Moving one running stream to state `f` adds one to the tally of `f` and leaves the others. */
  lemma {:induction false} TallyUpdate(feeds: seq<Feed>, i: nat, f: Feed, g: Feed)
    requires i < |feeds| && feeds[i] == Running && g != Running
    ensures Tally(feeds[i := f], g) == Tally(feeds, g) + (if f == g then 1 else 0)
    decreases |feeds|
  {
    if i > 0 {
      assert feeds[i := f][1..] == feeds[1..][i - 1 := f];
      TallyUpdate(feeds[1..], i - 1, f, g);
    }
  }

  /** The case a select of `Intersection.Next` takes. */
  datatype Choice = FromOutput | FromDone | FromDead | FromErrs

  /** The labels of the input streams in `Close`'s messages: their positions, in decimal. */
  function StreamLabels(n: nat): (labels: seq<Keyword>)
    ensures |labels| == n
    ensures forall i :: 0 <= i < n ==> labels[i] == NatToString(i)
  {
    seq(n, i requires 0 <= i => NatToString(i))
  }

  /**
   * The error `Intersection.Close` evidently means to return: nil when every
   * input stream closed cleanly, otherwise one multi-error holding
   * "close stream <i>: <error>" for each failing stream, in stream order.
   */
  function CloseError(results: seq<Option<Error>>): (err: Option<Error>)
    ensures err.None? <==> forall i :: 0 <= i < |results| ==> results[i].None?
    ensures err.Some? ==> err.value == Joined(CloseFailures(StreamLabels(|results|), results))
  {
    var fs := CloseFailures(StreamLabels(|results|), results);
    if fs == [] then None else Some(Joined(fs))
  }

  /**
   * The loop of `Intersection.Close` as written: the error built for a failing
   * stream goes to a variable declared inside the loop, so the returned
   * variable `err` keeps its initial nil whatever the streams report.
   */
  function CloseErrorAsWritten(results: seq<Option<Error>>, i: nat, err: Option<Error>): (r: Option<Error>)
    requires i <= |results|
    ensures r == err
    decreases |results| - i
  {
    if i == |results| then err
    else
      var shadow := results[i];
      var _ := if shadow.Some? then Some(Joined([shadow.value, Wrapped("close stream " + NatToString(i), shadow.value)])) else shadow;
      CloseErrorAsWritten(results, i + 1, err)
  }

  /** A stream that fails to close: the written loop reports nothing, the intended error reports it. */
  lemma {:induction false} CloseErrorLost(e: Error)
    ensures CloseErrorAsWritten([None, Some(e)], 0, None) == None
    ensures CloseError([None, Some(e)]) == Some(Joined([Wrapped("close stream 1", e)]))
  {
    var labels := StreamLabels(2);
    var results := [None, Some(e)];
    assert labels[1..] == ["1"] && results[1..] == [Some(e)];
    var one: seq<Keyword> := ["1"];
    assert one[1..] == [] && [Some(e)][1..] == [];
    assert CloseFailures(one[1..], [Some(e)][1..]) == [];
    assert CloseFailures(one, [Some(e)]) == [Wrapped("close stream " + one[0], e)] + [];
    assert "close stream " + one[0] == "close stream 1";
    assert labels[1..] == one;
    assert CloseFailures(labels, results) == CloseFailures(labels[1..], results[1..]);
    assert CloseFailures(labels, results) == [Wrapped("close stream 1", e)];
    assert CloseError(results) == Some(Joined(CloseFailures(labels, results)));
  }

  class Intersection<T(==)> {
    const width: nat                  // the number of input streams
    var candidates: seq<Candidate<T>>
    var out: seq<Object<T>>           // objects sent on the output channel and not yet received
    var outClosed: bool               // `Close` has closed the output channel
    var crashed: bool                 // a send met the closed output channel, which panics
    ghost var sending: Option<nat>    // the stream whose goroutine is blocked in `emit`'s send, holding the lock
    var live: int
    var dead: bool
    var errs: seq<Error>
    var feeds: seq<Feed>

    ghost predicate Valid()
      reads this
    {
      && |feeds| == width
      && live == width - Tally(feeds, Ended)
      && (dead <==> width > 0 && live == 0)
      && |errs| <= Tally(feeds, Failed)
      // the output channel is unbuffered: one sender at most, blocked while it holds the candidates' lock
      && |out| <= 1 && (outClosed ==> out == [])
      && (sending.Some? <==> out != [])
      && (sending.Some? ==> sending.value < width && feeds[sending.value] == Running)
      && (dead ==> out == [])
      && forall i :: 0 <= i < |candidates| ==> Sound(candidates[i])
    }

    /** `Intersect` over a number of streams other than one (one stream is returned as it is). */
    constructor (width: nat)
      requires width != 1
      ensures Valid() && this.width == width
      ensures candidates == [] && out == [] && errs == [] && live == width && !dead && !outClosed && !crashed
      ensures sending == None
      ensures feeds == seq(width, _ => Running)
    {
      this.width := width;
      candidates := [];
      out := [];
      outClosed := false;
      crashed := false;
      live := width;
      dead := false;
      errs := [];
      feeds := seq(width, _ => Running);
      sending := None;
      new;
      NoneEnded(width, Ended);
      NoneEnded(width, Failed);
    }

    /**
     * One round of `spawn` for stream `i`, whose pull returned `pulled`: an
     * object is emitted; an end of stream (possibly wrapped) decrements
     * `live` and closes `dead` at zero; any other error is sent on `errs`.
     * The goroutine stops after an error. `emit` sends while it holds the
     * candidates' lock, so the goroutine blocked in that send (`sending`)
     * pulls nothing more, and no other object is emitted, until `Next`
     * receives the object in flight.
     */
    method Receive(i: nat, pulled: Result<Object<T>>)
      requires Valid() && i < width && feeds[i] == Running && sending != Some(i)
      requires pulled.Ok? ==> out == []
      modifies this
      ensures Valid() && outClosed == old(outClosed)
      ensures pulled.Ok? ==>
        && candidates == EmitStep(old(candidates), pulled.value, width).candidates
        && feeds == old(feeds) && live == old(live) && errs == old(errs)
      ensures pulled.Ok? ==> var sent := EmitStep(old(candidates), pulled.value, width).sent;
        && (sent.None? ==> out == [] && crashed == old(crashed) && sending == None)
        && (sent.Some? && !outClosed ==> out == [sent.value] && crashed == old(crashed) && sending == Some(i))
        && (sent.Some? && outClosed ==> out == [] && crashed && sending == None)
      ensures pulled.Err? && IsEndOfStream(pulled.error) ==>
        && feeds == old(feeds)[i := Ended] && live == old(live) - 1 && (dead <==> live == 0)
        && errs == old(errs) && candidates == old(candidates) && out == old(out) && sending == old(sending)
      ensures pulled.Err? && !IsEndOfStream(pulled.error) ==>
        && feeds == old(feeds)[i := Failed] && errs == old(errs) + [pulled.error] && live == old(live)
        && candidates == old(candidates) && out == old(out) && sending == old(sending)
    {
      if pulled.Ok? {
        Emit(pulled.value, i);
        return;
      }
      if IsEndOfStream(pulled.error) {
        TallyUpdate(feeds, i, Ended, Ended);
        TallyUpdate(feeds, i, Ended, Failed);
        feeds := feeds[i := Ended];
        live := live - 1;
        if sending.Some? {
          TallyMissing(feeds, sending.value, Ended);
        }
        if live == 0 {
          dead := true;
        }
        return;
      }
      TallyUpdate(feeds, i, Failed, Ended);
      TallyUpdate(feeds, i, Failed, Failed);
      feeds := feeds[i := Failed];
      errs := errs + [pulled.error];
    }

    /**
     * `Intersection.emit`: merge `obj` into every compatible candidate (or
     * start a new one), then send the first complete candidate and drop it
     * and every candidate before it. A send on the closed channel panics.
     * The caller is the goroutine of stream `from`, which takes the lock, so
     * no other send is in flight; a send leaves it blocked until `Next`.
     */
    method Emit(obj: Object<T>, ghost from: nat)
      requires Valid() && out == [] && from < width && feeds[from] == Running
      modifies this
      ensures Valid()
      ensures candidates == EmitStep(old(candidates), obj, width).candidates
      ensures var sent := EmitStep(old(candidates), obj, width).sent;
        && (sent.None? ==> out == [] && crashed == old(crashed) && sending == None)
        && (sent.Some? && !outClosed ==> out == [sent.value] && crashed == old(crashed) && sending == Some(from))
        && (sent.Some? && outClosed ==> out == [] && crashed && sending == None)
      ensures outClosed == old(outClosed) && feeds == old(feeds) && live == old(live) && dead == old(dead)
      ensures errs == old(errs)
    {
      OfferObject(obj);
      SendFirstComplete(from);
    }

    /** The first loop of `emit`: merge `obj` into every compatible candidate, or start a new candidate. */
    method OfferObject(obj: Object<T>)
      requires Valid()
      modifies this
      ensures Valid() && candidates == Offered(old(candidates), obj)
      ensures out == old(out) && crashed == old(crashed) && outClosed == old(outClosed) && sending == old(sending)
      ensures feeds == old(feeds) && live == old(live) && dead == old(dead) && errs == old(errs)
    {
      var cands, anyCompatible := MergeEach(candidates, obj);
      if !anyCompatible {
        var started := Fresh(obj);
        cands := cands + [started];
      }
      OfferedSound(candidates, obj);
      candidates := cands;
    }

    /** The merge loop of `emit` over a copy of the candidates; it reports whether any was compatible. */
    static method MergeEach(cands0: seq<Candidate<T>>, obj: Object<T>) returns (cands: seq<Candidate<T>>, anyCompatible: bool)
      ensures cands == MergeAll(cands0, obj)
      ensures anyCompatible <==> AnyCompatible(cands0, obj)
    {
      cands := cands0;
      anyCompatible := false;
      var i := 0;
      while i < |cands0|
        invariant 0 <= i <= |cands0| == |cands|
        invariant forall j :: 0 <= j < i ==> cands[j] == MergeAll(cands0, obj)[j]
        invariant forall j :: i <= j < |cands0| ==> cands[j] == cands0[j]
        invariant anyCompatible <==> exists j :: 0 <= j < i && Compatible(cands0[j].value, obj)
      {
        var c := cands0[i];
        var compatible := CompatibleWith(c.value, obj);
        if compatible {
          anyCompatible := true;
          var vouchers := VouchFor(c.vouchers, c.value.Keys, c.streams + 1);
          cands := cands[i := Candidate(Concat(c.value, obj), c.streams + 1, vouchers)];
        }
        i := i + 1;
      }
    }

    /** The second loop of `emit`: send the first complete candidate and drop it and all before it. */
    method SendFirstComplete(ghost from: nat)
      requires Valid() && out == [] && from < width && feeds[from] == Running
      modifies this
      ensures Valid()
      ensures var first := FirstComplete(old(candidates), width, 0);
        && (first.None? ==> candidates == old(candidates) && out == [] && crashed == old(crashed) && sending == None)
        && (first.Some? ==> candidates == old(candidates)[first.value + 1..])
        && (first.Some? && !outClosed ==> out == [old(candidates)[first.value].value] && crashed == old(crashed) && sending == Some(from))
        && (first.Some? && outClosed ==> out == [] && crashed && sending == None)
      ensures outClosed == old(outClosed) && feeds == old(feeds) && live == old(live) && dead == old(dead)
      ensures errs == old(errs)
    {
      var i := 0;
      while i < |candidates|
        invariant 0 <= i <= |candidates|
        invariant FirstComplete(candidates, width, 0) == FirstComplete(candidates, width, i)
        invariant unchanged(this)
      {
        var allVouched := AllVouched(candidates[i].vouchers, width);
        if allVouched {
          break;
        }
        i := i + 1;
      }
      if i < |candidates| {
        if outClosed {
          crashed := true;
        } else {
          TallyMissing(feeds, from, Ended);
          out := [candidates[i].value];
          sending := Some(from);
        }
        candidates := candidates[i + 1..];
      }
    }

    /** The compatibility loop of `emit`: it stops at the first shared key with a different value. */
    static method CompatibleWith(co: Object<T>, obj: Object<T>) returns (compatible: bool)
      ensures compatible <==> Compatible(co, obj)
    {
      var keys := co.Keys;
      while keys != {}
        invariant keys <= co.Keys
        invariant forall k :: k in co && k !in keys && k in obj ==> co[k] == obj[k]
        decreases keys
      {
        var k :| k in keys;
        if k in obj && obj[k] != co[k] {
          return false;
        }
        keys := keys - {k};
      }
      return true;
    }

    /** The voucher loop of `emit`, over the candidate's pre-merge keys. */
    static method VouchFor(vouchers: map<Keyword, nat>, keys: set<Keyword>, streams: nat) returns (r: map<Keyword, nat>)
      ensures r == Vouch(vouchers, keys, streams)
    {
      r := vouchers;
      var todo := keys;
      while todo != {}
        invariant todo <= keys
        invariant r.Keys == vouchers.Keys + (keys - todo)
        invariant forall k :: k in r ==> r[k] == if k in keys - todo then (if k in vouchers then vouchers[k] + 1 else streams) else vouchers[k]
        decreases todo
      {
        var k :| k in todo;
        if k !in r {
          r := r[k := streams];
        } else {
          r := r[k := r[k] + 1];
        }
        todo := todo - {k};
      }
    }

    /** The completeness loop of `emit`: no voucher count below the number of input streams. */
    static method AllVouched(vouchers: map<Keyword, nat>, width: nat) returns (all: bool)
      ensures all <==> forall k :: k in vouchers ==> vouchers[k] >= width
    {
      all := true;
      var todo := vouchers.Keys;
      while todo != {}
        invariant todo <= vouchers.Keys
        invariant all <==> forall k :: k in vouchers && k !in todo ==> vouchers[k] >= width
        decreases todo
      {
        var k :| k in todo;
        if vouchers[k] < width {
          all := false;
        }
        todo := todo - {k};
      }
    }

    /** Which select cases are ready; the done case is the caller's choice to take. */
    predicate CanSelect(c: Choice)
      reads this
    {
      match c
      case FromOutput => out != [] || outClosed
      case FromDone => true
      case FromDead => dead
      case FromErrs => errs != []
    }

    /**
     * `Intersection.Next`: takes the chosen ready case; a closed and drained
     * output channel yields Go's zero value, the nil object.
     */
    method Next(c: Choice) returns (r: Result<Object<T>>)
      requires Valid() && CanSelect(c)
      modifies this
      ensures Valid() && candidates == old(candidates) && feeds == old(feeds) && live == old(live)
      ensures c == FromOutput && old(out) != [] ==> r == Ok(old(out)[0]) && out == [] && errs == old(errs) && sending == None
      ensures c == FromOutput && old(out) == [] ==> r == Ok(map[]) && out == [] && errs == old(errs) && sending == None
      ensures c == FromDone ==> r == Err(StreamInterrupted) && out == old(out) && errs == old(errs) && sending == old(sending)
      ensures c == FromDead ==> r == Err(EndOfStream) && out == old(out) && errs == old(errs) && sending == old(sending)
      ensures c == FromErrs ==> r == Err(old(errs)[0]) && errs == old(errs)[1..] && out == old(out) && sending == old(sending)
    {
      match c
      case FromOutput =>
        if out != [] {
          r := Ok(out[0]);
          out := [];
          sending := None;
        } else {
          r := Ok(map[]);
        }
      case FromDone => r := Err(StreamInterrupted);
      case FromDead => r := Err(EndOfStream);
      case FromErrs =>
        r := Err(errs[0]);
        errs := errs[1..];
    }

    /**
     * `Intersection.Close`: closes every input stream (their results are
     * `results`) and the output channel. The error built for a failing close
     * is assigned to a variable local to the loop, so nil is always returned
     * (`CloseErrorLost`; `CloseError` is what the method evidently means).
     * Senders still blocked on the output channel, or a second close, panic.
     */
    method Close(results: seq<Option<Error>>) returns (err: Option<Error>)
      requires Valid() && |results| == width
      modifies this
      ensures Valid() && outClosed && err == CloseErrorAsWritten(results, 0, None)
      ensures err == None
      ensures old(out) != [] || old(outClosed) ==> crashed
      ensures old(out) == [] && !old(outClosed) ==> crashed == old(crashed)
      ensures out == [] && sending == None
      ensures candidates == old(candidates) && errs == old(errs) && feeds == old(feeds)
    {
      err := None;
      var i := 0;
      while i < |results|
        invariant 0 <= i <= |results|
        invariant CloseErrorAsWritten(results, i, err) == CloseErrorAsWritten(results, 0, None)
        invariant unchanged(this)
      {
        var shadow := results[i];
        if shadow.Some? {
          shadow := Some(Joined([shadow.value, Wrapped("close stream " + NatToString(i), shadow.value)]));
        }
        i := i + 1;
      }
      if out != [] || outClosed {
        crashed := true;
        out := [];
        sending := None;
      }
      outClosed := true;
    }
  }

  /** A stream that is not in state `f` keeps the tally of `f` below the number of streams. */
  lemma {:induction false} TallyMissing(feeds: seq<Feed>, i: nat, f: Feed)
    requires i < |feeds| && feeds[i] != f
    ensures Tally(feeds, f) < |feeds|
    decreases |feeds|
  {
    if i > 0 {
      TallyMissing(feeds[1..], i - 1, f);
    }
  }

  /** Decimal digits of `n`, as `%d` prints it. */
  function NatToString(n: nat): (s: string)
    ensures |s| >= 1
    ensures forall i :: 0 <= i < |s| ==> '0' <= s[i] <= '9'
  {
    if n < 10 then ["0123456789"[n]] else NatToString(n / 10) + ["0123456789"[n % 10]]
  }

  lemma {:induction false} NoneEnded(n: nat, f: Feed)
    requires f != Running
    ensures Tally(seq(n, _ => Running), f) == 0
    decreases n
  {
    if n > 0 {
      assert seq(n, _ => Running)[1..] == seq(n - 1, _ => Running);
      NoneEnded(n - 1, f);
    }
  }

  /** Offering an object keeps every candidate sound. */
  lemma OfferedSound<T>(cands: seq<Candidate<T>>, obj: Object<T>)
    requires forall i :: 0 <= i < |cands| ==> Sound(cands[i])
    ensures forall i :: 0 <= i < |Offered(cands, obj)| ==> Sound(Offered(cands, obj)[i])
  {
  }

  /** A merged candidate holds both the candidate's entries and the object's. */
  lemma MergeExtendsBoth<T>(c: Candidate<T>, obj: Object<T>)
    requires Compatible(c.value, obj)
    ensures Extends(Merge(c, obj).value, c.value) && Extends(Merge(c, obj).value, obj)
  {
    ConcatOfAgreeing(c.value, obj);
  }

  /**
   * Offering an object never loses it: afterwards some candidate contains
   * it, and every candidate still contains the one it replaced.
   */
  lemma OfferedKeepsObject<T>(cands: seq<Candidate<T>>, obj: Object<T>)
    ensures |Offered(cands, obj)| == |cands| + (if AnyCompatible(cands, obj) then 0 else 1)
    ensures exists j :: 0 <= j < |Offered(cands, obj)| && Extends(Offered(cands, obj)[j].value, obj)
    ensures forall j :: 0 <= j < |cands| ==> Extends(Offered(cands, obj)[j].value, cands[j].value)
  {
    var r := Offered(cands, obj);
    forall j | 0 <= j < |cands|
      ensures Extends(r[j].value, cands[j].value)
    {
      if Compatible(cands[j].value, obj) {
        MergeExtendsBoth(cands[j], obj);
      }
    }
    if AnyCompatible(cands, obj) {
      var j :| 0 <= j < |cands| && Compatible(cands[j].value, obj);
      MergeExtendsBoth(cands[j], obj);
      assert Extends(r[j].value, obj);
    } else {
      assert Extends(r[|cands|].value, obj);
    }
  }

  /**
   * A complete candidate that has any voucher was merged from at least as
   * many objects as there are input streams.
   */
  lemma CompleteMeansEveryStream<T>(c: Candidate<T>, width: nat)
    requires Sound(c) && Complete(c, width) && c.vouchers != map[]
    ensures c.streams >= width
  {
    var k :| k in c.vouchers;
    assert width <= c.vouchers[k] <= c.streams;
  }

  /** One call of `emit` keeps every candidate sound. */
  lemma EmitStepSound<T>(cands: seq<Candidate<T>>, obj: Object<T>, width: nat)
    requires forall i :: 0 <= i < |cands| ==> Sound(cands[i])
    ensures var e := EmitStep(cands, obj, width);
      forall i :: 0 <= i < |e.candidates| ==> Sound(e.candidates[i])
  {
    OfferedSound(cands, obj);
  }

  /**
   * With two input streams, `{x: a}` from one and then `{y: b}` from the
   * other are merged and sent at once as `{x: a, y: b}`, leaving no candidate.
   */
  lemma TwoStreamsMeet<T>(x: Keyword, y: Keyword, a: T, b: T)
    requires x != y
    ensures var first := EmitStep([], map[x := a], 2);
      && first == Emission([Fresh(map[x := a])], None)
      && EmitStep(first.candidates, map[y := b], 2) == Emission([], Some(map[x := a, y := b]))
  {
    var o1: Object<T> := map[x := a];
    var o2: Object<T> := map[y := b];
    var c := Fresh(o1);
    assert !AnyCompatible([], o1);
    assert Offered([], o1) == [c];
    assert !Complete(c, 2) by { assert c.vouchers[x] == 1; }
    assert FirstComplete([c], 2, 0) == None;
    assert Compatible(c.value, o2);
    assert AnyCompatible([c], o2);
    var m := Merge(c, o2);
    assert Offered([c], o2) == [m];
    assert m.vouchers == map[x := 2];
    assert Complete(m, 2);
    assert FirstComplete([m], 2, 0) == Some(0);
    assert m.value == map[x := a, y := b];
  }

  /**
   * Objects that disagree on a key start separate candidates, and with two
   * input streams neither is sent.
   */
  lemma ConflictingObjectsStaySeparate<T>(x: Keyword, a: T, b: T)
    requires a != b
    ensures var first := EmitStep([], map[x := a], 2);
      EmitStep(first.candidates, map[x := b], 2) == Emission([Fresh(map[x := a]), Fresh(map[x := b])], None)
  {
    var o1: Object<T> := map[x := a];
    var o2: Object<T> := map[x := b];
    var c1, c2 := Fresh(o1), Fresh(o2);
    assert !AnyCompatible([], o1);
    assert Offered([], o1) == [c1];
    assert !Complete(c1, 2) by { assert c1.vouchers[x] == 1; }
    assert FirstComplete([c1], 2, 0) == None;
    assert !Compatible(c1.value, o2) by { assert c1.value[x] != o2[x]; }
    assert !AnyCompatible([c1], o2);
    assert Offered([c1], o2) == [c1, c2];
    assert !Complete(c2, 2) by { assert c2.vouchers[x] == 1; }
    assert FirstComplete([c1, c2], 2, 1) == None;
  }
}
