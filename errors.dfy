/** Errors as the stream engine and the build interpreter produce and inspect them. */
module Errors {

  datatype Option<+T> = None | Some(value: T)

  /** A Go `(value, error)` pair: either a value, or an error and no value. */
  datatype Result<+T> = Ok(value: T) | Err(error: Error)

  /**
   * The error values of the engine.
   * `Wrapped(context, cause)` is `fmt.Errorf("<context>: %w", cause)`,
   * `Joined(errs)` is the value of `errors.Join` (or a multierror) over the
   * non-nil `errs`, and `Failure(message)` is any error raised by code outside
   * the model (a check, a container exec, a loader).
   */
  datatype Error =
    | EndOfStream
    | StreamInterrupted
    | Failure(message: string)
    | Wrapped(context: string, cause: Error)
    | Joined(errs: seq<Error>)

  /** `errors.Is(e, ErrEndOfStream)`: `e` is, wraps, or joins an end of stream. */
  predicate IsEndOfStream(e: Error) {
    match e
    case EndOfStream => true
    case Wrapped(_, cause) => IsEndOfStream(cause)
    case Joined(errs) => exists i :: 0 <= i < |errs| && IsEndOfStream(errs[i])
    case _ => false
  }

  /** The non-nil errors of `errs`, in order. */
  function NonNil(errs: seq<Option<Error>>): (r: seq<Error>)
    ensures |r| <= |errs|
    ensures forall e :: e in r <==> Some(e) in errs
  {
    if errs == [] then []
    else (if errs[0].Some? then [errs[0].value] else []) + NonNil(errs[1..])
  }

  /**
   * The positions `i` of `errs` where `errs[i].Some?` is `present`, in
   * increasing order: the errors a filter keeps, or the slots it skips
   * (`PositionsExact`).
   */
  function Positions(errs: seq<Option<Error>>, present: bool): (idx: seq<nat>)
    ensures |idx| <= |errs|
    ensures forall j :: 0 <= j < |idx| ==> idx[j] < |errs|
    decreases |errs|
  {
    if errs == [] then []
    else
      var init := errs[..|errs| - 1];
      Positions(init, present) + (if errs[|errs| - 1].Some? == present then [|errs| - 1] else [])
  }

  /** `Positions` lists every matching slot, only matching slots, each once and in increasing order. */
  lemma {:induction false} PositionsExact(errs: seq<Option<Error>>, present: bool)
    ensures var idx := Positions(errs, present);
      && (forall j :: 0 <= j < |idx| ==> errs[idx[j]].Some? == present)
      && (forall j, k :: 0 <= j < k < |idx| ==> idx[j] < idx[k])
      && (forall i :: 0 <= i < |errs| && errs[i].Some? == present ==> i in idx)
    decreases |errs|
  {
    if errs != [] {
      var init := errs[..|errs| - 1];
      PositionsExact(init, present);
      assert forall i :: 0 <= i < |init| ==> init[i] == errs[i];
    }
  }

  /** One more slot adds its own position when it matches. */
  lemma {:induction false} PositionsSnoc(errs: seq<Option<Error>>, x: Option<Error>, present: bool)
    ensures Positions(errs + [x], present) == Positions(errs, present) + (if x.Some? == present then [|errs|] else [])
  {
    assert (errs + [x])[..|errs|] == errs;
  }

  /** `NonNil` keeps each non-nil error once, in order: the j-th one kept sits at the j-th non-nil position. */
  lemma {:induction false} NonNilInOrder(errs: seq<Option<Error>>)
    ensures var idx := Positions(errs, true);
      && |NonNil(errs)| == |idx|
      && forall j :: 0 <= j < |idx| ==> errs[idx[j]].Some? && NonNil(errs)[j] == errs[idx[j]].value
    decreases |errs|
  {
    if errs != [] {
      var init := errs[..|errs| - 1];
      var x := errs[|errs| - 1];
      assert errs == init + [x];
      NonNilAppend(init, [x]);
      assert [x][1..] == [];
      var last := if x.Some? then [x.value] else [];
      assert NonNil([x]) == last;
      NonNilInOrder(init);
      var idx0 := Positions(init, true);
      var idx := Positions(errs, true);
      PositionsSnoc(init, x, true);
      assert NonNil(errs) == NonNil(init) + last;
      PositionsExact(errs, true);
      forall j | 0 <= j < |idx|
        ensures errs[idx[j]].Some? && NonNil(errs)[j] == errs[idx[j]].value
      {
        if j < |idx0| {
          assert NonNil(errs)[j] == NonNil(init)[j];
          assert init[idx0[j]] == errs[idx0[j]];
        }
      }
    }
  }

  /** Filtering distributes over concatenation. */
  lemma {:induction false} NonNilAppend(a: seq<Option<Error>>, b: seq<Option<Error>>)
    ensures NonNil(a + b) == NonNil(a) + NonNil(b)
    decreases |a|
  {
    if a != [] {
      var h: seq<Error> := if a[0].Some? then [a[0].value] else [];
      assert (a + b)[0] == a[0];
      assert (a + b)[1..] == a[1..] + b;
      NonNilAppend(a[1..], b);
      calc {
        NonNil(a + b);
        h + NonNil(a[1..] + b);
        h + (NonNil(a[1..]) + NonNil(b));
        (h + NonNil(a[1..])) + NonNil(b);
        NonNil(a) + NonNil(b);
      }
    } else {
      assert a + b == b;
    }
  }

  /**
   * `errors.Join(a, b)`: nil when both are nil, otherwise one joined error
   * holding the non-nil ones in order (even when only one of them is non-nil).
   */
  function Join(a: Option<Error>, b: Option<Error>): (r: Option<Error>)
    ensures r.None? <==> a.None? && b.None?
    ensures r.Some? ==> r.value.Joined? && r.value.errs == NonNil([a, b])
  {
    if a.None? && b.None? then None else Some(Joined(NonNil([a, b])))
  }
}
