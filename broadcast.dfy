/**
 * `Broadcast` and `subscription` (concourse/stream.go): a fan-out in which each
 * subscriber has its own queue. The unbuffered channel behind a subscription is
 * modelled as the FIFO of values handed to it and not yet taken by `Next`;
 * cancellation of the emitting context is an explicit argument.
 */
module Broadcasts {
  import opened Errors

  class Subscription<T> {
    var queue: seq<T>   // values sent to this subscriber and not yet received
    var closed: bool    // the channel has been closed by `Broadcast.Close`
    var panicked: bool  // a send on the closed channel, a second close, or a close under a blocked sender

    constructor ()
      ensures queue == [] && !closed && !panicked
    {
      queue := [];
      closed := false;
      panicked := false;
    }

    /** The receive in `Next` can complete: a value is waiting, the queue is closed, or the context is done. */
    predicate CanReturn(interrupted: bool)
      reads this
    {
      interrupted || queue != [] || closed
    }

    /**
     * `subscription.Next`: the next value handed over, `EndOfStream` once the
     * queue is closed and drained, `StreamInterrupted` when the context's done
     * case is the one selected (`interrupted`). A call for which none of these
     * is ready has not returned yet, so it is excluded.
     */
    method Next(interrupted: bool) returns (r: Result<T>)
      requires CanReturn(interrupted)
      modifies this
      ensures closed == old(closed) && panicked == old(panicked)
      ensures interrupted ==> r == Err(StreamInterrupted) && queue == old(queue)
      ensures !interrupted && old(queue) != [] ==> r == Ok(old(queue)[0]) && queue == old(queue)[1..]
      ensures !interrupted && old(queue) == [] ==> r == Err(EndOfStream) && queue == []
    {
      if interrupted {
        return Err(StreamInterrupted);
      }
      if queue != [] {
        r := Ok(queue[0]);
        queue := queue[1..];
      } else {
        r := Err(EndOfStream);
      }
    }

    /**
     * `subscription.Emit`: a direct send on the subscriber's own queue. A send
     * on a channel that `Broadcast.Close` has closed panics and delivers nothing.
     */
    method Emit(v: T)
      modifies this
      ensures closed == old(closed)
      ensures !old(closed) ==> queue == old(queue) + [v] && panicked == old(panicked)
      ensures old(closed) ==> queue == old(queue) && panicked
    {
      if closed {
        panicked := true;
      } else {
        queue := queue + [v];
      }
    }

    /**
     * Go's `close` on the subscriber's channel, as `Broadcast.Close` does it:
     * closing it a second time panics; closing it under a blocked sender (a
     * value still queued) panics that sender, whose value is never received.
     */
    method Shut()
      modifies this
      ensures closed
      ensures old(closed) ==> queue == old(queue) && panicked
      ensures !old(closed) ==> queue == [] && panicked == (old(panicked) || old(queue) != [])
    {
      if closed {
        panicked := true;
        return;
      }
      closed := true;
      if queue != [] {
        panicked := true;
        queue := [];
      }
    }

    /** `subscription.Close` does not unsubscribe: it does nothing and returns nil. */
    method Close() returns (err: Option<Error>)
      ensures err == None
    {
      err := None;
    }
  }

  /** The position of the first `true` in `bs`, or `|bs|` when there is none. */
  function FirstTrue(bs: seq<bool>): (k: nat)
    ensures k <= |bs|
    ensures forall i :: 0 <= i < k ==> !bs[i]
    ensures k < |bs| ==> bs[k]
  {
    if bs == [] || bs[0] then 0 else 1 + FirstTrue(bs[1..])
  }

  /** The subscriber queues after offering `v` to the first `k` of them. */
  function Offer<T>(qs: seq<seq<T>>, v: T, k: nat): (r: seq<seq<T>>)
    ensures |r| == |qs|
  {
    seq(|qs|, i requires 0 <= i < |qs| => if i < k then qs[i] + [v] else qs[i])
  }

  /** How many subscribers receive a value when the context is cancelled at subscriber `cancelledAt`. */
  function Receivers(cancelledAt: Option<nat>, n: nat): (k: nat)
    ensures k <= n
    ensures cancelledAt.None? ==> k == n
    ensures cancelledAt.Some? ==> k == if cancelledAt.value < n then cancelledAt.value else n
  {
    match cancelledAt
    case None => n
    case Some(c) => if c < n then c else n
  }

  /**
   * How many subscribers receive a value when the context is cancelled at
   * subscriber `cancelledAt` and `closed` says which channels are closed: the
   * send stops at the cancellation or at the first closed channel.
   */
  function Reached(cancelledAt: Option<nat>, closed: seq<bool>): (k: nat)
    ensures k <= Receivers(cancelledAt, |closed|)
    ensures forall i :: 0 <= i < k ==> !closed[i]
    ensures k == Receivers(cancelledAt, |closed|) || (k < |closed| && closed[k])
  {
    var c := FirstTrue(closed);
    var r := Receivers(cancelledAt, |closed|);
    if c < r then c else r
  }

  /** Whether the send to subscriber `i` is the one that panics: it is reached, uncancelled, and its channel is closed. */
  function Panics(cancelledAt: Option<nat>, closed: seq<bool>, i: nat): (b: bool)
    ensures b ==> i < |closed| && closed[i] && cancelledAt != Some(i)
    ensures b <==> i == Reached(cancelledAt, closed) < Receivers(cancelledAt, |closed|)
  {
    i == Reached(cancelledAt, closed) < Receivers(cancelledAt, |closed|)
  }

  /** The subscriber queues after offering every value of `vs`, in order, to all of them. */
  function OfferAll<T>(qs: seq<seq<T>>, vs: seq<T>): (r: seq<seq<T>>)
    ensures |r| == |qs|
    decreases |vs|
  {
    if vs == [] then qs else OfferAll(Offer(qs, vs[0], |qs|), vs[1..])
  }

  /** Offering to `k` subscribers hands the value to exactly the first `k`, at the end of their queues. */
  lemma OfferReachesPrefix<T>(qs: seq<seq<T>>, v: T, k: nat, i: nat)
    requires i < |qs|
    ensures (Offer(qs, v, k)[i] == qs[i] + [v]) <==> i < k
    ensures i >= k ==> Offer(qs, v, k)[i] == qs[i]
  {
    if i >= k {
      assert |Offer(qs, v, k)[i]| == |qs[i]| < |qs[i] + [v]|;
    }
  }

  /**
   * Without cancellation every subscriber receives every emitted value, in
   * emission order, and nothing else.
   */
  lemma {:induction false} OfferAllDelivers<T>(qs: seq<seq<T>>, vs: seq<T>, i: nat)
    requires i < |qs|
    ensures OfferAll(qs, vs)[i] == qs[i] + vs
    decreases |vs|
  {
    if vs != [] {
      var qs' := Offer(qs, vs[0], |qs|);
      OfferAllDelivers(qs', vs[1..], i);
      assert qs'[i] == qs[i] + [vs[0]];
      assert [vs[0]] + vs[1..] == vs;
    }
  }

  class Broadcast<T> {
    var subscribers: seq<Subscription<T>>

    /** Every subscriber appears once (each subscription has its own channel). */
    ghost predicate Valid()
      reads this
    {
      forall i, j :: 0 <= i < j < |subscribers| ==> subscribers[i] != subscribers[j]
    }

    /** The queue of each subscriber, in subscription order. */
    ghost function Queues(): (r: seq<seq<T>>)
      reads this, subscribers
      ensures |r| == |subscribers|
    {
      seq(|subscribers|, i reads this, subscribers requires 0 <= i < |subscribers| => subscribers[i].queue)
    }

    /** Whether each subscriber's channel is closed, in subscription order. */
    ghost function ClosedFlags(): (r: seq<bool>)
      reads this, subscribers
      ensures |r| == |subscribers|
    {
      seq(|subscribers|, i reads this, subscribers requires 0 <= i < |subscribers| => subscribers[i].closed)
    }

    /** No subscriber's channel has been closed. */
    ghost predicate Open()
      reads this, subscribers
    {
      forall i :: 0 <= i < |subscribers| ==> !subscribers[i].closed
    }

    /** `NewBroadcast`. */
    constructor ()
      ensures Valid() && subscribers == []
    {
      subscribers := [];
    }

    /** `Broadcast.Subscribe`: a fresh subscription with an empty queue, added at the end. */
    method Subscribe() returns (s: Subscription<T>)
      requires Valid()
      modifies this
      ensures Valid() && fresh(s)
      ensures subscribers == old(subscribers) + [s]
      ensures Queues() == old(Queues()) + [[]] && !s.closed && !s.panicked
    {
      s := new Subscription();
      subscribers := subscribers + [s];
    }

    /**
     * `Broadcast.Emit`: offers `v` to the subscribers in subscription order and
     * stops at the first one whose send loses to the cancelled context, so
     * exactly a prefix of the subscribers receives it. A send that reaches a
     * closed subscriber panics there, so the prefix also ends at the first
     * closed subscriber, which is marked as panicked.
     */
    method Emit(v: T, cancelledAt: Option<nat>)
      requires Valid()
      modifies subscribers
      ensures Queues() == Offer(old(Queues()), v, Reached(cancelledAt, old(ClosedFlags())))
      ensures forall i :: 0 <= i < |subscribers| ==> subscribers[i].closed == old(subscribers[i].closed)
      ensures forall i :: 0 <= i < |subscribers| ==>
        subscribers[i].panicked == (old(subscribers[i].panicked) || Panics(cancelledAt, old(ClosedFlags()), i))
      ensures old(Open()) ==> Queues() == Offer(old(Queues()), v, Receivers(cancelledAt, |subscribers|)) && Open()
    {
      ghost var flags := ClosedFlags();
      var i := 0;
      while i < |subscribers|
        invariant 0 <= i <= |subscribers|
        invariant i <= Reached(cancelledAt, flags)
        invariant forall j :: 0 <= j < i ==> subscribers[j].queue == old(subscribers[j].queue) + [v]
        invariant forall j :: i <= j < |subscribers| ==> subscribers[j].queue == old(subscribers[j].queue)
        invariant forall j :: 0 <= j < |subscribers| ==> subscribers[j].closed == old(subscribers[j].closed)
        invariant forall j :: 0 <= j < |subscribers| ==> subscribers[j].panicked == old(subscribers[j].panicked)
      {
        if cancelledAt == Some(i) {
          return;
        }
        if subscribers[i].closed {
          assert flags[i];
          subscribers[i].panicked := true;
          return;
        }
        subscribers[i].queue := subscribers[i].queue + [v];
        i := i + 1;
      }
    }

    /**
     * `Broadcast.Close`: closes the subscribers' channels in subscription
     * order. Closing a channel that is already closed panics and ends the loop
     * there; closing a channel with a blocked sender (a value still queued)
     * panics that sender, whose value is then never received.
     */
    method Close()
      requires Valid()
      modifies subscribers
      ensures forall i :: 0 <= i < FirstTrue(old(ClosedFlags())) ==>
        && subscribers[i].closed && subscribers[i].queue == []
        && subscribers[i].panicked == (old(subscribers[i].panicked) || old(subscribers[i].queue) != [])
      ensures forall i :: FirstTrue(old(ClosedFlags())) <= i < |subscribers| ==>
        && subscribers[i].closed == old(subscribers[i].closed) && subscribers[i].queue == old(subscribers[i].queue)
        && subscribers[i].panicked == (old(subscribers[i].panicked) || i == FirstTrue(old(ClosedFlags())))
      ensures old(Open()) && (forall i :: 0 <= i < |subscribers| ==> old(subscribers[i].queue) == []) ==>
        forall i :: 0 <= i < |subscribers| ==>
          subscribers[i].closed && subscribers[i].queue == [] && subscribers[i].panicked == old(subscribers[i].panicked)
    {
      ghost var flags := ClosedFlags();
      var i := 0;
      while i < |subscribers|
        invariant 0 <= i <= FirstTrue(flags)
        invariant forall j :: 0 <= j < i ==>
          && subscribers[j].closed && subscribers[j].queue == []
          && subscribers[j].panicked == (old(subscribers[j].panicked) || old(subscribers[j].queue) != [])
        invariant forall j :: i <= j < |subscribers| ==>
          && subscribers[j].closed == old(subscribers[j].closed) && subscribers[j].queue == old(subscribers[j].queue)
          && subscribers[j].panicked == old(subscribers[j].panicked)
      {
        var closed := subscribers[i].closed;
        subscribers[i].Shut();
        if closed {
          assert flags[i];
          return;
        }
        i := i + 1;
      }
    }
  }
}
