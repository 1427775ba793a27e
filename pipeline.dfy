/**
 * `Pipeline.Run` (concourse/pipeline.go): one broadcast per resource and per
 * job, each job's inputs split into independent and dependent streams, the
 * stream each job draws its inputs from, and the loops that drive builds and
 * resource checks.
 *
 * A broadcast is represented in the wiring by how many subscriptions it has
 * handed out; subscription `Sub(b, i)` is the `i`-th subscription (from 0) of
 * broadcast `b`, as `Broadcast.Subscribe` appends its subscriber at the end.
 */
module Pipelines {
  import opened Errors
  import opened Objects
  import opened Broadcasts
  import opened Resources

  /** One input of a job's configuration: its name, its resource and the jobs it must have passed. */
  datatype InputConfig = InputConfig(name: Keyword, resource: Keyword, passed: seq<Keyword>)

  /** Subscription number `index` of the broadcast named `broadcast`. */
  datatype Sub = Sub(broadcast: Keyword, index: nat)

  /** The stream a job's inputs come from. */
  datatype Plan =
    | Subscribed(sub: Sub)
    | AggregateOf(inputs: map<Keyword, Sub>)
    | IntersectOf(parts: seq<Plan>)

  /** The independent inputs, by input name (a later input of the same name wins), with their resources. */
  function Independent(inputs: seq<InputConfig>): (m: map<Keyword, Keyword>)
    ensures forall n :: n in m <==> exists i :: 0 <= i < |inputs| && inputs[i].passed == [] && inputs[i].name == n
    decreases |inputs|
  {
    if inputs == [] then map[]
    else
      var init, last := inputs[..|inputs| - 1], inputs[|inputs| - 1];
      var m0 := Independent(init);
      assert forall i :: 0 <= i < |init| ==> init[i] == inputs[i];
      if last.passed == [] then m0[last.name := last.resource] else m0
  }

  /** The jobs named in the inputs' `passed` lists, input by input, in configuration order. */
  function Dependent(inputs: seq<InputConfig>): (jobs: seq<Keyword>)
    ensures forall j :: j in jobs <==> exists i :: 0 <= i < |inputs| && j in inputs[i].passed
    decreases |inputs|
  {
    if inputs == [] then []
    else
      var init := inputs[..|inputs| - 1];
      assert forall i :: 0 <= i < |init| ==> init[i] == inputs[i];
      Dependent(init) + inputs[|inputs| - 1].passed
  }

  /** One more input extends the partition specifications by that input alone. */
  lemma PartitionSnoc(done: seq<InputConfig>, input: InputConfig)
    ensures Dependent(done + [input]) == Dependent(done) + input.passed
    ensures Independent(done + [input]) ==
      if input.passed == [] then Independent(done)[input.name := input.resource] else Independent(done)
  {
    assert (done + [input])[..|done|] == done;
  }

  /** The subscriptions the wiring of a job with these inputs takes: every resource and every passed job has a broadcast. */
  predicate Wires(inputs: seq<InputConfig>, resources: set<Keyword>, jobs: set<Keyword>) {
    forall i :: 0 <= i < |inputs| ==>
      && (inputs[i].passed == [] ==> inputs[i].resource in resources)
      && (forall j :: j in inputs[i].passed ==> j in jobs)
  }

  /** Subscription counts only grow, and no broadcast appears or disappears. */
  predicate Grown(base: map<Keyword, nat>, cur: map<Keyword, nat>) {
    cur.Keys == base.Keys && forall b :: b in cur ==> base[b] <= cur[b]
  }

  /** `s` was handed out after `base` was counted and before `cur` was. */
  predicate Taken(s: Sub, base: map<Keyword, nat>, cur: map<Keyword, nat>) {
    s.broadcast in base && s.broadcast in cur && base[s.broadcast] <= s.index < cur[s.broadcast]
  }

  /** Subscriptions handed out between `base` and `cur`, no two the same. */
  predicate FreshList(subs: seq<Sub>, base: map<Keyword, nat>, cur: map<Keyword, nat>) {
    && (forall i :: 0 <= i < |subs| ==> Taken(subs[i], base, cur))
    && (forall i, j :: 0 <= i < j < |subs| ==> subs[i] != subs[j])
  }

  /** Subscriptions handed out between `base` and `cur`, one per name, no two the same. */
  predicate FreshMap(subs: map<Keyword, Sub>, base: map<Keyword, nat>, cur: map<Keyword, nat>) {
    && (forall n :: n in subs ==> Taken(subs[n], base, cur))
    && (forall n, m :: n in subs && m in subs && n != m ==> subs[n] != subs[m])
  }

  /** The subscriptions under each name are to the broadcasts `resources` names. */
  predicate SubscribedTo(subs: map<Keyword, Sub>, resources: map<Keyword, Keyword>) {
    subs.Keys == resources.Keys && forall n :: n in subs ==> subs[n].broadcast == resources[n]
  }

  /** The subscriptions are, in order, to the broadcasts `jobs` names. */
  predicate SubscribedToAll(subs: seq<Sub>, jobs: seq<Keyword>) {
    |subs| == |jobs| && forall i :: 0 <= i < |subs| ==> subs[i].broadcast == jobs[i]
  }

  /**
   * The subscriptions taken for the inputs `done`, between the counts `rbase`
   * and `rs` of the resource broadcasts and `jbase` and `js` of the job ones.
   */
  predicate Routed(independent: map<Keyword, Sub>, dependent: seq<Sub>, done: seq<InputConfig>,
                   rbase: map<Keyword, nat>, rs: map<Keyword, nat>, jbase: map<Keyword, nat>, js: map<Keyword, nat>) {
    && Grown(rbase, rs) && Grown(jbase, js)
    && SubscribedTo(independent, Independent(done)) && FreshMap(independent, rbase, rs)
    && SubscribedToAll(dependent, Dependent(done)) && FreshList(dependent, jbase, js)
  }

  class Wiring {
    var resourceSubs: map<Keyword, nat>  // per resource broadcast: subscriptions handed out so far
    var jobSubs: map<Keyword, nat>       // per job broadcast: subscriptions handed out so far

    /** The broadcasts `Run` creates, one per resource and one per job, before any job subscribes. */
    constructor (resources: seq<Keyword>, jobs: seq<Keyword>)
      ensures resourceSubs.Keys == set r | r in resources
      ensures jobSubs.Keys == set j | j in jobs
      ensures forall r :: r in resourceSubs ==> resourceSubs[r] == 0
      ensures forall j :: j in jobSubs ==> jobSubs[j] == 0
    {
      resourceSubs := map r | r in resources :: 0;
      jobSubs := map j | j in jobs :: 0;
    }

    /**
     * The input loop of `Run` for one job: an input without `passed` takes a
     * subscription to its resource's broadcast, stored under the input's
     * name; every job in `passed` adds a subscription to that job's
     * broadcast. Every subscription taken is new, so no two streams share one.
     */
    method Partition(inputs: seq<InputConfig>) returns (independent: map<Keyword, Sub>, dependent: seq<Sub>)
      requires Wires(inputs, resourceSubs.Keys, jobSubs.Keys)
      modifies this
      ensures Grown(old(resourceSubs), resourceSubs) && Grown(old(jobSubs), jobSubs)
      ensures SubscribedTo(independent, Independent(inputs))
      ensures FreshMap(independent, old(resourceSubs), resourceSubs)
      ensures SubscribedToAll(dependent, Dependent(inputs))
      ensures FreshList(dependent, old(jobSubs), jobSubs)
    {
      var rbase, jbase := resourceSubs, jobSubs;
      var rs, js := rbase, jbase;
      independent, dependent := map[], [];
      var k := 0;
      while k < |inputs|
        invariant 0 <= k <= |inputs|
        invariant Routed(independent, dependent, inputs[..k], rbase, rs, jbase, js)
      {
        assert inputs[..k + 1] == inputs[..k] + [inputs[k]];
        assert Wires([inputs[k]], rs.Keys, js.Keys) by {
          assert rs.Keys == rbase.Keys && js.Keys == jbase.Keys;
        }
        independent, dependent, rs, js := Route(inputs[..k], inputs[k], independent, dependent, rbase, rs, jbase, js);
        k := k + 1;
      }
      assert inputs[..k] == inputs;
      resourceSubs, jobSubs := rs, js;
    }

    /** The body of the input loop for one input. */
    static method Route(done: seq<InputConfig>, input: InputConfig, independent0: map<Keyword, Sub>, dependent0: seq<Sub>,
                        rbase: map<Keyword, nat>, rs0: map<Keyword, nat>, jbase: map<Keyword, nat>, js0: map<Keyword, nat>)
      returns (independent: map<Keyword, Sub>, dependent: seq<Sub>, rs: map<Keyword, nat>, js: map<Keyword, nat>)
      requires Routed(independent0, dependent0, done, rbase, rs0, jbase, js0)
      requires Wires([input], rs0.Keys, js0.Keys)
      ensures Routed(independent, dependent, done + [input], rbase, rs, jbase, js)
    {
      PartitionSnoc(done, input);
      independent, dependent, rs, js := independent0, dependent0, rs0, js0;
      if input.passed == [] {
        independent, rs := SubscribeIndependent(independent0, rs0, input, rbase);
      } else {
        dependent, js := SubscribeDependent(dependent0, js0, input.passed, jbase);
      }
    }

    /** The branch for an input without `passed`: a new subscription to its resource, under its name. */
    static method SubscribeIndependent(independent0: map<Keyword, Sub>, rs0: map<Keyword, nat>, input: InputConfig,
                                       base: map<Keyword, nat>) returns (independent: map<Keyword, Sub>, rs: map<Keyword, nat>)
      requires input.resource in rs0 && Grown(base, rs0) && FreshMap(independent0, base, rs0)
      ensures Grown(base, rs) && FreshMap(independent, base, rs)
      ensures independent == independent0[input.name := Sub(input.resource, rs0[input.resource])]
    {
      var s := Sub(input.resource, rs0[input.resource]);
      rs := rs0[input.resource := rs0[input.resource] + 1];
      independent := independent0[input.name := s];
      forall n | n in independent0 ensures Taken(independent0[n], base, rs) && independent0[n] != s {
        assert Taken(independent0[n], base, rs0);
      }
    }

    /** The loop over `passed`: one new subscription per job, in order. */
    static method SubscribeDependent(dependent0: seq<Sub>, js0: map<Keyword, nat>, passed: seq<Keyword>,
                                     base: map<Keyword, nat>) returns (dependent: seq<Sub>, js: map<Keyword, nat>)
      requires forall j :: j in passed ==> j in js0
      requires Grown(base, js0) && FreshList(dependent0, base, js0)
      ensures Grown(base, js) && FreshList(dependent, base, js)
      ensures forall jobs :: SubscribedToAll(dependent0, jobs) ==> SubscribedToAll(dependent, jobs + passed)
    {
      dependent, js := dependent0, js0;
      var p := 0;
      while p < |passed|
        invariant 0 <= p <= |passed|
        invariant Grown(base, js) && FreshList(dependent, base, js)
        invariant forall jobs :: SubscribedToAll(dependent0, jobs) ==> SubscribedToAll(dependent, jobs + passed[..p])
      {
        var j := passed[p];
        var s := Sub(j, js[j]);
        var js' := js[j := js[j] + 1];
        forall i | 0 <= i < |dependent| ensures Taken(dependent[i], base, js') && dependent[i] != s {
          assert Taken(dependent[i], base, js);
        }
        dependent, js := dependent + [s], js';
        assert passed[..p + 1] == passed[..p] + [j];
        p := p + 1;
      }
      assert passed[..p] == passed;
    }
  }

  /** `Intersect(streams...)`: a single stream is used as it is. */
  function Intersect(parts: seq<Plan>): (p: Plan)
    ensures |parts| == 1 ==> p == parts[0]
    ensures |parts| != 1 ==> p == IntersectOf(parts)
  {
    if |parts| == 1 then parts[0] else IntersectOf(parts)
  }

  /** The dependent subscriptions as streams of their own. */
  function Each(subs: seq<Sub>): (parts: seq<Plan>)
    ensures |parts| == |subs| && forall i :: 0 <= i < |subs| ==> parts[i] == Subscribed(subs[i])
  {
    seq(|subs|, i requires 0 <= i < |subs| => Subscribed(subs[i]))
  }

  /**
   * The input stream chosen for a job: an aggregate of the independent inputs
   * when nothing is dependent; an intersection of the dependent streams when
   * nothing is independent; otherwise an intersection of the dependent
   * streams followed by one aggregate of the independent ones.
   */
  function Select(independent: map<Keyword, Sub>, dependent: seq<Sub>): (p: Plan) {
    if |dependent| == 0 then AggregateOf(independent)
    else if |independent| == 0 then Intersect(Each(dependent))
    else Intersect(Each(dependent) + [AggregateOf(independent)])
  }

  /** Every subscription a plan reads from. */
  function Sources(p: Plan): set<Sub>
    decreases p
  {
    match p
    case Subscribed(s) => {s}
    case AggregateOf(inputs) => inputs.Values
    case IntersectOf(parts) => set i, s | 0 <= i < |parts| && s in Sources(parts[i]) :: s
  }

  /**
   * The independent inputs are read by exactly one aggregate, which is the
   * whole stream when nothing is dependent and the last stream of the
   * intersection otherwise; a single dependent stream is used as it is.
   */
  lemma SelectShape(independent: map<Keyword, Sub>, dependent: seq<Sub>)
    ensures |dependent| == 0 ==> Select(independent, dependent) == AggregateOf(independent)
    ensures |dependent| == 1 && |independent| == 0 ==> Select(independent, dependent) == Subscribed(dependent[0])
    ensures |dependent| >= 2 && |independent| == 0 ==> Select(independent, dependent) == IntersectOf(Each(dependent))
    ensures |dependent| >= 1 && |independent| >= 1 ==>
      Select(independent, dependent) == IntersectOf(Each(dependent) + [AggregateOf(independent)])
  {
  }

  /** The chosen stream reads every subscription the input loop took, and no other. */
  lemma SelectReadsEveryInput(independent: map<Keyword, Sub>, dependent: seq<Sub>)
    ensures Sources(Select(independent, dependent)) == independent.Values + set s | s in dependent
  {
    var deps := set s | s in dependent;
    if |dependent| == 0 {
      assert deps == {};
    } else if |independent| == 0 {
      assert independent.Values == {};
      if |dependent| == 1 {
        assert deps == {dependent[0]};
      } else {
        SourcesOfEach(Each(dependent), dependent);
      }
    } else {
      SourcesOfMixed(independent, dependent);
    }
  }

  /** An intersection of the dependent streams and an aggregate reads both kinds of input. */
  lemma SourcesOfMixed(independent: map<Keyword, Sub>, dependent: seq<Sub>)
    ensures Sources(IntersectOf(Each(dependent) + [AggregateOf(independent)]))
      == independent.Values + set s | s in dependent
  {
    var deps := set s | s in dependent;
    var parts := Each(dependent) + [AggregateOf(independent)];
    forall s | s in Sources(IntersectOf(parts)) ensures s in independent.Values + deps {
      var i :| 0 <= i < |parts| && s in Sources(parts[i]);
      if i < |dependent| {
        assert parts[i] == Subscribed(dependent[i]);
      }
    }
    forall s | s in independent.Values + deps ensures s in Sources(IntersectOf(parts)) {
      if s in deps {
        var i :| 0 <= i < |dependent| && dependent[i] == s;
        assert parts[i] == Subscribed(dependent[i]);
        assert s in Sources(parts[i]);
      } else {
        assert s in Sources(parts[|dependent|]);
      }
    }
  }

  lemma SourcesOfEach(parts: seq<Plan>, subs: seq<Sub>)
    requires parts == Each(subs)
    ensures Sources(IntersectOf(parts)) == set s | s in subs
  {
    var deps := set s | s in subs;
    forall s | s in deps ensures s in Sources(IntersectOf(parts)) {
      var i :| 0 <= i < |subs| && subs[i] == s;
      assert s in Sources(parts[i]);
    }
  }

  /** How a job or resource loop has ended: it is still running, or it returned `err`. */
  datatype LoopEnd = Running | Returned(err: Option<Error>)

  /** The number of pulls before the first error. */
  function OkRun<T>(pulls: seq<Result<T>>): (n: nat)
    ensures n <= |pulls|
    ensures forall i :: 0 <= i < n ==> pulls[i].Ok?
    ensures n < |pulls| ==> pulls[n].Err?
    decreases |pulls|
  {
    if pulls == [] || pulls[0].Err? then 0
    else
      var n := OkRun(pulls[1..]);
      assert forall i :: 1 <= i < n + 1 ==> pulls[i] == pulls[1..][i - 1];
      n + 1
  }

  /** The inputs, among the first `n` pulls, of the builds that succeeded, in pull order. */
  function Succeeded<T>(pulls: seq<Result<T>>, builds: seq<Option<Error>>, n: nat): (vs: seq<T>)
    requires n <= |pulls| && |builds| == |pulls|
    requires forall i :: 0 <= i < n ==> pulls[i].Ok?
    ensures |vs| <= n
  {
    if n == 0 then []
    else Succeeded(pulls, builds, n - 1) + (if builds[n - 1].None? then [pulls[n - 1].value] else [])
  }

  /** The values of the first `n` pulls. */
  function Values<T>(pulls: seq<Result<T>>, n: nat): (vs: seq<T>)
    requires n <= |pulls| && forall i :: 0 <= i < n ==> pulls[i].Ok?
    ensures |vs| == n && forall i :: 0 <= i < n ==> vs[i] == pulls[i].value
  {
    if n == 0 then [] else Values(pulls, n - 1) + [pulls[n - 1].value]
  }

  /**
   * The job loop re-emits exactly the inputs of the successful builds, in pull
   * order: the j-th re-emitted input is that of the j-th build without error.
   */
  lemma {:induction false} SucceededInOrder<T>(pulls: seq<Result<T>>, builds: seq<Option<Error>>, n: nat)
    requires n <= |pulls| && |builds| == |pulls|
    requires forall i :: 0 <= i < n ==> pulls[i].Ok?
    ensures var idx := Positions(builds[..n], false);
      && |Succeeded(pulls, builds, n)| == |idx|
      && forall j :: 0 <= j < |idx| ==> Succeeded(pulls, builds, n)[j] == pulls[idx[j]].value
  {
    if n > 0 {
      SucceededInOrder(pulls, builds, n - 1);
      var idx0 := Positions(builds[..n - 1], false);
      var idx := Positions(builds[..n], false);
      PositionsSnoc(builds[..n - 1], builds[n - 1], false);
      assert builds[..n - 1] + [builds[n - 1]] == builds[..n];
      var vs := Succeeded(pulls, builds, n);
      assert vs == Succeeded(pulls, builds, n - 1) + (if builds[n - 1].None? then [pulls[n - 1].value] else []);
      forall j | 0 <= j < |idx|
        ensures vs[j] == pulls[idx[j]].value
      {
        if j < |idx0| {
          assert vs[j] == Succeeded(pulls, builds, n - 1)[j];
        }
      }
    }
  }

  /** When every build succeeds, the succeeded inputs are all the pulled ones. */
  lemma {:induction false} AllSucceeded<T>(pulls: seq<Result<T>>, builds: seq<Option<Error>>, n: nat)
    requires n <= |pulls| && |builds| == |pulls|
    requires forall i :: 0 <= i < n ==> pulls[i].Ok? && builds[i].None?
    ensures Succeeded(pulls, builds, n) == Values(pulls, n)
  {
    if n > 0 {
      AllSucceeded(pulls, builds, n - 1);
    }
  }

  /** When no build succeeds, nothing is emitted. */
  lemma {:induction false} NoneSucceeded<T>(pulls: seq<Result<T>>, builds: seq<Option<Error>>, n: nat)
    requires n <= |pulls| && |builds| == |pulls|
    requires forall i :: 0 <= i < n ==> pulls[i].Ok? && builds[i].Some?
    ensures Succeeded(pulls, builds, n) == []
  {
    if n > 0 {
      NoneSucceeded(pulls, builds, n - 1);
    }
  }

  /** How a loop ends after the pulls: the first error, or nil for it when the run was cancelled. */
  function Outcome<T>(pulls: seq<Result<T>>, cancelled: bool): (e: LoopEnd)
    ensures OkRun(pulls) == |pulls| <==> e == Running
    ensures OkRun(pulls) < |pulls| && cancelled ==> e == Returned(None)
    ensures OkRun(pulls) < |pulls| && !cancelled ==> e == Returned(Some(pulls[OkRun(pulls)].error))
  {
    var n := OkRun(pulls);
    if n == |pulls| then Running
    else if cancelled then Returned(None)
    else Returned(Some(pulls[n].error))
  }

  /** Offering one more value after a run of offers to everyone. */
  lemma {:induction false} OfferAllSnoc<T>(qs: seq<seq<T>>, vs: seq<T>, v: T)
    ensures OfferAll(qs, vs + [v]) == Offer(OfferAll(qs, vs), v, |qs|)
    decreases |vs|
  {
    if vs == [] {
      assert OfferAll(qs, [v]) == OfferAll(Offer(qs, v, |qs|), []);
    } else {
      assert (vs + [v])[1..] == vs[1..] + [v];
      OfferAllSnoc(Offer(qs, vs[0], |qs|), vs[1..], v);
    }
  }

  /**
   * `Emit` on a broadcast that has so far been offered `done`: everyone now
   * also has `v`. `Run` never closes its broadcasts, so none of them is closed.
   */
  method Deliver<T>(b: Broadcast<T>, ghost qs: seq<seq<T>>, ghost done: seq<T>, v: T)
    requires b.Valid() && b.Open() && |qs| == |b.subscribers| && b.Queues() == OfferAll(qs, done)
    modifies b.subscribers
    ensures b.Queues() == OfferAll(qs, done + [v]) && b.Open()
  {
    OfferAllSnoc(qs, done, v);
    b.Emit(v, None);
  }

  /**
   * The job loop of `Run`: pull the next input object; a failed pull ends the
   * loop, with nil when the run is cancelled and the error otherwise; a build
   * runs on each object (its outcome is `builds[k]` for the `k`-th pull) and,
   * when it succeeds, the object is emitted on the job's own broadcast, to
   * every subscriber. A failed build emits nothing and the loop goes on.
   */
  method JobLoop(successful: Broadcast<Object<ResourceVersion>>, pulls: seq<Result<Object<ResourceVersion>>>,
                 builds: seq<Option<Error>>, cancelled: bool) returns (end: LoopEnd)
    requires successful.Valid() && successful.Open() && |builds| == |pulls|
    modifies successful.subscribers
    ensures end == Outcome(pulls, cancelled)
    ensures successful.Queues() == OfferAll(old(successful.Queues()), Succeeded(pulls, builds, OkRun(pulls)))
  {
    var k := 0;
    while k < |pulls|
      invariant 0 <= k <= OkRun(pulls)
      invariant successful.subscribers == old(successful.subscribers) && |old(successful.Queues())| == |successful.subscribers|
      invariant successful.Open()
      invariant successful.Queues() == OfferAll(old(successful.Queues()), Succeeded(pulls, builds, k))
    {
      var inputs := pulls[k];
      if inputs.Err? {
        if cancelled {
          return Returned(None);
        }
        return Returned(Some(inputs.error));
      }
      var buildErr := builds[k];
      if buildErr.None? {
        assert Succeeded(pulls, builds, k + 1) == Succeeded(pulls, builds, k) + [inputs.value];
        Deliver(successful, old(successful.Queues()), Succeeded(pulls, builds, k), inputs.value);
      } else {
        assert Succeeded(pulls, builds, k + 1) == Succeeded(pulls, builds, k);
      }
      k := k + 1;
    }
    return Running;
  }

  /**
   * The resource loop of `Run`: every version pulled from the resource's
   * stream is emitted on the resource's broadcast, in order, until a pull
   * fails; the loop then returns nil when the run is cancelled and the error
   * otherwise.
   */
  method ResourceLoop(foundVersions: Broadcast<ResourceVersion>, pulls: seq<Result<ResourceVersion>>,
                      cancelled: bool) returns (end: LoopEnd)
    requires foundVersions.Valid() && foundVersions.Open()
    modifies foundVersions.subscribers
    ensures end == Outcome(pulls, cancelled)
    ensures foundVersions.Queues() == OfferAll(old(foundVersions.Queues()), Values(pulls, OkRun(pulls)))
  {
    var k := 0;
    while k < |pulls|
      invariant 0 <= k <= OkRun(pulls)
      invariant foundVersions.subscribers == old(foundVersions.subscribers) && |old(foundVersions.Queues())| == |foundVersions.subscribers|
      invariant foundVersions.Open()
      invariant foundVersions.Queues() == OfferAll(old(foundVersions.Queues()), Values(pulls, k))
    {
      var version := pulls[k];
      if version.Err? {
        if cancelled {
          return Returned(None);
        }
        return Returned(Some(version.error));
      }
      Deliver(foundVersions, old(foundVersions.Queues()), Values(pulls, k), version.value);
      k := k + 1;
    }
    return Running;
  }
}
