/** What a Ready resource reports as its id is the id of an object of its own, in every
    reachable state (providers/docker/provider.go:91-101, providers/docker/network.go:62-73,
    core/reconcile/reconciler.go:344-379). So what a container names as its network through
    a reference is that network. */
module ReportedIds {
  import opened Model
  import opened Engine
  import opened System
  import opened SystemInvariant
  import opened SystemFootprint
  import opened Ordering

  /** The field a resource of the kind reports its object's id in. */
  function IdField(kind: Bytes): Bytes {
    if kind == "network" then "networkId" else "containerId"
  }

  /** The id was issued, and whatever has it now is the key's own object. */
  ghost predicate Backs(sub: Substrate, key: Key, status: Status, id: ObjId) {
    && id in sub.issued && (id in sub.objs ==> sub.objs[id].key == key)
    && IdField(key.kind) in status.observed && Abbreviates(status.observed[IdField(key.kind)], id)
  }

  ghost predicate Backed(sub: Substrate, key: Key, status: Status) {
    status.ready ==> exists id :: Backs(sub, key, status, id)
  }

  ghost predicate KindsMatch(sub: Substrate) {
    forall id | id in sub.objs :: sub.objs[id].Network? <==> sub.objs[id].key.kind == "network"
  }

  ghost predicate PlaceBacked(sub: Substrate, x: Worker) {
    x.Reporting? ==> Backed(sub, x.key, x.status)
  }

  ghost predicate AllBacked(s: Sys) {
    && KindsMatch(s.sub)
    && (forall key | key in s.items :: Backed(s.sub, key, s.items[key].status))
    && (forall w | 0 <= w < |s.workers| :: PlaceBacked(s.sub, s.workers[w]))
  }

  lemma BackedLater(s: Sys, s': Sys, key: Key, status: Status)
    requires Backed(s.sub, key, status) && NoReuse(s, s')
    ensures Backed(s'.sub, key, status)
  {
    if status.ready {
      var id :| Backs(s.sub, key, status, id);
      assert Backs(s'.sub, key, status, id);
    }
  }

  // Where a report of Ready comes from.

  lemma AnswerIsBacked(s: Sys, key: Key, spec: Bytes, act: Act)
    requires KindsMatch(s.sub) && (forall id | id in s.sub.objs :: id in s.sub.issued)
    requires act.Finds? ==> act.id in Owned(s.sub, key)
    ensures Backed(s.sub, key, StatusOf(Answer(s, spec, act)))
  {
    if act.Finds? {
      SeenIsObservationOf(act.id, s.sub.objs[act.id], spec);
      assert Backs(s.sub, key, StatusOf(Answer(s, spec, act)), act.id);
    }
  }

  lemma ObservingReports(s: Sys, w: nat, x: Worker, act: Act)
    requires CanAct(s, w, act) && x == s.workers[w] && x.Observing?
    requires KindsMatch(s.sub) && (forall id | id in s.sub.objs :: id in s.sub.issued)
    ensures
      var s' := AtObserving(s, w, x, act);
      w < |s'.workers| && PlaceBacked(s.sub, s'.workers[w])
  {
    if !act.Fails? {
      AnswerIsBacked(s, x.key, x.spec, act);
    }
  }

  lemma ReobservingReports(s: Sys, w: nat, x: Worker, act: Act)
    requires CanAct(s, w, act) && x == s.workers[w] && x.Reobserving?
    requires KindsMatch(s.sub) && (forall id | id in s.sub.objs :: id in s.sub.issued)
    ensures
      var s' := AtReobserving(s, w, x, act);
      w < |s'.workers| && PlaceBacked(s.sub, s'.workers[w])
  {
    if !act.Fails? {
      AnswerIsBacked(s, x.key, x.spec, act);
    }
  }

  ghost predicate ReportsNotReady(x': Worker) {
    x'.Reporting? ==> !x'.status.ready
  }

  lemma RemovingReports(s: Sys, w: nat, x: Worker, act: Act)
    requires CanAct(s, w, act) && x == s.workers[w] && x.Removing?
    ensures
      var s' := AtRemoving(s, w, x, act);
      w < |s'.workers| && ReportsNotReady(s'.workers[w])
  {
    RemovingStays(s, w, x, act);
    RemovingMoves(s, w, x, act);
  }

  lemma ResolvingReports(s: Sys, w: nat, x: Worker, act: Act)
    requires CanAct(s, w, act) && x == s.workers[w] && x.Resolving?
    ensures
      var s' := AtResolving(s, w, x, act);
      w < |s'.workers| && ReportsNotReady(s'.workers[w])
  {
    if !act.Fails? && x.todo == [] {
      BeginReports(s, w, x, Resolved(x.snapshot, x.values));
    }
  }

  lemma BeginReports(s: Sys, w: nat, x: Worker, resolved: Option<Bytes>)
    requires w < |s.workers| && x == s.workers[w] && x.Resolving?
    ensures
      var s' := BeginConverge(s, w, x.key, resolved);
      w < |s'.workers| && ReportsNotReady(s'.workers[w])
  {
  }

  lemma HeldReports(s: Sys, w: nat, x: Worker, act: Act)
    requires CanAct(s, w, act) && x == s.workers[w] && x.Held?
    ensures
      var s' := AtHeld(s, w, x, act);
      w < |s'.workers| && ReportsNotReady(s'.workers[w])
  {
    HeldGoesTo(s, w, x, act);
    HeldFootprint(s, w, x, act);
  }

  lemma ChangingReports(s: Sys, w: nat, x: Worker, act: Act)
    requires CanAct(s, w, act) && x == s.workers[w] && (x.Listing? || x.Making? || x.Starting? || x.Examining?)
    ensures
      var s' := Effect(s, w, act);
      w < |s'.workers| && ReportsNotReady(s'.workers[w])
  {
  }

  lemma EndingReports(s: Sys, w: nat, x: Worker, act: Act)
    requires CanAct(s, w, act) && x == s.workers[w]
    requires x.Erasing? || x.Reporting? || x.Failing? || x.Arming? || x.Forgetting?
    ensures
      var s' := Effect(s, w, act);
      w < |s'.workers| && ReportsNotReady(s'.workers[w])
  {
  }

  lemma ActReports(s: Sys, w: nat, act: Act, s': Sys)
    requires Inv(s) && KindsMatch(s.sub) && CanAct(s, w, act) && !s.workers[w].Releasing? && s' == Effect(s, w, act)
    ensures w < |s'.workers| && PlaceBacked(s.sub, s'.workers[w])
  {
    var x := s.workers[w];
    match x
    case Held(_) => HeldReports(s, w, x, act);
    case Resolving(_, _, _, _) => ResolvingReports(s, w, x, act);
    case Observing(_, _) => ObservingReports(s, w, x, act);
    case Reobserving(_, _) => ReobservingReports(s, w, x, act);
    case Removing(_, _, _) => RemovingReports(s, w, x, act);
    case Listing(_, _) => ChangingReports(s, w, x, act);
    case Making(_, _) => ChangingReports(s, w, x, act);
    case Starting(_, _, _) => ChangingReports(s, w, x, act);
    case Examining(_) => ChangingReports(s, w, x, act);
    case _ => EndingReports(s, w, x, act);
  }

  // The invariant.

  lemma SubMovesKeepKinds(sub: Substrate, sub': Substrate, x: Worker, act: Act)
    requires KindsMatch(sub) && SubMoves(sub, sub', x, act)
    ensures KindsMatch(sub')
  {
  }

  lemma ReadinessKeepsBacked(s: Sys, s': Sys, w: nat, x: Worker, x': Worker, act: Act)
    requires AllBacked(s) && w < |s.workers| && x == s.workers[w] && Holds(x) && s'.workers == s.workers[w := x']
    requires Readiness(s, s', x, act) && NoReuse(s, s') && KindsMatch(s'.sub) && PlaceBacked(s.sub, x')
    ensures AllBacked(s')
  {
    forall key | key in s'.items ensures Backed(s'.sub, key, s'.items[key].status) {
      assert PlaceBacked(s.sub, x);
      assert Backed(s.sub, key, s'.items[key].status);
      BackedLater(s, s', key, s'.items[key].status);
    }
    forall v | 0 <= v < |s'.workers| ensures PlaceBacked(s'.sub, s'.workers[v]) {
      assert PlaceBacked(s.sub, s'.workers[v]);
      if s'.workers[v].Reporting? {
        BackedLater(s, s', s'.workers[v].key, s'.workers[v].status);
      }
    }
  }

  lemma ActKeepsBacked(s: Sys, w: nat, act: Act, s': Sys)
    requires Inv(s) && AllBacked(s) && CanAct(s, w, act) && s' == Effect(s, w, act)
    ensures AllBacked(s')
  {
    if !s.workers[w].Releasing? {
      ActFootprint(s, w, act);
      ActOk(s, w, act);
      ActReadiness(s, w, act);
      ActReports(s, w, act, s');
      SubMovesKeepKinds(s.sub, s'.sub, s.workers[w], act);
      ReadinessKeepsBacked(s, s', w, s.workers[w], s'.workers[w], act);
    }
  }

  lemma StillKeepsBacked(s: Sys, s': Sys)
    requires AllBacked(s) && NoReuse(s, s') && KindsMatch(s'.sub)
    requires forall key | key in s'.items && s'.items[key].status.ready :: key in s.items && s'.items[key].status == s.items[key].status
    requires |s'.workers| == |s.workers|
    requires forall v | 0 <= v < |s.workers| :: s'.workers[v] == s.workers[v] || !s'.workers[v].Reporting?
    ensures AllBacked(s')
  {
    forall key | key in s'.items ensures Backed(s'.sub, key, s'.items[key].status) {
      if s'.items[key].status.ready {
        BackedLater(s, s', key, s'.items[key].status);
      }
    }
    forall v | 0 <= v < |s'.workers| ensures PlaceBacked(s'.sub, s'.workers[v]) {
      if s'.workers[v].Reporting? {
        assert PlaceBacked(s.sub, s.workers[v]);
        BackedLater(s, s', s'.workers[v].key, s'.workers[v].status);
      }
    }
  }

  lemma HappenKeepsStatus(s: Sys, step: Step)
    requires Possible(s, step)
    ensures
      var s' := Happen(s, step);
      forall key | key in s'.items && s'.items[key].status.ready :: key in s.items && s'.items[key].status == s.items[key].status
  {
  }

  lemma HappenKeepsBacked(s: Sys, step: Step, s': Sys)
    requires Inv(s) && AllBacked(s) && Possible(s, step) && s' == Happen(s, step)
    ensures AllBacked(s')
  {
    HappenSub(s, step);
    HappenWorkers(s, step);
    HappenKeepsStatus(s, step);
    StillKeepsBacked(s, s');
  }

  lemma StepKeepsBacked(s: Sys, step: Step)
    requires Inv(s) && AllBacked(s) && Enabled(s, step)
    ensures AllBacked(Do(s, step))
  {
    if step.Acts? {
      ActKeepsBacked(s, step.w, step.act, Effect(s, step.w, step.act));
    } else {
      HappenKeepsBacked(s, step, Happen(s, step));
    }
  }

  lemma {:induction false} RunKeepsBacked(s: Sys, steps: seq<Step>)
    requires Inv(s) && AllBacked(s) && LegalRun(s, steps)
    ensures AllBacked(Run(s, steps))
    decreases steps
  {
    if steps != [] {
      StepKeepsInv(s, steps[0]);
      StepKeepsBacked(s, steps[0]);
      RunKeepsBacked(Do(s, steps[0]), steps[1..]);
    }
  }

  /** In every reachable state the id a Ready resource reports abbreviates an id whose
      object, if it is still there, is the resource's own. */
  lemma ReportedIdIsOwn(s: Sys, key: Key)
    requires Reachable(s) && key in s.items && s.items[key].status.ready
    ensures exists id :: Backs(s.sub, key, s.items[key].status, id)
  {
    var s0, steps :| Initial(s0) && LegalRun(s0, steps) && Run(s0, steps) == s;
    InitialInv(s0);
    RunKeepsBacked(s0, steps);
    assert Backed(s.sub, key, s.items[key].status);
  }

  /** So a container whose network is what a Ready network reports is attached to that
      resource's network as long as it is there, and Docker keeps it. */
  lemma ReferencedNetworkIsKept(s: Sys, network: Key, container: ObjId)
    requires Reachable(s) && network in s.items && s.items[network].status.ready && network.kind == "network"
    requires container in s.sub.objs && s.sub.objs[container].Container?
    requires "networkId" in s.items[network].status.observed
    requires s.sub.objs[container].network == s.items[network].status.observed["networkId"]
    ensures exists id :: Backs(s.sub, network, s.items[network].status, id)
                         && (id in s.sub.objs ==> Attached(s.sub.objs[container], id, s.sub.objs[id]) && Refuses(s.sub, id))
  {
    ReportedIdIsOwn(s, network);
    var id :| Backs(s.sub, network, s.items[network].status, id);
    var s0, steps :| Initial(s0) && LegalRun(s0, steps) && Run(s0, steps) == s;
    InitialInv(s0);
    RunKeepsBacked(s0, steps);
    if id in s.sub.objs {
      AttachedIff(s.sub.objs[container], id, s.sub.objs[id]);
    }
  }
}
