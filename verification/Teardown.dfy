/** Teardown in the whole system when every resource is marked, with the passes of
    different keys overlapping in any way. No references are looked at, so dangling or
    cyclic ones do not matter (core/reconcile/reconciler.go:269-324, providers/docker/network.go:106-128). */
module Teardown {
  import opened Model
  import opened Engine
  import opened Ordered
  import opened System
  import opened SystemInvariant
  import opened SystemFootprint
  import opened SystemTheorems
  import Passes
  import opened Simulation
  import opened Segments

  ghost predicate AllMarked(items: Items) {
    forall key | key in items :: items[key].marked
  }

  ghost predicate NoContainers(sub: Substrate) {
    forall id | id in sub.objs :: sub.objs[id].Network?
  }

  /** No user writes and no failing calls; others may still remove or stop objects. */
  predicate Quiet(step: Step) {
    !step.UserPut? && !step.UserMark? && (step.Acts? ==> !step.act.Fails?)
  }

  ghost predicate QuietRun(steps: seq<Step>) {
    forall step | step in steps :: Quiet(step)
  }

  /** From which phase on: 1 everything is marked; 2 no containers are left and a pass has
      read every mark; 3 no objects are left. */
  ghost predicate Phase(s: Sys, phase: nat) {
    && Inv(s) && AllMarked(s.items)
    && (phase >= 2 ==> NoContainers(s.sub) && forall key | key in s.items :: key in s.h.condemned)
    && (phase >= 3 ==> s.sub.objs == map[])
  }

  /** What a pass over the key achieves in a phase. */
  ghost predicate Cleared(sub: Substrate, key: Key, phase: nat) {
    if phase <= 1 then forall id | id in Owned(sub, key) :: sub.objs[id].Network?
    else phase == 2 && Owned(sub, key) == {}
  }

  ghost predicate Achieved(s: Sys, key: Key, phase: nat) {
    key !in s.items || (key in s.h.condemned && Cleared(s.sub, key, phase))
  }

  /** A removal pass on its way to that. */
  ghost predicate OnTrack(sub: Substrate, x: Worker, phase: nat) {
    match x
    case Examining(_) => true
    case Erasing(_) => true
    case Listing(_, update) => update.None? && phase <= 2
    case Removing(_, update, ids) => update.None? && |ids| <= 1 && phase <= 2
    case Reporting(key, _, _) => Cleared(sub, key, phase)
    case _ => false
  }

  // Objects only go.

  ghost predicate Dwindles(sub: Substrate, sub': Substrate, key: Key) {
    forall id | id in Owned(sub', key) :: id in Owned(sub, key) && SameButState(sub.objs[id], sub'.objs[id])
  }

  lemma DwindlingStaysOnTrack(sub: Substrate, sub': Substrate, x: Worker, phase: nat)
    requires Holds(x) && Dwindles(sub, sub', x.key) && OnTrack(sub, x, phase)
    ensures OnTrack(sub', x, phase)
  {
  }

  lemma CondemnedDwindles(s: Sys, step: Step, key: Key)
    requires Inv(s) && Enabled(s, step) && key in s.h.condemned && key in Do(s, step).items
    ensures Dwindles(s.sub, Do(s, step).sub, key) && key in Do(s, step).h.condemned
  {
    CondemnedStep(s, step, key);
    StepObjectsGoOn(s, step);
  }

  /** A quiet step adds no entry and takes no mark away. */
  ghost predicate OnlyFewer(items: Items, items': Items) {
    forall key | key in items' :: key in items && (items[key].marked ==> items'[key].marked)
  }

  lemma ActOnlyFewer(s: Sys, w: nat, act: Act, s': Sys)
    requires Inv(s) && CanAct(s, w, act) && s' == Effect(s, w, act)
    ensures OnlyFewer(s.items, s'.items)
  {
    if !s.workers[w].Releasing? {
      ActFootprint(s, w, act);
    }
  }

  lemma QuietOnlyFewer(s: Sys, step: Step)
    requires Inv(s) && Enabled(s, step) && Quiet(step)
    ensures OnlyFewer(s.items, Do(s, step).items)
  {
    if step.Acts? {
      ActOnlyFewer(s, step.w, step.act, Effect(s, step.w, step.act));
    }
  }

  lemma AchievedStays(s: Sys, step: Step, key: Key, phase: nat)
    requires Inv(s) && Enabled(s, step) && Quiet(step) && Achieved(s, key, phase)
    ensures Achieved(Do(s, step), key, phase)
  {
    QuietOnlyFewer(s, step);
    if key in Do(s, step).items {
      CondemnedDwindles(s, step, key);
    }
  }

  lemma PhaseStays(s: Sys, step: Step, phase: nat)
    requires Phase(s, phase) && Enabled(s, step) && Quiet(step)
    ensures Phase(Do(s, step), phase)
  {
    var s' := Do(s, step);
    StepKeepsInv(s, step);
    QuietOnlyFewer(s, step);
    if phase >= 2 {
      forall key | key in s'.items ensures key in s'.h.condemned && Dwindles(s.sub, s'.sub, key) {
        CondemnedDwindles(s, step, key);
      }
      NoneAdded(s, s');
    }
  }

  lemma NoneAdded(s: Sys, s': Sys)
    requires Inv(s') && forall key | key in s'.items :: Dwindles(s.sub, s'.sub, key)
    ensures NoContainers(s.sub) ==> NoContainers(s'.sub)
    ensures s.sub.objs == map[] ==> s'.sub.objs == map[]
  {
    forall id | id in s'.sub.objs ensures id in s.sub.objs && SameButState(s.sub.objs[id], s'.sub.objs[id]) {
      assert id in Owned(s'.sub, s'.sub.objs[id].key);
    }
  }

  // One step of the pass.

  lemma ExaminingTrack(s: Sys, w: nat, x: Worker, act: Act, phase: nat)
    requires Phase(s, phase) && CanAct(s, w, act) && !act.Fails? && x == s.workers[w] && x.Examining?
    ensures OnTrack(AtExamining(s, w, x, act).sub, AtExamining(s, w, x, act).workers[w], phase)
  {
  }

  lemma ListingTrack(s: Sys, w: nat, x: Worker, act: Act, phase: nat)
    requires Inv(s) && CanAct(s, w, act) && !act.Fails? && x == s.workers[w] && x.Listing? && OnTrack(s.sub, x, phase)
    ensures OnTrack(AtListing(s, w, x, act).sub, AtListing(s, w, x, act).workers[w], phase)
  {
    ListsOne(s.sub, x.key, act.ids);
  }

  lemma ListsOne(sub: Substrate, key: Key, ids: seq<ObjId>)
    requires Passes.Single(sub) && Listed(ids, Owned(sub, key))
    ensures |ids| <= 1
  {
    var last := |ids| - 1;
    assert ids != [] ==> ids[0] in ids && ids[last] in ids && ids[last] == ids[0];
  }

  /** Nothing is left, or the one object left is refused. */
  lemma RemovedIsCleared(s: Sys, x: Worker, phase: nat)
    requires WorkerOk(s, x) && x.Removing? && |x.ids| <= 1 && phase <= 2 && (phase >= 2 ==> NoContainers(s.sub))
    ensures x.ids == [] || x.ids[0] !in s.sub.objs || Refuses(s.sub, x.ids[0]) ==> Cleared(s.sub, x.key, phase)
  {
    forall id | id in Owned(s.sub, x.key) ensures x.ids != [] && id == x.ids[0] {
      assert id in x.ids;
    }
  }

  lemma RemovingTrack(s: Sys, w: nat, x: Worker, act: Act, phase: nat)
    requires Phase(s, phase) && CanAct(s, w, act) && !act.Fails? && x == s.workers[w] && x.Removing? && OnTrack(s.sub, x, phase)
    ensures GoesOn(AtRemoving(s, w, x, act), w, x.key, phase)
  {
    var s' := AtRemoving(s, w, x, act);
    assert WorkerOk(s, x);
    RemovedIsCleared(s, x, phase);
    RemovingMoves(s, w, x, act);
    if OnlyMoves(s, s', w, x) {
      assert s'.sub == s.sub;
    }
  }

  lemma ErasingAchieves(s: Sys, w: nat, x: Worker, act: Act, phase: nat)
    requires CanAct(s, w, act) && !act.Fails? && x == s.workers[w] && x.Erasing?
    ensures Achieved(AtErasing(s, w, x, act), x.key, phase)
  {
  }

  lemma ReportingAchieves(s: Sys, w: nat, x: Worker, act: Act, phase: nat)
    requires CanAct(s, w, act) && x == s.workers[w] && x.Reporting? && Cleared(s.sub, x.key, phase)
    requires x.key in s.h.condemned
    ensures Achieved(AtReporting(s, w, x, act), x.key, phase)
  {
  }

  ghost predicate GoesOn(s': Sys, w: nat, key: Key, phase: nat) {
    w < |s'.workers| && (OnTrack(s'.sub, s'.workers[w], phase) || Achieved(s', key, phase))
  }

  lemma ObservationGoesOn(s: Sys, w: nat, act: Act, s': Sys, phase: nat)
    requires Phase(s, phase) && CanAct(s, w, act) && !act.Fails? && s' == Effect(s, w, act)
    requires OnTrack(s.sub, s.workers[w], phase) && (s.workers[w].Examining? || s.workers[w].Listing?)
    ensures GoesOn(s', w, s.workers[w].key, phase)
  {
    if s.workers[w].Examining? {
      ExaminingTrack(s, w, s.workers[w], act, phase);
    } else {
      ListingTrack(s, w, s.workers[w], act, phase);
    }
  }

  lemma RemovalGoesOn(s: Sys, w: nat, act: Act, s': Sys, phase: nat)
    requires Phase(s, phase) && CanAct(s, w, act) && !act.Fails? && s' == Effect(s, w, act)
    requires OnTrack(s.sub, s.workers[w], phase) && s.workers[w].Removing?
    ensures GoesOn(s', w, s.workers[w].key, phase)
  {
    RemovingTrack(s, w, s.workers[w], act, phase);
  }

  /** The worker's own step goes on, or ends the pass with its goal achieved. */
  lemma OwnStep(s: Sys, w: nat, act: Act, s': Sys, phase: nat)
    requires Phase(s, phase) && CanAct(s, w, act) && !act.Fails? && s' == Effect(s, w, act)
    requires OnTrack(s.sub, s.workers[w], phase) && s.workers[w].key in s.h.condemned && HasFootprint(s, s', w, act)
    ensures GoesOn(s', w, s.workers[w].key, phase)
  {
    var x := s.workers[w];
    if x.Erasing? {
      ErasingAchieves(s, w, x, act, phase);
    } else if x.Reporting? {
      ReportingAchieves(s, w, x, act, phase);
    } else if x.Removing? {
      RemovalGoesOn(s, w, act, s', phase);
    } else {
      ObservationGoesOn(s, w, act, s', phase);
    }
  }

  // The run.

  /** Some worker holds the key and is on track with it. */
  ghost predicate Tracked(s: Sys, key: Key, phase: nat) {
    key in s.h.condemned &&
    exists w :: 0 <= w < |s.workers| && Holds(s.workers[w]) && s.workers[w].key == key && OnTrack(s.sub, s.workers[w], phase)
  }

  /** A step that does not end the pass over the key keeps it on track; one that does
      achieves the goal. */
  lemma StepTracks(s: Sys, step: Step, key: Key, phase: nat)
    requires Phase(s, phase) && Enabled(s, step) && Quiet(step) && Tracked(s, key, phase)
    ensures Achieved(Do(s, step), key, phase) || (Tracked(Do(s, step), key, phase) && !Ends(s, step, key))
  {
    var s' := Do(s, step);
    var w :| 0 <= w < |s.workers| && Holds(s.workers[w]) && s.workers[w].key == key && OnTrack(s.sub, s.workers[w], phase);
    if key in s'.items {
      CondemnedDwindles(s, step, key);
      if step.Acts? && step.w == w {
        ActFootprint(s, w, step.act);
        OwnStep(s, w, step.act, s', phase);
        OnTrackHasNotEnded(s'.sub, s.workers[w], s'.workers[w], phase);
      } else {
        OthersMove(s, step, w, key);
        DwindlingStaysOnTrack(s.sub, s'.sub, s.workers[w], phase);
      }
    }
  }

  lemma OnTrackHasNotEnded(sub: Substrate, x: Worker, x': Worker, phase: nat)
    ensures OnTrack(sub, x', phase) ==> !Concludes(x, x')
  {
  }

  /** With every mark set a read puts the worker on track. */
  lemma ReadTracks(s: Sys, step: Step, key: Key, phase: nat)
    requires Phase(s, phase) && Enabled(s, step) && Reads(s, step, key)
    ensures Achieved(Do(s, step), key, phase) || Tracked(Do(s, step), key, phase)
  {
    if key in s.items {
      ReadMarkedTracks(s, step.w, key, InNameOrder(s.items[key].references), phase);
    } else {
      QuietOnlyFewer(s, step);
    }
  }

  lemma ReadMarkedTracks(s: Sys, w: nat, key: Key, todo: seq<Named>, phase: nat)
    requires w < |s.workers| && key in s.items && s.items[key].marked
    ensures
      var s' := Read(s, w, key, todo);
      && w < |s'.workers| && Holds(s'.workers[w]) && s'.workers[w].key == key
      && OnTrack(s'.sub, s'.workers[w], phase) && key in s'.h.condemned
  {
  }

  lemma {:induction false} AchievedToTheEnd(s: Sys, steps: seq<Step>, key: Key, phase: nat)
    requires Inv(s) && LegalRun(s, steps) && QuietRun(steps) && Achieved(s, key, phase)
    ensures Achieved(Run(s, steps), key, phase)
    decreases steps
  {
    if steps != [] {
      assert steps[0] in steps;
      StepKeepsInv(s, steps[0]);
      AchievedStays(s, steps[0], key, phase);
      AchievedToTheEnd(Do(s, steps[0]), steps[1..], key, phase);
    }
  }

  lemma {:induction false} TrackedAchieves(s: Sys, steps: seq<Step>, key: Key, phase: nat)
    requires Phase(s, phase) && LegalRun(s, steps) && QuietRun(steps)
    requires Achieved(s, key, phase) || (Tracked(s, key, phase) && EndsIn(s, steps, key))
    ensures Achieved(Run(s, steps), key, phase)
    decreases steps
  {
    if Achieved(s, key, phase) {
      AchievedToTheEnd(s, steps, key, phase);
    } else {
      assert steps[0] in steps;
      PhaseStays(s, steps[0], phase);
      StepTracks(s, steps[0], key, phase);
      TrackedAchieves(Do(s, steps[0]), steps[1..], key, phase);
    }
  }

  /** A whole pass over the key somewhere in the stretch achieves its goal. */
  lemma {:induction false} PassAchieves(s: Sys, steps: seq<Step>, key: Key, phase: nat)
    requires Phase(s, phase) && LegalRun(s, steps) && QuietRun(steps) && PassIn(s, steps, key)
    ensures Achieved(Run(s, steps), key, phase)
    decreases steps
  {
    assert steps[0] in steps;
    PhaseStays(s, steps[0], phase);
    if PassIn(Do(s, steps[0]), steps[1..], key) {
      PassAchieves(Do(s, steps[0]), steps[1..], key, phase);
    } else {
      ReadTracks(s, steps[0], key, phase);
      TrackedAchieves(Do(s, steps[0]), steps[1..], key, phase);
    }
  }

  lemma {:induction false} RunKeepsPhase(s: Sys, steps: seq<Step>, phase: nat)
    requires Phase(s, phase) && LegalRun(s, steps) && QuietRun(steps)
    ensures Phase(Run(s, steps), phase) && OnlyFewer(s.items, Run(s, steps).items)
    decreases steps
  {
    if steps != [] {
      assert steps[0] in steps;
      QuietOnlyFewer(s, steps[0]);
      PhaseStays(s, steps[0], phase);
      RunKeepsPhase(Do(s, steps[0]), steps[1..], phase);
    }
  }

  /** A stretch with a whole pass over every key moves the system one phase on. */
  lemma StretchMovesOn(s: Sys, steps: seq<Step>, phase: nat)
    requires 1 <= phase <= 2 && Phase(s, phase) && LegalRun(s, steps) && QuietRun(steps) && AllPassIn(s, steps)
    ensures Phase(Run(s, steps), phase + 1)
  {
    var s' := Run(s, steps);
    RunKeepsPhase(s, steps, phase);
    forall key | key in s'.items ensures Achieved(s', key, phase) {
      PassAchieves(s, steps, key, phase);
    }
    forall id | id in s'.sub.objs ensures id in Owned(s'.sub, s'.sub.objs[id].key) && Achieved(s', s'.sub.objs[id].key, phase) {
    }
  }

  lemma LastStretch(s: Sys, steps: seq<Step>)
    requires Phase(s, 3) && LegalRun(s, steps) && QuietRun(steps) && AllPassIn(s, steps)
    ensures Run(s, steps).items == map[] && Run(s, steps).sub.objs == map[]
  {
    var s' := Run(s, steps);
    RunKeepsPhase(s, steps, 3);
    forall key | key in s'.items ensures false {
      PassAchieves(s, steps, key, 3);
    }
  }

  /** With everything marked, three stretches of a run, in each of which every key has a
      whole pass, however the passes overlap, empty substrate and store. */
  lemma ThreeStretchesEmptyEverything(s: Sys, one: seq<Step>, two: seq<Step>, three: seq<Step>)
    requires Reachable(s) && AllMarked(s.items)
    requires LegalRun(s, one) && QuietRun(one) && AllPassIn(s, one)
    requires LegalRun(Run(s, one), two) && QuietRun(two) && AllPassIn(Run(s, one), two)
    requires LegalRun(Run(Run(s, one), two), three) && QuietRun(three) && AllPassIn(Run(Run(s, one), two), three)
    ensures NoContainers(Run(s, one).sub) && Run(Run(s, one), two).sub.objs == map[]
    ensures Run(Run(Run(s, one), two), three).items == map[] && Run(Run(Run(s, one), two), three).sub.objs == map[]
  {
    ReachableInv(s);
    StretchMovesOn(s, one, 1);
    StretchMovesOn(Run(s, one), two, 2);
    LastStretch(Run(Run(s, one), two), three);
  }
}
