/** A teardown that a pass has begun goes on until the entry is erased
    (core/reconcile/reconciler.go:163-185, 274-324). */
module TeardownProgress {
  import opened Model
  import opened Ordered
  import opened System
  import opened SystemInvariant
  import opened SystemFootprint
  import opened SystemTheorems

  /** The worker is at the removal of the key, or about to report that it is not over. */
  ghost predicate Presses(x: Worker, key: Key) {
    Holds(x) && x.key == key && (TearingDown(x) || (x.Reporting? && x.outcome != Passed))
  }

  ghost predicate AnyPresses(workers: seq<Worker>, key: Key) {
    exists w :: 0 <= w < |workers| && Presses(workers[w], key)
  }

  /** Each key whose mark a pass has read is being removed, or was promised another pass. */
  ghost predicate Pressed(s: Sys) {
    forall key | key in s.h.condemned :: key in s.h.retry || AnyPresses(s.workers, key)
  }

  // One step of a worker.

  /** A removal goes on, or ends with something other than success, or has erased the entry;
      a report that asks for another pass does so; reading a mark begins a removal. */
  ghost predicate PressesOn(s: Sys, s': Sys, x: Worker, x': Worker, act: Act)
    requires Holds(x) && Holds(x')
  {
    && (TearingDown(x) ==> Presses(x', x.key) || x.key in s'.h.retry || x.key !in s'.h.condemned)
    && (x.Reporting? && x.outcome != Passed ==> x.key in s'.h.retry)
    && (StartsPass(x, act) && x.key in s.items && s.items[x.key].marked ==> Presses(x', x.key))
    && (forall key | key in s'.h.condemned && key !in s.h.condemned ::
          key == x.key && StartsPass(x, act) && key in s.items && s.items[key].marked)
  }

  lemma ReadPresses(s: Sys, w: nat, x: Worker, act: Act, todo: seq<Named>)
    requires w < |s.workers| && x == s.workers[w] && StartsPass(x, act)
    ensures
      var s' := Read(s, w, x.key, todo);
      w < |s'.workers| && Holds(s'.workers[w]) && PressesOn(s, s', x, s'.workers[w], act)
  {
    var s' := Read(s, w, x.key, todo);
    if x.key in s.items && s.items[x.key].marked {
      assert s'.workers[w] == Examining(x.key) || s'.workers[w] == Erasing(x.key);
      assert s'.h.condemned == s.h.condemned + {x.key};
    } else {
      assert s'.h.condemned == s.h.condemned;
    }
  }

  lemma HeldPresses(s: Sys, w: nat, x: Worker, act: Act)
    requires CanAct(s, w, act) && x == s.workers[w] && x.Held?
    ensures
      var s' := AtHeld(s, w, x, act);
      w < |s'.workers| && Holds(s'.workers[w]) && PressesOn(s, s', x, s'.workers[w], act)
  {
    if !act.Fails? {
      ReadPresses(s, w, x, act, if x.key in s.items then InNameOrder(s.items[x.key].references) else []);
    }
  }

  lemma ExaminingPresses(s: Sys, w: nat, x: Worker, act: Act)
    requires CanAct(s, w, act) && x == s.workers[w] && x.Examining?
    ensures
      var s' := AtExamining(s, w, x, act);
      w < |s'.workers| && Holds(s'.workers[w]) && PressesOn(s, s', x, s'.workers[w], act)
  {
  }

  lemma ListingPresses(s: Sys, w: nat, x: Worker, act: Act)
    requires CanAct(s, w, act) && x == s.workers[w] && x.Listing?
    ensures
      var s' := AtListing(s, w, x, act);
      w < |s'.workers| && Holds(s'.workers[w]) && PressesOn(s, s', x, s'.workers[w], act)
  {
  }

  lemma RemoveNextGoes(s: Sys, w: nat, x: Worker)
    requires w < |s.workers| && x == s.workers[w] && x.Removing? && x.ids != []
    ensures
      var s' := RemoveNext(s, w, x.key, x.update, x.ids);
      && w < |s'.workers|
      && (s'.workers[w] == x.(ids := x.ids[1..])
          || s'.workers[w] == Reporting(x.key, if x.update.Some? then ERROR else DELETING, Failed))
  {
  }

  lemma RemoveNextIsQuiet(s: Sys, w: nat, x: Worker)
    requires w < |s.workers| && x == s.workers[w] && x.Removing? && x.ids != []
    ensures RemoveNext(s, w, x.key, x.update, x.ids).h == s.h
  {
  }

  lemma RemoveNextPresses(s: Sys, s': Sys, w: nat, x: Worker, act: Act)
    requires w < |s.workers| && x == s.workers[w] && x.Removing? && x.ids != []
    requires s' == RemoveNext(s, w, x.key, x.update, x.ids)
    ensures w < |s'.workers| && Holds(s'.workers[w]) && PressesOn(s, s', x, s'.workers[w], act)
  {
    RemoveNextGoes(s, w, x);
    RemoveNextIsQuiet(s, w, x);
  }

  lemma RemovingPresses(s: Sys, w: nat, x: Worker, act: Act)
    requires CanAct(s, w, act) && x == s.workers[w] && x.Removing?
    ensures
      var s' := AtRemoving(s, w, x, act);
      w < |s'.workers| && Holds(s'.workers[w]) && PressesOn(s, s', x, s'.workers[w], act)
  {
    if !act.Fails? && x.ids != [] {
      RemoveNextPresses(s, RemoveNext(s, w, x.key, x.update, x.ids), w, x, act);
    }
  }

  lemma ErasingPresses(s: Sys, w: nat, x: Worker, act: Act)
    requires CanAct(s, w, act) && x == s.workers[w] && x.Erasing?
    ensures
      var s' := AtErasing(s, w, x, act);
      w < |s'.workers| && Holds(s'.workers[w]) && PressesOn(s, s', x, s'.workers[w], act)
  {
  }

  lemma ReportingPresses(s: Sys, w: nat, x: Worker, act: Act)
    requires CanAct(s, w, act) && x == s.workers[w] && x.Reporting?
    ensures
      var s' := AtReporting(s, w, x, act);
      w < |s'.workers| && Holds(s'.workers[w]) && PressesOn(s, s', x, s'.workers[w], act)
  {
  }

  /** Elsewhere no mark is read. */
  lemma MovingPresses(s: Sys, s': Sys, w: nat, x: Worker, act: Act)
    requires OnlyMoves(s, s', w, x) && !TearingDown(x) && !x.Held? && !x.Reporting?
    ensures PressesOn(s, s', x, s'.workers[w], act)
  {
  }

  lemma ResolvingPresses(s: Sys, w: nat, x: Worker, act: Act)
    requires CanAct(s, w, act) && x == s.workers[w] && x.Resolving?
    ensures
      var s' := AtResolving(s, w, x, act);
      w < |s'.workers| && Holds(s'.workers[w]) && PressesOn(s, s', x, s'.workers[w], act)
  {
    ResolveMovesOnly(s, w, x);
    MovingPresses(s, AtResolving(s, w, x, act), w, x, act);
  }

  lemma ObservingPresses(s: Sys, w: nat, x: Worker, act: Act)
    requires CanAct(s, w, act) && x == s.workers[w] && x.Observing?
    ensures
      var s' := AtObserving(s, w, x, act);
      w < |s'.workers| && Holds(s'.workers[w]) && PressesOn(s, s', x, s'.workers[w], act)
  {
    ObservedMovesOnly(s, w, x, Answer(s, x.spec, act));
    MovingPresses(s, AtObserving(s, w, x, act), w, x, act);
  }

  lemma ChangingPresses(s: Sys, w: nat, x: Worker, act: Act)
    requires CanAct(s, w, act) && x == s.workers[w] && (x.Making? || x.Starting? || x.Reobserving?)
    ensures
      var s' := Effect(s, w, act);
      w < |s'.workers| && Holds(s'.workers[w]) && PressesOn(s, s', x, s'.workers[w], act)
  {
  }

  lemma FinishPresses(s: Sys, w: nat, x: Worker, act: Act)
    requires CanAct(s, w, act) && x == s.workers[w] && (x.Failing? || x.Arming? || x.Forgetting?)
    ensures
      var s' := Effect(s, w, act);
      w < |s'.workers| && Holds(s'.workers[w]) && PressesOn(s, s', x, s'.workers[w], act)
  {
  }

  lemma ActPresses(s: Sys, w: nat, act: Act, s': Sys)
    requires CanAct(s, w, act) && !s.workers[w].Releasing? && s' == Effect(s, w, act) && HasFootprint(s, s', w, act)
    ensures PressesOn(s, s', s.workers[w], s'.workers[w], act)
  {
    var x := s.workers[w];
    match x
    case Held(_) => HeldPresses(s, w, x, act);
    case Examining(_) => ExaminingPresses(s, w, x, act);
    case Listing(_, _) => ListingPresses(s, w, x, act);
    case Removing(_, _, _) => RemovingPresses(s, w, x, act);
    case Erasing(_) => ErasingPresses(s, w, x, act);
    case Reporting(_, _, _) => ReportingPresses(s, w, x, act);
    case Resolving(_, _, _, _) => ResolvingPresses(s, w, x, act);
    case Observing(_, _) => ObservingPresses(s, w, x, act);
    case Making(_, _) => ChangingPresses(s, w, x, act);
    case Starting(_, _, _) => ChangingPresses(s, w, x, act);
    case Reobserving(_, _) => ChangingPresses(s, w, x, act);
    case Failing(_) => FinishPresses(s, w, x, act);
    case Arming(_, _) => FinishPresses(s, w, x, act);
    case Forgetting(_) => FinishPresses(s, w, x, act);
  }

  lemma OthersStillPress(workers: seq<Worker>, w: nat, x': Worker, key: Key)
    requires w < |workers| && AnyPresses(workers, key) && (Presses(workers[w], key) ==> Presses(x', key))
    ensures AnyPresses(workers[w := x'], key)
  {
    var v :| 0 <= v < |workers| && Presses(workers[v], key);
    assert Presses(workers[w := x'][v], key);
  }

  lemma KeyStaysPressed(s: Sys, s': Sys, w: nat, x: Worker, x': Worker, act: Act, key: Key)
    requires Inv(s) && Pressed(s) && Footprint(s, s', w, x, x', act) && PressesOn(s, s', x, x', act)
    requires key in s'.h.condemned
    ensures key in s'.h.retry || AnyPresses(s'.workers, key)
  {
    if key !in s.h.condemned || (StartsPass(x, act) && x.key == key) {
      assert Presses(s'.workers[w], key);
    } else if key in s.h.retry {
    } else if x.key != key {
      OthersStillPress(s.workers, w, x', key);
    } else {
      var v :| 0 <= v < |s.workers| && Presses(s.workers[v], key);
      assert v == w;
      assert Presses(x', key) ==> Presses(s'.workers[w], key);
    }
  }

  lemma ActKeepsPressed(s: Sys, w: nat, act: Act, s': Sys)
    requires Inv(s) && Pressed(s) && CanAct(s, w, act) && s' == Effect(s, w, act)
    ensures Pressed(s')
  {
    if s.workers[w].Releasing? {
      forall key | key in s'.h.condemned ensures key in s'.h.retry || AnyPresses(s'.workers, key) {
        if AnyPresses(s.workers, key) {
          OthersStillPress(s.workers, w, Idle, key);
        }
      }
    } else {
      ActFootprint(s, w, act);
      ActPresses(s, w, act, s');
      forall key | key in s'.h.condemned ensures key in s'.h.retry || AnyPresses(s'.workers, key) {
        KeyStaysPressed(s, s', w, s.workers[w], s'.workers[w], act, key);
      }
    }
  }

  lemma HappenKeepsPressed(s: Sys, step: Step)
    requires Pressed(s) && Possible(s, step)
    ensures Pressed(Happen(s, step))
  {
    var s' := Happen(s, step);
    HappenWorkers(s, step);
    HappenHistory(s, step);
    forall key | key in s'.h.condemned ensures key in s'.h.retry || AnyPresses(s'.workers, key) {
      if AnyPresses(s.workers, key) && (step.Takes? || step.Exits?) {
        OthersStillPress(s.workers, step.w, s'.workers[step.w], key);
      }
    }
  }

  lemma StepKeepsPressed(s: Sys, step: Step)
    requires Inv(s) && Pressed(s) && Enabled(s, step)
    ensures Pressed(Do(s, step))
  {
    if step.Acts? {
      ActKeepsPressed(s, step.w, step.act, Effect(s, step.w, step.act));
    } else {
      HappenKeepsPressed(s, step);
    }
  }

  lemma {:induction false} RunKeepsPressed(s: Sys, steps: seq<Step>)
    requires Inv(s) && Pressed(s) && LegalRun(s, steps)
    ensures Pressed(Run(s, steps))
    decreases steps
  {
    if steps != [] {
      StepKeepsInv(s, steps[0]);
      StepKeepsPressed(s, steps[0]);
      RunKeepsPressed(Do(s, steps[0]), steps[1..]);
    }
  }

  /** Once a pass has read the mark of a key, until the entry is erased a worker is at its
      removal or another pass over it is on its way, until shutdown. */
  lemma TeardownGoesOn(s: Sys, key: Key)
    requires Reachable(s) && key in s.h.condemned && !s.queue.shuttingDown
    ensures key in s.items && s.items[key].marked
    ensures Upcoming(s, key) || AnyPresses(s.workers, key)
  {
    var s0, steps :| Initial(s0) && LegalRun(s0, steps) && Run(s0, steps) == s;
    InitialInv(s0);
    RunKeepsPressed(s0, steps);
    RunKeepsInv(s0, steps);
    if key in s.h.retry {
      NoLostRetry(s, key);
    }
  }
}
