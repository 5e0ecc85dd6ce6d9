/** Stretches of a run of the whole system in which a key has a complete pass, however
    the passes of different keys overlap (core/reconcile/reconciler.go:153-185). */
module Segments {
  import opened Model
  import opened Engine
  import opened System
  import opened SystemInvariant
  import opened SystemFootprint
  import opened SystemTheorems
  import opened PassFrame
  import opened Simulation

  /** The step ends a pass over `key`. */
  ghost predicate Ends(s: Sys, step: Step, key: Key)
    requires Enabled(s, step)
  {
    && step.Acts? && Holds(s.workers[step.w]) && s.workers[step.w].key == key
    && step.w < |Do(s, step).workers| && Concludes(s.workers[step.w], Do(s, step).workers[step.w])
  }

  ghost predicate EndsIn(s: Sys, steps: seq<Step>, key: Key)
    requires LegalRun(s, steps)
    decreases steps
  {
    steps != [] && (Ends(s, steps[0], key) || EndsIn(Do(s, steps[0]), steps[1..], key))
  }

  /** Some pass over `key` both reads its entry and ends within the steps. */
  ghost predicate PassIn(s: Sys, steps: seq<Step>, key: Key)
    requires LegalRun(s, steps)
    decreases steps
  {
    steps != [] &&
    ((Reads(s, steps[0], key) && EndsIn(Do(s, steps[0]), steps[1..], key)) || PassIn(Do(s, steps[0]), steps[1..], key))
  }

  ghost predicate AllPassIn(s: Sys, steps: seq<Step>)
    requires LegalRun(s, steps)
  {
    forall key | key in s.items :: PassIn(s, steps, key)
  }

  /** A step of a worker on one key leaves the rest of the world alone. */
  lemma ActFrame(s: Sys, w: nat, act: Act, s': Sys)
    requires Inv(s) && CanAct(s, w, act) && s' == Effect(s, w, act) && !s.workers[w].Releasing?
    ensures HasFootprint(s, s', w, act) && Frame(WorldOf(s), WorldOf(s'), s.workers[w].key) && Inv(s')
  {
    ActFootprint(s, w, act);
    StepKeepsInv(s, Acts(w, act));
    assert WorkerOk(s, s.workers[w]);
    SubMovesElsewhere(s.sub, s'.sub, s.workers[w], act);
  }

  lemma SubMovesElsewhere(sub: Substrate, sub': Substrate, x: Worker, act: Act)
    requires Holds(x) && SubMoves(sub, sub', x, act)
    requires x.Removing? && x.ids != [] && x.ids[0] in sub.objs ==> sub.objs[x.ids[0]].key == x.key
    requires x.Making? && act.Makes? ==> act.id !in sub.objs
    requires x.Starting? && x.id in sub.objs ==> sub.objs[x.id].key == x.key
    ensures SameObjects(sub, sub', x.key)
  {
  }

  /** Only its own step moves a worker that holds a key, and nobody else's step ends the
      pass over that key. */
  lemma OthersMove(s: Sys, step: Step, w: nat, key: Key)
    requires Inv(s) && Enabled(s, step) && w < |s.workers| && Holds(s.workers[w]) && s.workers[w].key == key
    requires !(step.Acts? && step.w == w)
    ensures w < |Do(s, step).workers| && Do(s, step).workers[w] == s.workers[w] && !Ends(s, step, key)
  {
    if step.Acts? {
      OtherActs(s, step.w, step.act, Effect(s, step.w, step.act), w);
    }
  }

  lemma OtherActs(s: Sys, v: nat, act: Act, s': Sys, w: nat)
    requires Inv(s) && CanAct(s, v, act) && s' == Effect(s, v, act) && w < |s.workers| && w != v
    ensures w < |s'.workers| && s'.workers[w] == s.workers[w]
  {
    if !s.workers[v].Releasing? {
      ActFootprint(s, v, act);
    }
  }
}
