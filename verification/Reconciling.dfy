/** The reconciler's pass over one key, as the code performs it
    (core/reconcile/reconciler.go:166-380), against the function Pass. */
module Reconciling {
  import opened Model
  import opened Queues
  import opened Backoff
  import opened Engine
  import opened System
  import opened Ordered
  import opened JsonText
  import opened Passes
  import opened PassFrame
  import opened Provider
  import opened Admission
  import opened PassVerdicts
  import Tokens

  const DELETION_REQUEUE := 500_000_000
  const REFERENCE_REQUEUE := 1_000_000_000

  // Collecting the names in map order and sorting them has one possible result.

  function NamesOf(todo: seq<Named>): seq<Bytes> {
    seq(|todo|, i requires 0 <= i < |todo| => todo[i].name)
  }

  lemma NameListed(todo: seq<Named>, name: Bytes)
    ensures name in NamesOf(todo) <==> exists n :: n in todo && n.name == name
  {
    if name in NamesOf(todo) {
      var i :| 0 <= i < |todo| && NamesOf(todo)[i] == name;
      assert todo[i] in todo;
    }
    if n :| n in todo && n.name == name {
      var i :| 0 <= i < |todo| && todo[i] == n;
      assert NamesOf(todo)[i] == name;
    }
  }

  lemma SortedIsInNameOrder(todo: seq<Named>, references: map<Bytes, Reference>)
    requires Increasing(todo) && SameReferences(todo, references)
    ensures todo == InNameOrder(references)
  {
    var sorted := InNameOrder(references);
    forall name ensures name in NamesOf(todo) <==> name in NamesOf(sorted) {
      NameListed(todo, name);
      NameListed(sorted, name);
      if name in references {
        assert Named(name, references[name]) in todo && Named(name, references[name]) in sorted;
      }
    }
    OneRising(NamesOf(todo), NamesOf(sorted));
    forall i | 0 <= i < |todo| ensures |todo| == |sorted| && todo[i] == sorted[i] {
      assert |NamesOf(todo)| == |NamesOf(sorted)| && NamesOf(todo)[i] == NamesOf(sorted)[i];
      assert todo[i] in todo && sorted[i] in sorted;
    }
    assert |NamesOf(todo)| == |NamesOf(sorted)|;
  }

  /** The references in name order, whatever order the map yields them in. */
  method SortedReferences(references: map<Bytes, Reference>) returns (todo: seq<Named>)
    ensures todo == InNameOrder(references)
  {
    todo := [];
    var rest := references.Keys;
    while rest != {}
      invariant rest <= references.Keys
      invariant Increasing(todo) && SameReferences(todo, references - rest)
      decreases |rest|
    {
      var name :| name in rest;
      var done := references - (rest - {name});
      assert done - {name} == references - rest;
      InsertKeepsOrder(todo, Named(name, references[name]));
      InsertReference(todo, done, name);
      todo := Insert(todo, Named(name, references[name]));
      rest := rest - {name};
    }
    assert references - {} == references;
    SortedIsInNameOrder(todo, references);
  }

  /** What resolveReferences returns: a Spec to converge, a wait message or an error. */
  datatype Verdict = Converge(spec: Bytes) | WaitFor(why: Message) | Faulty

  ghost function VerdictOf(snapshot: Resource, r: Resolution): Verdict {
    match r
    case Broken => Faulty
    case Parked(why) => WaitFor(why)
    case Values(values) => match Resolved(snapshot, values) case None => Faulty case Some(spec) => Verdict.Converge(spec)
  }

  function EnqueueAll(q: Queue<Key>, order: seq<Key>): Queue<Key>
    decreases |order|
  {
    if order == [] then q else EnqueueAll(Enqueue(q, order[0]), order[1..])
  }

  lemma {:induction false} EnqueueAllAppends(q: Queue<Key>, order: seq<Key>, key: Key)
    ensures EnqueueAll(q, order + [key]) == Enqueue(EnqueueAll(q, order), key)
    decreases |order|
  {
    if order == [] {
      assert order + [key] == [key] && [key][1..] == [];
    } else {
      assert (order + [key])[0] == order[0] && (order + [key])[1..] == order[1..] + [key];
      EnqueueAllAppends(Enqueue(q, order[0]), order[1..], key);
    }
  }

  /** After a sweep every listed key is pending, and no key that already was is lost;
      once the queue is shut down a sweep does nothing. */
  lemma {:induction false} SweepLeavesAllDirty(q: Queue<Key>, order: seq<Key>)
    ensures q.shuttingDown ==> EnqueueAll(q, order) == q
    ensures !q.shuttingDown ==> EnqueueAll(q, order).dirty == q.dirty + set k | k in order
    ensures EnqueueAll(q, order).processing == q.processing && q.ready <= EnqueueAll(q, order).ready
    decreases |order|
  {
    if order != [] {
      SweepLeavesAllDirty(Enqueue(q, order[0]), order[1..]);
      assert order == [order[0]] + order[1..];
    }
  }

  lemma ResolveUnfolds(items: Items, todo: seq<Named>, i: nat, values: map<Bytes, Bytes>, env: Env)
    requires i < |todo|
    ensures
      var name, ref, wait := todo[i].name, todo[i].ref, Wait(items, todo[i].ref);
      Resolve(items, todo[i..], values, env) ==
        if ResolveCall(name) in env.faults then Broken
        else if wait != NoMessage then Parked(wait)
        else Resolve(items, todo[i + 1..], values[name := items[ref.target].status.observed[ref.field]], env)
  {
    assert todo[i..][1..] == todo[i + 1..];
  }

  /** What the verdict means, for the Spec and for the references. */
  lemma VerdictIsSpliced(items: Items, snapshot: Resource, env: Env)
    ensures
      var v := VerdictOf(snapshot, Resolve(items, InNameOrder(snapshot.references), map[], env));
      && (v.Converge? ==>
            && Resolvable(items, snapshot.references) && v.spec == SplicedSpec(items, snapshot)
            && (if snapshot.references == map[] then v.spec == snapshot.spec else ValidJson(v.spec))
            && (Closed(snapshot.references, snapshot.spec) ==>
                  SplicedBy(snapshot.spec, ReportedValues(items, snapshot.references), v.spec)))
      && (v.WaitFor? ==>
            exists i: nat :: FirstBlocked(items, InNameOrder(snapshot.references), i)
                             && v.why == Wait(items, InNameOrder(snapshot.references)[i].ref))
      && (env.faults == {} ==> (v.WaitFor? <==> !Resolvable(items, snapshot.references)))
  {
    var r := Resolve(items, InNameOrder(snapshot.references), map[], env);
    ResolutionVerdict(items, InNameOrder(snapshot.references), map[], env);
    ResolvesIffResolvable(items, snapshot.references, env);
    if r.Values? {
      ResolvedIsSpliced(items, snapshot, env);
      if Closed(snapshot.references, snapshot.spec) {
        AcceptedIsSpliced(items, snapshot);
      }
    }
  }

  class Reconciler {
    var items: Items
    var nudged: bool
    const docker: Docker
    const queue: WorkQueue<Key>

    constructor (docker: Docker, queue: WorkQueue<Key>)
      ensures items == map[] && !nudged && this.docker == docker && this.queue == queue
    {
      items, nudged := map[], false;
      this.docker, this.queue := docker, queue;
    }

    /** A full slot is enough: the send never blocks. */
    method Nudge()
      modifies this`nudged
      ensures nudged
    {
      if !nudged {
        nudged := true;
      }
    }

    /** Lists every resource, in map order, and enqueues each. */
    method Resync(listFails: bool) returns (ghost order: seq<Key>)
      modifies queue
      ensures listFails ==> order == []
      ensures !listFails ==> Distinct(order) && forall k :: k in order <==> k in items
      ensures queue.State() == EnqueueAll(old(queue.State()), order) && queue.timers == old(queue.timers)
    {
      order := [];
      if listFails {
        return;
      }
      var rest := items.Keys;
      while rest != {}
        invariant rest <= items.Keys && Distinct(order)
        invariant forall k :: k in order <==> k in items && k !in rest
        invariant queue.State() == EnqueueAll(old(queue.State()), order) && queue.timers == old(queue.timers)
        decreases |rest|
      {
        var key :| key in rest;
        rest := rest - {key};
        EnqueueAllAppends(old(queue.State()), order, key);
        queue.Add(key);
        order := order + [key];
      }
    }

    method SetStatus(key: Key, status: Status, env: Env)
      modifies this`items
      ensures items == Passes.SetStatus(old(items), key, status, env)
    {
      if StatusCall !in env.faults && key in items {
        items := items[key := items[key].(status := status)];
      }
    }

    /** The loop over the references: the values, or the first that is not ready. */
    method ResolveEach(todo: seq<Named>, env: Env) returns (r: Resolution)
      ensures r == Resolve(items, todo, map[], env)
    {
      var values: map<Bytes, Bytes> := map[];
      var i := 0;
      while i < |todo|
        invariant 0 <= i <= |todo|
        invariant Resolve(items, todo[i..], values, env) == Resolve(items, todo, map[], env)
      {
        var ref := todo[i].ref;
        ResolveUnfolds(items, todo, i, values, env);
        if ResolveCall(todo[i].name) in env.faults {
          return Broken;
        }
        if ref.target !in items {
          return Parked(NoSuchResource(ref.target));
        }
        var status := items[ref.target].status;
        if !status.ready {
          return Parked(TargetNotReady(ref.target));
        }
        if ref.field !in status.observed || status.observed[ref.field] == [] {
          return Parked(FieldNotSet(ref.target, ref.field));
        }
        values := values[todo[i].name := status.observed[ref.field]];
        i := i + 1;
      }
      return Values(values);
    }

    method ResolveReferences(snapshot: Resource, env: Env) returns (v: Verdict)
      ensures v == VerdictOf(snapshot, Resolve(items, InNameOrder(snapshot.references), map[], env))
      ensures v.Converge? ==> Resolvable(items, snapshot.references) && v.spec == SplicedSpec(items, snapshot)
      ensures v.Converge? && snapshot.references == map[] ==> v.spec == snapshot.spec
      ensures v.Converge? && snapshot.references != map[] ==> ValidJson(v.spec)
      ensures v.Converge? && Closed(snapshot.references, snapshot.spec) ==>
                SplicedBy(snapshot.spec, ReportedValues(items, snapshot.references), v.spec)
      ensures v.WaitFor? ==>
                exists i: nat :: FirstBlocked(items, InNameOrder(snapshot.references), i)
                                 && v.why == Wait(items, InNameOrder(snapshot.references)[i].ref)
      ensures env.faults == {} ==> (v.WaitFor? <==> !Resolvable(items, snapshot.references))
    {
      VerdictIsSpliced(items, snapshot, env);
      if snapshot.references == map[] {
        assert InNameOrder(snapshot.references) == [];
        return Verdict.Converge(snapshot.spec);
      }
      var todo := SortedReferences(snapshot.references);
      var r := ResolveEach(todo, env);
      match r {
        case Broken => return Faulty;
        case Parked(why) => return WaitFor(why);
        case Values(values) =>
          var spec := Tokens.SubstituteReferences(snapshot.spec, values);
          if !ValidJson(spec) {
            return Faulty;
          }
          return Verdict.Converge(spec);
      }
    }

    method ConvergeObject(key: Key, spec: Bytes, env: Env) returns (status: Status, outcome: Outcome)
      requires Single(docker.sub)
      modifies docker
      ensures Converged(docker.sub, status, outcome) == Passes.Converge(old(docker.sub), key, spec, env)
      ensures Single(docker.sub)
      ensures key.kind != "container" && key.kind != "network" ==>
                docker.sub == old(docker.sub) && status == Status(Phase.Error, false, NoProvider, map[]) && outcome == Passed
      ensures (key.kind == "container" || key.kind == "network") && env.faults == {} && Fresh(old(docker.sub), env.id)
              && outcome == Passed ==>
                exists id :: Owned(docker.sub, key) == {id} && docker.sub.objs[id].hash == SpecHash(spec)
                             && StatusTells(status, id, docker.sub.objs[id], spec)
    {
      if HasProvider(key.kind) {
        if env.faults == {} && Fresh(docker.sub, env.id) && Passes.Converge(docker.sub, key, spec, env).outcome == Passed {
          ConvergedIsTold(docker.sub, key, spec, env);
        }
      } else {
        OtherKindsAreLeft(docker.sub, key, spec, env);
      }
      if !Managed(key) {
        return Status(Error, false, NoProvider, map[]), Passed;
      }
      if ObserveCall in env.faults {
        return ERROR, Outcome.Failed;
      }
      var obs := docker.Observe(key, spec);
      if !obs.exists_ || !obs.upToDate {
        var ok;
        if !obs.exists_ {
          CreateKeepsSingle(docker.sub, key, spec, env);
          ok := docker.Create(key, spec, env);
        } else {
          UpdateKeepsSingle(docker.sub, key, spec, env);
          ok := docker.Update(key, spec, env);
        }
        if !ok {
          return ERROR, Outcome.Failed;
        }
        if ReobserveCall in env.faults {
          return Status(Creating, false, CallFailed, map[]), Outcome.Failed;
        }
        obs := docker.Observe(key, spec);
      }
      var ready := obs.ready && obs.upToDate;
      return Status(if ready then Ready else Creating, ready, obs.message, obs.details), Passed;
    }

    ghost function World(): World
      reads this, docker
    {
      Passes.World.World(items, docker.sub)
    }

    method RemoveFromStore(key: Key, env: Env) returns (outcome: Outcome)
      modifies this`items
      ensures PassResult(World(), outcome) == ErasePass(old(World()), key, env)
    {
      if EraseCall in env.faults {
        return Outcome.Failed;
      }
      items := items - {key};
      return Passed;
    }

    method ReconcileDeletion(key: Key, env: Env) returns (outcome: Outcome)
      requires key in items && Single(docker.sub)
      modifies this`items, docker
      ensures PassResult(World(), outcome) == DeletionPass(old(World()), key, env)
      ensures Single(docker.sub)
    {
      if !Managed(key) {
        outcome := RemoveFromStore(key, env);
        return;
      }
      if ObserveCall in env.faults {
        SetStatus(key, DELETING, env);
        return Outcome.Failed;
      }
      DeleteKeepsSingle(docker.sub, key, env);
      var obs := docker.Observe(key, items[key].spec);
      if obs.exists_ {
        var ok := docker.Delete(key, env);
        if !ok {
          SetStatus(key, DELETING, env);
          return Outcome.Failed;
        }
        SetStatus(key, REMOVING, env);
        return Again;
      }
      outcome := RemoveFromStore(key, env);
    }

    method Reconcile(key: Key, env: Env) returns (outcome: Outcome)
      requires key in items && GetCall !in env.faults && Single(docker.sub)
      modifies this`items, docker
      ensures PassResult(World(), outcome) == Pass(old(World()), key, env)
      ensures Single(docker.sub)
    {
      var snapshot := items[key];
      if snapshot.marked {
        outcome := ReconcileDeletion(key, env);
        return;
      }
      var v := ResolveReferences(snapshot, env);
      match v {
        case Faulty =>
          SetStatus(key, ERROR, env);
          return Outcome.Failed;
        case WaitFor(why) =>
          SetStatus(key, Status(Pending, false, why, map[]), env);
          return Again;
        case Converge(spec) =>
          var status, o := ConvergeObject(key, spec, env);
          SetStatus(key, status, env);
          return o;
      }
    }

    /** process: the pass, then what its outcome asks of the queue, then the release. */
    method Process(key: Key, env: Env)
      requires Single(docker.sub)
      requires 0 < queue.limiter.base <= queue.limiter.max && queue.limiter.base < 0x800_0000_0000
      modifies this`items, docker, queue, queue.limiter`fails
      ensures World() == Pass(old(World()), key, env).world && Single(docker.sub)
      ensures queue.State() == Queues.Done(old(queue.State()), key)
      ensures
        var outcome := Pass(old(World()), key, env).outcome;
        && queue.timers == old(queue.timers) + (if outcome == Passed then multiset{} else multiset{key})
        && queue.limiter.fails == if outcome == Outcome.Failed then Backoff.Failed(old(queue.limiter.fails), key)
                                  else Forgotten(old(queue.limiter.fails), key)
    {
      var outcome := Passed;
      if GetCall in env.faults {
        outcome := Outcome.Failed;
      } else if key in items {
        outcome := Reconcile(key, env);
      }
      Requeue(key, outcome, if key in items && items[key].marked then DELETION_REQUEUE else REFERENCE_REQUEUE);
      queue.Release(key);
    }

    /** What an outcome asks of the queue. */
    method Requeue(key: Key, outcome: Outcome, delay: int)
      requires 0 < queue.limiter.base <= queue.limiter.max && queue.limiter.base < 0x800_0000_0000 && delay > 0
      modifies queue, queue.limiter`fails
      ensures queue.State() == old(queue.State())
      ensures queue.timers == old(queue.timers) + (if outcome == Passed then multiset{} else multiset{key})
      ensures queue.limiter.fails == if outcome == Outcome.Failed then Backoff.Failed(old(queue.limiter.fails), key)
                                     else Forgotten(old(queue.limiter.fails), key)
    {
      match outcome {
        case Failed => queue.AddRateLimited(key);
        case Again =>
          queue.AddAfter(key, delay);
          queue.Forget(key);
        case Passed => queue.Forget(key);
      }
    }
  }
}
