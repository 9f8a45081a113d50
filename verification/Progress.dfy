/** What one undisturbed reconcile achieves, from any state that a run can reach. */
module Progress {
  import opened Wrappers
  import opened Resources
  import opened Hub
  import opened Safety
  import opened Effects
  import opened Lifecycle

  /** `n` calls in a row that all succeed. */
  function Calls(k: Key, n: nat): (actions: seq<Action>)
    ensures |actions| == n
    ensures forall a :: a in actions ==> a == Call(k, NoFault)
  {
    if n == 0 then [] else [Call(k, NoFault)] + Calls(k, n - 1)
  }

  /** A reconcile of `k` on a fresh read, with nobody else moving: claim if needed, compute, then read and write
      every listed cluster, and finish. */
  function CleanReconcile(w: World, k: Key, plan: seq<Content>): seq<Action> {
    Opening(w, k) + Body(k, plan)
  }

  function Opening(w: World, k: Key): seq<Action> {
    [Begin(k, |w.History(k)| - 1)] + (if Held(k, w.Current(k)) then [] else [Call(k, NoFault)])
  }

  function Body(k: Key, plan: seq<Content>): seq<Action> {
    [Plan(k, Some(plan))] + Calls(k, 2 * |plan| + 1)
  }

  lemma {:induction false} CallsAdd(k: Key, n: nat, m: nat)
    ensures Calls(k, n) + Calls(k, m) == Calls(k, n + m)
  {
    if n == 0 {
      assert Calls(k, 0) + Calls(k, m) == Calls(k, m);
    } else {
      CallsAdd(k, n - 1, m);
    }
  }

  lemma CallsGrow(before: seq<Action>, k: Key, n: nat)
    ensures before + Calls(k, n) + [Call(k, NoFault)] == before + Calls(k, n + 1)
  {
    CallsAdd(k, n, 1);
    assert Calls(k, 1) == [Call(k, NoFault)];
  }

  lemma CallTwice(before: seq<Action>, k: Key)
    ensures before + [Call(k, NoFault)] + [Call(k, NoFault)] == before + Calls(k, 2)
  {
    assert Calls(k, 2) == [Call(k, NoFault)] + Calls(k, 1);
    assert Calls(k, 1) == [Call(k, NoFault)];
  }

  /** The body of a reconcile up to the first `next` clusters. */
  function BodyUpTo(k: Key, plan: seq<Content>, next: nat): seq<Action> {
    [Plan(k, Some(plan))] + Calls(k, 2 * next)
  }

  lemma BodyGrows(before: seq<Action>, k: Key, plan: seq<Content>, next: nat)
    ensures before + BodyUpTo(k, plan, next) + Calls(k, 2) == before + BodyUpTo(k, plan, next + 1)
  {
    CallsAdd(k, 2 * next, 2);
    assert BodyUpTo(k, plan, next) + Calls(k, 2) == BodyUpTo(k, plan, next + 1);
  }

  lemma BodyEnds(before: seq<Action>, k: Key, plan: seq<Content>)
    ensures before + BodyUpTo(k, plan, |plan|) + [Call(k, NoFault)] == before + Body(k, plan)
  {
    CallsAdd(k, 2 * |plan|, 1);
    assert Calls(k, 1) == [Call(k, NoFault)];
    assert BodyUpTo(k, plan, |plan|) + [Call(k, NoFault)] == Body(k, plan);
  }

  lemma RunHead(w: World, a: Action, rest: seq<Action>)
    ensures Run(w, [a] + rest) == Run(Do(w, a), rest)
  {
    assert ([a] + rest)[1..] == rest;
  }

  /** Every target holds what was planned for it. */
  ghost predicate Converged(w: World, k: Key, targets: seq<string>, plan: seq<Content>, upTo: nat)
    requires upTo <= |plan| == |targets|
  {
    forall i :: 0 <= i < upTo ==>
      var wk := WorkKey(targets[i], WorkName(k));
      wk in w.works && w.works[wk].content == plan[i] && w.works[wk].writer == k
  }

  /** A cluster listed twice gets the same content twice. */
  ghost predicate Consistent(targets: seq<string>, plan: seq<Content>) {
    && |plan| == |targets|
    && forall i, j :: 0 <= i < |targets| && 0 <= j < |targets| && targets[i] == targets[j] ==> plan[i] == plan[j]
  }

  ghost predicate AtCluster(w: World, k: Key, o: Object, plan: seq<Content>, next: nat) {
    w.PhaseOf(k) == Applying(o, plan, next, Getting(RETRY_STEPS))
  }

  /** Labels and spec of every work other than those of the targets stay as they are. */
  ghost predicate OtherWorksKept(w: World, w': World, k: Key, targets: seq<string>) {
    forall wk: WorkKey :: wk.name != WorkName(k) || wk.cluster !in targets ==> SameWork(w, w', wk)
  }

  lemma WriteOne(w: World, k: Key, o: Object, plan: seq<Content>, next: nat)
    requires AtCluster(w, k, o, plan, next) && next < |plan| == |Targets(o.spec)|
    ensures var w' := Request(Request(w, k, NoFault), k, NoFault);
            && AtCluster(w', k, o, plan, next + 1)
            && WorkAt(k, o, next) in w'.works && w'.works[WorkAt(k, o, next)].content == plan[next]
            && w'.works[WorkAt(k, o, next)].writer == k
            && (forall wk :: wk != WorkAt(k, o, next) ==> SameWork(w, w', wk))
            && w'.history == w.history
  {
    var wk := WorkAt(k, o, next);
    var w1 := GetWork(w, k, o, plan, next, RETRY_STEPS, NoFault);
    assert Request(w, k, NoFault) == w1;
    if wk in w.works {
      assert Request(w1, k, NoFault) == LandNext(w1, k, o, plan, next, w.works[wk].other, NoFault);
    } else {
      assert Request(w1, k, NoFault) == LandNext(w1, k, o, plan, next, "", NoFault);
    }
  }

  lemma {:induction false} WriteRest(w: World, k: Key, o: Object, plan: seq<Content>, next: nat)
    requires AtCluster(w, k, o, plan, next) && next <= |plan| && Consistent(Targets(o.spec), plan)
    requires Converged(w, k, Targets(o.spec), plan, next)
    ensures var w' := Run(w, Calls(k, 2 * (|plan| - next) + 1));
            && w'.PhaseOf(k) == Idle
            && Converged(w', k, Targets(o.spec), plan, |plan|)
            && OtherWorksKept(w, w', k, Targets(o.spec))
            && w'.history == w.history
    decreases |plan| - next, 1
  {
    if next == |plan| {
      FinishRun(w, k, o, plan);
    } else {
      var n := 2 * (|plan| - next - 1) + 1;
      WriteOne(w, k, o, plan, next);
      WriteMore(w, Request(Request(w, k, NoFault), k, NoFault), k, o, plan, next);
      FirstTwoCalls(w, k, n);
      assert n + 2 == 2 * (|plan| - next) + 1;
    }
  }

  lemma FinishRun(w: World, k: Key, o: Object, plan: seq<Content>)
    requires AtCluster(w, k, o, plan, |plan|)
    ensures Run(w, Calls(k, 1)) == w.WithPhase(k, Idle)
  {
    FirstCall(w, k, 0);
    assert Calls(k, 0) == [];
  }

  lemma FirstTwoCalls(w: World, k: Key, n: nat)
    ensures Run(w, Calls(k, n + 2)) == Run(Request(Request(w, k, NoFault), k, NoFault), Calls(k, n))
  {
    FirstCall(w, k, n + 1);
    FirstCall(Request(w, k, NoFault), k, n);
  }

  lemma FirstCall(w: World, k: Key, n: nat)
    ensures Run(w, Calls(k, n + 1)) == Run(Request(w, k, NoFault), Calls(k, n))
  {
    assert Calls(k, n + 1)[1..] == Calls(k, n);
  }

  lemma {:induction false} WriteMore(w: World, w2: World, k: Key, o: Object, plan: seq<Content>, next: nat)
    requires AtCluster(w2, k, o, plan, next + 1) && next < |plan| && Consistent(Targets(o.spec), plan)
    requires Converged(w, k, Targets(o.spec), plan, next)
    requires WorkAt(k, o, next) in w2.works && w2.works[WorkAt(k, o, next)].content == plan[next]
    requires w2.works[WorkAt(k, o, next)].writer == k
    requires forall wk :: wk != WorkAt(k, o, next) ==> SameWork(w, w2, wk)
    requires w2.history == w.history
    ensures var w' := Run(w2, Calls(k, 2 * (|plan| - next - 1) + 1));
            && w'.PhaseOf(k) == Idle
            && Converged(w', k, Targets(o.spec), plan, |plan|)
            && OtherWorksKept(w, w', k, Targets(o.spec))
            && w'.history == w.history
    decreases |plan| - next, 0
  {
    forall i | 0 <= i < next + 1
      ensures var wk := WorkKey(Targets(o.spec)[i], WorkName(k));
              wk in w2.works && w2.works[wk].content == plan[i] && w2.works[wk].writer == k
    {
      var wk := WorkKey(Targets(o.spec)[i], WorkName(k));
      if wk != WorkAt(k, o, next) {
        assert SameWork(w, w2, wk);
      }
    }
    WriteRest(w2, k, o, plan, next + 1);
    var w' := Run(w2, Calls(k, 2 * (|plan| - next - 1) + 1));
    forall wk: WorkKey | wk.name != WorkName(k) || wk.cluster !in Targets(o.spec)
      ensures SameWork(w, w', wk)
    {
      assert SameWork(w, w2, wk) && SameWork(w2, w', wk);
    }
  }

  /** From the moment the object is claimed and read, the plan is carried out. */
  lemma PlanAndWrite(w: World, k: Key, o: Object, plan: seq<Content>)
    requires w.PhaseOf(k) == Planning(o) && Consistent(Targets(o.spec), plan)
    ensures var w' := Run(w, Body(k, plan));
            && w'.PhaseOf(k) == Idle
            && Converged(w', k, Targets(o.spec), plan, |plan|)
            && OtherWorksKept(w, w', k, Targets(o.spec))
            && w'.history == w.history
  {
    RunHead(w, Plan(k, Some(plan)), Calls(k, 2 * |plan| + 1));
    WriteRest(Prepare(w, k, Some(plan)), k, o, plan, 0);
  }

  /** The reconcile is about to plan for the stored object, which it has claimed, and has written nothing yet. */
  ghost predicate AboutToPlan(w: World, w': World, k: Key, spec: Spec) {
    && w'.PhaseOf(k).Planning? && w'.PhaseOf(k).read.spec == spec
    && w'.Current(k) == Some(w'.PhaseOf(k).read) && !w'.PhaseOf(k).read.deleting
    && Held(k, w'.Current(k))
    && w'.works == w.works
  }

  lemma ReadHeld(w: World, k: Key, o: Object)
    requires PhaseSound(w, k) && w.PhaseOf(k) == Idle && w.Current(k) == Some(o) && !o.deleting && Held(k, Some(o))
    ensures AboutToPlan(w, Start(w, k, |w.History(k)| - 1), k, o.spec)
  {
  }

  lemma ReadThenClaim(w: World, k: Key, o: Object)
    requires PhaseSound(w, k) && w.PhaseOf(k) == Idle && w.Current(k) == Some(o) && !o.deleting && !Held(k, Some(o))
    ensures AboutToPlan(w, Request(Start(w, k, |w.History(k)| - 1), k, NoFault), k, o.spec)
  {
    var w1 := Start(w, k, |w.History(k)| - 1);
    assert w1.PhaseOf(k) == Claiming(o) && Request(w1, k, NoFault) == Claim(w1, k, o, NoFault);
  }

  lemma RunOpening(w: World, k: Key)
    ensures var w1 := Start(w, k, |w.History(k)| - 1);
            Run(w, Opening(w, k)) == if Held(k, w.Current(k)) then w1 else Request(w1, k, NoFault)
  {
    var read := Begin(k, |w.History(k)| - 1);
    RunHead(w, read, if Held(k, w.Current(k)) then [] else [Call(k, NoFault)]);
    RunHead(Do(w, read), Call(k, NoFault), []);
    assert [Call(k, NoFault)] + [] == [Call(k, NoFault)];
  }

  /** After reading the stored object and claiming it if needed, the reconcile is about to plan for it. */
  lemma ReadAndClaim(w: World, k: Key, o: Object)
    requires PhaseSound(w, k) && w.PhaseOf(k) == Idle && w.Current(k) == Some(o) && !o.deleting
    ensures AboutToPlan(w, Run(w, Opening(w, k)), k, o.spec)
  {
    RunOpening(w, k);
    if Held(k, Some(o)) {
      ReadHeld(w, k, o);
    } else {
      ReadThenClaim(w, k, o);
    }
  }

  /** The plan is carried out for the stored object, and nothing else happened. */
  ghost predicate Settled(w: World, w': World, k: Key, spec: Spec, plan: seq<Content>)
    requires |plan| == |Targets(spec)|
  {
    && w'.PhaseOf(k) == Idle
    && Converged(w', k, Targets(spec), plan, |plan|)
    && OtherWorksKept(w, w', k, Targets(spec))
    && Held(k, w'.Current(k)) && !w'.Current(k).value.deleting && w'.Current(k).value.spec == spec
  }

  lemma PlanSettles(w: World, w1: World, k: Key, spec: Spec, plan: seq<Content>)
    requires AboutToPlan(w, w1, k, spec) && Consistent(Targets(spec), plan)
    ensures Settled(w, Run(w1, Body(k, plan)), k, spec, plan)
  {
    var w' := Run(w1, Body(k, plan));
    PlanAndWrite(w1, k, w1.PhaseOf(k).read, plan);
    forall wk: WorkKey | wk.name != WorkName(k) || wk.cluster !in Targets(spec)
      ensures SameWork(w, w', wk)
    {
      assert SameWork(w1, w', wk);
    }
  }

  lemma {:induction false} CleanReconcileConverges(w: World, k: Key, o: Object, plan: seq<Content>)
    requires KeySound(w, k)
    requires w.PhaseOf(k) == Idle && w.Current(k) == Some(o) && !o.deleting && Consistent(Targets(o.spec), plan)
    ensures Settled(w, Run(w, CleanReconcile(w, k, plan)), k, o.spec, plan)
  {
    ReadAndClaim(w, k, o);
    PlanSettles(w, Run(w, Opening(w, k)), k, o.spec, plan);
    RunConcat(w, Opening(w, k), Body(k, plan));
  }

  /** Convergence: whatever happened before, one clean reconcile of a live object leaves exactly the planned
      labels and spec in every listed cluster, keeps all other works, and leaves the object claimed and its spec
      alone. */
  lemma {:induction false} Convergence(before: seq<Action>, k: Key, o: Object, plan: seq<Content>)
    requires var w := Run(EMPTY_HUB, before);
             w.PhaseOf(k) == Idle && w.Current(k) == Some(o) && !o.deleting && Consistent(Targets(o.spec), plan)
    ensures var w := Run(EMPTY_HUB, before);
            Settled(w, Run(w, CleanReconcile(w, k, plan)), k, o.spec, plan)
  {
    ReachableIsSound(before);
    CleanReconcileConverges(Run(EMPTY_HUB, before), k, o, plan);
  }

  /** Idempotence: a second clean reconcile with the same plan changes no work's labels or spec. */
  lemma Idempotence(before: seq<Action>, k: Key, o: Object, plan: seq<Content>)
    requires var w := Run(EMPTY_HUB, before);
             w.PhaseOf(k) == Idle && w.Current(k) == Some(o) && !o.deleting && Consistent(Targets(o.spec), plan)
    ensures var w := Run(EMPTY_HUB, before);
            var w1 := Run(w, CleanReconcile(w, k, plan));
            var w2 := Run(w1, CleanReconcile(w1, k, plan));
            && w2.works.Keys == w1.works.Keys
            && forall wk :: wk in w1.works ==> w2.works[wk].content == w1.works[wk].content
  {
    var w := Run(EMPTY_HUB, before);
    var w1 := Run(w, CleanReconcile(w, k, plan));
    var w2 := Run(w1, CleanReconcile(w1, k, plan));
    Convergence(before, k, o, plan);
    RunConcat(EMPTY_HUB, before, CleanReconcile(w, k, plan));
    Convergence(before + CleanReconcile(w, k, plan), k, w1.Current(k).value, plan);
    forall wk: WorkKey
      ensures wk in w2.works <==> wk in w1.works
      ensures wk in w1.works ==> w2.works[wk].content == w1.works[wk].content
    {
      if wk.name == WorkName(k) && wk.cluster in Targets(o.spec) {
        var i :| 0 <= i < |Targets(o.spec)| && Targets(o.spec)[i] == wk.cluster;
        assert wk == WorkKey(Targets(o.spec)[i], WorkName(k));
      } else {
        assert SameWork(w1, w2, wk);
      }
    }
  }

  // ------------------------------------------------------------------ deletion

  /** A reconcile of a deleted object on a fresh read, with nobody else moving. */
  function CleanDeletion(w: World, k: Key, o: Object): seq<Action> {
    [Begin(k, |w.History(k)| - 1)] + Calls(k, |Targets(o.spec)| + 1)
  }

  /** The work name is gone from every listed cluster, and no other work changed. */
  ghost predicate Cleaned(w: World, w': World, k: Key, targets: seq<string>) {
    && (forall c :: c in targets ==> WorkKey(c, WorkName(k)) !in w'.works)
    && OtherWorksKept(w, w', k, targets)
  }

  ghost predicate CleanedUpTo(w: World, w': World, k: Key, o: Object, next: nat)
    requires next <= |Targets(o.spec)|
  {
    && (forall i :: 0 <= i < next ==> WorkAt(k, o, i) !in w'.works)
    && OtherWorksKept(w, w', k, Targets(o.spec))
    && w'.History(k) == w.History(k)
  }

  lemma RemoveOne(w0: World, w: World, k: Key, o: Object, next: nat)
    requires w.PhaseOf(k) == Cleaning(o, next) && next < |Targets(o.spec)| && CleanedUpTo(w0, w, k, o, next)
    ensures var w' := RemoveNext(w, k, o, next, NoFault);
            && Request(w, k, NoFault) == w'
            && w'.PhaseOf(k) == Cleaning(o, next + 1)
            && CleanedUpTo(w0, w', k, o, next + 1)
  {
    var w' := RemoveNext(w, k, o, next, NoFault);
    forall wk: WorkKey | wk.name != WorkName(k) || wk.cluster !in Targets(o.spec)
      ensures SameWork(w0, w', wk)
    {
      assert SameWork(w0, w, wk);
    }
  }

  /** Everything is removed: the object is given up. */
  ghost predicate GivenUp(w0: World, w': World, k: Key, o: Object) {
    && w'.PhaseOf(k) == Idle
    && Cleaned(w0, w', k, Targets(o.spec))
    && !Held(k, w'.Current(k))
    && (w'.Current(k).None? <==> o.deleting && o.finalizers <= {Finalizer(k.kind)})
  }

  lemma ReleaseGivesUp(w0: World, w: World, k: Key, o: Object)
    requires w0.Current(k) == Some(o) && CleanedUpTo(w0, w, k, o, |Targets(o.spec)|)
    ensures GivenUp(w0, Release(w, k, o), k, o)
  {
    var w' := Release(w, k, o);
    assert w'.works == w.works;
    forall c | c in Targets(o.spec)
      ensures WorkKey(c, WorkName(k)) !in w'.works
    {
      var i :| 0 <= i < |Targets(o.spec)| && Targets(o.spec)[i] == c;
      assert WorkAt(k, o, i) == WorkKey(c, WorkName(k));
    }
    forall wk: WorkKey | wk.name != WorkName(k) || wk.cluster !in Targets(o.spec)
      ensures SameWork(w0, w', wk)
    {
      assert SameWork(w0, w, wk);
    }
  }

  lemma {:induction false} RemoveRest(w0: World, w: World, k: Key, o: Object, next: nat)
    requires w.PhaseOf(k) == Cleaning(o, next) && next <= |Targets(o.spec)| && CleanedUpTo(w0, w, k, o, next)
    requires w0.Current(k) == Some(o)
    ensures GivenUp(w0, Run(w, Calls(k, |Targets(o.spec)| - next + 1)), k, o)
    decreases |Targets(o.spec)| - next
  {
    FirstCall(w, k, |Targets(o.spec)| - next);
    if next == |Targets(o.spec)| {
      assert Request(w, k, NoFault) == Release(w, k, o);
      ReleaseGivesUp(w0, w, k, o);
    } else {
      RemoveOne(w0, w, k, o, next);
      RemoveRest(w0, RemoveNext(w, k, o, next, NoFault), k, o, next + 1);
    }
  }

  lemma ReadDeleted(w: World, k: Key, o: Object)
    requires w.Cursor(k) < |w.History(k)| && w.PhaseOf(k) == Idle
    requires w.Current(k) == Some(o) && o.deleting && Held(k, Some(o))
    ensures var w' := Start(w, k, |w.History(k)| - 1);
            w'.PhaseOf(k) == Cleaning(o, 0) && CleanedUpTo(w, w', k, o, 0)
  {
  }

  lemma RunDeletion(w: World, k: Key, o: Object)
    ensures Run(w, CleanDeletion(w, k, o)) == Run(Start(w, k, |w.History(k)| - 1), Calls(k, |Targets(o.spec)| + 1))
  {
    RunHead(w, Begin(k, |w.History(k)| - 1), Calls(k, |Targets(o.spec)| + 1));
  }

  lemma SameGivenUp(w: World, w1: World, w2: World, k: Key, o: Object)
    requires GivenUp(w, w1, k, o) && w1 == w2
    ensures GivenUp(w, w2, k, o)
  {
  }

  lemma CleanDeletionGivesUp(w: World, k: Key, o: Object)
    requires w.Cursor(k) < |w.History(k)| && w.PhaseOf(k) == Idle
    requires w.Current(k) == Some(o) && o.deleting && Held(k, Some(o))
    ensures GivenUp(w, Run(w, CleanDeletion(w, k, o)), k, o)
  {
    var w1 := Start(w, k, |w.History(k)| - 1);
    ReadDeleted(w, k, o);
    RemoveRest(w, w1, k, o, 0);
    RunDeletion(w, k, o);
    SameGivenUp(w, Run(w1, Calls(k, |Targets(o.spec)| + 1)), Run(w, CleanDeletion(w, k, o)), k, o);
  }

  /** One clean reconcile of a deleted object removes its work name from every listed cluster, touches no other work,
      and gives the object up; the object vanishes unless others hold it too. */
  lemma {:induction false} DeletionCompletes(before: seq<Action>, k: Key, o: Object)
    requires var w := Run(EMPTY_HUB, before);
             w.PhaseOf(k) == Idle && w.Current(k) == Some(o) && o.deleting && Held(k, Some(o))
    ensures var w := Run(EMPTY_HUB, before);
            GivenUp(w, Run(w, CleanDeletion(w, k, o)), k, o)
  {
    ReachableIsSound(before);
    assert KeySound(Run(EMPTY_HUB, before), k);
    CleanDeletionGivesUp(Run(EMPTY_HUB, before), k, o);
  }
}
