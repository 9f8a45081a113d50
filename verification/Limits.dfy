/** Where the code stops short: an edit that drops a cluster strands its work, and a shared work name is shared for
    real. Each limit comes with runs that reach it. */
module Limits {
  import opened Wrappers
  import opened Resources
  import opened Hub
  import opened Safety
  import opened Effects
  import opened Lifecycle
  import opened Interference
  import opened Progress

  // ------------------------------------------------------------------ dropped clusters

  function EditThenDelete(k: Key, spec: Spec): seq<Action> {
    [UserEdit(k, spec, {Finalizer(k.kind)}), UserDelete(k)]
  }

  /** A user gives the object this spec and deletes it, and one clean reconcile follows. */
  function Retire(w: World, k: Key, spec: Spec): seq<Action> {
    var w1 := Run(w, EditThenDelete(k, spec));
    EditThenDelete(k, spec) + if w1.Current(k).Some? then CleanDeletion(w1, k, w1.Current(k).value) else []
  }

  lemma EditKeepsClaim(w: World, k: Key, spec: Spec)
    requires HeldLive(k, w.Current(k))
    ensures var w' := Edit(w, k, spec, {Finalizer(k.kind)});
            && w'.works == w.works && w'.PhaseOf(k) == w.PhaseOf(k)
            && HeldLive(k, w'.Current(k))
            && w'.Current(k).value.spec == spec && w'.Current(k).value.finalizers == {Finalizer(k.kind)}
  {
  }

  lemma DeleteKeepsClaim(w: World, k: Key)
    requires HeldLive(k, w.Current(k))
    ensures var w' := Hub.Delete(w, k);
            && w'.works == w.works && w'.PhaseOf(k) == w.PhaseOf(k)
            && Held(k, w'.Current(k)) && w'.Current(k).value.deleting
            && w'.Current(k).value.spec == w.Current(k).value.spec
            && w'.Current(k).value.finalizers == w.Current(k).value.finalizers
  {
  }

  lemma AfterEditAndDelete(w: World, k: Key, spec: Spec)
    requires w.PhaseOf(k) == Idle && HeldLive(k, w.Current(k))
    ensures var w' := Run(w, EditThenDelete(k, spec));
            && w'.works == w.works && w'.PhaseOf(k) == Idle
            && Held(k, w'.Current(k)) && w'.Current(k).value.deleting
            && w'.Current(k).value.spec == spec && w'.Current(k).value.finalizers == {Finalizer(k.kind)}
  {
    var edit, delete := UserEdit(k, spec, {Finalizer(k.kind)}), UserDelete(k);
    EditKeepsClaim(w, k, spec);
    DeleteKeepsClaim(Do(w, edit), k);
    RunHead(w, edit, [delete]);
    RunHead(Do(w, edit), delete, []);
    assert [delete] + [] == [delete] && [edit] + [delete] == EditThenDelete(k, spec);
  }

  /** The object is gone, with the works of the clusters on its last list, and nothing else is. */
  lemma RetireRemovesListed(before: seq<Action>, k: Key, spec: Spec)
    requires var w := Run(EMPTY_HUB, before);
             w.PhaseOf(k) == Idle && HeldLive(k, w.Current(k))
    ensures var w := Run(EMPTY_HUB, before);
            var w' := Run(w, Retire(w, k, spec));
            w'.Current(k).None? && Cleaned(w, w', k, Targets(spec))
  {
    var w := Run(EMPTY_HUB, before);
    AfterEditAndDelete(w, k, spec);
    var edits := EditThenDelete(k, spec);
    var w1 := Run(w, edits);
    RunConcat(EMPTY_HUB, before, edits);
    DeletionCompletes(before + edits, k, w1.Current(k).value);
    RunConcat(w, edits, CleanDeletion(w1, k, w1.Current(k).value));
    var w' := Run(w, Retire(w, k, spec));
    forall wk: WorkKey | wk.name != WorkName(k) || wk.cluster !in Targets(spec)
      ensures SameWork(w, w', wk)
    {
      assert SameWork(w1, w', wk);
    }
  }

  /** A cluster taken off the list keeps its work: after edit, delete and a clean deletion the object is gone and the
      work is as it was, and it stays so through every continuation that leaves it alone: no one else's hand, and no
      reconcile of an object with this work name that lists the cluster. */
  lemma DroppedWorkIsStranded(before: seq<Action>, k: Key, spec: Spec, wk: WorkKey, after: seq<Action>)
    requires var w := Run(EMPTY_HUB, before);
             && w.PhaseOf(k) == Idle && HeldLive(k, w.Current(k))
             && wk in w.works && w.works[wk].writer == k && wk.cluster !in Targets(spec)
             && LeftAlone(Run(w, Retire(w, k, spec)), after, wk)
    ensures var w := Run(EMPTY_HUB, before);
            var w' := Run(w, Retire(w, k, spec));
            && w'.Current(k).None?
            && (forall c :: c in Targets(spec) ==> WorkKey(c, WorkName(k)) !in w'.works)
            && wk in Run(w', after).works && Run(w', after).works[wk] == w.works[wk]
  {
    var w := Run(EMPTY_HUB, before);
    var w' := Run(w, Retire(w, k, spec));
    RetireRemovesListed(before, k, spec);
    assert SameWork(w, w', wk);
    NonInterference(w', after, wk);
  }

  /** The first life of an object: created, then reconciled once. */
  function FirstLife(k: Key, spec: Spec, plan: seq<Content>): seq<Action> {
    [UserCreate(k, spec, {})] + CleanReconcile(Hub.Create(EMPTY_HUB, k, spec, {}), k, plan)
  }

  lemma FirstLifeSettles(k: Key, spec: Spec, plan: seq<Content>, c: string)
    requires Consistent(Targets(spec), plan) && c in Targets(spec)
    ensures var w := Run(EMPTY_HUB, FirstLife(k, spec, plan));
            var wk := WorkKey(c, WorkName(k));
            && w.PhaseOf(k) == Idle && HeldLive(k, w.Current(k)) && w.Current(k).value.spec == spec
            && wk in w.works && w.works[wk].writer == k
  {
    var w0 := Hub.Create(EMPTY_HUB, k, spec, {});
    LifeSettles(EMPTY_HUB, [], k, spec, plan, c);
    RunHead(EMPTY_HUB, UserCreate(k, spec, {}), CleanReconcile(w0, k, plan));
  }

  /** Created where nothing is stored and reconciled once, an object has its works. */
  lemma LifeSettles(w: World, before: seq<Action>, k: Key, spec: Spec, plan: seq<Content>, c: string)
    requires w == Run(EMPTY_HUB, before) && w.PhaseOf(k) == Idle && w.Current(k).None?
    requires Consistent(Targets(spec), plan) && c in Targets(spec)
    ensures var w1 := Hub.Create(w, k, spec, {});
            var w2 := Run(w1, CleanReconcile(w1, k, plan));
            var wk := WorkKey(c, WorkName(k));
            && w2.PhaseOf(k) == Idle && HeldLive(k, w2.Current(k)) && w2.Current(k).value.spec == spec
            && wk in w2.works && w2.works[wk].writer == k
  {
    var w1 := Hub.Create(w, k, spec, {});
    RunLast(EMPTY_HUB, before, UserCreate(k, spec, {}));
    Convergence(before + [UserCreate(k, spec, {})], k, w1.Current(k).value, plan);
    var i :| 0 <= i < |Targets(spec)| && Targets(spec)[i] == c;
    assert WorkKey(Targets(spec)[i], WorkName(k)) == WorkKey(c, WorkName(k));
  }

  /** It does happen, to every object with a cluster to drop: create, reconcile, edit the cluster off, delete. */
  lemma StrandingHappens(k: Key, spec: Spec, plan: seq<Content>, less: Spec, c: string)
    requires Consistent(Targets(spec), plan) && c in Targets(spec) && c !in Targets(less)
    ensures var w := Run(EMPTY_HUB, FirstLife(k, spec, plan));
            var w' := Run(w, Retire(w, k, less));
            w'.Current(k).None? && WorkKey(c, WorkName(k)) in w'.works
  {
    var w := Run(EMPTY_HUB, FirstLife(k, spec, plan));
    FirstLifeSettles(k, spec, plan, c);
    DroppedWorkIsStranded(FirstLife(k, spec, plan), k, less, WorkKey(c, WorkName(k)), []);
  }

  // ------------------------------------------------------------------ shared work names

  /** `mine` is being deleted and lists a cluster that holds a work of `theirs`, which is alive and lists it too. */
  ghost predicate SharesWork(w: World, mine: Key, theirs: Key, c: string) {
    && mine != theirs && WorkName(mine) == WorkName(theirs)
    && w.PhaseOf(mine) == Idle && Held(mine, w.Current(mine)) && w.Current(mine).value.deleting
    && c in Targets(w.Current(mine).value.spec)
    && HeldLive(theirs, w.Current(theirs)) && c in Targets(w.Current(theirs).value.spec)
    && WorkKey(c, WorkName(theirs)) in w.works && w.works[WorkKey(c, WorkName(theirs))].writer == theirs
  }

  /** The object is alive, claimed, as it was, and without its work in a cluster that it lists. */
  ghost predicate Bereft(w: World, w': World, k: Key, c: string) {
    && HeldLive(k, w'.Current(k)) && w'.Current(k) == w.Current(k)
    && c in Targets(w'.Current(k).value.spec)
    && WorkKey(c, WorkName(k)) !in w'.works
  }

  lemma LosesWork(w: World, w': World, mine: Key, theirs: Key, c: string)
    requires SharesWork(w, mine, theirs, c)
    requires GivenUp(w, w', mine, w.Current(mine).value) && Unmoved(w, w', theirs)
    ensures Bereft(w, w', theirs, c)
  {
  }

  lemma DeletionIsOn(w: World, k: Key, o: Object, other: Key)
    requires other != k
    ensures forall a :: a in CleanDeletion(w, k, o) ==> !On(a, other)
  {
  }

  /** Work names carry neither kind nor namespace: a clean deletion of one object takes away a work of another one,
      which stays alive, claimed, and without its work in a cluster that it lists. */
  lemma SharedNameIsShared(before: seq<Action>, mine: Key, theirs: Key, c: string)
    requires SharesWork(Run(EMPTY_HUB, before), mine, theirs, c)
    ensures var w := Run(EMPTY_HUB, before);
            Bereft(w, Run(w, CleanDeletion(w, mine, w.Current(mine).value)), theirs, c)
  {
    var w := Run(EMPTY_HUB, before);
    var o := w.Current(mine).value;
    DeletionCompletes(before, mine, o);
    DeletionIsOn(w, mine, o, theirs);
    RunElsewhere(w, CleanDeletion(w, mine, o), theirs);
    LosesWork(w, Run(w, CleanDeletion(w, mine, o)), mine, theirs, c);
  }

  lemma OwnLifeIsOn(w: World, k: Key, spec: Spec, plan: seq<Content>, other: Key)
    requires other != k
    ensures forall a :: a in [UserCreate(k, spec, {})] + CleanReconcile(w, k, plan) ==> !On(a, other)
  {
  }

  /** Created, reconciled and deleted: the object waits for its clean-up. */
  ghost predicate Doomed(w: World, k: Key, spec: Spec) {
    && w.PhaseOf(k) == Idle
    && Held(k, w.Current(k)) && w.Current(k).value.deleting && w.Current(k).value.spec == spec
  }

  lemma FirstIsDoomed(mine: Key, spec: Spec, plan: seq<Content>, c: string, theirs: Key)
    requires mine != theirs && Consistent(Targets(spec), plan) && c in Targets(spec)
    ensures var w := Run(EMPTY_HUB, FirstLife(mine, spec, plan) + [UserDelete(mine)]);
            Doomed(w, mine, spec) && w.PhaseOf(theirs) == Idle && w.Current(theirs).None?
  {
    var first := FirstLife(mine, spec, plan);
    var w0 := Run(EMPTY_HUB, first);
    FirstLifeSettles(mine, spec, plan, c);
    OwnLifeIsOn(Hub.Create(EMPTY_HUB, mine, spec, {}), mine, spec, plan, theirs);
    RunElsewhere(EMPTY_HUB, first, theirs);
    DeleteKeepsClaim(w0, mine);
    DeleteElsewhere(w0, mine, theirs);
    RunLast(EMPTY_HUB, first, UserDelete(mine));
  }

  lemma SharesThen(w: World, w': World, mine: Key, mySpec: Spec, theirs: Key, c: string)
    requires mine != theirs && WorkName(mine) == WorkName(theirs) && c in Targets(mySpec)
    requires Doomed(w, mine, mySpec) && Unmoved(w, w', mine)
    requires HeldLive(theirs, w'.Current(theirs)) && c in Targets(w'.Current(theirs).value.spec)
    requires WorkKey(c, WorkName(theirs)) in w'.works && w'.works[WorkKey(c, WorkName(theirs))].writer == theirs
    ensures SharesWork(w', mine, theirs, c)
  {
  }

  /** While one object waits for its clean-up, another with the same work name comes to life in a cluster of both. */
  lemma SecondShares(before: seq<Action>, mine: Key, mySpec: Spec, theirs: Key, spec: Spec, plan: seq<Content>,
                     c: string)
    requires mine != theirs && WorkName(mine) == WorkName(theirs) && c in Targets(mySpec)
    requires Consistent(Targets(spec), plan) && c in Targets(spec)
    requires var w := Run(EMPTY_HUB, before);
             Doomed(w, mine, mySpec) && w.PhaseOf(theirs) == Idle && w.Current(theirs).None?
    ensures var w1 := Hub.Create(Run(EMPTY_HUB, before), theirs, spec, {});
            var second := [UserCreate(theirs, spec, {})] + CleanReconcile(w1, theirs, plan);
            SharesWork(Run(EMPTY_HUB, before + second), mine, theirs, c)
  {
    var w := Run(EMPTY_HUB, before);
    var w1 := Hub.Create(w, theirs, spec, {});
    var second := [UserCreate(theirs, spec, {})] + CleanReconcile(w1, theirs, plan);
    LifeSettles(w, before, theirs, spec, plan, c);
    OwnLifeIsOn(w1, theirs, spec, plan, mine);
    RunElsewhere(w, second, mine);
    RunHead(w, UserCreate(theirs, spec, {}), CleanReconcile(w1, theirs, plan));
    RunConcat(EMPTY_HUB, before, second);
    SharesThen(w, Run(EMPTY_HUB, before + second), mine, mySpec, theirs, c);
  }

  /** It does happen, to any two objects with one work name and a cluster in common: the first is created, reconciled
      and deleted, and the second is created and reconciled before the deletion is carried out. */
  lemma SharingHappens(mine: Key, theirs: Key, mySpec: Spec, theirSpec: Spec, myPlan: seq<Content>,
                       theirPlan: seq<Content>, c: string)
    requires mine != theirs && WorkName(mine) == WorkName(theirs)
    requires Consistent(Targets(mySpec), myPlan) && Consistent(Targets(theirSpec), theirPlan)
    requires c in Targets(mySpec) && c in Targets(theirSpec)
    ensures exists before :: SharesWork(Run(EMPTY_HUB, before), mine, theirs, c)
  {
    var first := FirstLife(mine, mySpec, myPlan) + [UserDelete(mine)];
    FirstIsDoomed(mine, mySpec, myPlan, c, theirs);
    SecondShares(first, mine, mySpec, theirs, theirSpec, theirPlan, c);
  }
}
