/** Which objects can get in each other's way: those that share a work name and a cluster, and no others. */
module Interference {
  import opened Wrappers
  import opened Resources
  import opened WorkNames
  import opened Hub
  import opened Safety
  import opened Effects
  import opened Lifecycle

  /** Some stored snapshot of `k` lists the cluster. */
  ghost predicate EverListed(w: World, k: Key, cluster: string) {
    exists i :: 0 <= i < |w.History(k)| && w.History(k)[i].Some? && cluster in Targets(w.History(k)[i].value.spec)
  }

  lemma CallGrowsHistory(w: World, k: Key, fault: Fault)
    ensures w.History(k) <= Request(w, k, fault).History(k)
  {
    RequestEffect(w, k, fault);
  }

  lemma UserGrowsHistory(w: World, a: Action, k: Key)
    requires a.UserCreate? || a.UserEdit? || a.UserDelete?
    ensures w.History(k) <= Do(w, a).History(k)
  {
  }

  lemma StepGrowsHistory(w: World, a: Action, k: Key)
    ensures w.History(k) <= Do(w, a).History(k)
  {
    if !On(a, k) {
      ElsewhereIsUnmoved(w, a, k);
    } else if a.Call? {
      CallGrowsHistory(w, k, a.fault);
    } else if a.Begin? || a.Plan? {
      assert Do(w, a).History(k) == w.History(k);
    } else {
      UserGrowsHistory(w, a, k);
    }
  }

  lemma {:induction false} RunGrowsHistory(w: World, actions: seq<Action>, k: Key)
    ensures w.History(k) <= Run(w, actions).History(k)
    decreases actions
  {
    if actions == [] {
    } else {
      StepGrowsHistory(w, actions[0], k);
      RunGrowsHistory(Do(w, actions[0]), actions[1..], k);
    }
  }

  lemma ReadIsListed(w: World, k: Key, cluster: string)
    requires KeySound(w, k)
    requires !w.PhaseOf(k).Idle? && cluster in Targets(w.PhaseOf(k).read.spec)
    ensures EverListed(w, k, cluster)
  {
    var o := w.PhaseOf(k).read;
    assert Some(o) in w.History(k);
    var i :| 0 <= i < |w.History(k)| && w.History(k)[i] == Some(o);
  }

  // ------------------------------------------------------------------ which steps can change a work

  /** May the step change the work? Another writer may, and so may a reconcile that keeps its works under this name
      and has read a list with this cluster. */
  ghost predicate Concerns(w: World, a: Action, wk: WorkKey) {
    match a
    case TouchWork(wk', _, _) => wk' == wk
    case RemoveWork(wk') => wk' == wk
    case Call(k, _) => wk.name == WorkName(k) && !w.PhaseOf(k).Idle? && wk.cluster in Targets(w.PhaseOf(k).read.spec)
    case _ => false
  }

  lemma UnconcernedStep(w: World, a: Action, wk: WorkKey)
    requires !Concerns(w, a, wk)
    ensures SameWork(w, Do(w, a), wk)
  {
    match a
    case Call(k, fault) => RequestEffect(w, k, fault);
    case TouchWork(wk', content, other) => assert SameWork(w, Touch(w, wk', content, other), wk);
    case RemoveWork(wk') => assert SameWork(w, Remove(w, wk'), wk);
    case _ => QuietOnWorks(w, a);
  }

  lemma QuietOnWorks(w: World, a: Action)
    requires a.UserCreate? || a.UserEdit? || a.UserDelete? || a.Begin? || a.Plan?
    ensures Do(w, a).works == w.works
  {
    match a
    case UserCreate(k, spec, finalizers) => assert Create(w, k, spec, finalizers).works == w.works;
    case UserEdit(k, spec, finalizers) => assert Edit(w, k, spec, finalizers).works == w.works;
    case UserDelete(k) => assert Delete(w, k).works == w.works;
    case Begin(k, at) => assert Start(w, k, at).works == w.works;
    case Plan(k, contents) => assert Prepare(w, k, contents).works == w.works;
  }

  /** No step of the run concerns the work. */
  ghost predicate LeftAlone(w: World, actions: seq<Action>, wk: WorkKey) {
    forall i :: 0 <= i < |actions| ==> !Concerns(Run(w, actions[..i]), actions[i], wk)
  }

  lemma LeftAloneBefore(w: World, actions: seq<Action>, a: Action, wk: WorkKey)
    requires LeftAlone(w, actions + [a], wk)
    ensures LeftAlone(w, actions, wk) && !Concerns(Run(w, actions), a, wk)
  {
    var longer := actions + [a];
    assert longer[..|actions|] == actions && longer[|actions|] == a;
    forall i | 0 <= i < |actions|
      ensures !Concerns(Run(w, actions[..i]), actions[i], wk)
    {
      assert longer[..i] == actions[..i] && longer[i] == actions[i];
    }
  }

  /** However many objects are reconciled side by side: a work changes only through another writer's hand, or through
      a reconcile of an object that has its name as work name, after it read a list with its cluster. */
  lemma {:induction false} NonInterference(w: World, actions: seq<Action>, wk: WorkKey)
    requires LeftAlone(w, actions, wk)
    ensures SameWork(w, Run(w, actions), wk)
    decreases |actions|
  {
    if actions == [] {
    } else {
      var init, last := actions[..|actions| - 1], actions[|actions| - 1];
      assert actions == init + [last];
      LeftAloneBefore(w, init, last, wk);
      NonInterference(w, init, wk);
      UnconcernedStep(Run(w, init), last, wk);
      RunLast(w, init, last);
    }
  }

  // ------------------------------------------------------------------ objects

  /** Two objects with different work names, or whose lists never meet, never change each other's works: in a run where
      everyone moves, no step of the reconciler of `theirs` changes a work of `mine`. */
  lemma {:induction false} ObjectsKeepApart(actions: seq<Action>, i: nat, mine: Key, theirs: Key, wk: WorkKey)
    requires i < |actions| && By(actions[i], theirs)
    requires var w' := Run(EMPTY_HUB, actions);
             && wk.name == WorkName(mine) && EverListed(w', mine, wk.cluster)
             && (WorkName(mine) != WorkName(theirs) ||
                 forall c :: !(EverListed(w', mine, c) && EverListed(w', theirs, c)))
    ensures SameWork(Run(EMPTY_HUB, actions[..i]), Run(EMPTY_HUB, actions[..i + 1]), wk)
  {
    var w := Run(EMPTY_HUB, actions[..i]);
    if Concerns(w, actions[i], wk) {
      ConcernIsListed(actions, i, theirs, wk);
    }
    UnconcernedStep(w, actions[i], wk);
    RunUpTo(EMPTY_HUB, actions, i);
  }

  lemma ConcernListsNow(w: World, a: Action, k: Key, wk: WorkKey)
    requires Sound(w) && By(a, k) && Concerns(w, a, wk)
    ensures wk.name == WorkName(k) && EverListed(w, k, wk.cluster)
  {
    assert KeySound(w, k);
    ReadIsListed(w, k, wk.cluster);
  }

  /** A reconcile whose step can change the work has that work name, and its object lists the cluster at some time. */
  lemma ConcernIsListed(actions: seq<Action>, i: nat, k: Key, wk: WorkKey)
    requires i < |actions| && By(actions[i], k) && Concerns(Run(EMPTY_HUB, actions[..i]), actions[i], wk)
    ensures wk.name == WorkName(k) && EverListed(Run(EMPTY_HUB, actions), k, wk.cluster)
  {
    var w := Run(EMPTY_HUB, actions[..i]);
    ReachableIsSound(actions[..i]);
    ConcernListsNow(w, actions[i], k, wk);
    ListedStaysListed(w, actions[i..], k, wk.cluster);
    RunConcat(EMPTY_HUB, actions[..i], actions[i..]);
    assert actions[..i] + actions[i..] == actions;
  }

  lemma ListedStaysListed(w: World, actions: seq<Action>, k: Key, cluster: string)
    requires EverListed(w, k, cluster)
    ensures EverListed(Run(w, actions), k, cluster)
  {
    RunGrowsHistory(w, actions, k);
    var i :| 0 <= i < |w.History(k)| && w.History(k)[i].Some? && cluster in Targets(w.History(k)[i].value.spec);
    assert Run(w, actions).History(k)[i] == w.History(k)[i];
  }

  /** The work name of every object is one that Kubernetes accepts, and it is the name of the object when that is
      accepted. */
  lemma WorkNameIsValid(k: Key)
    ensures IsSubdomain(WorkName(k))
    ensures IsSubdomain(k.name) ==> WorkName(k) == k.name
  {
    SanitizeIsValid(k.name, LowerRune);
  }

  /** Names that the API server accepts for objects are work names as they are: objects of different names never touch
      the same work, whatever their kinds and namespaces. */
  lemma AcceptedNamesKeepApart(mine: Key, theirs: Key)
    requires IsSubdomain(mine.name) && IsSubdomain(theirs.name)
    ensures WorkName(mine) == WorkName(theirs) <==> mine.name == theirs.name
  {
  }
}
