/** What the invariant says to a user: orphans, disappearance, and lost updates, over whole runs. */
module Lifecycle {
  import opened Wrappers
  import opened Resources
  import opened Hub
  import opened Safety
  import opened Effects

  lemma ReachableIsSound(actions: seq<Action>)
    ensures Sound(Run(EMPTY_HUB, actions))
  {
    EmptyHubSound();
    RunKeepsSound(EMPTY_HUB, actions);
  }

  // ------------------------------------------------------------------ no orphans

  /** An accepted edit of `k` that takes `c` off the list of the stored object, which is claimed. */
  ghost predicate Drops(w: World, a: Action, k: Key, c: string) {
    && a.UserEdit? && a.key == k && CanEdit(w, k, a.finalizers)
    && c in HeldClusters(k, w.Current(k)) && c !in TargetSet(a.spec)
  }

  /** After the first `j` steps of the run, the object stored under `k` is claimed and lists `c`. */
  ghost predicate ListedAt(actions: seq<Action>, j: nat, k: Key, c: string)
    requires j <= |actions|
  {
    c in HeldClusters(k, Run(EMPTY_HUB, actions[..j]).Current(k))
  }

  /** That is never so after more than the first `i` steps. */
  ghost predicate NotListedAfter(actions: seq<Action>, i: nat, k: Key, c: string) {
    forall j :: i < j <= |actions| ==> !ListedAt(actions, j, k, c)
  }

  /** The i-th step takes `c` off the list, and it is not listed again after that. */
  ghost predicate DropsForGood(actions: seq<Action>, i: nat, k: Key, c: string)
    requires i < |actions|
  {
    Drops(Run(EMPTY_HUB, actions[..i]), actions[i], k, c) && NotListedAfter(actions, i, k, c)
  }

  /** Some edit of the run took `c` off the list, and it has not been listed again since. */
  ghost predicate LeftOff(actions: seq<Action>, k: Key, c: string) {
    exists i :: 0 <= i < |actions| && DropsForGood(actions, i, k, c)
  }

  lemma EditDrops(w: World, k: Key, spec: Spec, finalizers: set<string>, c: string)
    requires DroppedIsOff(w, k)
    ensures var w' := Edit(w, k, spec, finalizers);
            c in w'.Dropped(k) <==>
              (c !in HeldClusters(k, w'.Current(k)) &&
                (c in w.Dropped(k) || Drops(w, UserEdit(k, spec, finalizers), k, c)))
  {
  }

  lemma CreateDropsNothing(w: World, k: Key, spec: Spec, finalizers: set<string>)
    requires DroppedIsOff(w, k)
    ensures var w' := Create(w, k, spec, finalizers); w'.Dropped(k) == w.Dropped(k) - HeldClusters(k, w'.Current(k))
  {
  }

  lemma DeleteDropsNothing(w: World, k: Key)
    requires DroppedIsOff(w, k)
    ensures Delete(w, k).Dropped(k) == w.Dropped(k) - HeldClusters(k, Delete(w, k).Current(k))
  {
  }

  lemma ReadDropsNothing(w: World, k: Key, at: nat)
    requires DroppedIsOff(w, k)
    ensures Start(w, k, at).Dropped(k) == w.Dropped(k) - HeldClusters(k, Start(w, k, at).Current(k))
  {
  }

  lemma PrepareDropsNothing(w: World, k: Key, contents: Option<seq<Content>>)
    requires DroppedIsOff(w, k)
    ensures Prepare(w, k, contents).Dropped(k) == w.Dropped(k) - HeldClusters(k, Prepare(w, k, contents).Current(k))
  {
  }

  lemma UnmovedDropsNothing(w: World, w': World, k: Key)
    requires DroppedIsOff(w, k) && Unmoved(w, w', k)
    ensures w'.Dropped(k) == w.Dropped(k) - HeldClusters(k, w'.Current(k))
  {
  }

  lemma StepOfHistoryDropsNothing(w: World, w': World, k: Key)
    requires DroppedIsOff(w, k) && HistoryStep(w, w', k)
    ensures w'.Dropped(k) == w.Dropped(k) - HeldClusters(k, w'.Current(k))
  {
  }

  lemma CallDropsNothing(w: World, k: Key, fault: Fault)
    requires DroppedIsOff(w, k)
    ensures Request(w, k, fault).Dropped(k) == w.Dropped(k) - HeldClusters(k, Request(w, k, fault).Current(k))
  {
    RequestEffect(w, k, fault);
    StepOfHistoryDropsNothing(w, Request(w, k, fault), k);
  }

  lemma OtherStepsDropNothing(w: World, a: Action, k: Key)
    requires DroppedIsOff(w, k) && (!a.UserEdit? || a.key != k)
    ensures Do(w, a).Dropped(k) == w.Dropped(k) - HeldClusters(k, Do(w, a).Current(k))
  {
    if !On(a, k) {
      ElsewhereIsUnmoved(w, a, k);
      UnmovedDropsNothing(w, Do(w, a), k);
    } else {
      match a
      case Call(_, fault) => CallDropsNothing(w, k, fault);
      case UserCreate(_, spec, finalizers) => CreateDropsNothing(w, k, spec, finalizers);
      case UserDelete(_) => DeleteDropsNothing(w, k);
      case Begin(_, at) => ReadDropsNothing(w, k, at);
      case Plan(_, contents) => PrepareDropsNothing(w, k, contents);
    }
  }

  lemma StepDrops(w: World, a: Action, k: Key, c: string)
    requires DroppedIsOff(w, k)
    ensures c in Do(w, a).Dropped(k) <==>
              (c !in HeldClusters(k, Do(w, a).Current(k)) && (c in w.Dropped(k) || Drops(w, a, k, c)))
  {
    if a.UserEdit? && a.key == k {
      EditDrops(w, k, a.spec, a.finalizers, c);
    } else {
      OtherStepsDropNothing(w, a, k);
    }
  }

  lemma ListedAsBefore(actions: seq<Action>, a: Action, j: nat, k: Key, c: string)
    requires j <= |actions|
    ensures ListedAt(actions + [a], j, k, c) == ListedAt(actions, j, k, c)
  {
    assert (actions + [a])[..j] == actions[..j];
  }

  lemma NoneListedAfter(actions: seq<Action>, a: Action, i: nat, k: Key, c: string)
    requires i <= |actions|
    ensures NotListedAfter(actions + [a], i, k, c) <==>
              (NotListedAfter(actions, i, k, c) && !ListedAt(actions + [a], |actions| + 1, k, c))
  {
    var longer, n := actions + [a], |actions|;
    forall j | 0 <= j <= n
      ensures ListedAt(longer, j, k, c) == ListedAt(actions, j, k, c)
    {
      ListedAsBefore(actions, a, j, k, c);
    }
  }

  lemma DropsStill(actions: seq<Action>, a: Action, i: nat, k: Key, c: string)
    requires i < |actions|
    ensures DropsForGood(actions + [a], i, k, c) <==>
              (DropsForGood(actions, i, k, c) && !ListedAt(actions + [a], |actions| + 1, k, c))
  {
    assert (actions + [a])[..i] == actions[..i] && (actions + [a])[i] == actions[i];
    NoneListedAfter(actions, a, i, k, c);
  }

  lemma LastDropsForGood(actions: seq<Action>, a: Action, k: Key, c: string)
    ensures DropsForGood(actions + [a], |actions|, k, c) <==>
              (Drops(Run(EMPTY_HUB, actions), a, k, c) && !ListedAt(actions + [a], |actions| + 1, k, c))
  {
    assert (actions + [a])[..|actions|] == actions;
    NoneListedAfter(actions, a, |actions|, k, c);
  }

  lemma LeftOffBefore(actions: seq<Action>, a: Action, k: Key, c: string)
    requires LeftOff(actions + [a], k, c)
    ensures !ListedAt(actions + [a], |actions| + 1, k, c)
    ensures LeftOff(actions, k, c) || Drops(Run(EMPTY_HUB, actions), a, k, c)
  {
    var i :| 0 <= i < |actions + [a]| && DropsForGood(actions + [a], i, k, c);
    if i < |actions| {
      DropsStill(actions, a, i, k, c);
    } else {
      LastDropsForGood(actions, a, k, c);
    }
  }

  lemma LeftOffAfter(actions: seq<Action>, a: Action, k: Key, c: string)
    requires !ListedAt(actions + [a], |actions| + 1, k, c)
    requires LeftOff(actions, k, c) || Drops(Run(EMPTY_HUB, actions), a, k, c)
    ensures LeftOff(actions + [a], k, c)
  {
    if LeftOff(actions, k, c) {
      var i :| 0 <= i < |actions| && DropsForGood(actions, i, k, c);
      DropsStill(actions, a, i, k, c);
      assert DropsForGood(actions + [a], i, k, c);
    } else {
      LastDropsForGood(actions, a, k, c);
      assert DropsForGood(actions + [a], |actions|, k, c);
    }
  }

  /** `Dropped` says what it should: a cluster is in it exactly when some edit took it off the list of the claimed
      object and no claimed object under the key has listed it since. */
  lemma {:induction false} DroppedByEdits(actions: seq<Action>, k: Key, c: string)
    ensures c in Run(EMPTY_HUB, actions).Dropped(k) <==> LeftOff(actions, k, c)
    decreases |actions|
  {
    if actions == [] {
      assert Run(EMPTY_HUB, actions) == EMPTY_HUB;
    } else {
      var init, last := actions[..|actions| - 1], actions[|actions| - 1];
      assert actions == init + [last];
      DroppedByEdits(init, k, c);
      ReachableIsSound(init);
      assert KeySound(Run(EMPTY_HUB, init), k);
      StepDrops(Run(EMPTY_HUB, init), last, k, c);
      RunLast(EMPTY_HUB, init, last);
      assert actions[..|init| + 1] == actions;
      if LeftOff(actions, k, c) {
        LeftOffBefore(init, last, k, c);
      } else if c in Run(EMPTY_HUB, actions).Dropped(k) {
        LeftOffAfter(init, last, k, c);
      }
    }
  }

  /** Whatever users, other writers and faults do: a work is there either for an object that still carries its
      finalizer and lists the cluster, or in a cluster that an edit took off the list and that was not listed again
      since; never both. */
  lemma NoOrphans(actions: seq<Action>, wk: WorkKey)
    requires wk in Run(EMPTY_HUB, actions).works
    ensures var w := Run(EMPTY_HUB, actions);
            var k := w.works[wk].writer;
            && wk.name == WorkName(k)
            && (wk.cluster in HeldClusters(k, w.Current(k)) <==> !LeftOff(actions, k, wk.cluster))
  {
    ReachableIsSound(actions);
    var w := Run(EMPTY_HUB, actions);
    assert Answered(w, wk);
    assert KeySound(w, w.works[wk].writer);
    DroppedByEdits(actions, w.works[wk].writer, wk.cluster);
  }

  /** An object that is gone or unclaimed has no work anywhere, but in clusters that edits took off for good. */
  lemma GoneWithoutTrace(actions: seq<Action>, k: Key, wk: WorkKey)
    requires !Held(k, Run(EMPTY_HUB, actions).Current(k))
    requires wk in Run(EMPTY_HUB, actions).works && !LeftOff(actions, k, wk.cluster)
    ensures Run(EMPTY_HUB, actions).works[wk].writer != k
  {
    NoOrphans(actions, wk);
  }

  // ------------------------------------------------------------------ clean disappearance

  /** No reconcile can write for the object with this uid any more: what can still be read of it is being deleted. */
  ghost predicate Retired(w: World, k: Key, uid: nat) {
    var h := w.History(k);
    && uid <= w.clock
    && w.Cursor(k) < |h|
    && (forall i :: w.Cursor(k) <= i < |h| && h[i].Some? && h[i].value.uid == uid ==> h[i].value.deleting)
    && match w.PhaseOf(k)
       case Idle => true
       case Cleaning(o, _) => o.deleting
       case Claiming(o) => o.uid != uid
       case Planning(o) => o.uid != uid
       case Applying(o, _, _, _) => o.uid != uid
  }

  /** The writes that `after` adds to the log of `k` are not made for the object with this uid. */
  ghost predicate NoWriteFor(before: World, after: World, k: Key, uid: nat) {
    && |before.Landed(k)| <= |after.Landed(k)|
    && after.Landed(k)[..|before.Landed(k)|] == before.Landed(k)
    && forall i :: |before.Landed(k)| <= i < |after.Landed(k)| ==> after.Landed(k)[i].uid != uid
  }

  lemma CallKeepsRetired(w: World, w': World, k: Key, uid: nat)
    requires Retired(w, k, uid) && CallEffect(w, w', k) && w.clock <= w'.clock
    ensures Retired(w', k, uid) && NoWriteFor(w, w', k, uid)
  {
    var h, h' := w.History(k), w'.History(k);
    assert forall i :: 0 <= i < |h| && |h| < |h'| ==> h'[i] == h'[..|h|][i];
  }

  /** Appending an entry that is not a live object with this uid keeps the uid retired. */
  lemma AppendKeepsRetired(w: World, w': World, k: Key, entry: Option<Object>, uid: nat)
    requires Retired(w, k, uid) && Appended(w, w', k, entry)
    requires entry.Some? && entry.value.uid == uid ==> entry.value.deleting
    ensures Retired(w', k, uid)
  {
  }

  lemma CreateKeepsRetired(w: World, k: Key, spec: Spec, finalizers: set<string>, uid: nat)
    requires Retired(w, k, uid)
    ensures Retired(Create(w, k, spec, finalizers), k, uid) && NoWriteFor(w, Create(w, k, spec, finalizers), k, uid)
  {
    if w.Current(k).None? {
      AppendKeepsRetired(w, Create(w, k, spec, finalizers), k, Create(w, k, spec, finalizers).Current(k), uid);
    }
  }

  lemma EditKeepsRetired(w: World, k: Key, spec: Spec, finalizers: set<string>, uid: nat)
    requires Retired(w, k, uid)
    ensures Retired(Edit(w, k, spec, finalizers), k, uid) && NoWriteFor(w, Edit(w, k, spec, finalizers), k, uid)
  {
    if CanEdit(w, k, finalizers) {
      AppendKeepsRetired(w, Edit(w, k, spec, finalizers), k, Edit(w, k, spec, finalizers).Current(k), uid);
    }
  }

  lemma DeleteAppends(w: World, k: Key)
    requires w.Current(k).Some? && !w.Current(k).value.deleting
    ensures var w' := Delete(w, k);
            && Appended(w, w', k, w'.Current(k)) && w'.Landed(k) == w.Landed(k)
            && (w'.Current(k).Some? ==> w'.Current(k).value.deleting)
  {
  }

  lemma DeleteKeepsRetired(w: World, k: Key, uid: nat)
    requires Retired(w, k, uid)
    ensures Retired(Delete(w, k), k, uid) && NoWriteFor(w, Delete(w, k), k, uid)
  {
    if w.Current(k).Some? && !w.Current(k).value.deleting {
      DeleteAppends(w, k);
      AppendKeepsRetired(w, Delete(w, k), k, Delete(w, k).Current(k), uid);
    }
  }

  lemma StartKeepsRetired(w: World, k: Key, at: nat, uid: nat)
    requires Retired(w, k, uid)
    ensures Retired(Start(w, k, at), k, uid) && NoWriteFor(w, Start(w, k, at), k, uid)
  {
  }

  lemma PrepareKeepsRetired(w: World, k: Key, contents: Option<seq<Content>>, uid: nat)
    requires Retired(w, k, uid)
    ensures Retired(Prepare(w, k, contents), k, uid) && NoWriteFor(w, Prepare(w, k, contents), k, uid)
  {
  }

  lemma StepKeepsRetired(w: World, a: Action, k: Key, uid: nat)
    requires Retired(w, k, uid)
    ensures Retired(Do(w, a), k, uid) && NoWriteFor(w, Do(w, a), k, uid)
  {
    if !On(a, k) {
      ElsewhereIsUnmoved(w, a, k);
    } else {
      match a
      case Call(_, fault) =>
        RequestEffect(w, k, fault);
        CallKeepsRetired(w, Request(w, k, fault), k, uid);
      case Begin(_, at) => StartKeepsRetired(w, k, at, uid);
      case Plan(_, contents) => PrepareKeepsRetired(w, k, contents, uid);
      case UserCreate(_, spec, finalizers) => CreateKeepsRetired(w, k, spec, finalizers, uid);
      case UserEdit(_, spec, finalizers) => EditKeepsRetired(w, k, spec, finalizers, uid);
      case UserDelete(_) => DeleteKeepsRetired(w, k, uid);
      case _ =>
    }
  }

  lemma NoWriteForTransitive(w0: World, w1: World, w2: World, k: Key, uid: nat)
    requires NoWriteFor(w0, w1, k, uid) && NoWriteFor(w1, w2, k, uid)
    ensures NoWriteFor(w0, w2, k, uid)
  {
    var n0, n1 := |w0.Landed(k)|, |w1.Landed(k)|;
    assert w2.Landed(k)[..n0] == w2.Landed(k)[..n1][..n0];
    forall i | n0 <= i < |w2.Landed(k)|
      ensures w2.Landed(k)[i].uid != uid
    {
      if i < n1 {
        assert w2.Landed(k)[i] == w2.Landed(k)[..n1][i];
      }
    }
  }

  lemma {:induction false} RunKeepsRetired(w: World, actions: seq<Action>, k: Key, uid: nat)
    requires Retired(w, k, uid)
    ensures Retired(Run(w, actions), k, uid)
    ensures NoWriteFor(w, Run(w, actions), k, uid)
    decreases actions
  {
    if actions == [] {
    } else {
      var w1 := Do(w, actions[0]);
      StepKeepsRetired(w, actions[0], k, uid);
      RunKeepsRetired(w1, actions[1..], k, uid);
      NoWriteForTransitive(w, w1, Run(w1, actions[1..]), k, uid);
    }
  }

  /** When the update that takes the finalizer away is accepted, what was cleaned is the list stored at that moment;
      no listed cluster holds a work of this object, and none ever gets one from it again, stale reads or not. */
  lemma CleanDisappearance(before: seq<Action>, k: Key, o: Object, fault: Fault, after: seq<Action>)
    requires var w := Run(EMPTY_HUB, before);
             w.PhaseOf(k) == Cleaning(o, |Targets(o.spec)|) && Fresh(w, k, o) && !fault.Lost?
    ensures var w := Run(EMPTY_HUB, before);
            var w1 := Do(w, Call(k, fault));
            && w.Current(k) == Some(o)
            && !Held(k, w1.Current(k))
            && (forall c :: c in Targets(o.spec) && WorkKey(c, WorkName(k)) in w1.works ==>
                  w1.works[WorkKey(c, WorkName(k))].writer != k)
            && NoWriteFor(w1, Run(w1, after), k, o.uid)
  {
    ReachableIsSound(before);
    var w := Run(EMPTY_HUB, before);
    var w1 := Do(w, Call(k, fault));
    assert KeySound(w, k);
    ReleaseReplacesRead(w, k, o, |Targets(o.spec)|);
    forall c | c in Targets(o.spec) && WorkKey(c, WorkName(k)) in w1.works
      ensures w1.works[WorkKey(c, WorkName(k))].writer != k
    {
      var i :| 0 <= i < |Targets(o.spec)| && Targets(o.spec)[i] == c;
      assert WorkAt(k, o, i) == WorkKey(c, WorkName(k));
    }
    ReleaseRetires(w, k, o, fault);
    RunKeepsRetired(w1, after, k, o.uid);
  }

  lemma ReleaseRetires(w: World, k: Key, o: Object, fault: Fault)
    requires KeySound(w, k) && w.PhaseOf(k) == Cleaning(o, |Targets(o.spec)|) && Fresh(w, k, o) && !fault.Lost?
    ensures Retired(Request(w, k, fault), k, o.uid)
  {
    ReleaseReplacesRead(w, k, o, |Targets(o.spec)|);
    var w' := Request(w, k, fault);
    var h, h' := w.History(k), w'.History(k);
    assert |h'| == |h| + 1 && h'[|h| - 1] == Some(o);
  }

  /** What is left when the finalizer goes: exactly the works of this object in clusters off its list, and those are
      clusters that edits took off and that were not listed again since. */
  lemma LeftBehind(before: seq<Action>, k: Key, o: Object, fault: Fault, wk: WorkKey)
    requires var w := Run(EMPTY_HUB, before);
             w.PhaseOf(k) == Cleaning(o, |Targets(o.spec)|) && Fresh(w, k, o) && !fault.Lost?
    ensures var w := Run(EMPTY_HUB, before);
            var w1 := Do(w, Call(k, fault));
            && (wk in w1.works && w1.works[wk].writer == k <==>
                wk in w.works && w.works[wk].writer == k && wk.cluster !in Targets(o.spec))
            && (wk in w1.works && w1.works[wk].writer == k ==> LeftOff(before, k, wk.cluster))
  {
    var w := Run(EMPTY_HUB, before);
    if wk in w.works && w.works[wk].writer == k {
      OffListIsLeftOff(before, k, o, wk);
    }
    ReachableIsSound(before);
    ReleaseLeaves(w, k, o, fault, wk);
  }

  lemma OffListIsLeftOff(before: seq<Action>, k: Key, o: Object, wk: WorkKey)
    requires var w := Run(EMPTY_HUB, before);
             && w.PhaseOf(k) == Cleaning(o, |Targets(o.spec)|) && Fresh(w, k, o)
             && wk in w.works && w.works[wk].writer == k
    ensures wk.name == WorkName(k)
    ensures wk.cluster !in Targets(o.spec) ==> LeftOff(before, k, wk.cluster)
  {
    var w := Run(EMPTY_HUB, before);
    NoOrphans(before, wk);
    ReachableIsSound(before);
    assert KeySound(w, k);
    ReleaseReplacesRead(w, k, o, |Targets(o.spec)|);
  }

  lemma ReleaseLeaves(w: World, k: Key, o: Object, fault: Fault, wk: WorkKey)
    requires Sound(w) && w.PhaseOf(k) == Cleaning(o, |Targets(o.spec)|) && !fault.Lost?
    requires wk in w.works && w.works[wk].writer == k ==> wk.name == WorkName(k)
    ensures var w' := Do(w, Call(k, fault));
            wk in w'.works && w'.works[wk].writer == k <==>
            wk in w.works && w.works[wk].writer == k && wk.cluster !in Targets(o.spec)
  {
    assert Do(w, Call(k, fault)).works == w.works;
    if wk in w.works && w.works[wk].writer == k && wk.cluster in Targets(o.spec) {
      assert KeySound(w, k);
      CleanedHoldsNothing(w, k, o, wk);
    }
  }

  // ------------------------------------------------------------------ what a reconciler does to its own object

  /** The stored object stays, but for the one finalizer of the reconciler and the version; it goes only when it is
      being deleted and nobody else holds it. */
  ghost predicate KeepsObject(k: Key, before: Option<Object>, after: Option<Object>) {
    match after
    case None => before.None? || (before.value.deleting && before.value.finalizers <= {Finalizer(k.kind)})
    case Some(o') =>
      && before.Some?
      && o'.finalizers - {Finalizer(k.kind)} == before.value.finalizers - {Finalizer(k.kind)}
      && o'.spec == before.value.spec && o'.uid == before.value.uid && o'.deleting == before.value.deleting
  }

  lemma StoreKeepsObject(w: World, k: Key, o: Object, finalizers: set<string>, p: Phase)
    requires w.Current(k) == Some(o)
    requires finalizers - {Finalizer(k.kind)} == o.finalizers - {Finalizer(k.kind)}
    ensures KeepsObject(k, w.Current(k), w.Store(k, o.(finalizers := finalizers)).WithPhase(k, p).Current(k))
  {
    if finalizers == {} {
      forall f | f in o.finalizers
        ensures f == Finalizer(k.kind)
      {
        assert f != Finalizer(k.kind) ==> f in o.finalizers - {Finalizer(k.kind)};
      }
    }
  }

  lemma ClaimKeepsObject(w: World, k: Key, o: Object, fault: Fault)
    requires KeySound(w, k) && w.PhaseOf(k) == Claiming(o)
    ensures KeepsObject(k, w.Current(k), Claim(w, k, o, fault).Current(k))
  {
    if Fresh(w, k, o) {
      FreshIsCurrent(w, k, o);
      StoreKeepsObject(w, k, o, o.finalizers + {Finalizer(k.kind)},
                       if fault.Unanswered? then Idle else Planning(Claimed(w, k, o)));
      assert w.Store(k, Claimed(w, k, o)) == w.Store(k, o.(finalizers := o.finalizers + {Finalizer(k.kind)}));
    }
  }

  lemma ReleaseKeepsObject(w: World, k: Key, o: Object, next: nat)
    requires KeySound(w, k) && w.PhaseOf(k) == Cleaning(o, next)
    ensures KeepsObject(k, w.Current(k), Release(w, k, o).Current(k))
  {
    if Fresh(w, k, o) {
      ReleaseReplacesRead(w, k, o, next);
      StoreKeepsObject(w, k, o, o.finalizers - {Finalizer(k.kind)}, Idle);
    }
  }

  lemma ApplyKeepsHistory(w: World, k: Key, o: Object, plan: seq<Content>, next: nat, call: ApplyCall, fault: Fault)
    requires next < |plan| == |Targets(o.spec)|
    ensures ApplyNext(w, k, o, plan, next, call, fault).history == w.history
  {
    match call
    case Getting(left) => assert GetWork(w, k, o, plan, next, left, fault).history == w.history;
    case Creating => assert CreateWork(w, k, o, plan, next, fault).history == w.history;
    case Updating(base, left) => assert UpdateWork(w, k, o, plan, next, base, left, fault).history == w.history;
  }

  lemma CallKeepsObject(w: World, k: Key, fault: Fault)
    requires KeySound(w, k)
    ensures KeepsObject(k, w.Current(k), Request(w, k, fault).Current(k))
  {
    match w.PhaseOf(k)
    case Idle =>
    case Planning(_) =>
    case Cleaning(o, next) =>
      if !fault.Lost? && next >= |Targets(o.spec)| {
        ReleaseKeepsObject(w, k, o, next);
      }
    case Claiming(o) =>
      if !fault.Lost? {
        ClaimKeepsObject(w, k, o, fault);
      }
    case Applying(o, plan, next, call) =>
      if !fault.Lost? && next < |plan| {
        ApplyKeepsHistory(w, k, o, plan, next, call, fault);
      }
  }

  lemma StepKeepsObject(w: World, a: Action, k: Key)
    requires KeySound(w, k) && By(a, k)
    ensures KeepsObject(k, w.Current(k), Do(w, a).Current(k))
  {
    match a
    case Call(_, fault) => CallKeepsObject(w, k, fault);
    case Begin(_, at) => assert Start(w, k, at).Current(k) == w.Current(k);
    case Plan(_, contents) => assert Prepare(w, k, contents).Current(k) == w.Current(k);
  }

  /** In every run, no step of the reconciler of an object changes its spec, its identity or another finalizer of it,
      and none makes it vanish while someone else holds it. */
  lemma ReconcilerKeepsObject(before: seq<Action>, a: Action, k: Key)
    requires By(a, k)
    ensures KeepsObject(k, Run(EMPTY_HUB, before).Current(k), Do(Run(EMPTY_HUB, before), a).Current(k))
  {
    ReachableIsSound(before);
    assert KeySound(Run(EMPTY_HUB, before), k);
    StepKeepsObject(Run(EMPTY_HUB, before), a, k);
  }

  /** So whoever holds an object with a finalizer of their own keeps hold of it through every step of its reconciler. */
  lemma OthersKeepHold(before: seq<Action>, a: Action, k: Key, finalizer: string)
    requires By(a, k)
    requires k.kind == SliceNetwork ==> finalizer != "l2sces.l2sm.io/slicenetwork-cleanup"
    requires k.kind == SliceOverlay ==> finalizer != "l2sces.l2sm.io/sliceoverlay-cleanup"
    requires var o := Run(EMPTY_HUB, before).Current(k); o.Some? && finalizer in o.value.finalizers
    ensures var o' := Do(Run(EMPTY_HUB, before), a).Current(k); o'.Some? && finalizer in o'.value.finalizers
  {
    ReconcilerKeepsObject(before, a, k);
    var o := Run(EMPTY_HUB, before).Current(k).value;
    var o' := Do(Run(EMPTY_HUB, before), a).Current(k);
    assert finalizer in o.finalizers - {Finalizer(k.kind)};
    if o'.Some? {
      assert finalizer in o'.value.finalizers - {Finalizer(k.kind)};
    }
  }

  // ------------------------------------------------------------------ writes

  /** `l` is in the store, and it replaced only the very work that was read, keeping the rest of it. */
  ghost predicate Wrote(w: World, w': World, k: Key, l: Landing) {
    && l.work.name == WorkName(k)
    && l.work in w'.works
    && w'.works[l.work].content == l.content && w'.works[l.work].writer == k
    && (l.work in w.works ==>
          && w.PhaseOf(k).Applying? && w.PhaseOf(k).call.Updating? && w.PhaseOf(k).call.base == w.works[l.work]
          && w'.works[l.work].other == w.works[l.work].other)
  }

  /** Either nothing was logged and no work came or changed, or one write was logged and it is the only change. */
  ghost predicate Logged(w: World, w': World, k: Key) {
    var log, log' := w.Landed(k), w'.Landed(k);
    || (log' == log && forall wk :: wk in w'.works ==> wk in w.works && w'.works[wk] == w.works[wk])
    || (|log'| == |log| + 1 && log'[..|log|] == log && Wrote(w, w', k, log'[|log|])
        && forall wk :: wk != log'[|log|].work ==> SameWork(w, w', wk))
  }

  lemma PhaseLogged(w: World, k: Key, p: Phase)
    ensures Logged(w, w.WithPhase(k, p), k)
  {
  }

  lemma LandLogged(w: World, k: Key, o: Object, plan: seq<Content>, next: nat, other: string, fault: Fault)
    requires next < |plan| == |Targets(o.spec)|
    requires WorkAt(k, o, next) in w.works ==>
      && w.PhaseOf(k).Applying? && w.PhaseOf(k).call.Updating? && w.PhaseOf(k).call.base == w.works[WorkAt(k, o, next)]
      && other == w.works[WorkAt(k, o, next)].other
    ensures Logged(w, LandNext(w, k, o, plan, next, other, fault), k)
  {
  }

  lemma ApplyLogged(w: World, k: Key, o: Object, plan: seq<Content>, next: nat, call: ApplyCall, fault: Fault)
    requires PhaseSound(w, k) && w.PhaseOf(k) == Applying(o, plan, next, call) && next < |plan| == |Targets(o.spec)|
    ensures Logged(w, ApplyNext(w, k, o, plan, next, call, fault), k)
  {
    match call
    case Getting(left) => PhaseLogged(w, k, GetWork(w, k, o, plan, next, left, fault).PhaseOf(k));
    case Creating =>
      if WorkAt(k, o, next) in w.works {
        PhaseLogged(w, k, Idle);
      } else {
        LandLogged(w, k, o, plan, next, "", fault);
      }
    case Updating(base, left) =>
      if WorkAt(k, o, next) !in w.works {
        PhaseLogged(w, k, Idle);
      } else if w.works[WorkAt(k, o, next)].version != base.version {
        PhaseLogged(w, k, Retry(o, plan, next, left, fault));
      } else {
        LandLogged(w, k, o, plan, next, base.other, fault);
      }
  }

  lemma StoreLogged(w: World, k: Key, o: Object, p: Phase)
    ensures Logged(w, w.Store(k, o).WithPhase(k, p), k)
  {
  }

  lemma RemoveLogged(w: World, k: Key, o: Object, next: nat, fault: Fault)
    requires next < |Targets(o.spec)|
    ensures Logged(w, RemoveNext(w, k, o, next, fault), k)
  {
  }

  /** No lost updates: in a run, a call of a reconciler that changes a work is logged, and when it replaces a work,
      that work is exactly the one the call had read; everything the controller does not decide is kept. */
  lemma EveryWriteLogged(before: seq<Action>, k: Key, fault: Fault)
    ensures Logged(Run(EMPTY_HUB, before), Do(Run(EMPTY_HUB, before), Call(k, fault)), k)
  {
    var w := Run(EMPTY_HUB, before);
    ReachableIsSound(before);
    match w.PhaseOf(k)
    case Idle =>
    case Planning(_) =>
    case Cleaning(o, next) =>
      if fault.Lost? {
        PhaseLogged(w, k, Idle);
      } else if next < |Targets(o.spec)| {
        RemoveLogged(w, k, o, next, fault);
      } else if Fresh(w, k, o) {
        StoreLogged(w, k, o.(finalizers := o.finalizers - {Finalizer(k.kind)}), Idle);
      } else {
        PhaseLogged(w, k, Idle);
      }
    case Claiming(o) =>
      if fault.Lost? || !Fresh(w, k, o) {
        PhaseLogged(w, k, Idle);
      } else {
        StoreLogged(w, k, Claimed(w, k, o), if fault.Unanswered? then Idle else Planning(Claimed(w, k, o)));
      }
    case Applying(o, plan, next, call) =>
      assert KeySound(w, k);
      if fault.Lost? || next >= |plan| {
        PhaseLogged(w, k, Idle);
      } else {
        ApplyLogged(w, k, o, plan, next, call, fault);
      }
  }
}
