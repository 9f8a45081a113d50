/** What a single API call of a reconciler can change. */
module Effects {
  import opened Wrappers
  import opened Resources
  import opened Hub
  import opened Safety

  ghost predicate SameWork(w: World, w': World, wk: WorkKey) {
    (wk in w'.works <==> wk in w.works) && (wk in w.works ==> w'.works[wk] == w.works[wk])
  }

  /** Other keys notice nothing but the clock and the works. */
  ghost predicate OthersApart(w: World, w': World, k: Key) {
    && w.clock <= w'.clock
    && forall k' :: k' != k ==> Apart(w, w', k') && w'.Landed(k') == w.Landed(k')
  }

  /** The entry is the object that was read, but for spec, finalizers and version, or it is nothing. */
  ghost predicate Resembles(entry: Option<Object>, read: Object) {
    entry.Some? ==> entry.value.uid == read.uid && entry.value.deleting == read.deleting
  }

  /** The history of `k` stays or takes one entry: the object its reconcile read, or nothing. */
  ghost predicate HistoryStep(w: World, w': World, k: Key) {
    var h, h' := w.History(k), w'.History(k);
    && w'.Cursor(k) == w.Cursor(k)
    && ((h' == h && w'.Dropped(k) == w.Dropped(k)) ||
        (|h'| == |h| + 1 && h'[..|h|] == h && !w.PhaseOf(k).Idle? && Resembles(h'[|h|], w.PhaseOf(k).read)
         && w'.Dropped(k) == w.Dropped(k) - HeldClusters(k, h'[|h|])))
  }

  /** The phase goes back to idle, or goes on with the object that was read. */
  ghost predicate PhaseStep(w: World, w': World, k: Key) {
    var p, p' := w.PhaseOf(k), w'.PhaseOf(k);
    || p' == Idle || p' == p
    || (p.Cleaning? && p'.Cleaning? && p'.read == p.read)
    || (p.Claiming? && p'.Planning? && p'.read.uid == p.read.uid)
    || (p.Applying? && p'.Applying? && p'.read == p.read)
  }

  /** At most one write is logged, under the work name of `k` and in a cluster of the list that was read. */
  ghost predicate LogStep(w: World, w': World, k: Key) {
    var log, log' := w.Landed(k), w'.Landed(k);
    || log' == log
    || (w.PhaseOf(k).Applying? && |log'| == |log| + 1 && log'[..|log|] == log
        && log'[|log|].uid == w.PhaseOf(k).read.uid
        && log'[|log|].work.name == WorkName(k)
        && log'[|log|].work.cluster in Targets(w.PhaseOf(k).read.spec))
  }

  /** Only works under the name of `k`, in clusters of the list that was read, are touched. */
  ghost predicate WorksStep(w: World, w': World, k: Key) {
    forall wk :: SameWork(w, w', wk) ||
      (!w.PhaseOf(k).Idle? && wk.name == WorkName(k) && wk.cluster in Targets(w.PhaseOf(k).read.spec))
  }

  ghost predicate CallEffect(w: World, w': World, k: Key) {
    && OthersApart(w, w', k)
    && HistoryStep(w, w', k)
    && PhaseStep(w, w', k)
    && LogStep(w, w', k)
    && WorksStep(w, w', k)
  }

  lemma PhaseEffect(w: World, k: Key, p: Phase)
    requires PhaseStep(w, w.WithPhase(k, p), k)
    ensures CallEffect(w, w.WithPhase(k, p), k)
  {
  }

  lemma RemoveEffect(w: World, k: Key, o: Object, next: nat, fault: Fault)
    requires w.PhaseOf(k) == Cleaning(o, next) && next < |Targets(o.spec)|
    ensures CallEffect(w, RemoveNext(w, k, o, next, fault), k)
  {
  }

  lemma StoreApart(w: World, k: Key, o: Object, p: Phase)
    ensures OthersApart(w, w.Store(k, o).WithPhase(k, p), k)
  {
  }

  lemma StoreHistoryStep(w: World, k: Key, o: Object, p: Phase)
    requires !w.PhaseOf(k).Idle? && o.uid == w.PhaseOf(k).read.uid && o.deleting == w.PhaseOf(k).read.deleting
    ensures HistoryStep(w, w.Store(k, o).WithPhase(k, p), k)
  {
  }

  lemma StoreEffect(w: World, k: Key, o: Object, p: Phase)
    requires !w.PhaseOf(k).Idle? && o.uid == w.PhaseOf(k).read.uid && o.deleting == w.PhaseOf(k).read.deleting
    requires PhaseStep(w, w.WithPhase(k, p), k)
    ensures CallEffect(w, w.Store(k, o).WithPhase(k, p), k)
  {
    StoreApart(w, k, o, p);
    StoreHistoryStep(w, k, o, p);
  }

  lemma LandApart(w: World, k: Key, o: Object, plan: seq<Content>, next: nat, other: string, fault: Fault)
    requires next < |plan| == |Targets(o.spec)|
    ensures OthersApart(w, LandNext(w, k, o, plan, next, other, fault), k)
  {
  }

  lemma LandEffect(w: World, k: Key, o: Object, plan: seq<Content>, next: nat, call: ApplyCall, other: string,
                   fault: Fault)
    requires w.PhaseOf(k) == Applying(o, plan, next, call) && next < |plan| == |Targets(o.spec)|
    ensures CallEffect(w, LandNext(w, k, o, plan, next, other, fault), k)
  {
    LandApart(w, k, o, plan, next, other, fault);
  }

  lemma ReleaseEffect(w: World, k: Key, o: Object, next: nat)
    requires w.PhaseOf(k) == Cleaning(o, next)
    ensures CallEffect(w, Release(w, k, o), k)
  {
    if Fresh(w, k, o) {
      StoreEffect(w, k, o.(finalizers := o.finalizers - {Finalizer(k.kind)}), Idle);
    } else {
      PhaseEffect(w, k, Idle);
    }
  }

  lemma ClaimEffect(w: World, k: Key, o: Object, fault: Fault)
    requires w.PhaseOf(k) == Claiming(o)
    ensures CallEffect(w, Claim(w, k, o, fault), k)
  {
    if Fresh(w, k, o) {
      var o' := Claimed(w, k, o);
      StoreEffect(w, k, o', if fault.Unanswered? then Idle else Planning(o'));
    } else {
      PhaseEffect(w, k, Idle);
    }
  }

  lemma ApplyEffect(w: World, k: Key, o: Object, plan: seq<Content>, next: nat, call: ApplyCall, fault: Fault)
    requires w.PhaseOf(k) == Applying(o, plan, next, call) && next < |plan| == |Targets(o.spec)|
    ensures CallEffect(w, ApplyNext(w, k, o, plan, next, call, fault), k)
  {
    match call
    case Getting(left) => PhaseEffect(w, k, GetWork(w, k, o, plan, next, left, fault).PhaseOf(k));
    case Creating =>
      if WorkAt(k, o, next) in w.works {
        PhaseEffect(w, k, Idle);
      } else {
        LandEffect(w, k, o, plan, next, call, "", fault);
      }
    case Updating(base, left) =>
      if WorkAt(k, o, next) !in w.works {
        PhaseEffect(w, k, Idle);
      } else if w.works[WorkAt(k, o, next)].version != base.version {
        PhaseEffect(w, k, Retry(o, plan, next, left, fault));
      } else {
        LandEffect(w, k, o, plan, next, call, base.other, fault);
      }
  }

  lemma RequestEffect(w: World, k: Key, fault: Fault)
    ensures CallEffect(w, Request(w, k, fault), k)
  {
    match w.PhaseOf(k)
    case Idle =>
    case Planning(_) =>
    case Cleaning(o, next) =>
      if fault.Lost? {
        PhaseEffect(w, k, Idle);
      } else if next < |Targets(o.spec)| {
        RemoveEffect(w, k, o, next, fault);
      } else {
        ReleaseEffect(w, k, o, next);
      }
    case Claiming(o) =>
      if fault.Lost? {
        PhaseEffect(w, k, Idle);
      } else {
        ClaimEffect(w, k, o, fault);
      }
    case Applying(o, plan, next, call) =>
      if fault.Lost? || next >= |plan| || |plan| != |Targets(o.spec)| {
        PhaseEffect(w, k, Idle);
      } else {
        ApplyEffect(w, k, o, plan, next, call, fault);
      }
  }

  /** Is `a` about the object with key `k`? */
  predicate On(a: Action, k: Key) {
    !a.TouchWork? && !a.RemoveWork? && a.key == k
  }

  ghost predicate Unmoved(w: World, w': World, k: Key) {
    Apart(w, w', k) && w'.Landed(k) == w.Landed(k) && w.clock <= w'.clock
  }

  lemma CreateElsewhere(w: World, k: Key, spec: Spec, finalizers: set<string>, other: Key)
    requires other != k
    ensures Unmoved(w, Create(w, k, spec, finalizers), other)
  {
  }

  lemma EditElsewhere(w: World, k: Key, spec: Spec, finalizers: set<string>, other: Key)
    requires other != k
    ensures Unmoved(w, Edit(w, k, spec, finalizers), other)
  {
  }

  lemma DeleteElsewhere(w: World, k: Key, other: Key)
    requires other != k
    ensures Unmoved(w, Delete(w, k), other)
  {
  }

  lemma StartElsewhere(w: World, k: Key, at: nat, other: Key)
    requires other != k
    ensures Unmoved(w, Start(w, k, at), other)
  {
  }

  lemma PrepareElsewhere(w: World, k: Key, contents: Option<seq<Content>>, other: Key)
    requires other != k
    ensures Unmoved(w, Prepare(w, k, contents), other)
  {
  }

  lemma TouchElsewhere(w: World, wk: WorkKey, content: Content, text: string, other: Key)
    ensures Unmoved(w, Touch(w, wk, content, text), other)
  {
  }

  lemma RemoveElsewhere(w: World, wk: WorkKey, other: Key)
    ensures Unmoved(w, Remove(w, wk), other)
  {
  }

  lemma RequestElsewhere(w: World, k: Key, fault: Fault, other: Key)
    requires other != k
    ensures Unmoved(w, Request(w, k, fault), other)
  {
    RequestEffect(w, k, fault);
  }

  /** A step about one key leaves all other keys alone. */
  lemma ElsewhereIsUnmoved(w: World, a: Action, k: Key)
    requires !On(a, k)
    ensures Unmoved(w, Do(w, a), k)
  {
    match a
    case UserCreate(k', spec, finalizers) => CreateElsewhere(w, k', spec, finalizers, k);
    case UserEdit(k', spec, finalizers) => EditElsewhere(w, k', spec, finalizers, k);
    case UserDelete(k') => DeleteElsewhere(w, k', k);
    case TouchWork(wk, content, text) => TouchElsewhere(w, wk, content, text, k);
    case RemoveWork(wk) => RemoveElsewhere(w, wk, k);
    case Begin(k', at) => StartElsewhere(w, k', at, k);
    case Plan(k', contents) => PrepareElsewhere(w, k', contents, k);
    case Call(k', fault) => RequestElsewhere(w, k', fault, k);
  }

  lemma {:induction false} RunElsewhere(w: World, actions: seq<Action>, k: Key)
    requires forall a :: a in actions ==> !On(a, k)
    ensures Unmoved(w, Run(w, actions), k)
    decreases actions
  {
    if actions == [] {
    } else {
      assert !On(actions[0], k);
      ElsewhereIsUnmoved(w, actions[0], k);
      RunElsewhere(Do(w, actions[0]), actions[1..], k);
    }
  }
}
