/**
 What every run of the hub keeps: no ManifestWork is left behind by an object that is gone,
 except in clusters that an edit took off its list for good.
 */
module Safety {
  import opened Wrappers
  import opened Resources
  import opened Hub

  // ------------------------------------------------------------------ the invariant

  ghost predicate HeldLive(k: Key, entry: Option<Object>) {
    Held(k, entry) && !entry.value.deleting
  }

  /** Every cluster of `spec` is listed by the stored object, or it is dropped. */
  ghost predicate Covered(w: World, k: Key, spec: Spec) {
    TargetSet(spec) <= HeldClusters(k, w.Current(k)) + w.Dropped(k)
  }

  /** The stored object still answers for the works of a reconcile that read `o`. */
  ghost predicate Backed(w: World, k: Key, o: Object) {
    && Held(k, w.Current(k))
    && Covered(w, k, o.spec)
    && Some(o) in w.History(k)
  }

  ghost predicate VersionsGrow(w: World, k: Key) {
    var h := w.History(k);
    && (forall i :: 0 <= i < |h| && h[i].Some? ==> h[i].value.version <= w.clock && h[i].value.uid <= w.clock)
    && (forall i, j :: 0 <= i < j < |h| && h[i].Some? && h[j].Some? ==> h[i].value.version < h[j].value.version)
  }

  /** A live snapshot that can still be read and carries the finalizer: the object has kept it since. */
  ghost predicate FinalizerKept(w: World, k: Key) {
    var h := w.History(k);
    forall i, j :: w.Cursor(k) <= i <= j < |h| && HeldLive(k, h[i]) ==> Held(k, h[j])
  }

  /** Its clusters are listed still, or dropped. */
  ghost predicate ReadsCovered(w: World, k: Key) {
    var h := w.History(k);
    forall i :: w.Cursor(k) <= i < |h| && HeldLive(k, h[i]) ==> Covered(w, k, h[i].value.spec)
  }

  /** What the stored object lists is not dropped. */
  ghost predicate DroppedIsOff(w: World, k: Key) {
    w.Dropped(k) !! HeldClusters(k, w.Current(k))
  }

  ghost predicate PhaseSound(w: World, k: Key) {
    var h := w.History(k);
    && w.Cursor(k) < |h|
    && match w.PhaseOf(k)
       case Idle => true
       case Cleaning(o, next) =>
         && h[w.Cursor(k)] == Some(o) && o.deleting
         && next <= |Targets(o.spec)|
         && forall i :: 0 <= i < next && WorkAt(k, o, i) in w.works ==> w.works[WorkAt(k, o, i)].writer != k
       case Claiming(o) => h[w.Cursor(k)] == Some(o) && !o.deleting
       case Planning(o) => Backed(w, k, o)
       case Applying(o, plan, next, call) =>
         && Backed(w, k, o)
         && |plan| == |Targets(o.spec)|
         && next <= |plan|
         && (call.Updating? ==> next < |plan| && BaseSound(w, WorkAt(k, o, next), call.base))
  }

  /** The version number identifies the work that was read. */
  ghost predicate BaseSound(w: World, wk: WorkKey, base: Work) {
    && base.version <= w.clock
    && (wk in w.works && w.works[wk].version == base.version ==> w.works[wk] == base)
  }

  ghost predicate KeySound(w: World, k: Key) {
    VersionsGrow(w, k) && FinalizerKept(w, k) && ReadsCovered(w, k) && DroppedIsOff(w, k) && PhaseSound(w, k)
  }

  /** The object of the last writer still carries its finalizer and lists the cluster, or the cluster is dropped. */
  ghost predicate Answered(w: World, wk: WorkKey)
    requires wk in w.works
  {
    var k := w.works[wk].writer;
    && w.works[wk].version <= w.clock
    && wk.name == WorkName(k)
    && wk.cluster in HeldClusters(k, w.Current(k)) + w.Dropped(k)
  }

  ghost predicate Sound(w: World) {
    && (forall k: Key :: KeySound(w, k))
    && (forall wk :: wk in w.works ==> Answered(w, wk))
  }

  // ------------------------------------------------------------------ steps that leave a key alone

  /** The works only changed by removals, by fresh versions, and not in the name of `k`. */
  ghost predicate WorksAdvance(w: World, w': World, k: Key) {
    && w.clock <= w'.clock
    && (forall wk :: wk in w'.works && w'.works[wk].writer == k ==> wk in w.works && w.works[wk].writer == k)
    && (forall wk :: wk in w'.works ==>
          (wk in w.works && w'.works[wk] == w.works[wk]) || w'.works[wk].version > w.clock)
  }

  ghost predicate Apart(w: World, w': World, k: Key) {
    && w'.History(k) == w.History(k)
    && w'.Cursor(k) == w.Cursor(k)
    && w'.PhaseOf(k) == w.PhaseOf(k)
    && w'.Dropped(k) == w.Dropped(k)
  }

  /** What is said of the history of a key, and of what can be read of it. */
  ghost predicate HistorySound(w: World, k: Key) {
    VersionsGrow(w, k) && FinalizerKept(w, k) && ReadsCovered(w, k) && DroppedIsOff(w, k)
  }

  lemma FinalizerStaysKept(w: World, w': World, k: Key)
    requires FinalizerKept(w, k) && w'.History(k) == w.History(k) && w.Cursor(k) <= w'.Cursor(k)
    ensures FinalizerKept(w', k)
  {
  }

  lemma ReadsStayCovered(w: World, w': World, k: Key)
    requires ReadsCovered(w, k) && w'.History(k) == w.History(k) && w'.Dropped(k) == w.Dropped(k)
    requires w.Cursor(k) <= w'.Cursor(k)
    ensures ReadsCovered(w', k)
  {
  }

  lemma HistoryStaysSound(w: World, w': World, k: Key)
    requires HistorySound(w, k) && w'.History(k) == w.History(k) && w'.Dropped(k) == w.Dropped(k)
    requires w.clock <= w'.clock && w.Cursor(k) <= w'.Cursor(k)
    ensures HistorySound(w', k)
  {
    FinalizerStaysKept(w, w', k);
    ReadsStayCovered(w, w', k);
  }

  lemma PhaseStaysSound(w: World, w': World, k: Key)
    requires PhaseSound(w, k) && Apart(w, w', k) && WorksAdvance(w, w', k)
    ensures PhaseSound(w', k)
  {
  }

  lemma ApartKeepsSound(w: World, w': World, k: Key)
    requires KeySound(w, k) && Apart(w, w', k) && WorksAdvance(w, w', k)
    ensures KeySound(w', k)
  {
    HistoryStaysSound(w, w', k);
    PhaseStaysSound(w, w', k);
  }

  lemma OthersKeepSound(w: World, w': World, k: Key)
    requires Sound(w)
    requires forall k' :: k' != k ==> Apart(w, w', k')
    requires forall k' :: k' != k ==> WorksAdvance(w, w', k')
    ensures forall k' :: k' != k ==> KeySound(w', k')
  {
    forall k' | k' != k
      ensures KeySound(w', k')
    {
      assert KeySound(w, k') && Apart(w, w', k') && WorksAdvance(w, w', k');
      ApartKeepsSound(w, w', k');
    }
  }

  // ------------------------------------------------------------------ steps that append to the history of a key

  /** `entry` may follow the stored object: it is newer and keeps the finalizer, and no cluster gets lost between
      what is listed and what is dropped. */
  ghost predicate Follows(w: World, k: Key, entry: Option<Object>, dropped: set<string>) {
    && (entry.Some? ==> w.clock < entry.value.version && entry.value.uid <= entry.value.version)
    && (Held(k, w.Current(k)) ==> Held(k, entry))
    && HeldClusters(k, w.Current(k)) + w.Dropped(k) <= HeldClusters(k, entry) + dropped
    && dropped !! HeldClusters(k, entry)
  }

  ghost predicate Appended(w: World, w': World, k: Key, entry: Option<Object>) {
    && w'.clock == w.clock + 1
    && w'.works == w.works
    && w'.History(k) == w.History(k) + [entry]
    && w'.Cursor(k) == w.Cursor(k)
    && w'.PhaseOf(k) == w.PhaseOf(k)
    && (entry.Some? ==> entry.value.version == w'.clock)
    && forall k' :: k' != k ==> Apart(w, w', k')
  }

  lemma AppendKeepsFinalizer(w: World, w': World, k: Key, entry: Option<Object>)
    requires FinalizerKept(w, k) && Appended(w, w', k, entry) && Follows(w, k, entry, w'.Dropped(k))
    requires w.Cursor(k) < |w.History(k)|
    ensures FinalizerKept(w', k)
  {
    var h, h' := w.History(k), w'.History(k);
    forall i, j | w'.Cursor(k) <= i <= j < |h'| && HeldLive(k, h'[i])
      ensures Held(k, h'[j])
    {
      if i < |h| {
        assert Held(k, h[|h| - 1]);
      }
    }
  }

  lemma AppendKeepsCovered(w: World, w': World, k: Key, entry: Option<Object>)
    requires ReadsCovered(w, k) && Appended(w, w', k, entry) && Follows(w, k, entry, w'.Dropped(k))
    ensures ReadsCovered(w', k)
  {
    var h, h' := w.History(k), w'.History(k);
    forall i | w'.Cursor(k) <= i < |h'| && HeldLive(k, h'[i])
      ensures Covered(w', k, h'[i].value.spec)
    {
      if i < |h| {
        assert Covered(w, k, h[i].value.spec);
      }
    }
  }

  lemma AppendKeepsKeySound(w: World, w': World, k: Key, entry: Option<Object>)
    requires KeySound(w, k) && Appended(w, w', k, entry) && Follows(w, k, entry, w'.Dropped(k))
    ensures KeySound(w', k)
  {
    AppendKeepsFinalizer(w, w', k, entry);
    AppendKeepsCovered(w, w', k, entry);
  }

  lemma AppendKeepsAnswered(w: World, w': World, k: Key, entry: Option<Object>, wk: WorkKey)
    requires Appended(w, w', k, entry) && Follows(w, k, entry, w'.Dropped(k))
    requires wk in w.works && Answered(w, wk)
    ensures Answered(w', wk)
  {
    if w.works[wk].writer != k {
      assert Apart(w, w', w.works[wk].writer);
    }
  }

  lemma AppendKeepsSound(w: World, w': World, k: Key, entry: Option<Object>)
    requires Sound(w)
    requires Appended(w, w', k, entry) && Follows(w, k, entry, w'.Dropped(k))
    ensures Sound(w')
  {
    assert KeySound(w, k);
    AppendKeepsKeySound(w, w', k, entry);
    OthersKeepSound(w, w', k);
    forall wk | wk in w'.works
      ensures Answered(w', wk)
    {
      assert Answered(w, wk);
      AppendKeepsAnswered(w, w', k, entry, wk);
    }
  }

  lemma CreateKeepsSound(w: World, k: Key, spec: Spec, finalizers: set<string>)
    requires Sound(w)
    ensures Sound(Create(w, k, spec, finalizers))
  {
    if w.Current(k).None? {
      var entry := Some(Object(spec, finalizers, false, w.clock + 1, w.clock + 1));
      AppendKeepsSound(w, Create(w, k, spec, finalizers), k, entry);
    }
  }

  lemma EditAppends(w: World, k: Key, spec: Spec, finalizers: set<string>)
    requires CanEdit(w, k, finalizers)
    ensures var w' := Edit(w, k, spec, finalizers); Appended(w, w', k, w'.Current(k))
  {
  }

  lemma EditFollows(w: World, k: Key, spec: Spec, finalizers: set<string>)
    requires VersionsGrow(w, k) && CanEdit(w, k, finalizers)
    ensures var w' := Edit(w, k, spec, finalizers);
            Appended(w, w', k, w'.Current(k)) && Follows(w, k, w'.Current(k), w'.Dropped(k))
  {
    EditAppends(w, k, spec, finalizers);
  }

  lemma DeleteFollows(w: World, k: Key)
    requires VersionsGrow(w, k) && DroppedIsOff(w, k) && w.Current(k).Some? && !w.Current(k).value.deleting
    ensures var w' := Delete(w, k);
            Appended(w, w', k, w'.Current(k)) && Follows(w, k, w'.Current(k), w'.Dropped(k))
  {
  }

  lemma EditKeepsSound(w: World, k: Key, spec: Spec, finalizers: set<string>)
    requires Sound(w)
    ensures Sound(Edit(w, k, spec, finalizers))
  {
    var w' := Edit(w, k, spec, finalizers);
    if CanEdit(w, k, finalizers) {
      assert KeySound(w, k);
      EditFollows(w, k, spec, finalizers);
      AppendKeepsSound(w, w', k, w'.Current(k));
    }
  }

  lemma DeleteKeepsSound(w: World, k: Key)
    requires Sound(w)
    ensures Sound(Delete(w, k))
  {
    var w' := Delete(w, k);
    if w.Current(k).Some? && !w.Current(k).value.deleting {
      assert KeySound(w, k);
      DeleteFollows(w, k);
      AppendKeepsSound(w, w', k, w'.Current(k));
    }
  }

  // ------------------------------------------------------------------ steps on works

  /** A work answered for before stays answered for when its writer is left alone. */
  lemma StaysAnswered(w: World, w': World, wk: WorkKey)
    requires wk in w.works && Answered(w, wk)
    requires wk in w'.works && w'.works[wk].writer == w.works[wk].writer && w'.works[wk].version <= w'.clock
    requires w'.History(w.works[wk].writer) == w.History(w.works[wk].writer)
    requires w'.Dropped(w.works[wk].writer) == w.Dropped(w.works[wk].writer)
    ensures Answered(w', wk)
  {
  }

  // ------------------------------------------------------------------ steps of the reconciler of a key

  /** A step around `k` that leaves all histories alone. */
  ghost predicate OwnStep(w: World, w': World, k: Key) {
    && w'.clock >= w.clock
    && w'.history == w.history
    && w'.dropped == w.dropped
    && w.Cursor(k) <= w'.Cursor(k)
    && (forall k' :: k' != k ==> Apart(w, w', k'))
    && (forall k' :: k' != k ==> WorksAdvance(w, w', k'))
  }

  lemma OwnStepKeepsKeySound(w: World, w': World, k: Key)
    requires KeySound(w, k) && OwnStep(w, w', k) && PhaseSound(w', k)
    ensures KeySound(w', k)
  {
    HistoryStaysSound(w, w', k);
  }

  lemma OwnStepKeepsSound(w: World, w': World, k: Key)
    requires Sound(w) && OwnStep(w, w', k) && PhaseSound(w', k)
    requires forall wk :: wk in w'.works ==>
      || (wk in w.works && w'.works[wk].writer == w.works[wk].writer && w'.works[wk].version <= w'.clock)
      || Answered(w', wk)
    ensures Sound(w')
  {
    assert KeySound(w, k);
    OwnStepKeepsKeySound(w, w', k);
    OthersKeepSound(w, w', k);
    forall wk | wk in w'.works
      ensures Answered(w', wk)
    {
      if !Answered(w', wk) {
        assert Answered(w, wk);
        StaysAnswered(w, w', wk);
      }
    }
  }

  /** Works only vanish, or change in the name of their writer under a new version. */
  ghost predicate OthersWorks(w: World, w': World) {
    forall wk :: wk in w'.works ==>
      && wk in w.works && w'.works[wk].writer == w.works[wk].writer
      && (w'.works[wk] == w.works[wk] || w.clock < w'.works[wk].version <= w'.clock)
  }

  lemma OthersWorksAdvance(w: World, w': World, k: Key)
    requires w' == w.(works := w'.works, clock := w'.clock) && w.clock <= w'.clock && OthersWorks(w, w')
    ensures forall k' :: Apart(w, w', k') && WorksAdvance(w, w', k')
    ensures OwnStep(w, w', k)
  {
  }

  /** Other writers change works, but no object and no reconcile. */
  lemma WorksOnlyKeepsSound(w: World, w': World, k: Key)
    requires Sound(w) && w' == w.(works := w'.works, clock := w'.clock) && w.clock <= w'.clock
    requires OthersWorks(w, w')
    ensures Sound(w')
  {
    assert KeySound(w, k);
    OthersWorksAdvance(w, w', k);
    PhaseStaysSound(w, w', k);
    forall wk | wk in w'.works
      ensures w'.works[wk].version <= w'.clock
    {
      assert Answered(w, wk);
    }
    OwnStepKeepsSound(w, w', k);
  }

  lemma TouchKeepsSound(w: World, wk: WorkKey, content: Content, other: string)
    requires Sound(w)
    ensures Sound(Touch(w, wk, content, other))
  {
    if wk in w.works {
      assert Answered(w, wk);
      WorksOnlyKeepsSound(w, Touch(w, wk, content, other), Key(SliceNetwork, "", ""));
    }
  }

  lemma RemoveKeepsSound(w: World, wk: WorkKey)
    requires Sound(w)
    ensures Sound(Remove(w, wk))
  {
    WorksOnlyKeepsSound(w, Remove(w, wk), Key(SliceNetwork, "", ""));
  }

  lemma StartKeepsSound(w: World, k: Key, at: nat)
    requires Sound(w)
    ensures Sound(Start(w, k, at))
  {
    if CanStart(w, k, at) {
      var w' := Start(w, k, at);
      assert KeySound(w, k);
      StartPhaseSound(w, k, at);
      forall wk | wk in w'.works
        ensures w'.works[wk].version <= w'.clock
      {
        assert Answered(w, wk);
      }
      OwnStepKeepsSound(w, w', k);
    }
  }

  lemma ReadIsBacked(w: World, k: Key, at: nat)
    requires FinalizerKept(w, k) && ReadsCovered(w, k)
    requires w.Cursor(k) <= at < |w.History(k)| && HeldLive(k, w.History(k)[at])
    ensures Backed(w, k, w.History(k)[at].value)
  {
    var h := w.History(k);
    assert Held(k, h[|h| - 1]);
  }

  lemma StartPhaseSound(w: World, k: Key, at: nat)
    requires FinalizerKept(w, k) && ReadsCovered(w, k) && CanStart(w, k, at)
    requires PhaseSound(w, k)
    ensures PhaseSound(Start(w, k, at), k)
  {
    var w' := Start(w, k, at);
    var entry := w.History(k)[at];
    assert w'.History(k) == w.History(k) && w'.Cursor(k) == at;
    if HeldLive(k, entry) {
      ReadIsBacked(w, k, at);
      assert w'.PhaseOf(k) == Planning(entry.value);
      assert Backed(w', k, entry.value);
    }
  }

  lemma PhaseChangeKeepsSound(w: World, k: Key, p: Phase)
    requires Sound(w) && PhaseSound(w.WithPhase(k, p), k)
    ensures Sound(w.WithPhase(k, p))
  {
    OwnStepKeepsSound(w, w.WithPhase(k, p), k);
  }

  /** A reconcile may end at any time. */
  lemma StopKeepsSound(w: World, k: Key)
    requires Sound(w)
    ensures Sound(w.WithPhase(k, Idle))
  {
    assert KeySound(w, k);
    PhaseChangeKeepsSound(w, k, Idle);
  }

  lemma PlannedPhaseSound(w: World, k: Key, o: Object, plan: seq<Content>)
    requires PhaseSound(w, k) && w.PhaseOf(k) == Planning(o) && |plan| == |Targets(o.spec)|
    ensures PhaseSound(w.WithPhase(k, Applying(o, plan, 0, Getting(RETRY_STEPS))), k)
  {
    assert Backed(w.WithPhase(k, Applying(o, plan, 0, Getting(RETRY_STEPS))), k, o);
  }

  lemma PrepareKeepsSound(w: World, k: Key, contents: Option<seq<Content>>)
    requires Sound(w)
    ensures Sound(Prepare(w, k, contents))
  {
    match w.PhaseOf(k)
    case Planning(o) =>
      if contents.None? {
        StopKeepsSound(w, k);
      } else if |contents.value| == |Targets(o.spec)| {
        assert KeySound(w, k);
        PlannedPhaseSound(w, k, o, contents.value);
        PhaseChangeKeepsSound(w, k, Applying(o, contents.value, 0, Getting(RETRY_STEPS)));
      }
    case _ =>
  }

  lemma RemovalAdvances(w: World, w': World, wk: WorkKey)
    requires w'.works == w.works - {wk} && w'.clock == w.clock
    ensures forall k: Key :: WorksAdvance(w, w', k)
  {
  }

  lemma RemoveNextPhaseSound(w: World, k: Key, o: Object, next: nat, fault: Fault)
    requires PhaseSound(w, k) && w.PhaseOf(k) == Cleaning(o, next) && next < |Targets(o.spec)|
    ensures PhaseSound(RemoveNext(w, k, o, next, fault), k)
  {
  }

  lemma RemoveIsOwnStep(w: World, k: Key, o: Object, next: nat, fault: Fault)
    requires next < |Targets(o.spec)|
    ensures OwnStep(w, RemoveNext(w, k, o, next, fault), k)
  {
    RemovalAdvances(w, RemoveNext(w, k, o, next, fault), WorkAt(k, o, next));
  }

  lemma RemoveNextKeepsSound(w: World, k: Key, o: Object, next: nat, fault: Fault)
    requires Sound(w) && w.PhaseOf(k) == Cleaning(o, next) && next < |Targets(o.spec)|
    ensures Sound(RemoveNext(w, k, o, next, fault))
  {
    var w' := RemoveNext(w, k, o, next, fault);
    assert KeySound(w, k);
    RemoveNextPhaseSound(w, k, o, next, fault);
    RemoveIsOwnStep(w, k, o, next, fault);
    forall wk | wk in w'.works
      ensures w'.works[wk].version <= w'.clock
    {
      assert Answered(w, wk);
    }
    OwnStepKeepsSound(w, w', k);
  }

  /** Versions identify snapshots: an accepted Update replaces exactly the snapshot that was read. */
  lemma FreshIsCurrent(w: World, k: Key, o: Object)
    requires KeySound(w, k) && Some(o) in w.History(k) && Fresh(w, k, o)
    ensures w.Current(k) == Some(o)
  {
    var h := w.History(k);
    var i :| 0 <= i < |h| && h[i] == Some(o);
    assert h[i].value.version == h[|h| - 1].value.version;
  }

  /** The object that Claim stores: as it was read, with the finalizer added. */
  function Claimed(w: World, k: Key, o: Object): Object {
    o.(finalizers := o.finalizers + {Finalizer(k.kind)}, version := w.clock + 1)
  }

  lemma ClaimFollows(w: World, k: Key, o: Object)
    requires VersionsGrow(w, k) && DroppedIsOff(w, k) && w.Current(k) == Some(o) && !o.deleting
    ensures var w' := w.Store(k, Claimed(w, k, o));
            && Appended(w, w', k, Some(Claimed(w, k, o)))
            && Follows(w, k, Some(Claimed(w, k, o)), w'.Dropped(k))
  {
  }

  lemma ClaimedIsBacked(w: World, k: Key, o: Object, p: Phase)
    requires !o.deleting && (p == Idle || p == Planning(Claimed(w, k, o)))
    requires var w' := w.Store(k, Claimed(w, k, o)); w'.Cursor(k) < |w'.History(k)|
    ensures PhaseSound(w.Store(k, Claimed(w, k, o)).WithPhase(k, p), k)
  {
    var w' := w.Store(k, Claimed(w, k, o));
    assert w'.Current(k) == Some(Claimed(w, k, o));
    assert Backed(w'.WithPhase(k, p), k, Claimed(w, k, o));
  }

  lemma ClaimKeepsSound(w: World, k: Key, o: Object, fault: Fault)
    requires Sound(w) && w.PhaseOf(k) == Claiming(o)
    ensures Sound(Claim(w, k, o, fault))
  {
    if Fresh(w, k, o) {
      assert w.Current(k) == Some(o) by {
        assert KeySound(w, k);
        FreshIsCurrent(w, k, o);
      }
      var w' := w.Store(k, Claimed(w, k, o));
      assert KeySound(w, k);
      ClaimFollows(w, k, o);
      AppendKeepsSound(w, w', k, Some(Claimed(w, k, o)));
      assert KeySound(w', k);
      ClaimedIsBacked(w, k, o, if fault.Unanswered? then Idle else Planning(Claimed(w, k, o)));
      PhaseChangeKeepsSound(w', k, if fault.Unanswered? then Idle else Planning(Claimed(w, k, o)));
    } else {
      assert KeySound(w, k);
      PhaseChangeKeepsSound(w, k, Idle);
    }
  }

  /** When the finalizer goes, the object that was read is the stored one and the cursor is at the end. */
  lemma ReleaseReplacesRead(w: World, k: Key, o: Object, next: nat)
    requires KeySound(w, k) && w.PhaseOf(k) == Cleaning(o, next) && Fresh(w, k, o)
    ensures w.Current(k) == Some(o)
    ensures w.Cursor(k) == |w.History(k)| - 1
  {
    var h := w.History(k);
    assert h[w.Cursor(k)].value.version == h[|h| - 1].value.version;
  }

  /** After the release nothing that can still be read is claimed and alive. */
  lemma ReleaseLeavesNoClaim(w: World, k: Key, o: Object)
    requires w.Current(k) == Some(o) && o.deleting && w.Cursor(k) == |w.History(k)| - 1 && Fresh(w, k, o)
    ensures var w' := Release(w, k, o);
            && FinalizerKept(w', k) && ReadsCovered(w', k) && PhaseSound(w', k) && DroppedIsOff(w', k)
  {
    var h, h' := w.History(k), Release(w, k, o).History(k);
    assert h' == h + [h'[|h|]];
    assert forall j :: |h| - 1 <= j < |h'| ==> !HeldLive(k, h'[j]);
  }

  lemma ReleaseGrowsVersions(w: World, k: Key, o: Object)
    requires VersionsGrow(w, k) && w.Current(k) == Some(o) && Fresh(w, k, o)
    ensures VersionsGrow(Release(w, k, o), k)
  {
    var h, h' := w.History(k), Release(w, k, o).History(k);
    assert h' == h + [h'[|h|]];
  }

  lemma ReleaseKeepsKeySound(w: World, k: Key, o: Object, next: nat)
    requires KeySound(w, k) && w.PhaseOf(k) == Cleaning(o, next) && Fresh(w, k, o)
    ensures KeySound(Release(w, k, o), k)
  {
    ReleaseReplacesRead(w, k, o, next);
    ReleaseLeavesNoClaim(w, k, o);
    ReleaseGrowsVersions(w, k, o);
  }

  /** The list that was cleaned is clean. */
  lemma CleanedHoldsNothing(w: World, k: Key, o: Object, wk: WorkKey)
    requires PhaseSound(w, k) && w.PhaseOf(k) == Cleaning(o, |Targets(o.spec)|)
    requires wk in w.works && wk.name == WorkName(k) && wk.cluster in Targets(o.spec)
    ensures w.works[wk].writer != k
  {
    var i :| 0 <= i < |Targets(o.spec)| && Targets(o.spec)[i] == wk.cluster;
    assert WorkAt(k, o, i) == wk;
  }

  lemma SameWorksAdvance(w: World, w': World)
    requires w'.works == w.works && w.clock <= w'.clock
    ensures forall k: Key :: WorksAdvance(w, w', k)
  {
  }

  lemma ReleaseElsewhere(w: World, k: Key, o: Object, other: Key)
    requires other != k
    ensures Apart(w, Release(w, k, o), other)
  {
  }

  lemma ReleaseKeepsDropped(w: World, k: Key, o: Object)
    ensures var w' := Release(w, k, o);
            && w'.works == w.works && w.clock <= w'.clock
            && (o.deleting ==> w'.Dropped(k) == w.Dropped(k))
            && forall k' :: k' != k ==> Apart(w, w', k')
  {
    forall k' | k' != k
      ensures Apart(w, Release(w, k, o), k')
    {
      ReleaseElsewhere(w, k, o, k');
    }
  }

  /** The heart of the matter: by the time the finalizer goes, no listed cluster holds a work of this object. */
  lemma ReleaseKeepsAnswered(w: World, k: Key, o: Object, wk: WorkKey)
    requires KeySound(w, k) && w.PhaseOf(k) == Cleaning(o, |Targets(o.spec)|) && w.Current(k) == Some(o)
    requires wk in w.works && Answered(w, wk)
    ensures w.works[wk].writer == k ==> wk.cluster !in Targets(o.spec)
    ensures Answered(Release(w, k, o), wk)
  {
    ReleaseKeepsDropped(w, k, o);
    if w.works[wk].writer == k {
      if wk.cluster in Targets(o.spec) {
        CleanedHoldsNothing(w, k, o, wk);
      }
    } else {
      assert Apart(w, Release(w, k, o), w.works[wk].writer);
    }
  }

  lemma ReleaseKeepsSound(w: World, k: Key, o: Object)
    requires Sound(w) && w.PhaseOf(k) == Cleaning(o, |Targets(o.spec)|)
    ensures Sound(Release(w, k, o))
  {
    assert KeySound(w, k);
    if Fresh(w, k, o) {
      FreshReleaseKeepsSound(w, k, o);
    } else {
      PhaseChangeKeepsSound(w, k, Idle);
    }
  }

  lemma FreshReleaseKeepsSound(w: World, k: Key, o: Object)
    requires Sound(w) && w.PhaseOf(k) == Cleaning(o, |Targets(o.spec)|) && Fresh(w, k, o)
    ensures Sound(Release(w, k, o))
  {
    var w' := Release(w, k, o);
    assert KeySound(w, k);
    ReleaseReplacesRead(w, k, o, |Targets(o.spec)|);
    ReleaseKeepsKeySound(w, k, o, |Targets(o.spec)|);
    ReleaseKeepsDropped(w, k, o);
    SameWorksAdvance(w, w');
    OthersKeepSound(w, w', k);
    forall wk | wk in w'.works
      ensures Answered(w', wk)
    {
      assert Answered(w, wk);
      ReleaseKeepsAnswered(w, k, o, wk);
    }
  }

  lemma LandAdvances(w: World, w': World, k: Key, wk: WorkKey)
    requires w'.clock == w.clock + 1 && wk in w'.works && w'.works[wk].writer == k && w'.works[wk].version == w'.clock
    requires forall wk' :: wk' in w'.works && wk' != wk ==> wk' in w.works && w'.works[wk'] == w.works[wk']
    ensures forall k' :: k' != k ==> WorksAdvance(w, w', k')
  {
  }

  lemma LandKeepsPhaseSound(w: World, k: Key, o: Object, plan: seq<Content>, next: nat, other: string, fault: Fault)
    requires Backed(w, k, o) && w.Cursor(k) < |w.History(k)| && next < |plan| == |Targets(o.spec)|
    ensures PhaseSound(LandNext(w, k, o, plan, next, other, fault), k)
  {
    assert Backed(LandNext(w, k, o, plan, next, other, fault), k, o);
  }

  lemma LandIsOwnStep(w: World, k: Key, o: Object, plan: seq<Content>, next: nat, other: string, fault: Fault)
    requires next < |plan| == |Targets(o.spec)|
    ensures OwnStep(w, LandNext(w, k, o, plan, next, other, fault), k)
  {
    LandAdvances(w, LandNext(w, k, o, plan, next, other, fault), k, WorkAt(k, o, next));
  }

  lemma LandIsAnswered(w: World, k: Key, o: Object, plan: seq<Content>, next: nat, other: string, fault: Fault)
    requires Backed(w, k, o) && next < |plan| == |Targets(o.spec)|
    ensures Answered(LandNext(w, k, o, plan, next, other, fault), WorkAt(k, o, next))
  {
    assert Targets(o.spec)[next] in TargetSet(o.spec);
  }

  /** A write by a backed reconcile leaves a work that its object answers for. */
  lemma LandKeepsSound(w: World, k: Key, o: Object, plan: seq<Content>, next: nat, other: string, fault: Fault)
    requires Sound(w) && Backed(w, k, o) && w.Cursor(k) < |w.History(k)| && next < |plan| == |Targets(o.spec)|
    ensures Sound(LandNext(w, k, o, plan, next, other, fault))
  {
    var wk := WorkAt(k, o, next);
    var w' := LandNext(w, k, o, plan, next, other, fault);
    LandKeepsPhaseSound(w, k, o, plan, next, other, fault);
    LandIsAnswered(w, k, o, plan, next, other, fault);
    LandIsOwnStep(w, k, o, plan, next, other, fault);
    forall wk' | wk' in w'.works && wk' != wk
      ensures wk' in w.works && w'.works[wk'].writer == w.works[wk'].writer && w'.works[wk'].version <= w'.clock
    {
      assert Answered(w, wk');
    }
    OwnStepKeepsSound(w, w', k);
  }

  lemma StandStillKeepsSound(w: World, k: Key, o: Object, plan: seq<Content>, next: nat, call: ApplyCall, p: Phase)
    requires Sound(w) && w.PhaseOf(k) == Applying(o, plan, next, call)
    requires p == Idle || (p.Applying? && p == Applying(o, plan, next, p.call) && p.call.Getting?)
    ensures Sound(w.WithPhase(k, p))
  {
    assert KeySound(w, k);
    PhaseChangeKeepsSound(w, k, p);
  }

  lemma UpdateKeepsSound(w: World, k: Key, o: Object, plan: seq<Content>, next: nat, base: Work, left: nat,
                         fault: Fault)
    requires Sound(w) && w.PhaseOf(k) == Applying(o, plan, next, Updating(base, left))
    requires next < |plan| == |Targets(o.spec)|
    ensures Sound(UpdateWork(w, k, o, plan, next, base, left, fault))
  {
    var wk := WorkAt(k, o, next);
    if wk !in w.works {
      StandStillKeepsSound(w, k, o, plan, next, Updating(base, left), Idle);
    } else if w.works[wk].version == base.version {
      assert KeySound(w, k);
      LandKeepsSound(w, k, o, plan, next, base.other, fault);
    } else {
      StandStillKeepsSound(w, k, o, plan, next, Updating(base, left), Retry(o, plan, next, left, fault));
    }
  }

  lemma CreateWorkKeepsSound(w: World, k: Key, o: Object, plan: seq<Content>, next: nat, fault: Fault)
    requires Sound(w) && w.PhaseOf(k) == Applying(o, plan, next, Creating)
    requires next < |plan| == |Targets(o.spec)|
    ensures Sound(CreateWork(w, k, o, plan, next, fault))
  {
    assert KeySound(w, k);
    if WorkAt(k, o, next) in w.works {
      PhaseChangeKeepsSound(w, k, Idle);
    } else {
      LandKeepsSound(w, k, o, plan, next, "", fault);
    }
  }

  function AfterRead(w: World, k: Key, o: Object, plan: seq<Content>, next: nat, left: nat): Phase
    requires next < |plan| == |Targets(o.spec)|
  {
    var wk := WorkAt(k, o, next);
    Applying(o, plan, next, if wk in w.works then Updating(w.works[wk], left) else Creating)
  }

  lemma GetPhaseSound(w: World, k: Key, o: Object, plan: seq<Content>, next: nat, left: nat)
    requires PhaseSound(w, k) && w.PhaseOf(k) == Applying(o, plan, next, Getting(left))
    requires next < |plan| == |Targets(o.spec)|
    requires WorkAt(k, o, next) in w.works ==> w.works[WorkAt(k, o, next)].version <= w.clock
    ensures PhaseSound(w.WithPhase(k, AfterRead(w, k, o, plan, next, left)), k)
  {
    assert Backed(w.WithPhase(k, AfterRead(w, k, o, plan, next, left)), k, o);
  }

  lemma GetWorkKeepsSound(w: World, k: Key, o: Object, plan: seq<Content>, next: nat, left: nat, fault: Fault)
    requires Sound(w) && w.PhaseOf(k) == Applying(o, plan, next, Getting(left))
    requires next < |plan| == |Targets(o.spec)|
    ensures Sound(GetWork(w, k, o, plan, next, left, fault))
  {
    if fault.Unanswered? {
      StopKeepsSound(w, k);
    } else {
      var wk := WorkAt(k, o, next);
      assert wk in w.works ==> Answered(w, wk);
      assert KeySound(w, k);
      GetPhaseSound(w, k, o, plan, next, left);
      PhaseChangeKeepsSound(w, k, AfterRead(w, k, o, plan, next, left));
    }
  }

  lemma RequestKeepsSound(w: World, k: Key, fault: Fault)
    requires Sound(w)
    ensures Sound(Request(w, k, fault))
  {
    assert KeySound(w, k);
    match w.PhaseOf(k)
    case Idle =>
    case Planning(_) =>
    case Cleaning(o, next) =>
      if fault.Lost? {
        StopKeepsSound(w, k);
      } else if next < |Targets(o.spec)| {
        RemoveNextKeepsSound(w, k, o, next, fault);
      } else {
        ReleaseKeepsSound(w, k, o);
      }
    case Claiming(o) =>
      if fault.Lost? {
        StopKeepsSound(w, k);
      } else {
        ClaimKeepsSound(w, k, o, fault);
      }
    case Applying(o, plan, next, call) =>
      if fault.Lost? || next >= |plan| {
        StopKeepsSound(w, k);
      } else {
        match call
        case Getting(left) => GetWorkKeepsSound(w, k, o, plan, next, left, fault);
        case Creating => CreateWorkKeepsSound(w, k, o, plan, next, fault);
        case Updating(base, left) => UpdateKeepsSound(w, k, o, plan, next, base, left, fault);
      }
  }

  // ------------------------------------------------------------------ whole runs

  lemma StepKeepsSound(w: World, a: Action)
    requires Sound(w)
    ensures Sound(Do(w, a))
  {
    match a
    case UserCreate(k, spec, finalizers) => CreateKeepsSound(w, k, spec, finalizers);
    case UserEdit(k, spec, finalizers) => EditKeepsSound(w, k, spec, finalizers);
    case UserDelete(k) => DeleteKeepsSound(w, k);
    case TouchWork(wk, content, other) => TouchKeepsSound(w, wk, content, other);
    case RemoveWork(wk) => RemoveKeepsSound(w, wk);
    case Begin(k, at) => StartKeepsSound(w, k, at);
    case Plan(k, contents) => PrepareKeepsSound(w, k, contents);
    case Call(k, fault) => RequestKeepsSound(w, k, fault);
  }

  lemma {:induction false} RunKeepsSound(w: World, actions: seq<Action>)
    requires Sound(w)
    ensures Sound(Run(w, actions))
    decreases actions
  {
    if actions == [] {
    } else {
      StepKeepsSound(w, actions[0]);
      RunKeepsSound(Do(w, actions[0]), actions[1..]);
    }
  }

  lemma EmptyHubSound()
    ensures Sound(EMPTY_HUB)
  {
    forall k: Key
      ensures KeySound(EMPTY_HUB, k)
    {
      assert EMPTY_HUB.History(k) == [None] && EMPTY_HUB.PhaseOf(k) == Idle;
    }
  }
}
