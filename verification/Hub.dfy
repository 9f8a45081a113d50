/**
 The hub cluster as a state machine: users, other writers and the two reconcilers take turns,
 one API call at a time, and any call may fail.

 The store of an object key is the history of what was stored there, so that a cached read
 can return an old snapshot. `cursor` is the snapshot the reconciler of the key last read;
 later reads never return an older one. The work queue never runs two reconciles of one key
 at once, hence one `phase` for each key.

 Three history variables only record what happened: no step's course depends on them. `dropped`
 holds the clusters that an edit took off the list of a claimed object, until a claimed object
 under the same key lists them again; `landed` logs the ManifestWork writes of each key's
 reconciler that reached the store; `writer` is the reconciler that wrote a work last.
 */
module Hub {
  import opened Wrappers
  import opened Resources
  import opened WorkNames

  datatype Object = Object(spec: Spec, finalizers: set<string>, deleting: bool, version: nat, uid: nat)

  datatype WorkKey = WorkKey(cluster: string, name: string)

  /** A stored ManifestWork. `other` is everything the controller does not decide; `writer` wrote it last. */
  datatype Work = Work(content: Content, other: string, version: nat, writer: Key)

  datatype Landing = Landing(work: WorkKey, content: Content, uid: nat)

  /** Where the call in progress of applyManifestWork stands; `left` counts the attempts that remain. */
  datatype ApplyCall = Getting(left: nat) | Creating | Updating(base: Work, left: nat)

  datatype Phase =
    | Idle
    | Cleaning(read: Object, next: nat)
    | Claiming(read: Object)
    | Planning(read: Object)
    | Applying(read: Object, plan: seq<Content>, next: nat, call: ApplyCall)

  /** `Lost`: the call never takes effect. `Unanswered`: it takes effect but the caller sees an error. */
  datatype Fault = NoFault | Lost | Unanswered

  datatype Action =
    | UserCreate(key: Key, spec: Spec, finalizers: set<string>)
    | UserEdit(key: Key, spec: Spec, finalizers: set<string>)
    | UserDelete(key: Key)
    | TouchWork(work: WorkKey, content: Content, other: string)
    | RemoveWork(work: WorkKey)
    | Begin(key: Key, at: nat)
    | Plan(key: Key, contents: Option<seq<Content>>)
    | Call(key: Key, fault: Fault)

  const RETRY_STEPS: nat := 5

  function Finalizer(kind: Kind): string {
    match kind
    case SliceNetwork => "l2sces.l2sm.io/slicenetwork-cleanup"
    case SliceOverlay => "l2sces.l2sm.io/sliceoverlay-cleanup"
  }

  function WorkName(k: Key): string {
    Sanitize(k.name, LowerRune)
  }

  /** Where the reconciler of `k`, having read `o`, keeps the work of the i-th listed cluster. */
  function WorkAt(k: Key, o: Object, i: nat): WorkKey
    requires i < |Targets(o.spec)|
  {
    WorkKey(Targets(o.spec)[i], WorkName(k))
  }

  function TargetSet(spec: Spec): set<string> {
    set c | c in Targets(spec)
  }

  /** Does the entry carry the finalizer of the reconciler of `k`? */
  predicate Held(k: Key, entry: Option<Object>) {
    entry.Some? && Finalizer(k.kind) in entry.value.finalizers
  }

  /** The clusters that the entry answers for: those it lists while it carries the finalizer. */
  function HeldClusters(k: Key, entry: Option<Object>): set<string> {
    if Held(k, entry) then TargetSet(entry.value.spec) else {}
  }

  datatype World = World(
    clock: nat,
    history: map<Key, seq<Option<Object>>>,
    works: map<WorkKey, Work>,
    cursors: map<Key, nat>,
    phases: map<Key, Phase>,
    dropped: map<Key, set<string>>,
    landed: map<Key, seq<Landing>>)
  {
    function History(k: Key): (h: seq<Option<Object>>)
      ensures |h| > 0
    {
      if k in history && |history[k]| > 0 then history[k] else [None]
    }

    function Current(k: Key): Option<Object> {
      var h := History(k);
      h[|h| - 1]
    }

    function Cursor(k: Key): nat {
      if k in cursors then cursors[k] else 0
    }

    function PhaseOf(k: Key): Phase {
      if k in phases then phases[k] else Idle
    }

    function Dropped(k: Key): set<string> {
      if k in dropped then dropped[k] else {}
    }

    function Landed(k: Key): seq<Landing> {
      if k in landed then landed[k] else []
    }

    function WithPhase(k: Key, p: Phase): World {
      this.(phases := phases[k := p])
    }

    /** Appends to the history of `k`: every stored change takes a new version. */
    function Record(k: Key, entry: Option<Object>): World {
      this.(clock := clock + 1,
            history := history[k := History(k) + [entry]],
            dropped := dropped[k := Dropped(k) - HeldClusters(k, entry)])
    }

    /** What the stored object answers for counts as dropped, unless the entry recorded next lists it. */
    function DropListed(k: Key): World {
      this.(dropped := dropped[k := Dropped(k) + HeldClusters(k, Current(k))])
    }

    /** Stores `o`; an object that is being deleted vanishes with its last finalizer. */
    function Store(k: Key, o: Object): World {
      Record(k, if o.deleting && o.finalizers == {} then None else Some(o.(version := clock + 1)))
    }

    /** Stores a work on behalf of the reconciler of `k`, whose object has this uid. */
    function Land(k: Key, uid: nat, wk: WorkKey, content: Content, other: string): World {
      this.(clock := clock + 1,
            works := works[wk := Work(content, other, clock + 1, k)],
            landed := landed[k := Landed(k) + [Landing(wk, content, uid)]])
    }
  }

  const EMPTY_HUB: World := World(0, map[], map[], map[], map[], map[], map[])

  /** Did the stored object stay as it was read? The API server compares versions only. */
  predicate Fresh(w: World, k: Key, o: Object) {
    w.Current(k).Some? && w.Current(k).value.version == o.version
  }

  // ------------------------------------------------------------------ users and other writers

  function Create(w: World, k: Key, spec: Spec, finalizers: set<string>): World {
    if w.Current(k).None? then
      w.Record(k, Some(Object(spec, finalizers, false, w.clock + 1, w.clock + 1)))
    else w
  }

  /** Anyone may edit a spec and other finalizers; only the reconciler takes its own finalizer away. */
  function Edit(w: World, k: Key, spec: Spec, finalizers: set<string>): World {
    if !CanEdit(w, k, finalizers) then w
    else
      w.DropListed(k).Store(k, w.Current(k).value.(spec := spec, finalizers := finalizers))
  }

  /** The API server takes no new finalizer on an object that is being deleted. */
  predicate CanEdit(w: World, k: Key, finalizers: set<string>) {
    match w.Current(k)
    case None => false
    case Some(o) =>
      && (Finalizer(k.kind) in o.finalizers ==> Finalizer(k.kind) in finalizers)
      && (o.deleting ==> finalizers <= o.finalizers)
  }

  function Delete(w: World, k: Key): World {
    if w.Current(k).Some? && !w.Current(k).value.deleting then
      w.Store(k, w.Current(k).value.(deleting := true))
    else w
  }

  function Touch(w: World, wk: WorkKey, content: Content, other: string): World {
    if wk in w.works then
      w.(clock := w.clock + 1,
         works := w.works[wk := Work(content, other, w.clock + 1, w.works[wk].writer)])
    else w
  }

  function Remove(w: World, wk: WorkKey): World {
    w.(works := w.works - {wk})
  }

  // ------------------------------------------------------------------ the reconcilers

  /** A reconcile may start when none of this key runs, on a snapshot no older than the last one read. */
  predicate CanStart(w: World, k: Key, at: nat) {
    w.PhaseOf(k) == Idle && w.Cursor(k) <= at < |w.History(k)|
  }

  /** The branch a reconcile takes on the object it read. */
  function Branch(k: Key, entry: Option<Object>): Phase {
    match entry
    case None => Idle
    case Some(o) =>
      if o.deleting then
        if Finalizer(k.kind) in o.finalizers then Cleaning(o, 0) else Idle
      else if Finalizer(k.kind) !in o.finalizers then Claiming(o)
      else Planning(o)
  }

  /** A cached read of `k` that returns snapshot `at`. */
  function Start(w: World, k: Key, at: nat): World {
    if CanStart(w, k, at) then
      w.(cursors := w.cursors[k := at]).WithPhase(k, Branch(k, w.History(k)[at]))
    else w
  }

  /** Resolving the provider and computing one content for each listed cluster; `None` when that fails. */
  function Prepare(w: World, k: Key, contents: Option<seq<Content>>): World {
    match w.PhaseOf(k)
    case Planning(o) =>
      if contents.None? then w.WithPhase(k, Idle)
      else if |contents.value| != |Targets(o.spec)| then w
      else w.WithPhase(k, Applying(o, contents.value, 0, Getting(RETRY_STEPS)))
    case _ => w
  }

  /** The next API call of the reconcile of `k`. */
  function Request(w: World, k: Key, fault: Fault): World {
    match w.PhaseOf(k)
    case Idle => w
    case Planning(_) => w
    case Cleaning(o, next) =>
      if fault.Lost? then w.WithPhase(k, Idle)
      else if next < |Targets(o.spec)| then RemoveNext(w, k, o, next, fault)
      else Release(w, k, o)
    case Claiming(o) =>
      if fault.Lost? then w.WithPhase(k, Idle) else Claim(w, k, o, fault)
    case Applying(o, plan, next, call) =>
      if fault.Lost? || next >= |plan| || |plan| != |Targets(o.spec)| then w.WithPhase(k, Idle)
      else ApplyNext(w, k, o, plan, next, call, fault)
  }

  /** Deletes the work of the next listed cluster; a missing work is not an error. */
  function RemoveNext(w: World, k: Key, o: Object, next: nat, fault: Fault): World
    requires next < |Targets(o.spec)|
  {
    w.(works := w.works - {WorkAt(k, o, next)})
    .WithPhase(k, if fault.Unanswered? then Idle else Cleaning(o, next + 1))
  }

  function Release(w: World, k: Key, o: Object): World {
    (if Fresh(w, k, o) then w.Store(k, o.(finalizers := o.finalizers - {Finalizer(k.kind)})) else w)
    .WithPhase(k, Idle)
  }

  function Claim(w: World, k: Key, o: Object, fault: Fault): World {
    if Fresh(w, k, o) then
      var o' := o.(finalizers := o.finalizers + {Finalizer(k.kind)}, version := w.clock + 1);
      w.Store(k, o').WithPhase(k, if fault.Unanswered? then Idle else Planning(o'))
    else w.WithPhase(k, Idle)
  }

  /** After a write that landed: on to the next cluster, unless the answer got lost. */
  function Done(o: Object, plan: seq<Content>, next: nat, fault: Fault): Phase {
    if fault.Unanswered? then Idle else Applying(o, plan, next + 1, Getting(RETRY_STEPS))
  }

  /** After a conflict: read again while attempts remain. */
  function Retry(o: Object, plan: seq<Content>, next: nat, left: nat, fault: Fault): Phase {
    if left > 1 && fault.NoFault? then Applying(o, plan, next, Getting(left - 1)) else Idle
  }

  function ApplyNext(w: World, k: Key, o: Object, plan: seq<Content>, next: nat, call: ApplyCall, fault: Fault): World
    requires next < |plan| == |Targets(o.spec)|
  {
    match call
    case Getting(left) => GetWork(w, k, o, plan, next, left, fault)
    case Creating => CreateWork(w, k, o, plan, next, fault)
    case Updating(base, left) => UpdateWork(w, k, o, plan, next, base, left, fault)
  }

  function GetWork(w: World, k: Key, o: Object, plan: seq<Content>, next: nat, left: nat, fault: Fault): World
    requires next < |plan| == |Targets(o.spec)|
  {
    var wk := WorkAt(k, o, next);
    if fault.Unanswered? then w.WithPhase(k, Idle)
    else w.WithPhase(k, Applying(o, plan, next, if wk in w.works then Updating(w.works[wk], left) else Creating))
  }

  /** A racing create makes this one fail, and the failure is not retried. */
  function CreateWork(w: World, k: Key, o: Object, plan: seq<Content>, next: nat, fault: Fault): World
    requires next < |plan| == |Targets(o.spec)|
  {
    if WorkAt(k, o, next) in w.works then w.WithPhase(k, Idle)
    else LandNext(w, k, o, plan, next, "", fault)
  }

  /** The update is refused when the work is gone, and in conflict when it is no longer the one that was read. */
  function UpdateWork(w: World, k: Key, o: Object, plan: seq<Content>, next: nat, base: Work, left: nat, fault: Fault)
    : World
    requires next < |plan| == |Targets(o.spec)|
  {
    var wk := WorkAt(k, o, next);
    if wk !in w.works then w.WithPhase(k, Idle)
    else if w.works[wk].version != base.version then w.WithPhase(k, Retry(o, plan, next, left, fault))
    else LandNext(w, k, o, plan, next, base.other, fault)
  }

  function LandNext(w: World, k: Key, o: Object, plan: seq<Content>, next: nat, other: string, fault: Fault): World
    requires next < |plan| == |Targets(o.spec)|
  {
    w.Land(k, o.uid, WorkAt(k, o, next), plan[next], other).WithPhase(k, Done(o, plan, next, fault))
  }

  // ------------------------------------------------------------------ runs

  function Do(w: World, a: Action): World {
    match a
    case UserCreate(k, spec, finalizers) => Create(w, k, spec, finalizers)
    case UserEdit(k, spec, finalizers) => Edit(w, k, spec, finalizers)
    case UserDelete(k) => Delete(w, k)
    case TouchWork(wk, content, other) => Touch(w, wk, content, other)
    case RemoveWork(wk) => Remove(w, wk)
    case Begin(k, at) => Start(w, k, at)
    case Plan(k, contents) => Prepare(w, k, contents)
    case Call(k, fault) => Request(w, k, fault)
  }

  function Run(w: World, actions: seq<Action>): World
    decreases actions
  {
    if actions == [] then w else Run(Do(w, actions[0]), actions[1..])
  }

  /** Is `a` a step of the reconciler of `k`? */
  predicate By(a: Action, k: Key) {
    (a.Begin? || a.Plan? || a.Call?) && a.key == k
  }

  lemma {:induction false} RunConcat(w: World, a: seq<Action>, b: seq<Action>)
    ensures Run(w, a + b) == Run(Run(w, a), b)
    decreases a
  {
    if a == [] {
      assert a + b == b;
    } else {
      assert (a + b)[1..] == a[1..] + b;
      RunConcat(Do(w, a[0]), a[1..], b);
    }
  }

  lemma RunLast(w: World, actions: seq<Action>, a: Action)
    ensures Run(w, actions + [a]) == Do(Run(w, actions), a)
  {
    RunConcat(w, actions, [a]);
    assert Run(Run(w, actions), [a]) == Run(Do(Run(w, actions), a), []);
  }

  lemma RunUpTo(w: World, actions: seq<Action>, i: nat)
    requires i < |actions|
    ensures Run(w, actions[..i + 1]) == Do(Run(w, actions[..i]), actions[i])
  {
    assert actions[..i + 1] == actions[..i] + [actions[i]];
    RunLast(w, actions[..i], actions[i]);
  }
}
