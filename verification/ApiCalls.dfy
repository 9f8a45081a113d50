/** What each API call of a reconcile leaves behind, for the caller who sees only its reply. */
module ApiCalls {
  import opened Wrappers
  import opened Resources
  import opened Hub
  import opened Safety
  import opened Effects
  import opened Lifecycle
  import opened Progress
  import opened Slices

  datatype GetReply = Missing | Found(work: Work) | GetFailed

  /** `NoAnswer`: an error after which the caller cannot know whether the call took effect. */
  datatype WriteReply = Written | Refused(conflict: bool) | NoAnswer

  /** `Stopped(i, unknown)`: the i-th cluster failed; `unknown` when its write may have landed all the same. */
  datatype Outcome = Complete | NotPlanned(error: SliceError) | Stopped(at: nat, unknown: bool)

  // ------------------------------------------------------------------ applyManifestWork

  ghost predicate AtCall(w: World, k: Key, o: Object, plan: seq<Content>, next: nat, call: ApplyCall) {
    && next < |plan| == |Targets(o.spec)|
    && w.PhaseOf(k) == Applying(o, plan, next, call)
  }

  function GetReplyFor(w: World, wk: WorkKey, fault: Fault): GetReply {
    if fault != NoFault then GetFailed else if wk in w.works then Found(w.works[wk]) else Missing
  }

  ghost predicate AfterGet(w: World, k: Key, o: Object, plan: seq<Content>, next: nat, left: nat, reply: GetReply)
    requires next < |plan| == |Targets(o.spec)|
  {
    var wk := WorkAt(k, o, next);
    match reply
    case GetFailed => w.PhaseOf(k) == Idle
    case Missing => AtCall(w, k, o, plan, next, Creating) && wk !in w.works
    case Found(work) => AtCall(w, k, o, plan, next, Updating(work, left)) && wk in w.works && w.works[wk] == work
  }

  lemma GetTaken(w: World, k: Key, o: Object, plan: seq<Content>, next: nat, left: nat, fault: Fault)
    requires AtCall(w, k, o, plan, next, Getting(left))
    ensures var w' := Do(w, Call(k, fault));
            && AfterGet(w', k, o, plan, next, left, GetReplyFor(w, WorkAt(k, o, next), fault))
            && w'.Landed(k) == w.Landed(k) && w'.works == w.works
  {
    if !fault.Lost? {
      assert Request(w, k, fault) == GetWork(w, k, o, plan, next, left, fault);
    }
  }

  /** What a write leaves behind, by its reply. */
  ghost predicate AfterWrite(w: World, k: Key, o: Object, plan: seq<Content>, next: nat, log: seq<Landing>,
                             reply: WriteReply)
    requires next < |plan| == |Targets(o.spec)|
  {
    var wk := WorkAt(k, o, next);
    var logged := log + [Landing(wk, plan[next], o.uid)];
    match reply
    case Written =>
      && w.PhaseOf(k) == Applying(o, plan, next + 1, Getting(RETRY_STEPS))
      && w.Landed(k) == logged
      && wk in w.works && w.works[wk].content == plan[next] && w.works[wk].writer == k
    case Refused(_) => w.Landed(k) == log
    case NoAnswer => w.PhaseOf(k) == Idle && (w.Landed(k) == log || w.Landed(k) == logged)
  }

  function CreateReplyFor(w: World, wk: WorkKey, fault: Fault): WriteReply {
    if fault != NoFault then NoAnswer else if wk in w.works then Refused(false) else Written
  }

  lemma LandTaken(w: World, k: Key, o: Object, plan: seq<Content>, next: nat, other: string, fault: Fault)
    requires next < |plan| == |Targets(o.spec)|
    ensures var w' := LandNext(w, k, o, plan, next, other, fault);
            && AfterWrite(w', k, o, plan, next, w.Landed(k), if fault.Unanswered? then NoAnswer else Written)
            && WorkAt(k, o, next) in w'.works && w'.works[WorkAt(k, o, next)].other == other
  {
  }

  lemma CreateTaken(w: World, k: Key, o: Object, plan: seq<Content>, next: nat, fault: Fault)
    requires AtCall(w, k, o, plan, next, Creating)
    ensures var w', reply := Do(w, Call(k, fault)), CreateReplyFor(w, WorkAt(k, o, next), fault);
            && AfterWrite(w', k, o, plan, next, w.Landed(k), reply)
            && (reply.Refused? ==> w'.PhaseOf(k) == Idle && WorkAt(k, o, next) in w'.works)
  {
    if !fault.Lost? {
      assert Request(w, k, fault) == CreateWork(w, k, o, plan, next, fault);
      if WorkAt(k, o, next) !in w.works {
        LandTaken(w, k, o, plan, next, "", fault);
      }
    }
  }

  function UpdateReplyFor(w: World, wk: WorkKey, current: Work, fault: Fault): WriteReply {
    if fault != NoFault then NoAnswer
    else if wk !in w.works then Refused(false)
    else if w.works[wk].version != current.version then Refused(true)
    else Written
  }

  /** Written labels and spec leave the rest as it was read. A refusal is a conflict when the work is there in another
      version, and then there is another attempt, if any is left; it is none when the work is gone. */
  ghost predicate AfterUpdate(w: World, k: Key, o: Object, plan: seq<Content>, next: nat, current: Work, left: nat,
                              log: seq<Landing>, reply: WriteReply)
    requires next < |plan| == |Targets(o.spec)|
  {
    && AfterWrite(w, k, o, plan, next, log, reply)
    && (reply.Written? ==> w.works[WorkAt(k, o, next)].other == current.other)
    && (reply.Refused? ==>
          && (if reply.conflict && left > 1 then AtCall(w, k, o, plan, next, Getting(left - 1))
              else w.PhaseOf(k) == Idle)
          && (if reply.conflict
              then WorkAt(k, o, next) in w.works && w.works[WorkAt(k, o, next)].version != current.version
              else WorkAt(k, o, next) !in w.works))
  }

  lemma PhaseTaken(w: World, k: Key, p: Phase)
    ensures w.WithPhase(k, p).PhaseOf(k) == p && w.WithPhase(k, p).Landed(k) == w.Landed(k)
  {
  }

  lemma UpdateTaken(w: World, k: Key, o: Object, plan: seq<Content>, next: nat, current: Work, left: nat, fault: Fault)
    requires AtCall(w, k, o, plan, next, Updating(current, left))
    ensures AfterUpdate(Do(w, Call(k, fault)), k, o, plan, next, current, left, w.Landed(k),
                        UpdateReplyFor(w, WorkAt(k, o, next), current, fault))
  {
    var wk := WorkAt(k, o, next);
    if fault.Lost? {
      PhaseTaken(w, k, Idle);
    } else {
      assert Do(w, Call(k, fault)) == UpdateWork(w, k, o, plan, next, current, left, fault);
      if wk !in w.works {
        PhaseTaken(w, k, Idle);
      } else if w.works[wk].version != current.version {
        PhaseTaken(w, k, Retry(o, plan, next, left, fault));
      } else {
        LandTaken(w, k, o, plan, next, current.other, fault);
      }
    }
  }

  datatype ApplyResult = Applied | ReadFailed | Rejected(conflict: bool) | Unknown

  function ResultOf(reply: WriteReply): ApplyResult {
    match reply
    case Written => Applied
    case Refused(conflict) => Rejected(conflict)
    case NoAnswer => Unknown
  }

  /** What one attempt leaves behind. */
  ghost predicate AfterAttempt(w: World, k: Key, o: Object, plan: seq<Content>, next: nat, left: nat,
                               log: seq<Landing>, r: ApplyResult)
    requires next < |plan| == |Targets(o.spec)|
  {
    match r
    case Applied => AfterWrite(w, k, o, plan, next, log, Written)
    case ReadFailed => w.PhaseOf(k) == Idle && w.Landed(k) == log
    case Rejected(conflict) =>
      && w.Landed(k) == log
      && if conflict && left > 1 then AtCall(w, k, o, plan, next, Getting(left - 1)) else w.PhaseOf(k) == Idle
    case Unknown => AfterWrite(w, k, o, plan, next, log, NoAnswer)
  }

  // ------------------------------------------------------------------ a whole list of clusters

  /** The writes of the first `n` clusters of the list. */
  function Landings(k: Key, spec: Spec, uid: nat, plan: seq<Content>, n: nat): seq<Landing>
    requires n <= |plan| == |Targets(spec)|
  {
    if n == 0 then []
    else Landings(k, spec, uid, plan, n - 1) + [Landing(WorkKey(Targets(spec)[n - 1], WorkName(k)), plan[n - 1], uid)]
  }

  /** The first `next` clusters are written, and nothing else. */
  ghost predicate Progressed(w: World, k: Key, o: Object, plan: seq<Content>, next: nat, log: seq<Landing>) {
    && next <= |plan| == |Targets(o.spec)|
    && w.PhaseOf(k) == Applying(o, plan, next, Getting(RETRY_STEPS))
    && w.Landed(k) == log + Landings(k, o.spec, o.uid, plan, next)
  }

  /** An error at the i-th cluster leaves exactly the clusters before it written, and perhaps the i-th when its
      answer got lost. */
  ghost predicate Ended(w: World, k: Key, o: Object, plan: seq<Content>, log: seq<Landing>, r: Outcome) {
    && |plan| == |Targets(o.spec)|
    && w.PhaseOf(k) == Idle
    && match r
       case Complete => w.Landed(k) == log + Landings(k, o.spec, o.uid, plan, |plan|)
       case NotPlanned(_) => w.Landed(k) == log
       case Stopped(at, unknown) =>
         && at < |plan|
         && (w.Landed(k) == log + Landings(k, o.spec, o.uid, plan, at)
             || (unknown && w.Landed(k) == log + Landings(k, o.spec, o.uid, plan, at + 1)))
  }

  // ------------------------------------------------------------------ deleting works

  /** None of the first `n` listed clusters holds a work of this object. */
  ghost predicate CleanUpTo(w: World, k: Key, o: Object, n: nat)
    requires n <= |Targets(o.spec)|
  {
    forall i :: 0 <= i < n && WorkAt(k, o, i) in w.works ==> w.works[WorkAt(k, o, i)].writer != k
  }

  lemma RemoveTaken(w: World, k: Key, o: Object, next: nat, fault: Fault)
    requires PhaseSound(w, k) && w.PhaseOf(k) == Cleaning(o, next) && next < |Targets(o.spec)|
    ensures var w' := Do(w, Call(k, fault));
            && CleanUpTo(w', k, o, if fault.Lost? then next else next + 1)
            && w'.Landed(k) == w.Landed(k) && w'.history == w.history
            && w'.PhaseOf(k) == (if fault.NoFault? then Cleaning(o, next + 1) else Idle)
            && (!fault.Lost? ==> w'.works == w.works - {WorkAt(k, o, next)})
  {
    if !fault.Lost? {
      assert Request(w, k, fault) == RemoveNext(w, k, o, next, fault);
    }
  }

  // ------------------------------------------------------------------ claiming and giving up

  /** The last entry of the history replaced exactly the object that was read. */
  ghost predicate Replaced(w: World, k: Key, o: Object) {
    var h := w.History(k);
    |h| >= 2 && h[|h| - 2] == Some(o)
  }

  /** The object as it was read, without the one finalizer; it is gone when that was the last one. */
  ghost predicate GivenUpOnly(k: Key, o: Object, entry: Option<Object>) {
    if o.finalizers <= {Finalizer(k.kind)} then entry == None
    else
      && entry.Some?
      && entry.value == o.(finalizers := o.finalizers - {Finalizer(k.kind)}, version := entry.value.version)
  }

  lemma LastFinalizer(k: Key, o: Object)
    ensures o.finalizers - {Finalizer(k.kind)} == {} <==> o.finalizers <= {Finalizer(k.kind)}
  {
    if o.finalizers - {Finalizer(k.kind)} == {} {
      forall f | f in o.finalizers
        ensures f == Finalizer(k.kind)
      {
        assert f != Finalizer(k.kind) ==> f in o.finalizers - {Finalizer(k.kind)};
      }
    }
  }

  lemma StoreTaken(w: World, k: Key, o: Object, o': Object, p: Phase)
    requires w.Current(k) == Some(o)
    ensures var w' := w.Store(k, o').WithPhase(k, p);
            && w'.PhaseOf(k) == p && w'.Landed(k) == w.Landed(k) && Replaced(w', k, o)
            && w'.Current(k) == if o'.deleting && o'.finalizers == {} then None else Some(o'.(version := w.clock + 1))
  {
  }

  lemma ReleaseTaken(w: World, k: Key, o: Object, fault: Fault)
    requires KeySound(w, k) && w.PhaseOf(k) == Cleaning(o, |Targets(o.spec)|)
    ensures var w' := Do(w, Call(k, fault));
            && w'.PhaseOf(k) == Idle && w'.Landed(k) == w.Landed(k)
            && (!fault.Lost? && Fresh(w, k, o) ==>
                  Replaced(w', k, o) && !Held(k, w'.Current(k)) && GivenUpOnly(k, o, w'.Current(k)))
  {
    if fault.Lost? || !Fresh(w, k, o) {
      PhaseTaken(w, k, Idle);
    } else {
      ReleaseReplacesRead(w, k, o, |Targets(o.spec)|);
      LastFinalizer(k, o);
      StoreTaken(w, k, o, o.(finalizers := o.finalizers - {Finalizer(k.kind)}), Idle);
    }
  }

  lemma ClaimTaken(w: World, k: Key, o: Object, fault: Fault)
    requires KeySound(w, k) && w.PhaseOf(k) == Claiming(o)
    ensures var w', o' := Do(w, Call(k, fault)), Claimed(w, k, o);
            && w'.Landed(k) == w.Landed(k)
            && (if fault.NoFault? && Fresh(w, k, o)
                then w'.PhaseOf(k) == Planning(o') && Replaced(w', k, o) && w'.Current(k) == Some(o')
                else w'.PhaseOf(k) == Idle)
  {
    if fault.Lost? || !Fresh(w, k, o) {
      PhaseTaken(w, k, Idle);
    } else {
      FreshIsCurrent(w, k, o);
      StoreTaken(w, k, o, Claimed(w, k, o), if fault.Unanswered? then Idle else Planning(Claimed(w, k, o)));
    }
  }
}
