/**
 The code of the reconcilers and of the OCM client, call by call, on the hub of module `Hub`.

 Before each API call the environment takes its turn: anyone but the reconciler of the same key
 may act, and the call itself may fail. `trace` records every step that was taken, and `Valid`
 says that the state is the one that this run of the state machine reaches; so what holds of all
 runs holds of all states that this code goes through.
 */
module Client {
  import opened Wrappers
  import opened Resources
  import opened Hub
  import opened Safety
  import opened Effects
  import opened Lifecycle
  import opened Interference
  import opened Progress
  import opened ApiCalls
  import opened Devices
  import opened Slices
  import opened Providers
  import opened Topology
  import opened Neighbours
  import opened Monitoring

  /** What happens around one API call: first the steps of others, then perhaps a fault. */
  datatype Slot = Slot(others: seq<Action>, fault: Fault)

  predicate Calm(slots: seq<Slot>) {
    forall i :: 0 <= i < |slots| ==> slots[i] == Slot([], NoFault)
  }

  datatype ReconcileResult = Nothing | Released | Reconciled | Error

  /** The steps that are not those of the reconciler of `k`. */
  function NotBy(actions: seq<Action>, k: Key): (rest: seq<Action>)
    ensures forall a :: a in rest ==> !By(a, k)
  {
    if actions == [] then []
    else (if By(actions[0], k) then [] else [actions[0]]) + NotBy(actions[1..], k)
  }

  /** What the reconcile of an object with this spec and provider wants in its clusters. */
  function PlanFor(k: Key, spec: Spec, provider: ProviderSpec, resolve: Resolver, ports: Ports)
    : (r: Result<seq<Content>, SliceError>)
    ensures r.Success? ==> |r.value| == |Targets(spec)|
  {
    match spec
    case NetworkSpec(_, _, _, _) => Success(PlanNetwork(k, spec, provider))
    case OverlaySpec(_, _, _, _) =>
      match PlanSlice(k, spec, provider, resolve, ports)
      case Failure(error) => Failure(error)
      case Success(plan) => Success(plan.Contents())
  }

  /** Is there a provider for the spec, and a plan? */
  predicate Plannable(k: Key, spec: Spec, profiles: Profiles, resolve: Resolver, ports: Ports) {
    && ResolveProvider(profiles, k.namespace, spec).Success?
    && PlanFor(k, spec, ResolveProvider(profiles, k.namespace, spec).value, resolve, ports).Success?
  }

  /** What a reconcile of an object with this spec writes. */
  function PlanOf(k: Key, spec: Spec, profiles: Profiles, resolve: Resolver, ports: Ports): (plan: seq<Content>)
    requires Plannable(k, spec, profiles, resolve, ports)
    ensures |plan| == |Targets(spec)|
  {
    PlanFor(k, spec, ResolveProvider(profiles, k.namespace, spec).value, resolve, ports).value
  }

  // ------------------------------------------------------------------ the environment does not reach into a reconcile

  /** The reconcile of `k` in progress is as it was; the history may have grown. */
  ghost predicate Undisturbed(w: World, w': World, k: Key) {
    && w'.PhaseOf(k) == w.PhaseOf(k) && w'.Landed(k) == w.Landed(k) && w'.Cursor(k) == w.Cursor(k)
    && w.History(k) <= w'.History(k)
  }

  lemma UserCreateUndisturbed(w: World, k: Key, spec: Spec, finalizers: set<string>)
    ensures Undisturbed(w, Hub.Create(w, k, spec, finalizers), k)
  {
  }

  lemma UserEditUndisturbed(w: World, k: Key, spec: Spec, finalizers: set<string>)
    ensures Undisturbed(w, Hub.Edit(w, k, spec, finalizers), k)
  {
  }

  lemma UserDeleteUndisturbed(w: World, k: Key)
    ensures Undisturbed(w, Hub.Delete(w, k), k)
  {
  }

  lemma UnmovedByOthers(w: World, a: Action, k: Key)
    requires !By(a, k)
    ensures Undisturbed(w, Do(w, a), k)
  {
    if !On(a, k) {
      ElsewhereIsUnmoved(w, a, k);
    } else {
      match a
      case UserCreate(_, spec, finalizers) => UserCreateUndisturbed(w, k, spec, finalizers);
      case UserEdit(_, spec, finalizers) => UserEditUndisturbed(w, k, spec, finalizers);
      case UserDelete(_) => UserDeleteUndisturbed(w, k);
    }
  }

  lemma {:induction false} RunOfOthers(w: World, actions: seq<Action>, k: Key)
    requires forall a :: a in actions ==> !By(a, k)
    ensures Undisturbed(w, Run(w, actions), k)
    decreases actions
  {
    if actions == [] {
    } else {
      assert !By(actions[0], k);
      UnmovedByOthers(w, actions[0], k);
      RunOfOthers(Do(w, actions[0]), actions[1..], k);
    }
  }

  // ------------------------------------------------------------------ disturbances that a retry overcomes

  /** No call fails, and others neither remove works nor call the API for an object of their own; they may change works
      and objects as they like. */
  predicate Mild(slots: seq<Slot>) {
    forall i :: 0 <= i < |slots| ==>
      slots[i].fault == NoFault && forall a <- slots[i].others :: !a.RemoveWork? && !a.Call?
  }

  /** How often someone comes in between. */
  function Disturbances(slots: seq<Slot>): nat {
    if slots == [] then 0 else (if slots[0].others == [] then 0 else 1) + Disturbances(slots[1..])
  }

  /** The works that were there are there, and they are as they were unless a disturbance was used up. */
  ghost predicate Weathered(slots: seq<Slot>, slots': seq<Slot>, w: World, w': World) {
    && Mild(slots') && Disturbances(slots') <= Disturbances(slots)
    && w'.works.Keys == w.works.Keys
    && (Disturbances(slots') == Disturbances(slots) ==> w'.works == w.works)
  }

  lemma MildStepKeepsKeys(w: World, a: Action)
    requires !a.RemoveWork? && !a.Call?
    ensures Do(w, a).works.Keys == w.works.Keys
  {
    if a.TouchWork? {
      assert Touch(w, a.work, a.content, a.other).works.Keys == w.works.Keys;
    } else {
      QuietOnWorks(w, a);
    }
  }

  lemma {:induction false} MildStepsKeepKeys(w: World, actions: seq<Action>)
    requires forall a <- actions :: !a.RemoveWork? && !a.Call?
    ensures Run(w, actions).works.Keys == w.works.Keys
    decreases actions
  {
    if actions == [] {
    } else {
      MildStepKeepsKeys(w, actions[0]);
      MildStepsKeepKeys(Do(w, actions[0]), actions[1..]);
    }
  }

  lemma {:induction false} NotByAreSome(actions: seq<Action>, k: Key)
    ensures forall a <- NotBy(actions, k) :: a in actions
  {
    if actions != [] {
      NotByAreSome(actions[1..], k);
    }
  }

  lemma SlotWeathered(slots: seq<Slot>, w: World, k: Key)
    requires slots != [] && Mild(slots)
    ensures Weathered(slots, slots[1..], w, Run(w, NotBy(slots[0].others, k))) && slots[0].fault == NoFault
  {
    NotByAreSome(slots[0].others, k);
    MildStepsKeepKeys(w, NotBy(slots[0].others, k));
    assert forall i :: 0 <= i < |slots| - 1 ==> slots[1..][i] == slots[i + 1];
  }

  // ------------------------------------------------------------------ plans meet the state machine

  /** A cluster that is listed twice is planned the same content twice. */
  lemma PlansAreConsistent(k: Key, spec: Spec, provider: ProviderSpec, resolve: Resolver, ports: Ports)
    requires PlanFor(k, spec, provider, resolve, ports).Success?
    ensures Consistent(Targets(spec), PlanFor(k, spec, provider, resolve, ports).value)
  {
    if spec.OverlaySpec? {
      var slice := PlanSlice(k, spec, provider, resolve, ports).value;
      assert PlanFor(k, spec, provider, resolve, ports).value == slice.Contents();
    }
  }

  /** From any state that a run can reach, one clean reconcile of a live object whose provider resolves and whose plan
      can be made leaves exactly that plan in its clusters; a second one changes no labels and no spec. */
  lemma ReconcileConverges(before: seq<Action>, k: Key, o: Object, profiles: Profiles, resolve: Resolver, ports: Ports)
    requires var w := Run(EMPTY_HUB, before);
             w.PhaseOf(k) == Idle && w.Current(k) == Some(o) && !o.deleting
    requires Plannable(k, o.spec, profiles, resolve, ports)
    ensures var plan := PlanOf(k, o.spec, profiles, resolve, ports);
            var w := Run(EMPTY_HUB, before);
            var w1 := Run(w, CleanReconcile(w, k, plan));
            var w2 := Run(w1, CleanReconcile(w1, k, plan));
            && Settled(w, w1, k, o.spec, plan)
            && w2.works.Keys == w1.works.Keys
            && forall wk :: wk in w1.works ==> w2.works[wk].content == w1.works[wk].content
  {
    var plan := PlanOf(k, o.spec, profiles, resolve, ports);
    PlansAreConsistent(k, o.spec, ResolveProvider(profiles, k.namespace, o.spec).value, resolve, ports);
    Convergence(before, k, o, plan);
    Idempotence(before, k, o, plan);
  }

  // ------------------------------------------------------------------ what a reconcile reports

  /** Every listed cluster got what the spec asks for, each exactly once and in order. */
  ghost predicate AllWritten(w: World, k: Key, spec: Spec, uid: nat, profiles: Profiles, resolve: Resolver,
                             ports: Ports, log: seq<Landing>)
  {
    && Plannable(k, spec, profiles, resolve, ports)
    && w.Landed(k) == log + Landings(k, spec, uid, PlanOf(k, spec, profiles, resolve, ports), |Targets(spec)|)
  }

  /** The listed clusters up to some point got what the spec asks for, each once and in order, and no other write was
      made; without provider or plan, none at all. */
  ghost predicate SomeWritten(w: World, k: Key, spec: Spec, uid: nat, profiles: Profiles, resolve: Resolver,
                              ports: Ports, log: seq<Landing>)
  {
    if Plannable(k, spec, profiles, resolve, ports) then
      exists n :: 0 <= n <= |Targets(spec)| &&
        w.Landed(k) == log + Landings(k, spec, uid, PlanOf(k, spec, profiles, resolve, ports), n)
    else w.Landed(k) == log
  }

  lemma NoneIsSome(w: World, k: Key, spec: Spec, uid: nat, profiles: Profiles, resolve: Resolver, ports: Ports)
    ensures SomeWritten(w, k, spec, uid, profiles, resolve, ports, w.Landed(k))
  {
    if Plannable(k, spec, profiles, resolve, ports) {
      assert w.Landed(k) == w.Landed(k) + Landings(k, spec, uid, PlanOf(k, spec, profiles, resolve, ports), 0);
    }
  }

  lemma EndedIsSome(w: World, k: Key, o: Object, profiles: Profiles, resolve: Resolver, ports: Ports,
                    log: seq<Landing>, r: Outcome)
    requires Plannable(k, o.spec, profiles, resolve, ports)
    requires Ended(w, k, o, PlanOf(k, o.spec, profiles, resolve, ports), log, r)
    ensures SomeWritten(w, k, o.spec, o.uid, profiles, resolve, ports, log)
  {
    var plan := PlanOf(k, o.spec, profiles, resolve, ports);
    match r
    case Complete => assert w.Landed(k) == log + Landings(k, o.spec, o.uid, plan, |plan|);
    case NotPlanned(_) => NoneIsSome(w, k, o.spec, o.uid, profiles, resolve, ports);
    case Stopped(at, _) =>
      if w.Landed(k) != log + Landings(k, o.spec, o.uid, plan, at) {
        assert w.Landed(k) == log + Landings(k, o.spec, o.uid, plan, at + 1);
      }
  }

  /** What the result of a reconcile tells about the writes it made, whatever went on around it. */
  ghost predicate Reported(w: World, w': World, k: Key, read: Option<Object>, r: ReconcileResult,
                           profiles: Profiles, resolve: Resolver, ports: Ports)
  {
    match r
    case Reconciled =>
      && read.Some? && !read.value.deleting
      && AllWritten(w', k, read.value.spec, read.value.uid, profiles, resolve, ports, w.Landed(k))
    case Released =>
      && Held(k, read) && read.value.deleting && w'.Landed(k) == w.Landed(k)
      && Replaced(w', k, read.value) && !Held(k, w'.Current(k))
    case Nothing => (read.Some? ==> read.value.deleting && !Held(k, read)) && w'.Landed(k) == w.Landed(k)
    case Error =>
      if read.Some? && !read.value.deleting
      then SomeWritten(w', k, read.value.spec, read.value.uid, profiles, resolve, ports, w.Landed(k))
      else w'.Landed(k) == w.Landed(k)
  }

  /** The result of a reconcile of the stored object when nobody interferes and no call fails. */
  ghost function CalmResult(k: Key, read: Option<Object>, profiles: Profiles, resolve: Resolver, ports: Ports)
    : ReconcileResult
  {
    if read.None? then Nothing
    else if read.value.deleting then (if Held(k, read) then Released else Nothing)
    else if Plannable(k, read.value.spec, profiles, resolve, ports) then Reconciled
    else Error
  }

  /** The steps of planning and writing when nobody interferes and no call fails. */
  ghost function PlanningSteps(k: Key, spec: Spec, profiles: Profiles, resolve: Resolver, ports: Ports): seq<Action> {
    if Plannable(k, spec, profiles, resolve, ports) then Body(k, PlanOf(k, spec, profiles, resolve, ports))
    else [Plan(k, None)]
  }

  /** The steps of a whole reconcile after the read. */
  ghost function CalmSteps(k: Key, read: Option<Object>, profiles: Profiles, resolve: Resolver, ports: Ports)
    : seq<Action>
  {
    match read
    case None => []
    case Some(o) =>
      if o.deleting then (if Held(k, read) then Calls(k, |Targets(o.spec)| + 1) else [])
      else (if Held(k, read) then [] else [Call(k, NoFault)]) + PlanningSteps(k, o.spec, profiles, resolve, ports)
  }

  lemma PrefixOfPrefix(a: seq<Action>, b: seq<Action>, c: seq<Action>)
    requires a <= b && b <= c
    ensures a <= c
  {
  }

  lemma StepsInOrder(before: seq<Action>, first: seq<Action>, rest: seq<Action>)
    ensures before + first + rest == before + (first + rest) && [] + rest == rest
  {
  }

  /** What an undisturbed reconcile of the stored object achieves: everything is written as planned, or everything is
      cleaned up and the object given up, or no work is touched. */
  ghost predicate Achieved(w: World, w': World, k: Key, read: Option<Object>, r: ReconcileResult,
                           profiles: Profiles, resolve: Resolver, ports: Ports)
  {
    match r
    case Reconciled =>
      && read.Some? && Plannable(k, read.value.spec, profiles, resolve, ports)
      && Settled(w, w', k, read.value.spec, PlanOf(k, read.value.spec, profiles, resolve, ports))
    case Released => read.Some? && GivenUp(w, w', k, read.value)
    case Nothing => w'.works == w.works && w'.Current(k) == read
    case Error => w'.works == w.works
  }

  lemma ReadOnly(w: World, k: Key)
    requires PhaseSound(w, k) && w.PhaseOf(k) == Idle
    ensures Run(w, [Begin(k, |w.History(k)| - 1)]).works == w.works
    ensures Run(w, [Begin(k, |w.History(k)| - 1)]).Current(k) == w.Current(k)
  {
    RunHead(w, Begin(k, |w.History(k)| - 1), []);
    assert [Begin(k, |w.History(k)| - 1)] + [] == [Begin(k, |w.History(k)| - 1)];
  }

  lemma PlanlessTouchesNothing(w: World, k: Key, o: Object)
    requires PhaseSound(w, k) && w.PhaseOf(k) == Idle && w.Current(k) == Some(o) && !o.deleting
    ensures Run(w, Opening(w, k) + [Plan(k, None)]).works == w.works
  {
    ReadAndClaim(w, k, o);
    RunLast(w, Opening(w, k), Plan(k, None));
  }

  /** From any state that a run can reach, the steps of an undisturbed reconcile achieve what its result says. */
  lemma CalmStepsAchieve(before: seq<Action>, k: Key, profiles: Profiles, resolve: Resolver, ports: Ports)
    requires Run(EMPTY_HUB, before).PhaseOf(k) == Idle
    ensures var w := Run(EMPTY_HUB, before);
            var read := w.Current(k);
            var steps := [Begin(k, |w.History(k)| - 1)] + CalmSteps(k, read, profiles, resolve, ports);
            var r := CalmResult(k, read, profiles, resolve, ports);
            Achieved(w, Run(EMPTY_HUB, before + steps), k, read, r, profiles, resolve, ports)
  {
    var w := Run(EMPTY_HUB, before);
    var begin := [Begin(k, |w.History(k)| - 1)];
    ReachableIsSound(before);
    assert KeySound(w, k);
    RunConcat(EMPTY_HUB, before, begin + CalmSteps(k, w.Current(k), profiles, resolve, ports));
    match w.Current(k)
    case None =>
      assert begin + [] == begin;
      ReadOnly(w, k);
    case Some(o) =>
      if o.deleting {
        if Held(k, Some(o)) {
          DeletionCompletes(before, k, o);
        } else {
          assert begin + [] == begin;
          ReadOnly(w, k);
        }
      } else {
        assert begin + CalmSteps(k, Some(o), profiles, resolve, ports)
            == Opening(w, k) + PlanningSteps(k, o.spec, profiles, resolve, ports);
        if Plannable(k, o.spec, profiles, resolve, ports) {
          ReconcileConverges(before, k, o, profiles, resolve, ports);
        } else {
          PlanlessTouchesNothing(w, k, o);
        }
      }
  }

  class Controller {
    var world: World
    var schedule: seq<Slot>
    ghost var trace: seq<Action>

    ghost predicate Valid()
      reads this
    {
      world == Run(EMPTY_HUB, trace)
    }

    constructor (schedule: seq<Slot>)
      ensures Valid() && world == EMPTY_HUB && this.schedule == schedule
    {
      world, this.schedule, trace := EMPTY_HUB, schedule, [];
    }

    /** Whatever state this code is in, every work in it is answered for. */
    lemma NoStateOrphans(wk: WorkKey)
      requires Valid() && wk in world.works
      ensures var k := world.works[wk].writer;
              && wk.name == WorkName(k)
              && (wk.cluster in HeldClusters(k, world.Current(k)) <==> !LeftOff(trace, k, wk.cluster))
    {
      NoOrphans(trace, wk);
    }

    lemma SoundNow(k: Key)
      requires Valid()
      ensures KeySound(world, k)
    {
      ReachableIsSound(trace);
    }

    /** One step of the state machine. */
    method Take(a: Action)
      requires Valid()
      modifies this`world, this`trace
      ensures Valid() && world == Do(old(world), a) && trace == old(trace) + [a]
    {
      RunLast(EMPTY_HUB, trace, a);
      world := Do(world, a);
      trace := trace + [a];
    }

    /** The turn of the environment before an API call of the reconciler of `k`. */
    method Interfere(k: Key) returns (fault: Fault)
      requires Valid()
      modifies this
      ensures Valid() && old(trace) <= trace
      ensures Undisturbed(old(world), world, k)
      ensures old(Calm(schedule)) ==> Calm(schedule) && fault == NoFault && world == old(world) && trace == old(trace)
      ensures old(Mild(schedule)) ==> fault == NoFault && Weathered(old(schedule), schedule, old(world), world)
    {
      if schedule == [] {
        return NoFault;
      }
      if Mild(schedule) {
        SlotWeathered(schedule, world, k);
      }
      var slot := schedule[0];
      schedule := schedule[1..];
      var others := NotBy(slot.others, k);
      RunOfOthers(world, others, k);
      RunConcat(EMPTY_HUB, trace, others);
      world := Run(world, others);
      trace := trace + others;
      return slot.fault;
    }

    // ---------------------------------------------------------------- applyManifestWork

    method Get(k: Key, wk: WorkKey, ghost o: Object, ghost plan: seq<Content>, ghost next: nat, ghost left: nat)
      returns (reply: GetReply)
      requires Valid() && AtCall(world, k, o, plan, next, Getting(left)) && wk == WorkAt(k, o, next)
      modifies this
      ensures Valid() && old(trace) <= trace && world.Landed(k) == old(world.Landed(k))
      ensures AfterGet(world, k, o, plan, next, left, reply)
      ensures old(Calm(schedule)) ==>
        Calm(schedule) && trace == old(trace) + [Call(k, NoFault)] && !reply.GetFailed?
      ensures old(Mild(schedule)) ==>
        !reply.GetFailed? && Mild(schedule) && Disturbances(schedule) <= old(Disturbances(schedule))
    {
      var fault := Interfere(k);
      reply := GetReplyFor(world, wk, fault);
      GetTaken(world, k, o, plan, next, left, fault);
      Take(Call(k, fault));
    }

    method Create(k: Key, wk: WorkKey, desired: Content, ghost o: Object, ghost plan: seq<Content>, ghost next: nat)
      returns (reply: WriteReply)
      requires Valid() && AtCall(world, k, o, plan, next, Creating)
      requires wk == WorkAt(k, o, next) && desired == plan[next]
      modifies this
      ensures Valid() && old(trace) <= trace
      ensures AfterWrite(world, k, o, plan, next, old(world.Landed(k)), reply)
      ensures reply.Refused? ==> world.PhaseOf(k) == Idle && !reply.conflict && wk in world.works
      ensures old(Calm(schedule)) ==>
        && Calm(schedule) && trace == old(trace) + [Call(k, NoFault)]
        && (wk !in old(world.works) ==> reply.Written?)
      ensures old(Mild(schedule)) && wk !in old(world.works) ==>
        reply.Written? && Mild(schedule) && Disturbances(schedule) <= old(Disturbances(schedule))
    {
      var fault := Interfere(k);
      reply := CreateReplyFor(world, wk, fault);
      CreateTaken(world, k, o, plan, next, fault);
      Take(Call(k, fault));
    }

    /** Writes labels and spec into the work that was read; everything else of it goes back as it was. */
    method Update(k: Key, wk: WorkKey, current: Work, desired: Content,
                  ghost o: Object, ghost plan: seq<Content>, ghost next: nat, ghost left: nat)
      returns (reply: WriteReply)
      requires Valid() && AtCall(world, k, o, plan, next, Updating(current, left))
      requires wk == WorkAt(k, o, next) && desired == plan[next]
      modifies this
      ensures Valid() && old(trace) <= trace
      ensures AfterUpdate(world, k, o, plan, next, current, left, old(world.Landed(k)), reply)
      ensures old(Calm(schedule)) ==>
        && Calm(schedule) && trace == old(trace) + [Call(k, NoFault)]
        && (wk in old(world.works) && old(world.works)[wk].version == current.version ==> reply.Written?)
      ensures old(Mild(schedule)) && wk in old(world.works) && old(world.works)[wk].version == current.version ==>
        && (reply.Written? || (reply == Refused(true) && Disturbances(schedule) < old(Disturbances(schedule))))
        && Mild(schedule) && Disturbances(schedule) <= old(Disturbances(schedule))
    {
      var fault := Interfere(k);
      reply := UpdateReplyFor(world, wk, current, fault);
      UpdateTaken(world, k, o, plan, next, current, left, fault);
      Take(Call(k, fault));
    }

    /** One attempt: reads, then creates or updates. */
    method Attempt(k: Key, wk: WorkKey, desired: Content,
                   ghost o: Object, ghost plan: seq<Content>, ghost next: nat, ghost left: nat)
      returns (r: ApplyResult)
      requires Valid() && AtCall(world, k, o, plan, next, Getting(left))
      requires wk == WorkAt(k, o, next) && desired == plan[next]
      modifies this
      ensures Valid() && old(trace) <= trace
      ensures AfterAttempt(world, k, o, plan, next, left, old(world.Landed(k)), r)
      ensures old(Calm(schedule)) ==> Calm(schedule) && r.Applied? && trace == old(trace) + Calls(k, 2)
      ensures old(Mild(schedule)) ==>
        && (r.Applied? || (r == Rejected(true) && Disturbances(schedule) < old(Disturbances(schedule))))
        && Mild(schedule) && Disturbances(schedule) <= old(Disturbances(schedule))
    {
      CallTwice(old(trace), k);
      var current := Get(k, wk, o, plan, next, left);
      match current
      case GetFailed => return ReadFailed;
      case Missing =>
        var reply := Create(k, wk, desired, o, plan, next);
        return ResultOf(reply);
      case Found(work) =>
        var reply := Update(k, wk, work, desired, o, plan, next, left);
        return ResultOf(reply);
    }

    /** Tries again on a conflict, at most RETRY_STEPS times. When it succeeds, the store holds the desired labels and
        spec at that moment; when the API refuses, this call has written nothing. As long as no call fails and no work
        is removed or created, it takes more than four disturbances to make it fail. */
    method ApplyManifestWork(k: Key, wk: WorkKey, desired: Content,
                             ghost o: Object, ghost plan: seq<Content>, ghost next: nat)
      returns (r: ApplyResult, attempts: nat)
      requires Valid() && AtCall(world, k, o, plan, next, Getting(RETRY_STEPS))
      requires wk == WorkAt(k, o, next) && desired == plan[next]
      modifies this
      ensures Valid() && old(trace) <= trace
      ensures 1 <= attempts <= RETRY_STEPS
      ensures match r
              case Applied => AfterWrite(world, k, o, plan, next, old(world.Landed(k)), Written)
              case ReadFailed => world.PhaseOf(k) == Idle && world.Landed(k) == old(world.Landed(k))
              case Rejected(conflict) =>
                && world.PhaseOf(k) == Idle && world.Landed(k) == old(world.Landed(k))
                && (conflict ==> attempts == RETRY_STEPS)
              case Unknown => AfterWrite(world, k, o, plan, next, old(world.Landed(k)), NoAnswer)
      ensures old(Calm(schedule)) ==> Calm(schedule) && r.Applied? && trace == old(trace) + Calls(k, 2)
      ensures old(Mild(schedule) && Disturbances(schedule) <= 4) ==> r.Applied?
    {
      attempts := 0;
      while true
        invariant Valid() && old(trace) <= trace && attempts < RETRY_STEPS
        invariant AtCall(world, k, o, plan, next, Getting(RETRY_STEPS - attempts))
        invariant world.Landed(k) == old(world.Landed(k))
        invariant old(Calm(schedule)) ==> Calm(schedule) && attempts == 0 && trace == old(trace)
        invariant old(Mild(schedule) && Disturbances(schedule) <= 4) ==>
          Mild(schedule) && Disturbances(schedule) + attempts <= 4
        decreases RETRY_STEPS - attempts
      {
        r := Attempt(k, wk, desired, o, plan, next, RETRY_STEPS - attempts);
        attempts := attempts + 1;
        if r != Rejected(true) || attempts == RETRY_STEPS {
          return;
        }
      }
    }

    // ---------------------------------------------------------------- applying and deleting

    method ApplyCluster(k: Key, cluster: string, desired: Content,
                        ghost o: Object, ghost plan: seq<Content>, next: nat, ghost log: seq<Landing>,
                        ghost before: seq<Action>)
      returns (stopped: Option<Outcome>)
      requires Valid() && Progressed(world, k, o, plan, next, log)
      requires next < |plan| && cluster == Targets(o.spec)[next] && desired == plan[next]
      modifies this
      ensures Valid() && old(trace) <= trace
      ensures stopped.None? ==> Progressed(world, k, o, plan, next + 1, log)
      ensures stopped.Some? ==> stopped.value.Stopped? && Ended(world, k, o, plan, log, stopped.value)
      ensures old(Calm(schedule)) ==> Calm(schedule) && stopped.None?
      ensures old(Calm(schedule)) && old(trace) == before + BodyUpTo(k, plan, next) ==>
        trace == before + BodyUpTo(k, plan, next + 1)
    {
      BodyGrows(before, k, plan, next);
      var r, _ := ApplyManifestWork(k, WorkKey(cluster, WorkName(k)), desired, o, plan, next);
      assert log + Landings(k, o.spec, o.uid, plan, next) + [Landing(WorkAt(k, o, next), plan[next], o.uid)]
          == log + Landings(k, o.spec, o.uid, plan, next + 1);
      stopped := match r
        case Applied => None
        case ReadFailed => Some(Stopped(next, false))
        case Rejected(_) => Some(Stopped(next, false))
        case Unknown => Some(Stopped(next, true));
    }

    /** The last return of a reconcile that wrote everything. */
    method Finish(k: Key, ghost o: Object, ghost plan: seq<Content>, ghost log: seq<Landing>,
                  ghost before: seq<Action>)
      requires Valid() && Progressed(world, k, o, plan, |plan|, log)
      modifies this`world, this`trace
      ensures Valid() && Ended(world, k, o, plan, log, Complete) && trace == old(trace) + [Call(k, NoFault)]
      ensures old(trace) == before + BodyUpTo(k, plan, |plan|) ==> trace == before + Body(k, plan)
    {
      BodyEnds(before, k, plan);
      assert Request(world, k, NoFault) == world.WithPhase(k, Idle);
      Take(Call(k, NoFault));
    }

    method ApplyNetwork(k: Key, o: Object, provider: ProviderSpec) returns (r: Outcome)
      requires Valid() && world.PhaseOf(k) == Planning(o) && o.spec.NetworkSpec?
      modifies this
      ensures Valid() && old(trace) <= trace
      ensures !r.NotPlanned? && Ended(world, k, o, PlanNetwork(k, o.spec, provider), old(world.Landed(k)), r)
      ensures old(Calm(schedule)) ==>
        Calm(schedule) && r.Complete? && trace == old(trace) + Body(k, PlanNetwork(k, o.spec, provider))
    {
      var namespace := DefaultIfEmpty(k.namespace, "default");
      var networkType := DefaultIfEmpty(o.spec.networkType, "vnet");
      ghost var plan := PlanNetwork(k, o.spec, provider);
      ghost var log := world.Landed(k);
      TakePlan(k, o, PlanNetwork(k, o.spec, provider));
      for i := 0 to |o.spec.clusters|
        invariant Valid() && old(trace) <= trace && Progressed(world, k, o, plan, i, log)
        invariant old(Calm(schedule)) ==> Calm(schedule) && trace == old(trace) + BodyUpTo(k, plan, i)
      {
        ghost var soFar := trace;
        var currentNetwork := L2Network(k.name, namespace, networkType, Some(provider));
        var stopped :=
          ApplyCluster(k, o.spec.clusters[i], Content(LABELS, [currentNetwork]), o, plan, i, log, old(trace));
        PrefixOfPrefix(old(trace), soFar, trace);
        if stopped.Some? {
          return stopped.value;
        }
      }
      Finish(k, o, plan, log, old(trace));
      return Complete;
    }

    /** Nothing has been written when the plan is known. */
    method TakePlan(k: Key, o: Object, plan: seq<Content>)
      requires Valid() && world.PhaseOf(k) == Planning(o) && |plan| == |Targets(o.spec)|
      modifies this`world, this`trace
      ensures Valid() && Progressed(world, k, o, plan, 0, old(world.Landed(k)))
      ensures world.Landed(k) == old(world.Landed(k)) && trace == old(trace) + BodyUpTo(k, plan, 0)
    {
      assert world.Landed(k) + Landings(k, o.spec, o.uid, plan, 0) == world.Landed(k);
      Take(Plan(k, Some(plan)));
    }

    /** The first half of ApplySlice, which only computes; any error ends here. */
    method ComputeSlice(k: Key, spec: Spec, provider: ProviderSpec, resolve: Resolver, ports: Ports)
      returns (r: Result<SlicePlan, SliceError>)
      requires spec.OverlaySpec?
      ensures r == PlanSlice(k, spec, provider, resolve, ports)
    {
      if spec.topology.None? {
        return Failure(NoTopology);
      }
      var sliceClusters := spec.topology.value.nodes;
      var sliceLinks := spec.topology.value.links;
      if sliceLinks == [] && |sliceClusters| > 1 {
        sliceLinks := GenerateTopology(ClusterNames(sliceClusters));
      }
      var clusterMaps := ResolveAddresses(sliceClusters, resolve);
      if clusterMaps.Failure? {
        return Failure(Unresolved(clusterMaps.error));
      }
      var monitoredNodes: Allocation := map[];
      if spec.monitoring.Some? {
        var allocation := AllocateMonitoringNodeIps(MonitoringCidr(spec.monitoring.value), sliceClusters);
        if allocation.Failure? {
          return Failure(NoAddresses(allocation.error));
        }
        monitoredNodes := allocation.value;
      }
      return Success(SlicePlan(DefaultIfEmpty(k.namespace, "he-codeco-netma"), DeviceProvider(provider, ports),
                               spec.monitoring, ClusterNames(sliceClusters), sliceLinks, clusterMaps.value,
                               monitoredNodes));
    }

    /** The generator works for this slice, on the slice's own monitor. */
    static predicate Serves(nedGenerator: NedGenerator, monitoring: Monitor?, slice: SlicePlan)
      reads nedGenerator, monitoring
    {
      && nedGenerator.monitoring == monitoring
      && nedGenerator.provider == slice.provider && nedGenerator.sliceName == slice.provider.name
      && slice.monitoring == if monitoring == null then None else Some(monitoring.Value())
    }

    /** The generator of a slice, with the slice's own monitor. */
    method NewNedGenerator(ghost slice: SlicePlan, provider: ProviderSpec, monitoring: Monitor?, ports: Ports)
      returns (nedGenerator: NedGenerator)
      requires slice.provider == DeviceProvider(provider, ports)
      requires slice.monitoring == if monitoring == null then None else Some(monitoring.Value())
      ensures fresh(nedGenerator) && Serves(nedGenerator, monitoring, slice)
    {
      nedGenerator := new NedGenerator(provider, ports);
      nedGenerator.monitoring := monitoring;
    }

    /** No two devices share a part. */
    static ghost predicate Apart(a: Device, b: Device)
      reads a, b
    {
      a != b && a.neighbors != b.neighbors && (a.monitor != null ==> a.monitor != b.monitor)
    }

    /** The devices of the first clusters: each has its planned content, no two share a part, and none has the
        slice's own monitor. */
    static ghost predicate Built(devices: seq<Device>, monitoring: Monitor?, plan: seq<Content>)
      reads devices, (set d <- devices :: d.neighbors), (set d <- devices :: d.monitor)
    {
      && |devices| <= |plan|
      && (forall i :: 0 <= i < |devices| ==> Content(LABELS, [devices[i].ToManifest()]) == plan[i])
      && (forall i, j :: 0 <= i < j < |devices| ==> Apart(devices[i], devices[j]))
      && (forall d <- devices :: d.monitor != null ==> d.monitor != monitoring)
    }

    /** Builds the device of a cluster from its links; nothing that was there before changes, the slice's monitor
        least of all. */
    method BuildDevice(nedGenerator: NedGenerator, monitoring: Monitor?, slice: SlicePlan, cluster: string)
      returns (ned: Device)
      requires slice.Valid() && Serves(nedGenerator, monitoring, slice)
      ensures fresh(ned) && fresh(ned.neighbors) && (ned.monitor != null ==> fresh(ned.monitor))
      ensures ned.ToManifest() == slice.DeviceOf(cluster) && (ned.monitor != null <==> cluster in slice.addresses)
    {
      var table := BuildTable(cluster, slice.links, slice.book);
      ned := nedGenerator.ConstructNed(cluster, table, slice.addresses);
      ned.namespace := slice.namespace;
    }

    static lemma BuiltWithNext(built: seq<Device>, ned: Device, monitoring: Monitor?, plan: seq<Content>)
      requires Built(built, monitoring, plan) && |built| < |plan|
      requires Content(LABELS, [ned.ToManifest()]) == plan[|built|]
      requires (forall d <- built :: Apart(d, ned)) && (ned.monitor != null ==> ned.monitor != monitoring)
      ensures Built(built + [ned], monitoring, plan)
    {
    }

    /** Builds the next device beside those that are there. */
    method BuildNext(nedGenerator: NedGenerator, monitoring: Monitor?, slice: SlicePlan, i: nat,
                     ghost built: seq<Device>)
      returns (ned: Device)
      requires slice.Valid() && Serves(nedGenerator, monitoring, slice)
      requires |built| == i < |slice.names| && Built(built, monitoring, slice.Contents())
      ensures Content(LABELS, [ned.ToManifest()]) == slice.Contents()[i]
      ensures fresh(ned) && Built(built + [ned], monitoring, slice.Contents())
    {
      ned := BuildDevice(nedGenerator, monitoring, slice, slice.names[i]);
      BuiltWithNext(built, ned, monitoring, slice.Contents());
    }

    /** Ships the device of the next cluster; all devices stay as they are. */
    method WriteDevice(k: Key, cluster: string, ned: Device, ghost o: Object, ghost plan: seq<Content>, i: nat,
                       ghost log: seq<Landing>, ghost devices: seq<Device>, ghost monitoring: Monitor?,
                       ghost before: seq<Action>)
      returns (stopped: Option<Outcome>)
      requires Valid() && Progressed(world, k, o, plan, i, log) && i < |plan| && cluster == Targets(o.spec)[i]
      requires Built(devices, monitoring, plan) && Content(LABELS, [ned.ToManifest()]) == plan[i]
      modifies this
      ensures Valid() && old(trace) <= trace
      ensures stopped.None? ==> Progressed(world, k, o, plan, i + 1, log)
      ensures stopped.Some? ==> stopped.value.Stopped? && Ended(world, k, o, plan, log, stopped.value)
      ensures old(Calm(schedule)) ==> Calm(schedule) && stopped.None?
      ensures old(Calm(schedule)) && old(trace) == before + BodyUpTo(k, plan, i) ==>
        trace == before + BodyUpTo(k, plan, i + 1)
      ensures Built(devices, monitoring, plan)
    {
      stopped := ApplyCluster(k, cluster, Content(LABELS, [ned.ToManifest()]), o, plan, i, log, before);
    }

    /** The second half of ApplySlice: device by device, each written before the next is built. At the end every device
        still has its planned content; setting the address of one changed neither another nor the slice's monitor. */
    method WriteDevices(k: Key, o: Object, slice: SlicePlan, monitoring: Monitor?, nedGenerator: NedGenerator,
                        ghost plan: seq<Content>, ghost before: seq<Action>)
      returns (stopped: Option<Outcome>, ghost devices: seq<Device>)
      requires slice.Valid() && plan == slice.Contents() && slice.names == Targets(o.spec)
      requires Valid() && Progressed(world, k, o, plan, 0, world.Landed(k))
      requires Serves(nedGenerator, monitoring, slice) && trace == before + BodyUpTo(k, plan, 0)
      modifies this
      ensures Valid() && old(trace) <= trace
      ensures stopped.None? ==> Progressed(world, k, o, plan, |slice.names|, old(world.Landed(k)))
      ensures stopped.Some? ==> stopped.value.Stopped? && Ended(world, k, o, plan, old(world.Landed(k)), stopped.value)
      ensures old(Calm(schedule)) ==> Calm(schedule) && stopped.None? && trace == before + BodyUpTo(k, plan, |plan|)
      ensures Built(devices, monitoring, plan) && (stopped.None? ==> |devices| == |plan|)
    {
      ghost var log := world.Landed(k);
      devices := [];
      for i := 0 to |slice.names|
        invariant Valid() && old(trace) <= trace && Progressed(world, k, o, plan, i, log)
        invariant old(Calm(schedule)) ==> Calm(schedule) && trace == before + BodyUpTo(k, plan, i)
        invariant Built(devices, monitoring, plan) && |devices| == i
      {
        var ned := BuildNext(nedGenerator, monitoring, slice, i, devices);
        devices := devices + [ned];
        stopped := WriteDevice(k, slice.names[i], ned, o, plan, i, log, devices, monitoring, before);
        if stopped.Some? {
          return;
        }
      }
      stopped := None;
    }

    /** Writes the planned devices, when everything is computed. */
    method WriteSlice(k: Key, o: Object, slice: SlicePlan, monitoring: Monitor?, nedGenerator: NedGenerator,
                      plan: seq<Content>)
      returns (r: Outcome)
      requires Valid() && world.PhaseOf(k) == Planning(o)
      requires slice.Valid() && slice.names == Targets(o.spec) && plan == slice.Contents()
      requires Serves(nedGenerator, monitoring, slice)
      modifies this
      ensures Valid() && old(trace) <= trace
      ensures !r.NotPlanned? && Ended(world, k, o, plan, old(world.Landed(k)), r)
      ensures old(Calm(schedule)) ==> Calm(schedule) && r.Complete? && trace == old(trace) + Body(k, plan)
    {
      ghost var log := world.Landed(k);
      TakePlan(k, o, plan);
      ghost var planned := trace;
      var stopped, _ := WriteDevices(k, o, slice, monitoring, nedGenerator, plan, old(trace));
      PrefixOfPrefix(old(trace), planned, trace);
      if stopped.Some? {
        return stopped.value;
      }
      Finish(k, o, plan, log, old(trace));
      return Complete;
    }

    /** Everything is computed before anything is written: a missing topology, a cluster that does not resolve, or a
        failed allocation leaves all works alone. */
    method ApplySlice(k: Key, o: Object, provider: ProviderSpec, monitoring: Monitor?, resolve: Resolver, ports: Ports)
      returns (r: Outcome)
      requires Valid() && world.PhaseOf(k) == Planning(o) && o.spec.OverlaySpec?
      requires o.spec.monitoring == if monitoring == null then None else Some(monitoring.Value())
      modifies this
      ensures Valid() && old(trace) <= trace
      ensures match PlanSlice(k, o.spec, provider, resolve, ports)
              case Failure(error) => r == NotPlanned(error) && world == old(world).WithPhase(k, Idle)
              case Success(slice) => !r.NotPlanned? && Ended(world, k, o, slice.Contents(), old(world.Landed(k)), r)
      ensures old(Calm(schedule)) ==>
        match PlanSlice(k, o.spec, provider, resolve, ports)
        case Failure(_) => trace == old(trace) + [Plan(k, None)]
        case Success(slice) => r.Complete? && trace == old(trace) + Body(k, slice.Contents())
    {
      var slice := ComputeSlice(k, o.spec, provider, resolve, ports);
      match slice
      case Failure(error) =>
        Take(Plan(k, None));
        return NotPlanned(error);
      case Success(plan) =>
        var nedGenerator := NewNedGenerator(plan, provider, monitoring, ports);
        r := WriteSlice(k, o, plan, monitoring, nedGenerator, plan.Contents());
    }

    /** Deletes the work of one cluster; a missing work is not an error. */
    method Delete(k: Key, wk: WorkKey, ghost o: Object, ghost next: nat) returns (ok: bool)
      requires Valid() && world.PhaseOf(k) == Cleaning(o, next) && next < |Targets(o.spec)| && wk == WorkAt(k, o, next)
      modifies this
      ensures Valid() && old(trace) <= trace && world.Landed(k) == old(world.Landed(k))
      ensures world.PhaseOf(k) == if ok then Cleaning(o, next + 1) else Idle
      ensures CleanUpTo(world, k, o, if ok then next + 1 else next) && (ok ==> wk !in world.works)
      ensures old(Calm(schedule)) ==>
        Calm(schedule) && ok && world.history == old(world.history) && trace == old(trace) + [Call(k, NoFault)]
    {
      var fault := Interfere(k);
      SoundNow(k);
      RemoveTaken(world, k, o, next, fault);
      Take(Call(k, fault));
      ok := fault == NoFault;
    }

    /** DeleteNetwork and DeleteSlice: removes the work of every listed cluster, and stops at the first error. At the
        end none of the clusters that were visited holds a work of this object. */
    method DeleteWorks(k: Key, o: Object) returns (ok: bool, ghost visited: nat)
      requires Valid() && world.PhaseOf(k) == Cleaning(o, 0)
      modifies this
      ensures Valid() && old(trace) <= trace && world.Landed(k) == old(world.Landed(k))
      ensures world.PhaseOf(k) == if ok then Cleaning(o, |Targets(o.spec)|) else Idle
      ensures visited <= |Targets(o.spec)| && CleanUpTo(world, k, o, visited) && (ok <==> visited == |Targets(o.spec)|)
      ensures old(Calm(schedule)) ==>
        && Calm(schedule) && ok && world.history == old(world.history)
        && trace == old(trace) + Calls(k, |Targets(o.spec)|)
    {
      for i := 0 to |Targets(o.spec)|
        invariant Valid() && old(trace) <= trace && world.Landed(k) == old(world.Landed(k))
        invariant world.PhaseOf(k) == Cleaning(o, i) && CleanUpTo(world, k, o, i)
        invariant old(Calm(schedule)) ==>
          Calm(schedule) && world.history == old(world.history) && trace == old(trace) + Calls(k, i)
      {
        CallsGrow(old(trace), k, i);
        var deleted := Delete(k, WorkKey(Targets(o.spec)[i], WorkName(k)), o, i);
        if !deleted {
          return false, i;
        }
      }
      return true, |Targets(o.spec)|;
    }

    /** The update that gives the object up; it is refused when the object is no longer the one that was read. */
    method RemoveFinalizer(k: Key, o: Object) returns (ok: bool)
      requires Valid() && world.PhaseOf(k) == Cleaning(o, |Targets(o.spec)|)
      modifies this
      ensures Valid() && old(trace) <= trace && world.Landed(k) == old(world.Landed(k))
      ensures world.PhaseOf(k) == Idle
      ensures ok ==> Replaced(world, k, o) && !Held(k, world.Current(k)) && GivenUpOnly(k, o, world.Current(k))
      ensures old(Calm(schedule)) ==> ok == old(Fresh(world, k, o)) && trace == old(trace) + [Call(k, NoFault)]
    {
      var fault := Interfere(k);
      SoundNow(k);
      ok := fault == NoFault && Fresh(world, k, o);
      ReleaseTaken(world, k, o, fault);
      Take(Call(k, fault));
    }

    /** The update that claims the object, before anything is written for it. */
    method AddFinalizer(k: Key, o: Object) returns (claimed: Option<Object>)
      requires Valid() && world.PhaseOf(k) == Claiming(o)
      modifies this
      ensures Valid() && old(trace) <= trace && world.Landed(k) == old(world.Landed(k))
      ensures claimed.None? ==> world.PhaseOf(k) == Idle
      ensures claimed.Some? ==>
        && Replaced(world, k, o) && world.Current(k) == claimed && world.PhaseOf(k) == Planning(claimed.value)
        && Held(k, claimed)
        && claimed.value == o.(finalizers := o.finalizers + {Finalizer(k.kind)}, version := claimed.value.version)
      ensures old(Calm(schedule)) ==>
        && Calm(schedule) && trace == old(trace) + [Call(k, NoFault)]
        && (claimed.Some? <==> old(Fresh(world, k, o)))
    {
      var fault := Interfere(k);
      SoundNow(k);
      claimed := if fault == NoFault && Fresh(world, k, o) then Some(Claimed(world, k, o)) else None;
      ClaimTaken(world, k, o, fault);
      Take(Call(k, fault));
    }

    method ApplyObject(k: Key, o: Object, provider: ProviderSpec, resolve: Resolver, ports: Ports) returns (r: Outcome)
      requires Valid() && world.PhaseOf(k) == Planning(o)
      modifies this
      ensures Valid() && old(trace) <= trace && world.PhaseOf(k) == Idle
      ensures match PlanFor(k, o.spec, provider, resolve, ports)
              case Failure(error) => r == NotPlanned(error) && world == old(world).WithPhase(k, Idle)
              case Success(plan) => !r.NotPlanned? && Ended(world, k, o, plan, old(world.Landed(k)), r)
      ensures old(Calm(schedule)) ==>
        match PlanFor(k, o.spec, provider, resolve, ports)
        case Failure(_) => trace == old(trace) + [Plan(k, None)]
        case Success(plan) => r.Complete? && trace == old(trace) + Body(k, plan)
    {
      if o.spec.NetworkSpec? {
        r := ApplyNetwork(k, o, provider);
      } else {
        var monitoring: Monitor? := null;
        if o.spec.monitoring.Some? {
          monitoring := new Monitor(o.spec.monitoring.value);
        }
        r := ApplySlice(k, o, provider, monitoring, resolve, ports);
      }
    }

    /** The provider first, then the works. Nothing is written unless both provider and plan are known. */
    method ResolveAndApply(k: Key, o: Object, profiles: Profiles, resolve: Resolver, ports: Ports) returns (done: bool)
      requires Valid() && world.PhaseOf(k) == Planning(o)
      modifies this
      ensures Valid() && old(trace) <= trace && world.PhaseOf(k) == Idle
      ensures done ==> AllWritten(world, k, o.spec, o.uid, profiles, resolve, ports, old(world.Landed(k)))
      ensures SomeWritten(world, k, o.spec, o.uid, profiles, resolve, ports, old(world.Landed(k)))
      ensures !Plannable(k, o.spec, profiles, resolve, ports) ==> !done && world.works == old(world.works)
      ensures old(Calm(schedule)) ==>
        && done == Plannable(k, o.spec, profiles, resolve, ports)
        && trace == old(trace) + PlanningSteps(k, o.spec, profiles, resolve, ports)
    {
      var provider := ResolveProvider(profiles, k.namespace, o.spec);
      if provider.Failure? {
        Take(Plan(k, None));
        return false;
      }
      var outcome := ApplyObject(k, o, provider.value, resolve, ports);
      if Plannable(k, o.spec, profiles, resolve, ports) {
        EndedIsSome(world, k, o, profiles, resolve, ports, old(world.Landed(k)), outcome);
      }
      done := outcome.Complete?;
    }

    /** The branch for an object that is being deleted and still carries the finalizer. */
    method ReconcileDeleted(k: Key, o: Object, ghost profiles: Profiles, ghost resolve: Resolver, ghost ports: Ports)
      returns (r: ReconcileResult)
      requires Valid() && world.PhaseOf(k) == Cleaning(o, 0) && o.deleting && Held(k, Some(o))
      modifies this
      ensures Valid() && old(trace) <= trace && world.PhaseOf(k) == Idle && world.Landed(k) == old(world.Landed(k))
      ensures r.Released? || r.Error?
      ensures r.Released? ==> Replaced(world, k, o) && !Held(k, world.Current(k))
      ensures old(Calm(schedule)) && old(Fresh(world, k, o)) ==>
        r.Released? && trace == old(trace) + CalmSteps(k, Some(o), profiles, resolve, ports)
    {
      CallsGrow(old(trace), k, |Targets(o.spec)|);
      var cleaned, _ := DeleteWorks(k, o);
      if !cleaned {
        return Error;
      }
      var released := RemoveFinalizer(k, o);
      return if released then Released else Error;
    }

    /** The branch for a live object: claim it if needed, then resolve, plan and write. */
    method ReconcileLive(k: Key, o: Object, profiles: Profiles, resolve: Resolver, ports: Ports)
      returns (r: ReconcileResult)
      requires Valid() && world.PhaseOf(k) == (if Held(k, Some(o)) then Planning(o) else Claiming(o)) && !o.deleting
      modifies this
      ensures Valid() && old(trace) <= trace && world.PhaseOf(k) == Idle
      ensures r.Reconciled? || r.Error?
      ensures r.Reconciled? ==> AllWritten(world, k, o.spec, o.uid, profiles, resolve, ports, old(world.Landed(k)))
      ensures SomeWritten(world, k, o.spec, o.uid, profiles, resolve, ports, old(world.Landed(k)))
      ensures !Plannable(k, o.spec, profiles, resolve, ports) ==> r.Error?
      ensures old(Calm(schedule)) && old(Fresh(world, k, o)) ==>
        && r.Reconciled? == Plannable(k, o.spec, profiles, resolve, ports)
        && trace == old(trace) + CalmSteps(k, Some(o), profiles, resolve, ports)
    {
      var held := o;
      StepsInOrder([], [], PlanningSteps(k, o.spec, profiles, resolve, ports));
      if !Held(k, Some(o)) {
        var claimed := AddFinalizer(k, o);
        StepsInOrder(old(trace), [Call(k, NoFault)], PlanningSteps(k, o.spec, profiles, resolve, ports));
        if claimed.None? {
          NoneIsSome(world, k, o.spec, o.uid, profiles, resolve, ports);
          return Error;
        }
        held := claimed.value;
      }
      var done := ResolveAndApply(k, held, profiles, resolve, ports);
      return if done then Reconciled else Error;
    }

    /** The cached read of the object, which may fail. */
    method ReadCached(k: Key, at: nat) returns (read: Option<Option<Object>>)
      requires Valid() && CanStart(world, k, at)
      modifies this
      ensures Valid() && old(trace) <= trace && world.Landed(k) == old(world.Landed(k))
      ensures world.PhaseOf(k) == if read.Some? then Branch(k, read.value) else Idle
      ensures read.Some? ==> read.value == old(world.History(k)[at])
      ensures old(Calm(schedule)) ==>
        && Calm(schedule) && read.Some? && world.history == old(world.history)
        && trace == old(trace) + [Begin(k, at)]
    {
      var fault := Interfere(k);
      if fault != NoFault {
        return None;
      }
      read := Some(world.History(k)[at]);
      Take(Begin(k, at));
    }

    /** The branches of a reconcile, after the read. */
    method ReconcileRead(k: Key, read: Option<Object>, profiles: Profiles, resolve: Resolver, ports: Ports)
      returns (r: ReconcileResult)
      requires Valid() && world.PhaseOf(k) == Branch(k, read)
      modifies this
      ensures Valid() && old(trace) <= trace && world.PhaseOf(k) == Idle
      ensures Reported(old(world), world, k, read, r, profiles, resolve, ports)
      ensures old(Calm(schedule)) && read == old(world.Current(k)) ==>
        && r == CalmResult(k, read, profiles, resolve, ports)
        && trace == old(trace) + CalmSteps(k, read, profiles, resolve, ports)
    {
      match read
      case None => r := Nothing;
      case Some(o) =>
        if o.deleting {
          if Held(k, read) {
            r := ReconcileDeleted(k, o, profiles, resolve, ports);
          } else {
            r := Nothing;
          }
        } else {
          r := ReconcileLive(k, o, profiles, resolve, ports);
        }
    }

    /** Reconcile, for both kinds: read the cached snapshot `at`, then clean up and let go, or claim, plan and write.
        The state it leaves, like every state on the way, is one of a run of the state machine. When nobody interferes,
        no call fails and the read is current, everything is achieved in one go. */
    method Reconcile(k: Key, at: nat, profiles: Profiles, resolve: Resolver, ports: Ports)
      returns (r: ReconcileResult, read: Option<Object>)
      requires Valid() && CanStart(world, k, at)
      modifies this
      ensures Valid() && old(trace) <= trace && world.PhaseOf(k) == Idle
      ensures !r.Error? ==> read == old(world.History(k)[at])
      ensures Reported(old(world), world, k, read, r, profiles, resolve, ports)
      ensures old(Calm(schedule)) && at == old(|world.History(k)|) - 1 ==>
        && read == old(world.Current(k))
        && r == CalmResult(k, read, profiles, resolve, ports)
        && trace == old(trace) + ([Begin(k, at)] + CalmSteps(k, read, profiles, resolve, ports))
        && Achieved(old(world), world, k, read, r, profiles, resolve, ports)
    {
      CalmStepsAchieve(trace, k, profiles, resolve, ports);
      StepsInOrder(trace, [Begin(k, at)], CalmSteps(k, world.History(k)[at], profiles, resolve, ports));
      var cached := ReadCached(k, at);
      if cached.None? {
        return Error, None;
      }
      read := cached.value;
      r := ReconcileRead(k, read, profiles, resolve, ports);
    }
  }
}
