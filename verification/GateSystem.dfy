/**
 * The whole system: any number of threads going through the submission gate, the descriptor
 * lifecycle and teardown, interleaved with every other operation of the transport.
 */
module GateSystem {
  import opened GuestTypes
  import opened Wire
  import opened GuestState
  import opened RegistryOps
  import opened SubmitOps
  import opened Machine
  import opened Evolution
  import opened SubmitProofs
  import opened SubmitGate

  datatype System = System(world: World, threads: Threads)

  function SlotsOf(core: Core): Slots { map k | k in core.devices :: SlotIn(core.devices[k]) }

  function SlotIn(d: Device): Slot { Slot(d.active, d.token, Specialized(d), d.lifecycle, d.exposed) }

  /** One atomic step; every step a thread takes inside the library holds the guest mutex. */
  datatype Action =
    | Arrive(t: nat, goal: Goal)
    | Try(t: nat, before: SubmitView)
    | Finish(t: nat, ok: bool, after: AfterView)
    | Notify(t: nat)
    | Wake(t: nat)
    | Elsewhere(e: Event)

  function PhaseOf(s: System, t: nat): Phase {
    if t in s.threads then s.threads[t] else Idle
  }

  /** The device a goal names exists, and the queue of a submission is registered with it. */
  predicate Aimed(core: Core, goal: Goal) {
    && goal.device in core.devices
    && (goal.ToSubmit? ==> Owner(core.queueDevices, core.devices, goal.queue) == Some(goal.device))
  }

  /** Devices are destroyed only by the thread that prepared it; gate events only by their threads. */
  predicate Free(e: Event) {
    !(e.OfRegistry? && e.r.DropDevice?) && (e.OfGate? ==> e.g.Retire?)
  }

  /** A wait condition found false: the thread's critical section runs on. */
  function Pass(cfg: Config, s: System, t: nat, goal: Goal, view: SubmitView): System {
    match goal
    case ToSubmit(queue, _) =>
      var (w, gate, token) := BeforeSubmit(cfg, s.world, queue, view);
      System(w, s.threads[t := Submitting(token)])
    case ToReserve(k) => System(BeginLifecycle(cfg, s.world, k), s.threads[t := InLifecycle(k)])
    case ToDestroy(k) => System(BeforeDestroy(cfg, s.world, k).0, s.threads[t := Destroying(k)])
  }

  /** A step that is not the thread's to take leaves the system as it is. */
  function Act(cfg: Config, s: System, a: Action): System {
    match a
    case Arrive(t, goal) =>
      if t in s.threads && s.threads[t].Idle? && Aimed(s.world.core, goal) && MayStart(s.threads, goal)
      then s.(threads := s.threads[t := Waiting(goal, false)]) else s
    case Try(t, view) =>
      var p := PhaseOf(s, t);
      if !p.Waiting? || p.parked || p.goal.device !in s.world.core.devices then s
      else if WaitsFor(SlotIn(s.world.core.devices[p.goal.device]), p.goal)
      then s.(threads := s.threads[t := p.(parked := true)])
      else Pass(cfg, s, t, p.goal, view)
    case Finish(t, ok, view) =>
      var p := PhaseOf(s, t);
      (match p
       case Submitting(token) =>
         System(AfterSubmit(cfg, s.world, token, ok, view),
                s.threads[t := if Releases(token) then Announcing else Idle])
       case InLifecycle(k) => System(EndLifecycle(s.world, k, ok), s.threads[t := Announcing])
       case Destroying(k) =>
         System(s.world.(core := DestroyDevice(s.world.core, k)), s.threads[t := Idle])
       case _ => s)
    case Notify(t) => if PhaseOf(s, t).Announcing? then s.(threads := Notified(s.threads, t)) else s
    case Wake(t) =>
      var p := PhaseOf(s, t);
      if p.Waiting? then s.(threads := s.threads[t := p.(parked := false)]) else s
    case Elsewhere(e) => if Free(e) then s.(world := Step(cfg, s.world, e)) else s
  }

  function Steps(cfg: Config, s: System, actions: seq<Action>, n: nat): System
    requires n <= |actions|
  {
    if n == 0 then s else Act(cfg, Steps(cfg, s, actions, n - 1), actions[n - 1])
  }

  predicate AllAimed(core: Core, threads: Threads) {
    forall t <- threads :: threads[t].Waiting? ==> Aimed(core, threads[t].goal)
  }

  predicate SystemOk(s: System) {
    Good(s.world) && GateOk(SlotsOf(s.world.core), s.threads) && AllAimed(s.world.core, s.threads)
  }

  /** The event a thread waits to perform. */
  function EventOf(goal: Goal, view: SubmitView): GateEvent {
    match goal
    case ToSubmit(queue, _) => Submit(queue, view)
    case ToReserve(k) => Reserve(k)
    case ToDestroy(k) => TearDown(k)
  }

  /**
   * A wait is over in the run of critical sections exactly when it is in the protocol of threads: for
   * a reservation when no submission is active, and for the others when moreover no lifecycle is.
   */
  lemma WaitsAgree(core: Core, goal: Goal, view: SubmitView)
    requires Aimed(core, goal)
    ensures var d := core.devices[goal.device];
            && (WaitOver(core, EventOf(goal, view)) <==> !WaitsFor(SlotIn(d), goal))
            && (WaitOver(core, EventOf(goal, view)) <==> !d.active && (goal.ToReserve? || d.lifecycle == 0))
  {
  }

  // ---------------------------------------------------------------- steps elsewhere

  predicate OwnersKept(core: Core, core': Core) {
    forall q <- core.queueDevices ::
      Owner(core.queueDevices, core.devices, q).Some? ==>
        Owner(core'.queueDevices, core'.devices, q) == Owner(core.queueDevices, core.devices, q)
  }

  predicate Steady(core: Core, core': Core) {
    SteadySlots(SlotsOf(core), SlotsOf(core')) && OwnersKept(core, core')
  }

  lemma SteadyThen(a: Core, b: Core, c: Core)
    requires Steady(a, b) && Steady(b, c)
    ensures Steady(a, c)
  {
    SlotsThen(SlotsOf(a), SlotsOf(b), SlotsOf(c));
    hide SteadySlots;
  }

  lemma SlotsThen(a: Slots, b: Slots, c: Slots)
    requires SteadySlots(a, b) && SteadySlots(b, c)
    ensures SteadySlots(a, c)
  {
  }

  lemma QuietSteady(core: Core, core': Core)
    requires QuietCore(core, core') && AllHeld(core)
    ensures Steady(core, core')
  {
    hide SameStreams;
    forall k | k in core.devices ensures QuietDevice(core.devices[k], core'.devices[k]) && Held(core.devices[k]) {}
    hide Specialized;
  }

  /** A change to one device that leaves its slot alone, and may add owners but not move them. */
  lemma SlotSteady(core: Core, core': Core, k: Handle)
    requires k in core.devices && core'.devices.Keys == core.devices.Keys
    requires forall j <- core.devices :: j != k ==> core'.devices[j] == core.devices[j]
    requires SlotIn(core'.devices[k]) == SlotIn(core.devices[k])
    requires forall q <- core.queueDevices :: q in core'.queueDevices && core'.queueDevices[q] == core.queueDevices[q]
    ensures Steady(core, core')
  {
  }

  lemma NewSteady(core: Core, k: Handle, e: Device)
    requires k !in core.devices && !e.active && e.lifecycle == 0
    ensures Steady(core, SetDevice(core, k, e))
  {
  }

  lemma AddDeviceSteady(cfg: Config, w: World, k: Handle, fd: int, page: bool, refused: bool)
    ensures Steady(w.core, RegisterDevice(cfg, w, k, fd, page, refused).core)
  {
    hide Steady, Negotiate, Open, KeepsOrder, Held;
    SameSteady(w.core);
    if k in w.core.devices {
      FailSteady(w.core, k);
    } else {
      var d := FreshDevice(fd, page);
      NewSteady(w.core, k, d);
      FreshNegotiated(cfg, w, k, fd, refused);
      var e := Negotiate(cfg, WithDevice(w, k, d), k, refused).0.core.devices[k];
      if page { NewSteady(w.core, k, e); }
    }
  }

  lemma FreshNegotiated(cfg: Config, w: World, k: Handle, fd: int, refused: bool)
    ensures var w' := Negotiate(cfg, WithDevice(w, k, FreshDevice(fd, true)), k, refused).0;
            var e := w'.core.devices[k];
            w'.core == SetDevice(w.core, k, e) && !e.active && e.lifecycle == 0
  {
    hide Negotiate, KeepsOrder;
    var d := FreshDevice(fd, true);
    NegotiateOpen(cfg, WithDevice(w, k, d), k, refused);
    SetTwice(w.core, k, d, Negotiate(cfg, WithDevice(w, k, d), k, refused).0.core.devices[k]);
  }

  lemma SameSteady(core: Core)
    ensures Steady(core, core)
  {
  }

  /** Draining an early route on the way is steady. */
  lemma NotedSteady(cfg: Config, w: World, k: Handle)
    requires Good(w) && k in w.core.devices
    ensures Steady(w.core, DrainEarly(cfg, w, k).0.core)
    ensures DrainEarly(cfg, w, k).0.core.queueDevices == w.core.queueDevices
  {
    hide DrainEarly, QuietCore, Coherent, IoOk, AllHeld, Steady;
    DrainEarlyQuiet(cfg, w, k);
    QuietSteady(w.core, DrainEarly(cfg, w, k).0.core);
    DrainEarlyOpen(cfg, w, k);
  }

  lemma AddQueueSteady(cfg: Config, w: World, k: Handle, queue: Handle)
    requires Good(w)
    ensures Steady(w.core, RegisterQueue(cfg, w, k, queue).core)
  {
    hide DrainEarly, Good, Steady;
    SameSteady(w.core);
    if k in w.core.devices {
      NotedSteady(cfg, w, k);
      var w' := if w.core.devices[k].queues != {queue} then DrainEarly(cfg, w, k).0 else w;
      var core, d := w'.core, w'.core.devices[k];
      FailSteady(core, k);
      SteadyThen(w.core, core, FailDevice(core, k));
      if queue in core.queueDevices ==> core.queueDevices[queue] == k {
        QueuedSteady(core, k, queue);
        SteadyThen(w.core, core, SetDevice(core, k, d.(queues := d.queues + {queue}))
                                 .(queueDevices := core.queueDevices[queue := k]));
      }
    }
  }

  lemma FailSteady(core: Core, k: Handle)
    requires k in core.devices
    ensures Steady(core, FailDevice(core, k))
  {
    hide Steady;
    SlotSteady(core, FailDevice(core, k), k);
  }

  lemma QueuedSteady(core: Core, k: Handle, queue: Handle)
    requires k in core.devices && (queue in core.queueDevices ==> core.queueDevices[queue] == k)
    ensures var d := core.devices[k];
            Steady(core, SetDevice(core, k, d.(queues := d.queues + {queue}))
                         .(queueDevices := core.queueDevices[queue := k]))
  {
    hide Steady;
    var d := core.devices[k];
    SlotSteady(core, SetDevice(core, k, d.(queues := d.queues + {queue}))
                     .(queueDevices := core.queueDevices[queue := k]), k);
  }

  lemma AddCommandsSteady(core: Core, k: Handle, pool: Handle, batch: seq<Handle>)
    ensures Steady(core, RegisterCommands(core, k, pool, batch))
  {
    hide Steady, BadHandle;
    SameSteady(core);
    if k in core.devices { SlotSteady(core, RegisterCommands(core, k, pool, batch), k); }
  }

  lemma DropSteady(cfg: Config, w: World, k: Handle, pool: Handle, batch: seq<Handle>)
    requires Good(w)
    ensures Steady(w.core, FreeCommands(cfg, w, k, pool, batch).core)
    ensures Steady(w.core, DestroyPool(cfg, w, k, pool).core)
  {
    hide Steady, Good, DrainEarly, Flush, Repeats, Freeable;
    SameSteady(w.core);
    if k in w.core.devices {
      var flushed := w.(io := Flush(cfg.net, w.io).0);
      FlushQuiet(cfg, w);
      QuietGood(w, flushed);
      NotedSteady(cfg, flushed, k);
      var noted := DrainEarly(cfg, flushed, k).0;
      SlotSteady(noted.core, FreeCommands(cfg, w, k, pool, batch).core, k);
      SteadyThen(w.core, noted.core, FreeCommands(cfg, w, k, pool, batch).core);
      SlotSteady(noted.core, DestroyPool(cfg, w, k, pool).core, k);
      SteadyThen(w.core, noted.core, DestroyPool(cfg, w, k, pool).core);
    }
  }

  lemma RenewSteady(cfg: Config, w: World, k: Handle, pool: Handle, c: Handle, recording: bool)
    requires Good(w)
    ensures Steady(w.core, ResetPool(cfg, w, k, pool).core)
    ensures Steady(w.core, RenewCommand(cfg, w, c, recording).core)
  {
    hide Steady, Good, DrainEarly, Cleared, ClearedStreams, Renewed, RenewedStream;
    SameSteady(w.core);
    if k in w.core.devices {
      NotedSteady(cfg, w, k);
      SlotSteady(DrainEarly(cfg, w, k).0.core, ResetPool(cfg, w, k, pool).core, k);
      SteadyThen(w.core, DrainEarly(cfg, w, k).0.core, ResetPool(cfg, w, k, pool).core);
    }
    if OwnerOf(w.core, c).Some? {
      var j := OwnerOf(w.core, c).value;
      NotedSteady(cfg, w, j);
      var noted := DrainEarly(cfg, w, j).0;
      SameSteady(noted.core);
      SlotSteady(noted.core, RenewCommand(cfg, w, c, recording).core, j);
      SteadyThen(w.core, noted.core, RenewCommand(cfg, w, c, recording).core);
    }
  }

  lemma EndSteady(cfg: Config, w: World, c: Handle, route: RouteView)
    requires Good(w)
    ensures Steady(w.core, EndCommand(cfg, w, c, route).core)
  {
    hide Steady, AdvanceRoute, Coherent, IoOk, AllHeld, QuietCore, Held;
    SameSteady(w.core);
    if OwnerOf(w.core, c).Some? {
      var k := OwnerOf(w.core, c).value;
      var d := w.core.devices[k];
      FailSteady(w.core, k);
      if c in d.commands && d.commands[c].recording {
        var ended := WithDevice(w, k, d.(commands := d.commands[c := Ended(d.commands[c])]));
        SlotSteady(w.core, ended.core, k);
        EndedAllHeld(w.core, k, c);
        AdvanceQuiet(cfg, ended, k, c, route);
        var (w', ok) := AdvanceRoute(cfg, ended, k, c, route);
        QuietSteady(ended.core, w'.core);
        SteadyThen(w.core, ended.core, w'.core);
        FailSteady(w'.core, k);
        SteadyThen(w.core, w'.core, FailDevice(w'.core, k));
      }
    }
  }

  lemma EndedAllHeld(core: Core, k: Handle, c: Handle)
    requires AllHeld(core) && k in core.devices && c in core.devices[k].commands
    ensures var d := core.devices[k]; AllHeld(SetDevice(core, k, d.(commands := d.commands[c := Ended(d.commands[c])])))
  {
  }

  lemma RegistrySteady(cfg: Config, w: World, e: RegistryEvent)
    requires Good(w) && !e.DropDevice?
    ensures Steady(w.core, PerformRegistry(cfg, w, e).core)
  {
    hide Good, Steady, RegisterDevice, RegisterQueue, FreeCommands, DestroyPool, ResetPool, RenewCommand, EndCommand,
         RegisterCommands;
    match e
    case AddDevice(k, fd, page, refused) => AddDeviceSteady(cfg, w, k, fd, page, refused);
    case AddQueue(k, queue) => AddQueueSteady(cfg, w, k, queue);
    case AddCommands(k, pool, batch) => AddCommandsSteady(w.core, k, pool, batch);
    case DropCommands(k, pool, batch) => DropSteady(cfg, w, k, pool, batch);
    case DropPool(k, pool) => DropSteady(cfg, w, k, pool, []);
    case ClearPool(k, pool) => RenewSteady(cfg, w, k, pool, 0, false);
    case Renew(c, recording) => RenewSteady(cfg, w, 0, 0, c, recording);
    case End(c, route) => EndSteady(cfg, w, c, route);
  }

  /** No operation outside the gate touches a slot or moves a queue to another device. */
  lemma ElsewhereSteady(cfg: Config, w: World, e: Event)
    requires Good(w) && Free(e)
    ensures Steady(w.core, Step(cfg, w, e).core)
  {
    hide Coherent, AllHeld, IoOk, Steady, PerformCall, PerformRegistry, PrepareRetirement, QuietCore;
    match e
    case OfCall(c) =>
      CallQuiet(cfg, w, c);
      QuietSteady(w.core, PerformCall(cfg, w, c).core);
    case OfRegistry(r) => RegistrySteady(cfg, w, r);
    case OfGate(g) =>
      RetireQuiet(cfg, w, g.device, g.live);
      QuietSteady(w.core, PrepareRetirement(cfg, w, g.device, g.live).0.core);
  }

  // ------------------------------------------------------------------ gate actions

  lemma LocalSlots(w: World, w': World, k: Handle)
    requires Local(w, w', k)
    ensures k in w.core.devices && k in w'.core.devices
    ensures SlotsOf(w'.core) == SlotsOf(w.core)[k := SlotIn(w'.core.devices[k])]
    ensures w'.core.queueDevices == w.core.queueDevices && w'.core.devices.Keys == w.core.devices.Keys
    ensures w'.core.devices[k].lifecycle == w.core.devices[k].lifecycle
  {
    hide KeepsOrder, TameDevice;
  }

  lemma AimedKept(core: Core, core': Core, threads: Threads)
    requires AllAimed(core, threads)
    requires core'.queueDevices == core.queueDevices && core'.devices.Keys == core.devices.Keys
    ensures AllAimed(core', threads)
  {
    forall t | t in threads && threads[t].Waiting? ensures Aimed(core', threads[t].goal) {
      assert Aimed(core, threads[t].goal);
    }
  }

  lemma AimedMoved(core: Core, threads: Threads, t: nat, p: Phase)
    requires AllAimed(core, threads) && (p.Waiting? ==> Aimed(core, p.goal))
    ensures AllAimed(core, threads[t := p])
  {
    hide Aimed;
  }

  lemma PassSubmit(cfg: Config, s: System, t: nat, view: SubmitView)
    requires SystemOk(s) && t in s.threads && s.threads[t].Waiting? && s.threads[t].goal.ToSubmit?
    requires var goal := s.threads[t].goal;
             goal.device in s.world.core.devices && !WaitsFor(SlotIn(s.world.core.devices[goal.device]), goal)
    ensures SystemOk(Pass(cfg, s, t, s.threads[t].goal, view))
  {
    hide Good, GateOk, Local, BeforeSubmit, Specialized;
    var w, k, queue := s.world, s.threads[t].goal.device, s.threads[t].goal.queue;
    assert Aimed(w.core, s.threads[t].goal);
    HeldAt(w, k);
    BeforeSubmitReserves(cfg, w, queue, view, k);
    SubmitGood(cfg, w, queue, view);
    var (w', gate, token) := BeforeSubmit(cfg, w, queue, view);
    LocalSlots(w, w', k);
    TokenMode(gate, token, w'.core.devices[k]);
    AcquireOk(SlotsOf(w.core), s.threads, t, token, SlotIn(w'.core.devices[k]));
    AimedKept(w.core, w'.core, s.threads);
    AimedMoved(w'.core, s.threads, t, Submitting(token));
  }

  /** A token of a kind is given out only on a device in that mode. */
  lemma TokenMode(gate: Gate, token: Token, d: Device)
    requires GateFits(gate, token, d)
    ensures Releases(token) ==> Specialized(d) == token.specialized
    ensures !(token.specialized && token.fallback)
  {
  }

  lemma PassReserve(cfg: Config, s: System, t: nat, view: SubmitView)
    requires SystemOk(s) && t in s.threads && s.threads[t].Waiting? && s.threads[t].goal.ToReserve?
    requires var goal := s.threads[t].goal;
             goal.device in s.world.core.devices && !WaitsFor(SlotIn(s.world.core.devices[goal.device]), goal)
    ensures SystemOk(Pass(cfg, s, t, s.threads[t].goal, view))
  {
    hide Good, GateOk, DrainEarly, Local, Held;
    var w, k := s.world, s.threads[t].goal.device;
    HeldAt(w, k);
    ReserveGood(cfg, w, k);
    DrainEarlyOpen(cfg, w, k);
    var w' := DrainEarly(cfg, w, k).0;
    LocalSlots(w, w', k);
    var e := w'.core.devices[k].(lifecycle := w'.core.devices[k].lifecycle + 1);
    SetSlots(w'.core, k, e);
    assert SlotsOf(w.core)[k := SlotIn(w'.core.devices[k])][k := SlotIn(e)] == SlotsOf(w.core)[k := SlotIn(e)];
    ReserveOk(SlotsOf(w.core), s.threads, t, SlotIn(e));
    AimedKept(w.core, SetDevice(w'.core, k, e), s.threads);
    AimedMoved(SetDevice(w'.core, k, e), s.threads, t, InLifecycle(k));
  }

  lemma SetSlots(core: Core, k: Handle, e: Device)
    requires k in core.devices
    ensures SlotsOf(SetDevice(core, k, e)) == SlotsOf(core)[k := SlotIn(e)]
    ensures SetDevice(core, k, e).devices.Keys == core.devices.Keys
  {
  }

  /** A teardown leaves the slot as free as it found it. */
  lemma TornSlots(cfg: Config, w: World, k: Handle)
    requires Good(w) && k in w.core.devices && !SubmitWaits(w.core.devices[k])
    ensures var core' := BeforeDestroy(cfg, w, k).0.core;
            && k in core'.devices && !SubmitWaits(core'.devices[k])
            && SlotsOf(core') == SlotsOf(w.core)[k := SlotIn(core'.devices[k])]
            && core'.queueDevices == w.core.queueDevices && core'.devices.Keys == w.core.devices.Keys
  {
    hide Good, DrainEarly, Local, Held, Flush, SendFlime, SlotsOf;
    HeldAt(w, k);
    DrainEarlyOpen(cfg, w, k);
    var w' := DrainEarly(cfg, w, k).0;
    LocalSlots(w, w', k);
    var d := w'.core.devices[k];
    TornSlot(w.core, w'.core, k, TornDown(d));
    TornSlot(w.core, w'.core, k, d.(failed := true));
  }

  lemma TornSlot(core: Core, core': Core, k: Handle, e: Device)
    requires k in core'.devices && SlotsOf(core') == SlotsOf(core)[k := SlotIn(core'.devices[k])]
    ensures SlotsOf(SetDevice(core', k, e)) == SlotsOf(core)[k := SlotIn(e)]
    ensures SetDevice(core', k, e).devices.Keys == core'.devices.Keys
  {
    SetSlots(core', k, e);
  }

  lemma PassDestroy(cfg: Config, s: System, t: nat, view: SubmitView)
    requires SystemOk(s) && t in s.threads && s.threads[t].Waiting? && s.threads[t].goal.ToDestroy?
    requires var goal := s.threads[t].goal;
             goal.device in s.world.core.devices && !WaitsFor(SlotIn(s.world.core.devices[goal.device]), goal)
    ensures SystemOk(Pass(cfg, s, t, s.threads[t].goal, view))
  {
    hide Good, GateOk, BeforeDestroy;
    var w, k := s.world, s.threads[t].goal.device;
    TornSlots(cfg, w, k);
    TeardownGood(cfg, w, k);
    var w' := BeforeDestroy(cfg, w, k).0;
    TearOk(SlotsOf(w.core), s.threads, t, SlotIn(w'.core.devices[k]));
    AimedKept(w.core, w'.core, s.threads);
    AimedMoved(w'.core, s.threads, t, Destroying(k));
  }

  lemma FinishSubmit(cfg: Config, s: System, t: nat, ok: bool, view: AfterView)
    requires SystemOk(s) && t in s.threads && s.threads[t].Submitting?
    ensures SystemOk(Act(cfg, s, Finish(t, ok, view)))
  {
    hide Good, GateOk, AfterSubmit, Local, Held;
    var w, token := s.world, s.threads[t].token;
    if Releases(token) {
      HolderHolds(s, t);
      AfterSubmitFrees(cfg, w, token, ok, view);
      CompleteGood(cfg, w, token, ok, view);
      var w', k := AfterSubmit(cfg, w, token, ok, view), token.device;
      LocalSlots(w, w', k);
      ReleaseOk(SlotsOf(w.core), s.threads, t, SlotIn(w'.core.devices[k]));
      AimedKept(w.core, w'.core, s.threads);
      AimedMoved(w'.core, s.threads, t, Announcing);
    } else {
      Inert(cfg, w, token, ok, view);
      LeaveOk(SlotsOf(w.core), s.threads, t);
      AimedMoved(w.core, s.threads, t, Idle);
    }
  }

  lemma Inert(cfg: Config, w: World, token: Token, ok: bool, view: AfterView)
    requires !Releases(token)
    ensures AfterSubmit(cfg, w, token, ok, view) == w
  {
  }

  /** Every outstanding releasing token is the one its device is reserved under. */
  lemma HolderHolds(s: System, t: nat)
    requires SystemOk(s) && t in s.threads && s.threads[t].Submitting? && Releases(s.threads[t].token)
    ensures var token := s.threads[t].token;
            && token.device in s.world.core.devices
            && Holds(token, s.world.core.devices[token.device])
            && Specialized(s.world.core.devices[token.device]) == token.specialized
  {
    hide Good;
    assert ThreadOk(SlotsOf(s.world.core), s.threads[t]);
    HeldAt(s.world, s.threads[t].token.device);
  }

  lemma FinishLifecycle(cfg: Config, s: System, t: nat, ok: bool, view: AfterView)
    requires SystemOk(s) && t in s.threads && s.threads[t].InLifecycle?
    ensures SystemOk(Act(cfg, s, Finish(t, ok, view)))
  {
    hide Good, GateOk;
    var w, k := s.world, s.threads[t].device;
    ReserverReserves(s, t);
    ReleaseGood(w, k, ok);
    var d := w.core.devices[k];
    var e := d.(failed := d.failed || !ok, lifecycle := d.lifecycle - 1);
    SetSlots(w.core, k, e);
    UnreserveOk(SlotsOf(w.core), s.threads, t, SlotIn(e));
    AimedKept(w.core, SetDevice(w.core, k, e), s.threads);
    AimedMoved(SetDevice(w.core, k, e), s.threads, t, Announcing);
  }

  lemma ReserverReserves(s: System, t: nat)
    requires SystemOk(s) && t in s.threads && s.threads[t].InLifecycle?
    ensures var k := s.threads[t].device;
            && k in s.world.core.devices
            && s.world.core.devices[k].lifecycle > 0 && !s.world.core.devices[k].active
  {
    hide Good;
    assert ThreadOk(SlotsOf(s.world.core), s.threads[t]);
    ReservedSlot(SlotsOf(s.world.core), s.threads, t);
  }

  lemma FinishDestroy(cfg: Config, s: System, t: nat, ok: bool, view: AfterView)
    requires SystemOk(s) && t in s.threads && s.threads[t].Destroying?
    ensures SystemOk(Act(cfg, s, Finish(t, ok, view)))
  {
    hide Good, GateOk;
    var w, k := s.world, s.threads[t].device;
    GateParts(s);
    DropDeviceGood(w, k);
    var core' := DestroyDevice(w.core, k);
    assert SlotsOf(core') == SlotsOf(w.core) - {k};
    DestroyOk(SlotsOf(w.core), s.threads, t);
    AimedElsewhere(w.core, s.threads, t);
    AimedMoved(core', s.threads[t := Idle], t, Idle);
  }

  lemma GateParts(s: System)
    requires SystemOk(s)
    ensures Destroyed(s.threads)
    ensures forall t <- s.threads :: NamesDevice(s.threads[t]) ==> s.threads[t].device in s.world.core.devices
  {
    hide Good;
    forall t | t in s.threads && NamesDevice(s.threads[t]) ensures s.threads[t].device in s.world.core.devices {
      assert ThreadOk(SlotsOf(s.world.core), s.threads[t]);
    }
  }

  predicate NamesDevice(p: Phase) { p.Destroying? || p.InLifecycle? }

  lemma AimedElsewhere(core: Core, threads: Threads, t: nat)
    requires AllAimed(core, threads) && Destroyed(threads) && t in threads && threads[t].Destroying?
    ensures AllAimed(DestroyDevice(core, threads[t].device), threads[t := Idle])
  {
    forall u | u in threads && u != t && threads[u].Waiting?
      ensures Aimed(DestroyDevice(core, threads[t].device), threads[u].goal)
    {
      assert Aimed(core, threads[u].goal) && !Uses(threads[u], threads[t].device);
    }
  }

  lemma SteadyAimed(core: Core, core': Core, threads: Threads)
    requires AllAimed(core, threads) && Steady(core, core')
    ensures AllAimed(core', threads)
  {
    forall t | t in threads && threads[t].Waiting? ensures Aimed(core', threads[t].goal) {
      assert Aimed(core, threads[t].goal);
      assert threads[t].goal.device in SlotsOf(core);
    }
  }

  lemma ActElsewhere(cfg: Config, s: System, e: Event)
    requires SystemOk(s)
    ensures SystemOk(Act(cfg, s, Elsewhere(e)))
  {
    hide Good, GateOk, Step, Free;
    if Free(e) {
      StepGood(cfg, s.world, e);
      ElsewhereSteady(cfg, s.world, e);
      SteadyOk(SlotsOf(s.world.core), SlotsOf(Step(cfg, s.world, e).core), s.threads);
      SteadyAimed(s.world.core, Step(cfg, s.world, e).core, s.threads);
    }
  }

  lemma ActTry(cfg: Config, s: System, t: nat, view: SubmitView)
    requires SystemOk(s)
    ensures SystemOk(Act(cfg, s, Try(t, view)))
  {
    hide Good, GateOk, Pass;
    var p := PhaseOf(s, t);
    if p.Waiting? && !p.parked && p.goal.device in s.world.core.devices {
      if WaitsFor(SlotIn(s.world.core.devices[p.goal.device]), p.goal) {
        ParkOk(SlotsOf(s.world.core), s.threads, t);
        AimedMoved(s.world.core, s.threads, t, p.(parked := true));
      } else {
        match p.goal
        case ToSubmit(_, _) => PassSubmit(cfg, s, t, view);
        case ToReserve(_) => PassReserve(cfg, s, t, view);
        case ToDestroy(_) => PassDestroy(cfg, s, t, view);
      }
    }
  }

  lemma ActThread(cfg: Config, s: System, a: Action)
    requires SystemOk(s) && (a.Arrive? || a.Notify? || a.Wake?)
    ensures SystemOk(Act(cfg, s, a))
  {
    hide Good, GateOk, MayStart, Aimed;
    var slots, core := SlotsOf(s.world.core), s.world.core;
    match a
    case Arrive(t, goal) =>
      if t in s.threads && s.threads[t].Idle? && Aimed(core, goal) && MayStart(s.threads, goal) {
        AimedDevice(core, goal);
        StartOk(slots, s.threads, t, goal);
        AimedMoved(core, s.threads, t, Waiting(goal, false));
      }
    case Notify(t) =>
      if PhaseOf(s, t).Announcing? { NotifyOk(slots, s.threads, t); }
    case Wake(t) =>
      if PhaseOf(s, t).Waiting? {
        WakeOk(slots, s.threads, t);
        AimedMoved(core, s.threads, t, PhaseOf(s, t).(parked := false));
      }
  }

  lemma AimedDevice(core: Core, goal: Goal)
    requires Aimed(core, goal)
    ensures goal.device in SlotsOf(core)
  {
  }

  lemma ActOk(cfg: Config, s: System, a: Action)
    requires SystemOk(s)
    ensures SystemOk(Act(cfg, s, a))
  {
    if a.Try? {
      ActTry(cfg, s, a.t, a.before);
    } else if a.Elsewhere? {
      ActElsewhere(cfg, s, a.e);
    } else if a.Finish? {
      ActFinish(cfg, s, a.t, a.ok, a.after);
    } else {
      ActThread(cfg, s, a);
    }
    hide SystemOk, Act;
  }

  lemma ActFinish(cfg: Config, s: System, t: nat, ok: bool, view: AfterView)
    requires SystemOk(s)
    ensures SystemOk(Act(cfg, s, Finish(t, ok, view)))
  {
    hide SystemOk, AfterSubmit, EndLifecycle, DestroyDevice;
    if t in s.threads {
      match s.threads[t]
      case Submitting(_) => FinishSubmit(cfg, s, t, ok, view);
      case InLifecycle(_) => FinishLifecycle(cfg, s, t, ok, view);
      case Destroying(_) => FinishDestroy(cfg, s, t, ok, view);
      case _ =>
    }
  }

  /**
   * In every reachable state, for any threads and devices: at most one submission holds a device,
   * and exactly while the device is active under its token's number; submissions and descriptor
   * lifecycles exclude each other; nobody uses a device once its teardown went ahead; and a parked
   * thread whose condition is false has a notification coming.
   */
  lemma {:induction false} StepsOk(cfg: Config, s: System, actions: seq<Action>, n: nat)
    requires n <= |actions| && SystemOk(s)
    ensures SystemOk(Steps(cfg, s, actions, n))
  {
    hide SystemOk, Act;
    if n > 0 {
      StepsOk(cfg, s, actions, n - 1);
      ActOk(cfg, Steps(cfg, s, actions, n - 1), actions[n - 1]);
    }
  }

  function Initial(ids: set<nat>): System { System(INITIAL_WORLD, map t | t in ids :: Idle) }

  lemma InitialSystemOk(ids: set<nat>)
    ensures SystemOk(Initial(ids))
  {
    InitialGood();
  }

  /** What the gate guarantees two threads t and u in any reachable state of any system. */
  predicate Guaranteed(s: System, t: nat, u: nat)
    requires t in s.threads && u in s.threads
  {
    var p, q, devices := s.threads[t], s.threads[u], s.world.core.devices;
    && (p.Submitting? && Releases(p.token) ==>
          && p.token.device in devices && Holds(p.token, devices[p.token.device])
          && Specialized(devices[p.token.device]) == p.token.specialized
          && !(p.token.specialized && p.token.fallback)
          && (HoldsDevice(q, p.token.device) ==> t == u)
          && q != InLifecycle(p.token.device))
    && (p.Destroying? && t != u ==> !Uses(q, p.device))
    && (p.Waiting? && p.parked ==>
          p.goal.device in devices &&
          (WaitsFor(SlotIn(devices[p.goal.device]), p.goal) || Announced(s.threads)))
  }

  /** A submission holds its device alone and in its token's mode; nothing is lost or left behind. */
  lemma GateGuarantees(cfg: Config, ids: set<nat>, actions: seq<Action>, n: nat, t: nat, u: nat)
    requires n <= |actions|
    requires t in Steps(cfg, Initial(ids), actions, n).threads && u in Steps(cfg, Initial(ids), actions, n).threads
    ensures Guaranteed(Steps(cfg, Initial(ids), actions, n), t, u)
  {
    hide SystemOk, Steps, Initial, Guaranteed;
    InitialSystemOk(ids);
    StepsOk(cfg, Initial(ids), actions, n);
    SafeGuaranteed(Steps(cfg, Initial(ids), actions, n), t, u);
  }

  lemma SafeGuaranteed(s: System, t: nat, u: nat)
    requires SystemOk(s) && t in s.threads && u in s.threads
    ensures Guaranteed(s, t, u)
  {
    hide Good;
    var slots, p, q := SlotsOf(s.world.core), s.threads[t], s.threads[u];
    assert ThreadOk(slots, p) && ThreadOk(slots, q);
    if p.Submitting? && Releases(p.token) {
      HolderHolds(s, t);
      if q == InLifecycle(p.token.device) { ReserverReserves(s, u); }
    }
    if p.Waiting? && p.parked { assert Asleep(slots, p) ==> Announced(s.threads); }
  }

  /**
   * A teardown packet goes out only over an empty cluster, with everything before it already run by
   * the host and no early route outstanding; an acknowledged teardown leaves nothing to tear down.
   */
  lemma TeardownClean(cfg: Config, w: World, k: Handle)
    requires Good(w) && k in w.core.devices && !SubmitWaits(w.core.devices[k])
    ensures var (drained, gone) := DrainEarly(cfg, w, k);
            var (io, flushed) := Flush(cfg.net, drained.io);
            var (w', ok) := BeforeDestroy(cfg, w, k);
            && (w'.io.log != io.log ==>
                  && gone && flushed && drained.core.devices[k].exposed
                  && !drained.core.devices[k].early
                  && HostRanOnce(io.wire) == io.log
                  && w'.io.log == io.log + [Controlled(drained.core.devices[k].fd, k, Teardown)])
            && (ok ==> !w'.core.devices[k].exposed && !w'.core.devices[k].negotiated && w'.core.devices[k].tornDown)
  {
    hide Coherent, IoOk, Flush, FallbackOrFail;
    DrainedEarly(cfg, w, k);
    var (drained, gone) := DrainEarly(cfg, w, k);
    DrainEarlyQuiet(cfg, w, k);
    FlushKeeps(cfg.net, drained.io);
    if Flush(cfg.net, drained.io).1 { AllSeen(Flush(cfg.net, drained.io).0); }
  }
}
