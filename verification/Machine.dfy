/**
 * The transport as a state machine: every event is one critical section under the guest mutex, and
 * a run is any sequence of them, by any threads, over any devices and any network.
 */
module Machine {
  import opened GuestTypes
  import opened ClusterCodec
  import ClusterProofs
  import opened Wire
  import opened GuestState
  import opened CommandOps
  import opened RegistryOps
  import opened SubmitOps
  import opened Evolution
  import opened RegistryProofs
  import opened SubmitProofs

  /** Ordinary writes, command writes, drains, and the hooks that record commands. */
  datatype CallEvent =
    | WriteCall(tid: Tid, fd: int, call: Call, sync: bool, route: RouteView, order: seq<Handle>)
    | WriteRecorded(fd: int, call: Call, sync: bool, command: Handle)
    | FlushTransport
    | HookRecord(tid: Tid, command: Handle, semantic: Semantic, complete: bool)
    | HookDispatch(tid: Tid, command: Handle, semantic: Semantic, boundary: bool)
    | HookBadBind(tid: Tid, command: Handle, funId: nat)

  /** Devices, queues and command buffers coming, changing and going. */
  datatype RegistryEvent =
    | AddDevice(device: Handle, fd: int, page: bool, refused: bool)
    | DropDevice(device: Handle)
    | AddQueue(device: Handle, queue: Handle)
    | AddCommands(device: Handle, pool: Handle, batch: seq<Handle>)
    | DropCommands(device: Handle, pool: Handle, batch: seq<Handle>)
    | DropPool(device: Handle, pool: Handle)
    | ClearPool(device: Handle, pool: Handle)
    | Renew(command: Handle, recording: bool)
    | End(command: Handle, route: RouteView)

  /** Submissions, descriptor-lifecycle reservations and teardown. */
  datatype GateEvent =
    | Submit(queue: Handle, before: SubmitView)
    | Complete(token: Token, ok: bool, after: AfterView)
    | Reserve(device: Handle)
    | Release(device: Handle, ok: bool)
    | Retire(device: Handle, live: bool)
    | TearDown(device: Handle)

  datatype Event = OfCall(c: CallEvent) | OfRegistry(r: RegistryEvent) | OfGate(g: GateEvent)

  /** Whether the wait that precedes an event's critical section is over. */
  predicate WaitOver(core: Core, e: GateEvent) {
    match e
    case Submit(queue, _) =>
      var owner := Owner(core.queueDevices, core.devices, queue);
      owner.Some? ==> !SubmitWaits(core.devices[owner.value])
    case Reserve(k) => k in core.devices ==> !LifecycleWaits(core.devices[k])
    case TearDown(k) => k in core.devices ==> !SubmitWaits(core.devices[k])
    case _ => true
  }

  function PerformCall(cfg: Config, w: World, e: CallEvent): World {
    match e
    case WriteCall(tid, fd, call, sync, route, order) => Write(cfg, w, tid, fd, call, sync, route, order).0
    case WriteRecorded(fd, call, sync, command) => WriteCommand(cfg, w, fd, call, sync, command).0
    case FlushTransport => w.(io := Flush(cfg.net, w.io).0)
    case HookRecord(tid, command, semantic, complete) =>
      RecordHook(cfg, w, tid, command, semantic, complete).0
    case HookDispatch(tid, command, semantic, boundary) =>
      DispatchHook(cfg, w, tid, command, semantic, boundary)
    case HookBadBind(tid, command, funId) => BadBindHook(w, tid, command, funId)
  }

  function PerformRegistry(cfg: Config, w: World, e: RegistryEvent): World {
    match e
    case AddDevice(k, fd, page, refused) => RegisterDevice(cfg, w, k, fd, page, refused)
    case DropDevice(k) => w.(core := DestroyDevice(w.core, k))
    case AddQueue(k, queue) => RegisterQueue(cfg, w, k, queue)
    case AddCommands(k, pool, batch) => w.(core := RegisterCommands(w.core, k, pool, batch))
    case DropCommands(k, pool, batch) => FreeCommands(cfg, w, k, pool, batch)
    case DropPool(k, pool) => DestroyPool(cfg, w, k, pool)
    case ClearPool(k, pool) => ResetPool(cfg, w, k, pool)
    case Renew(command, recording) => RenewCommand(cfg, w, command, recording)
    case End(command, route) => EndCommand(cfg, w, command, route)
  }

  function PerformGate(cfg: Config, w: World, e: GateEvent): World {
    match e
    case Submit(queue, view) => BeforeSubmit(cfg, w, queue, view).0
    case Complete(token, ok, view) => AfterSubmit(cfg, w, token, ok, view)
    case Reserve(k) => BeginLifecycle(cfg, w, k)
    case Release(k, ok) => EndLifecycle(w, k, ok)
    case Retire(k, live) => PrepareRetirement(cfg, w, k, live).0
    case TearDown(k) => BeforeDestroy(cfg, w, k).0
  }

  /** An event whose wait is not over leaves the world as it is: its thread goes on waiting. */
  function Step(cfg: Config, w: World, e: Event): World {
    match e
    case OfCall(c) => PerformCall(cfg, w, c)
    case OfRegistry(r) => PerformRegistry(cfg, w, r)
    case OfGate(g) => if WaitOver(w.core, g) then PerformGate(cfg, w, g) else w
  }

  /** The world after the first n events. */
  function Run(cfg: Config, w: World, events: seq<Event>, n: nat): World
    requires n <= |events|
  {
    if n == 0 then w else Step(cfg, Run(cfg, w, events, n - 1), events[n - 1])
  }

  // ---------------------------------------------------------------- safety of a run

  predicate Good(w: World) { Coherent(w.core) && AllHeld(w.core) && IoOk(w.io) }

  lemma InitialGood()
    ensures Good(INITIAL_WORLD)
  {
    InitialOk();
  }

  lemma QuietGood(w: World, w': World)
    requires Good(w) && Quiet(w, w')
    ensures Good(w')
  {
    hide Coherent, AllHeld, IoOk;
    TameCoherent(w.core, w'.core);
    QuietHeld(w.core, w'.core);
  }

  lemma SetGood(w: World, k: Handle, e: Device, io: Io)
    requires Good(w) && k in w.core.devices && (IoOk(w.io) ==> IoOk(io))
    requires TameDevice(w.core.devices[k], e) && Held(e)
    ensures Good(World(SetDevice(w.core, k, e), io))
  {
    hide Coherent, IoOk;
    assert TameCore(w.core, SetDevice(w.core, k, e));
    TameCoherent(w.core, SetDevice(w.core, k, e));
  }

  lemma LocalGood(w: World, w': World, k: Handle)
    requires Good(w) && Local(w, w', k) && Held(w'.core.devices[k])
    ensures Good(w')
  {
    SetGood(w, k, w'.core.devices[k], w'.io);
  }

  lemma HeldAt(w: World, k: Handle)
    requires Good(w) && k in w.core.devices
    ensures Held(w.core.devices[k])
  {
    hide Coherent, IoOk;
  }

  lemma DispatchQuiet(cfg: Config, w: World, tid: Tid, command: Handle, call: Semantic, boundary: bool)
    ensures Quiet(w, DispatchHook(cfg, w, tid, command, call, boundary))
  {
    hide QuietCore, RecordHook, IoOk;
    RecordHookQuiet(cfg, w, tid, command, call, true);
    var (w', recorded) := RecordHook(cfg, w, tid, command, call, true);
    var m := MarkOf(w'.core, tid).(flushAfter := true, routeAfter := command);
    MarkQuiet(w'.core, tid, m);
    Then(w, w', w'.(core := SetMark(w'.core, tid, m)));
  }

  lemma RetireQuiet(cfg: Config, w: World, k: Handle, live: bool)
    ensures Quiet(w, PrepareRetirement(cfg, w, k, live).0)
  {
    hide QuietCore, FallbackOrFail, IoOk;
    Still(w.core);
    if k in w.core.devices { FallbackOrFailQuiet(cfg, w, k); }
  }

  lemma FlushQuiet(cfg: Config, w: World)
    ensures Quiet(w, w.(io := Flush(cfg.net, w.io).0))
  {
    hide QuietCore, Flush, IoOk;
    Still(w.core);
    FlushOrder(cfg, w.io);
  }

  lemma AddDeviceGood(cfg: Config, w: World, k: Handle, fd: int, page: bool, refused: bool)
    requires Good(w)
    ensures Good(RegisterDevice(cfg, w, k, fd, page, refused))
  {
    hide Coherent, IoOk, Negotiate;
    if fd >= 0 && k != 0 {
      if k in w.core.devices {
        FailQuiet(w.core, k);
        QuietGood(w, w.(core := FailDevice(w.core, k)));
      } else {
        var d := FreshDevice(fd, page);
        NewDeviceCoherent(w.core, k, d);
        NegotiateOpen(cfg, WithDevice(w, k, d), k, refused);
        if page { LocalGood(WithDevice(w, k, d), Negotiate(cfg, WithDevice(w, k, d), k, refused).0, k); }
      }
    }
  }

  lemma AddQueueGood(cfg: Config, w: World, k: Handle, queue: Handle)
    requires Good(w)
    ensures Good(RegisterQueue(cfg, w, k, queue))
  {
    hide Coherent, IoOk, DrainEarly, Held, QuietCore;
    if queue != 0 && k in w.core.devices {
      DrainEarlyQuiet(cfg, w, k);
      QuietGood(w, DrainEarly(cfg, w, k).0);
      var (w', ok) := if w.core.devices[k].queues != {queue} then DrainEarly(cfg, w, k) else (w, true);
      if ok {
        FailQuiet(w'.core, k);
        QuietGood(w', w'.(core := FailDevice(w'.core, k)));
        if queue in w'.core.queueDevices ==> w'.core.queueDevices[queue] == k {
          AddQueueCoherent(w'.core, k, queue);
          HeldAt(w', k);
          DrainedEarly(cfg, w, k);
          QueuedHeld(w'.core.devices[k], queue);
        }
      }
    }
  }

  /** A queue joins a device only if it is the one already there or no early route is pending. */
  lemma QueuedHeld(d: Device, queue: Handle)
    requires Held(d) && (d.queues == {queue} || !d.early || d.failed)
    ensures Held(d.(queues := d.queues + {queue}))
  {
    assert {queue} + {queue} == {queue};
  }

  /** No early route depends on the device's buffers any more, or the device has failed. */
  predicate Undisturbed(d: Device) { d.early ==> d.failed }

  /** A pending early route is drained before buffers change; the indexes do not notice. */
  lemma NotedGood(cfg: Config, w: World, k: Handle)
    requires Good(w) && k in w.core.devices
    ensures Good(NoteMutation(cfg, w, k))
    ensures NoteMutation(cfg, w, k).core.devices[k].commands == w.core.devices[k].commands
    ensures NoteMutation(cfg, w, k).core.recorded == w.core.recorded
    ensures Undisturbed(NoteMutation(cfg, w, k).core.devices[k])
  {
    hide Coherent, IoOk, DrainEarly;
    DrainedEarly(cfg, w, k);
    DrainEarlyQuiet(cfg, w, k);
    QuietGood(w, DrainEarly(cfg, w, k).0);
    DrainEarlyOpen(cfg, w, k);
  }

  lemma RemoveGood(w: World, k: Handle, gone: set<Handle>)
    requires Good(w) && k in w.core.devices && gone <= w.core.devices[k].commands.Keys
    requires Undisturbed(w.core.devices[k])
    ensures Good(w.(core := RemoveCommands(w.core, k, gone)))
  {
    hide Coherent, IoOk;
    RemoveCoherent(w.core, k, gone);
  }

  lemma DropCommandsGood(cfg: Config, w: World, k: Handle, pool: Handle, batch: seq<Handle>)
    requires Good(w)
    ensures Good(FreeCommands(cfg, w, k, pool, batch))
  {
    hide Good, Flush, NoteMutation, RemoveCommands, Repeats;
    FlushQuiet(cfg, w);
    var flushed := w.(io := Flush(cfg.net, w.io).0);
    QuietGood(w, flushed);
    if k in w.core.devices {
      NotedGood(cfg, flushed, k);
      var noted := NoteMutation(cfg, flushed, k);
      var gone := Freed(noted.core.devices[k], pool, batch);
      RemoveGood(noted, k, gone);
      RemovedIn(noted.core, k, gone);
      FailGood(noted.(core := RemoveCommands(noted.core, k, gone)), k);
    }
  }

  lemma RemovedIn(core: Core, k: Handle, gone: set<Handle>)
    requires k in core.devices
    ensures k in RemoveCommands(core, k, gone).devices
  {
  }

  lemma FailGood(w: World, k: Handle)
    requires Good(w) && k in w.core.devices
    ensures Good(w.(core := FailDevice(w.core, k)))
  {
    hide Good, QuietCore;
    FailQuiet(w.core, k);
    QuietGood(w, w.(core := FailDevice(w.core, k)));
  }

  lemma DropPoolGood(cfg: Config, w: World, k: Handle, pool: Handle)
    requires Good(w)
    ensures Good(DestroyPool(cfg, w, k, pool))
  {
    hide Good, Flush, NoteMutation, RemoveCommands;
    FlushQuiet(cfg, w);
    var flushed := w.(io := Flush(cfg.net, w.io).0);
    QuietGood(w, flushed);
    if k in w.core.devices {
      NotedGood(cfg, flushed, k);
      var noted := NoteMutation(cfg, flushed, k);
      var d := noted.core.devices[k];
      RemoveGood(noted, k, PoolMembers(d, pool));
    }
  }

  lemma ReindexedGood(w: World, k: Handle, commands: map<Handle, Command>, recorded: map<Handle, Stream>)
    requires Good(w) && k in w.core.devices
    requires Coherent(Reindexed(w.core, k, commands, recorded, w.core.commandDevices))
    requires Held(w.core.devices[k].(commands := commands))
    ensures Good(w.(core := Reindexed(w.core, k, commands, recorded, w.core.commandDevices)))
  {
    hide Coherent, IoOk;
  }

  lemma UndisturbedHeld(w: World, k: Handle, commands: map<Handle, Command>)
    requires Good(w) && k in w.core.devices && Undisturbed(w.core.devices[k])
    ensures Held(w.core.devices[k].(commands := commands))
  {
    hide Coherent, IoOk;
    HeldAt(w, k);
  }

  lemma ClearPoolGood(cfg: Config, w: World, k: Handle, pool: Handle)
    requires Good(w)
    ensures Good(ResetPool(cfg, w, k, pool))
  {
    hide NoteMutation, IoOk, AllHeld;
    if k in w.core.devices {
      NotedGood(cfg, w, k);
      var noted := NoteMutation(cfg, w, k);
      var core, d := noted.core, noted.core.devices[k];
      ClearedCoherent(core, k, pool);
      UndisturbedHeld(noted, k, Cleared(d.commands, pool));
      ReindexedGood(noted, k, Cleared(d.commands, pool), core.recorded + ClearedStreams(d.commands, pool));
    }
  }

  lemma FreshLaid()
    ensures forall g :: Laid(Stream([], 0, 0, g))
  {
  }

  lemma ClearedCoherent(core: Core, k: Handle, pool: Handle)
    requires Coherent(core) && k in core.devices
    ensures var commands := core.devices[k].commands;
            Coherent(Reindexed(core, k, Cleared(commands, pool),
                               core.recorded + ClearedStreams(commands, pool), core.commandDevices))
  {
    hide Coherent, Laid;
    FreshLaid();
    OwnStreams(core, k);
    var commands := core.devices[k].commands;
    assert (core.recorded + ClearedStreams(commands, pool)).Keys == core.recorded.Keys;
    RenewCoherent(core, k, Cleared(commands, pool), core.recorded + ClearedStreams(commands, pool));
  }

  lemma RenewGood(cfg: Config, w: World, c: Handle, recording: bool)
    requires Good(w)
    ensures Good(RenewCommand(cfg, w, c, recording))
  {
    hide NoteMutation, IoOk, AllHeld;
    match OwnerOf(w.core, c)
    case None =>
    case Some(k) =>
      NotedGood(cfg, w, k);
      var noted := NoteMutation(cfg, w, k);
      var core, d := noted.core, noted.core.devices[k];
      if c in d.commands {
        RenewedCoherent(core, k, c, recording);
        UndisturbedHeld(noted, k, d.commands[c := Renewed(d.commands[c], recording)]);
        ReindexedGood(noted, k, d.commands[c := Renewed(d.commands[c], recording)],
                      core.recorded[c := RenewedStream(d.commands[c])]);
      }
  }

  lemma RenewedCoherent(core: Core, k: Handle, c: Handle, recording: bool)
    requires Coherent(core) && k in core.devices && c in core.devices[k].commands
    ensures var commands := core.devices[k].commands;
            Coherent(Reindexed(core, k, commands[c := Renewed(commands[c], recording)],
                               core.recorded[c := RenewedStream(commands[c])], core.commandDevices))
  {
    hide Coherent, Laid;
    FreshLaid();
    OwnStreams(core, k);
    var commands := core.devices[k].commands;
    RenewCoherent(core, k, commands[c := Renewed(commands[c], recording)],
                  core.recorded[c := RenewedStream(commands[c])]);
  }

  lemma EndGood(cfg: Config, w: World, c: Handle, route: RouteView)
    requires Good(w)
    ensures Good(EndCommand(cfg, w, c, route))
  {
    hide IoOk, AllHeld, AdvanceRoute;
    match OwnerOf(w.core, c)
    case None =>
    case Some(k) =>
      FailGood(w, k);
      var d := w.core.devices[k];
      if c in d.commands && d.commands[c].recording {
        EndedCoherent(w.core, k, c);
        var commands := d.commands[c := Ended(d.commands[c])];
        HeldAt(w, k);
        EndedHeld(d, c);
        ReindexedGood(w, k, commands, w.core.recorded);
        var ended := WithDevice(w, k, d.(commands := commands));
        AdvanceQuiet(cfg, ended, k, c, route);
        var (w', ok) := AdvanceRoute(cfg, ended, k, c, route);
        QuietGood(ended, w');
        FailGood(w', k);
      }
  }

  /** Ending a buffer that is being recorded does not touch the one an early route was sent for. */
  lemma EndedHeld(d: Device, c: Handle)
    requires Held(d) && c in d.commands && d.commands[c].recording
    ensures Held(d.(commands := d.commands[c := Ended(d.commands[c])]))
  {
  }

  lemma EndedCoherent(core: Core, k: Handle, c: Handle)
    requires Coherent(core) && k in core.devices && c in core.devices[k].commands
    ensures var commands := core.devices[k].commands;
            Coherent(Reindexed(core, k, commands[c := Ended(commands[c])], core.recorded, core.commandDevices))
  {
    hide Coherent, Laid;
    FreshLaid();
    OwnStreams(core, k);
    var commands := core.devices[k].commands;
    RenewCoherent(core, k, commands[c := Ended(commands[c])], core.recorded);
  }

  lemma SubmitGood(cfg: Config, w: World, queue: Handle, view: SubmitView)
    requires Good(w) && WaitOver(w.core, Submit(queue, view))
    ensures Good(BeforeSubmit(cfg, w, queue, view).0)
  {
    hide Good;
    match Owner(w.core.queueDevices, w.core.devices, queue)
    case None =>
    case Some(k) =>
      HeldAt(w, k);
      BeforeSubmitReserves(cfg, w, queue, view, k);
      LocalGood(w, BeforeSubmit(cfg, w, queue, view).0, k);
  }

  lemma CompleteGood(cfg: Config, w: World, token: Token, ok: bool, view: AfterView)
    requires Good(w)
    ensures Good(AfterSubmit(cfg, w, token, ok, view))
  {
    hide Good, ProtocolAfter, Local;
    var k := token.device;
    if Releases(token) && k in w.core.devices {
      var d := w.core.devices[k];
      HeldAt(w, k);
      ProtocolAfterFrees(cfg, w, k, token.id, ok, view);
      SetFrees(w, k, Inactive(d).(failed := d.failed || !ok), w.io);
      if !token.fallback || (d.active && d.token == token.id) {
        LocalGood(w, AfterSubmit(cfg, w, token, ok, view), k);
      }
    }
  }

  lemma ReserveGood(cfg: Config, w: World, k: Handle)
    requires Good(w)
    ensures Good(BeginLifecycle(cfg, w, k))
  {
    hide Good, DrainEarly, QuietCore, Held, TameDevice, IoOk;
    if k in w.core.devices {
      DrainEarlyQuiet(cfg, w, k);
      var w' := DrainEarly(cfg, w, k).0;
      QuietGood(w, w');
      HeldAt(w', k);
      CountedHeld(w'.core.devices[k], w'.core.devices[k].lifecycle + 1);
      SetGood(w', k, w'.core.devices[k].(lifecycle := w'.core.devices[k].lifecycle + 1), w'.io);
    }
  }

  lemma CountedHeld(d: Device, n: nat)
    requires Held(d)
    ensures Held(d.(lifecycle := n)) && TameDevice(d, d.(lifecycle := n))
  {
  }

  lemma ReleaseGood(w: World, k: Handle, ok: bool)
    requires Good(w)
    ensures Good(EndLifecycle(w, k, ok))
  {
    hide Good, IoOk;
    if k in w.core.devices {
      HeldAt(w, k);
      var d := w.core.devices[k];
      SetGood(w, k, d.(failed := d.failed || !ok, lifecycle := if d.lifecycle == 0 then 0 else d.lifecycle - 1), w.io);
    }
  }

  /** A teardown is only ever sent right after a successful drain. */
  lemma TeardownOrder(cfg: Config, io: Io, fd: int, k: Handle)
    requires IoOk(io)
    ensures IoOk(Flush(cfg.net, io).0)
    ensures Flush(cfg.net, io).1 ==> IoOk(SendFlime(cfg.net, Flush(cfg.net, io).0, fd, k, FlimeKind.Teardown).0)
  {
    FlushKeeps(cfg.net, io);
    if Flush(cfg.net, io).1 { SendFlimeKeeps(cfg.net, Flush(cfg.net, io).0, fd, k, FlimeKind.Teardown); }
  }

  lemma TeardownGood(cfg: Config, w: World, k: Handle)
    requires Good(w) && WaitOver(w.core, TearDown(k))
    ensures Good(BeforeDestroy(cfg, w, k).0)
  {
    hide Coherent, AllHeld, IoOk, DrainEarly, Flush, SendFlime, QuietCore;
    if k in w.core.devices {
      DrainEarlyQuiet(cfg, w, k);
      DrainEarlyOpen(cfg, w, k);
      var (drained, ok) := DrainEarly(cfg, w, k);
      QuietGood(w, drained);
      HeldAt(w, k);
      HeldAt(drained, k);
      var d := drained.core.devices[k];
      TeardownOrder(cfg, drained.io, d.fd, k);
      var (io, flushed) := Flush(cfg.net, drained.io);
      SetGood(drained, k, d.(failed := true), io);
      DrainedEarly(cfg, w, k);
      if ok { SetGood(drained, k, TornDown(d), io); }
      if ok && flushed {
        var (sent, outcome) := SendFlime(cfg.net, io, d.fd, k, FlimeKind.Teardown);
        SetGood(drained, k, d.(failed := true), sent);
        SetGood(drained, k, TornDown(d), sent);
      }
    }
  }

  /** Writes, hooks and drains change no index, no buffer's lifecycle and no reservation. */
  lemma CallQuiet(cfg: Config, w: World, e: CallEvent)
    ensures Quiet(w, PerformCall(cfg, w, e))
  {
    hide Quiet, Write, WriteCommand, RecordHook, DispatchHook, BadBindHook, Flush;
    match e
    case WriteCall(tid, fd, call, sync, route, order) => WriteQuiet(cfg, w, tid, fd, call, sync, route, order);
    case WriteRecorded(fd, call, sync, command) => WriteCommandQuiet(cfg, w, fd, call, sync, command);
    case FlushTransport => FlushQuiet(cfg, w);
    case HookRecord(tid, command, semantic, complete) => RecordHookQuiet(cfg, w, tid, command, semantic, complete);
    case HookDispatch(tid, command, semantic, boundary) => DispatchQuiet(cfg, w, tid, command, semantic, boundary);
    case HookBadBind(tid, command, funId) => BadBindQuiet(w, tid, command, funId);
  }

  lemma BadBindQuiet(w: World, tid: Tid, command: Handle, funId: nat)
    ensures Quiet(w, BadBindHook(w, tid, command, funId))
  {
    hide QuietCore, IoOk;
    FailNamedQuiet(w.core, tid, OwnerOf(w.core, command), funId);
  }

  lemma RegistryGood(cfg: Config, w: World, e: RegistryEvent)
    requires Good(w)
    ensures Good(PerformRegistry(cfg, w, e))
  {
    hide Good, RegisterDevice, RegisterQueue, FreeCommands, DestroyPool, ResetPool, RenewCommand, EndCommand,
         DestroyDevice, RegisterCommands;
    match e
    case AddDevice(k, fd, page, refused) => AddDeviceGood(cfg, w, k, fd, page, refused);
    case DropDevice(k) => DropDeviceGood(w, k);
    case AddQueue(k, queue) => AddQueueGood(cfg, w, k, queue);
    case AddCommands(k, pool, batch) => AddCommandsGood(w, k, pool, batch);
    case DropCommands(k, pool, batch) => DropCommandsGood(cfg, w, k, pool, batch);
    case DropPool(k, pool) => DropPoolGood(cfg, w, k, pool);
    case ClearPool(k, pool) => ClearPoolGood(cfg, w, k, pool);
    case Renew(command, recording) => RenewGood(cfg, w, command, recording);
    case End(command, route) => EndGood(cfg, w, command, route);
  }

  lemma DropDeviceGood(w: World, k: Handle)
    requires Good(w)
    ensures Good(w.(core := DestroyDevice(w.core, k)))
  {
    hide Coherent, IoOk;
    DestroyCoherent(w.core, k);
  }

  lemma AddCommandsGood(w: World, k: Handle, pool: Handle, batch: seq<Handle>)
    requires Good(w)
    ensures Good(w.(core := RegisterCommands(w.core, k, pool, batch)))
  {
    hide Coherent, IoOk;
    EnlistCoherent(w.core, k, pool, batch);
  }

  lemma GateGood(cfg: Config, w: World, e: GateEvent)
    requires Good(w) && WaitOver(w.core, e)
    ensures Good(PerformGate(cfg, w, e))
  {
    hide Good, Quiet, BeforeSubmit, AfterSubmit, BeginLifecycle, EndLifecycle, PrepareRetirement, BeforeDestroy;
    match e
    case Submit(queue, view) => SubmitGood(cfg, w, queue, view);
    case Complete(token, ok, view) => CompleteGood(cfg, w, token, ok, view);
    case Reserve(k) => ReserveGood(cfg, w, k);
    case Release(k, ok) => ReleaseGood(w, k, ok);
    case Retire(k, live) =>
      RetireQuiet(cfg, w, k, live);
      QuietGood(w, PrepareRetirement(cfg, w, k, live).0);
    case TearDown(k) => TeardownGood(cfg, w, k);
  }

  lemma StepGood(cfg: Config, w: World, e: Event)
    requires Good(w)
    ensures Good(Step(cfg, w, e))
  {
    hide Good, PerformCall, PerformRegistry, PerformGate, Quiet;
    match e
    case OfCall(c) =>
      CallQuiet(cfg, w, c);
      QuietGood(w, PerformCall(cfg, w, c));
    case OfRegistry(r) => RegistryGood(cfg, w, r);
    case OfGate(g) => if WaitOver(w.core, g) { GateGood(cfg, w, g); }
  }

  /**
   * In every run, on any network, from any good world: the host has run exactly the log, replays
   * and pending calls aside; all indexes agree; and every reservation is held in a proper mode.
   */
  lemma {:induction false} RunGood(cfg: Config, w: World, events: seq<Event>, n: nat)
    requires n <= |events| && Good(w)
    ensures Good(Run(cfg, w, events, n))
  {
    hide Good, Step;
    if n > 0 {
      RunGood(cfg, w, events, n - 1);
      StepGood(cfg, Run(cfg, w, events, n - 1), events[n - 1]);
    }
  }

  /**
   * What coherent indexes say to a reader: a handle is in the global index exactly when it has a
   * recorded stream and exactly when some device owns it, and no handle has two owners.
   */
  lemma OneOwner(core: Core)
    requires Coherent(core)
    ensures forall c :: c in core.commandDevices <==> c in core.recorded
    ensures forall c :: c in core.commandDevices <==> exists k <- core.devices :: c in core.devices[k].commands
    ensures forall j <- core.devices, k <- core.devices, c <- core.devices[j].commands ::
              c in core.devices[k].commands ==> j == k
    ensures forall q :: q in core.queueDevices <==> exists k <- core.devices :: q in core.devices[k].queues
  {
    hide Laid;
    forall j, c | j in core.devices && c in core.devices[j].commands
      ensures c in core.recorded && c in core.commandDevices && core.commandDevices[c] == j
    {
      assert Indexed(core, j, c);
    }
  }

  /** Nothing but clusterable commands is ever batched, sent in an envelope or left pending. */
  lemma OnlyClusterableBatched(cfg: Config, events: seq<Event>)
    ensures var io := Run(cfg, INITIAL_WORLD, events, |events|).io;
            && OnlyClusterable(ClusterProofs.Pending(io.cluster))
            && forall p <- io.wire :: p.Envelope? ==>
                 HostAccepts(p.words, p.payload) && OnlyClusterable(Decode(p.words, 0, p.payload))
  {
    hide Coherent, AllHeld, HostAccepts, OnlyClusterable, Run;
    InitialGood();
    RunGood(cfg, INITIAL_WORLD, events, |events|);
  }

  /**
   * In every run, a route sent ahead of its submission keeps its guard until it is completed or
   * drained: unless the device has failed, the buffer it was sent for is still there, executable and
   * not being recorded, on the only queue of a device in Fast with nothing active.
   */
  lemma EarlyRouteGuarded(cfg: Config, events: seq<Event>, k: Handle)
    requires k in Run(cfg, INITIAL_WORLD, events, |events|).core.devices
    ensures var d := Run(cfg, INITIAL_WORLD, events, |events|).core.devices[k];
            d.early && !d.failed ==>
              && d.stage == Fast && d.negotiated && !d.active && d.queues == {d.queue}
              && d.earlyCommand in d.commands
              && d.commands[d.earlyCommand].executable && !d.commands[d.earlyCommand].recording
  {
    hide Coherent, IoOk, Run;
    InitialGood();
    RunGood(cfg, INITIAL_WORLD, events, |events|);
    HeldAt(Run(cfg, INITIAL_WORLD, events, |events|), k);
  }
}
