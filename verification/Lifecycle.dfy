/**
 * The life of one command buffer over a whole run: its flags and its generation are functions of
 * the events that concern it, and of nothing else.
 */
module Lifecycle {
  import opened GuestTypes
  import opened Wire
  import opened GuestState
  import opened RegistryOps
  import opened SubmitOps
  import opened Machine
  import opened Evolution
  import opened SubmitProofs

  /** What an event means to one buffer. */
  datatype Change = Untouched | Born(device: Handle, pool: Handle) | Opened | Cleaned | Closed | Gone

  /** The buffer behind a handle, if the handle is registered. */
  function Buffer(core: Core, c: Handle): Option<Command> {
    match OwnerOf(core, c)
    case None => None
    case Some(k) => if c in core.devices[k].commands then Some(core.devices[k].commands[c]) else None
  }

  predicate InPool(b: Option<Command>, k: Handle, pool: Handle) {
    b.Some? && b.value.device == k && b.value.pool == pool
  }

  /**
   * The projection of an event on a buffer: pool operations by membership, device destruction by
   * ownership, an end only if it closes a begin, and a registration only if the whole batch is good.
   */
  function Concerning(core: Core, e: RegistryEvent, c: Handle): Change {
    var b := Buffer(core, c);
    match e
    case AddCommands(k, pool, batch) =>
      if k in core.devices && c in batch && forall h <- batch :: h != 0 && Buffer(core, h).None?
      then Born(k, pool) else Untouched
    case DropCommands(k, pool, batch) => if c in batch && InPool(b, k, pool) then Gone else Untouched
    case DropPool(k, pool) => if InPool(b, k, pool) then Gone else Untouched
    case ClearPool(k, pool) => if InPool(b, k, pool) then Cleaned else Untouched
    case DropDevice(k) => if b.Some? && b.value.device == k then Gone else Untouched
    case Renew(h, recording) =>
      if h != c || b.None? then Untouched else if recording then Opened else Cleaned
    case End(h, _) => if h == c && b.Some? && b.value.recording then Closed else Untouched
    case _ => Untouched
  }

  function ChangeOf(core: Core, e: Event, c: Handle): Change {
    if e.OfRegistry? then Concerning(core, e.r, c) else Untouched
  }

  function Changed(b: Option<Command>, change: Change): Option<Command> {
    match change
    case Untouched => b
    case Born(k, pool) => Some(FreshCommand(k, pool))
    case Gone => None
    case Opened => if b.Some? then Some(Renewed(b.value, true)) else None
    case Cleaned => if b.Some? then Some(Renewed(b.value, false)) else None
    case Closed => if b.Some? then Some(Ended(b.value)) else None
  }

  // ---------------------------------------------------------------- one event

  /** Under coherent indexes the buffer behind a handle is the entry of the one device that owns it. */
  lemma BufferOwner(core: Core, c: Handle)
    requires Coherent(core)
    ensures Buffer(core, c).Some? <==> c in core.commandDevices
    ensures Buffer(core, c).Some? ==> c != 0 && OwnerOf(core, c) == Some(Buffer(core, c).value.device)
    ensures forall k <- core.devices :: c in core.devices[k].commands ==>
              Buffer(core, c) == Some(core.devices[k].commands[c]) && Buffer(core, c).value.device == k
  {
    hide QueueIndex, Laid;
    forall k | k in core.devices && c in core.devices[k].commands
      ensures Buffer(core, c) == Some(core.devices[k].commands[c]) && Buffer(core, c).value.device == k
    {
      assert Indexed(core, k, c);
    }
  }

  lemma TameBuffer(core: Core, core': Core, c: Handle)
    requires TameCore(core, core')
    ensures Buffer(core', c) == Buffer(core, c)
  {
    hide SameStreams;
    if OwnerOf(core, c).Some? {
      assert TameDevice(core.devices[OwnerOf(core, c).value], core'.devices[OwnerOf(core, c).value]);
    }
  }

  lemma GateTame(cfg: Config, w: World, e: GateEvent)
    requires Good(w) && WaitOver(w.core, e)
    ensures TameCore(w.core, PerformGate(cfg, w, e).core)
  {
    hide Good, Local, KeepsOrder, Held, BeforeSubmit, ProtocolAfter, DrainEarly, FallbackOrFail, Flush, SendFlime,
         TameCore;
    Still(w.core);
    match e
    case Submit(queue, view) =>
      if Owner(w.core.queueDevices, w.core.devices, queue).Some? {
        var k := Owner(w.core.queueDevices, w.core.devices, queue).value;
        HeldAt(w, k);
        BeforeSubmitReserves(cfg, w, queue, view, k);
        LocalTame(w, BeforeSubmit(cfg, w, queue, view).0, k);
      } else {
        NoQueue(cfg, w, queue, view);
      }
    case Complete(token, ok, view) =>
      if token.device in w.core.devices { CompleteTame(cfg, w, token, ok, view); }
    case Reserve(k) => if k in w.core.devices { CountTame(cfg, w, k, true); }
    case Release(k, ok) => if k in w.core.devices { CountTame(cfg, w, k, ok); }
    case Retire(k, live) =>
      RetireQuiet(cfg, w, k, live);
    case TearDown(k) => if k in w.core.devices { TearDownTame(cfg, w, k); }
  }

  lemma NoQueue(cfg: Config, w: World, queue: Handle, view: SubmitView)
    requires Owner(w.core.queueDevices, w.core.devices, queue).None?
    ensures BeforeSubmit(cfg, w, queue, view).0 == w
  {
  }

  lemma SetTame(core: Core, k: Handle, e: Device)
    requires k in core.devices && TameDevice(core.devices[k], e)
    ensures TameCore(core, SetDevice(core, k, e))
  {
    hide Laid;
  }

  lemma CompleteTame(cfg: Config, w: World, token: Token, ok: bool, view: AfterView)
    requires token.device in w.core.devices
    ensures TameCore(w.core, AfterSubmit(cfg, w, token, ok, view).core)
  {
    hide ProtocolAfter, Local, KeepsOrder, TameCore;
    var k, d := token.device, w.core.devices[token.device];
    ProtocolAfterFrees(cfg, w, k, token.id, ok, view);
    LocalTame(w, ProtocolAfter(cfg, w, k, token.id, ok, view), k);
    Still(w.core);
    SetTame(w.core, k, Inactive(d).(failed := d.failed || !ok));
  }

  /** Draining an early route and then changing the device tamely is tame. */
  lemma DrainedTame(cfg: Config, w: World, k: Handle, e: Device)
    requires k in w.core.devices && TameDevice(DrainEarly(cfg, w, k).0.core.devices[k], e)
    ensures TameCore(w.core, SetDevice(DrainEarly(cfg, w, k).0.core, k, e))
    ensures TameCore(w.core, DrainEarly(cfg, w, k).0.core)
  {
    hide DrainEarly, TameCore, TameDevice;
    DrainEarlyQuiet(cfg, w, k);
    var w' := DrainEarly(cfg, w, k).0;
    SetTame(w'.core, k, e);
    TameCoreThen(w.core, w'.core, SetDevice(w'.core, k, e));
  }

  lemma CountTame(cfg: Config, w: World, k: Handle, ok: bool)
    requires k in w.core.devices
    ensures TameCore(w.core, BeginLifecycle(cfg, w, k).core)
    ensures TameCore(w.core, EndLifecycle(w, k, ok).core)
  {
    hide DrainEarly, TameCore;
    var d, d' := w.core.devices[k], DrainEarly(cfg, w, k).0.core.devices[k];
    DrainedTame(cfg, w, k, d'.(lifecycle := d'.lifecycle + 1));
    SetTame(w.core, k, d.(failed := d.failed || !ok, lifecycle := if d.lifecycle == 0 then 0 else d.lifecycle - 1));
  }

  lemma TearDownTame(cfg: Config, w: World, k: Handle)
    requires k in w.core.devices
    ensures TameCore(w.core, BeforeDestroy(cfg, w, k).0.core)
  {
    hide DrainEarly, TameCore, Flush, SendFlime;
    var d := DrainEarly(cfg, w, k).0.core.devices[k];
    DrainedTame(cfg, w, k, TornDown(d));
    DrainedTame(cfg, w, k, d.(failed := true));
  }

  // -------------------------------------------------------------- registry events

  /** Changing the buffers of one device leaves the buffers of the others alone. */
  lemma SetBuffer(core: Core, k: Handle, e: Device, recorded: map<Handle, Stream>, c: Handle)
    requires k in core.devices
    ensures var core' := SetDevice(core, k, e).(recorded := recorded);
            Buffer(core', c) == if OwnerOf(core, c) == Some(k)
                                then if c in e.commands then Some(e.commands[c]) else None
                                else Buffer(core, c)
  {
  }

  lemma BadExactly(core: Core, k: Handle, c: Handle)
    requires Coherent(core) && k in core.devices
    ensures BadHandle(core, core.devices[k], c) <==> c == 0 || Buffer(core, c).Some?
  {
    hide Coherent;
    BufferOwner(core, c);
  }

  lemma EnlistedBuffer(core: Core, k: Handle, pool: Handle, batch: seq<Handle>, c: Handle)
    requires Coherent(core) && k in core.devices
    requires forall h <- batch :: h != 0 && Buffer(core, h).None?
    ensures Buffer(RegisterCommands(core, k, pool, batch), c)
         == if c in batch then Some(FreshCommand(k, pool)) else Buffer(core, c)
  {
    hide Coherent;
    BufferOwner(core, c);
    forall h | h in batch ensures !BadHandle(core, core.devices[k], h) { BadExactly(core, k, h); }
    hide BadHandle;
  }

  lemma RefusedBuffer(core: Core, k: Handle, pool: Handle, batch: seq<Handle>, h: Handle, c: Handle)
    requires Coherent(core) && k in core.devices && h in batch && (h == 0 || Buffer(core, h).Some?)
    ensures Buffer(RegisterCommands(core, k, pool, batch), c) == Buffer(core, c)
  {
    hide Coherent, BadHandle, TameCore;
    BadExactly(core, k, h);
    FailQuiet(core, k);
    TameBuffer(core, FailDevice(core, k), c);
  }

  /** A batch with one bad handle changes no buffer; otherwise exactly the batch is born. */
  lemma AddCommandsChange(core: Core, k: Handle, pool: Handle, batch: seq<Handle>, c: Handle)
    requires Coherent(core)
    ensures Buffer(RegisterCommands(core, k, pool, batch), c)
         == Changed(Buffer(core, c), Concerning(core, AddCommands(k, pool, batch), c))
  {
    hide Coherent, RegisterCommands, Buffer;
    if k !in core.devices {
      Unregistered(core, k, pool, batch);
    } else if h :| h in batch && (h == 0 || Buffer(core, h).Some?) {
      RefusedBuffer(core, k, pool, batch, h, c);
    } else {
      EnlistedBuffer(core, k, pool, batch, c);
    }
  }

  lemma Unregistered(core: Core, k: Handle, pool: Handle, batch: seq<Handle>)
    requires k !in core.devices
    ensures RegisterCommands(core, k, pool, batch) == core
  {
  }

  lemma RemoveChange(core: Core, k: Handle, gone: set<Handle>, c: Handle)
    requires Coherent(core) && k in core.devices && gone <= core.devices[k].commands.Keys
    ensures Buffer(RemoveCommands(core, k, gone), c) == if c in gone then None else Buffer(core, c)
  {
    hide Coherent;
    BufferOwner(core, c);
  }

  lemma NotedBuffer(cfg: Config, w: World, k: Handle, c: Handle)
    requires Good(w) && k in w.core.devices
    ensures Good(NoteMutation(cfg, w, k))
    ensures Buffer(NoteMutation(cfg, w, k).core, c) == Buffer(w.core, c)
    ensures OwnerOf(NoteMutation(cfg, w, k).core, c) == OwnerOf(w.core, c)
  {
    hide Good, DrainEarly, Laid, SameStreams;
    NotedGood(cfg, w, k);
    DrainEarlyQuiet(cfg, w, k);
    TameBuffer(w.core, NoteMutation(cfg, w, k).core, c);
  }

  lemma NoDeviceNoBuffer(core: Core, k: Handle, c: Handle)
    requires Coherent(core) && k !in core.devices
    ensures Buffer(core, c).Some? ==> Buffer(core, c).value.device != k
  {
    hide Coherent;
    BufferOwner(core, c);
  }

  /** The buffers of device k that satisfy a test are the buffers that map to k and satisfy it. */
  lemma OwnBuffer(core: Core, k: Handle, c: Handle)
    requires Coherent(core) && k in core.devices
    ensures c in core.devices[k].commands <==> Buffer(core, c).Some? && Buffer(core, c).value.device == k
    ensures c in core.devices[k].commands ==> Buffer(core, c).value == core.devices[k].commands[c]
  {
    hide Coherent;
    BufferOwner(core, c);
  }

  lemma DropCommandsChange(cfg: Config, w: World, k: Handle, pool: Handle, batch: seq<Handle>, c: Handle)
    requires Good(w)
    ensures Buffer(FreeCommands(cfg, w, k, pool, batch).core, c)
         == Changed(Buffer(w.core, c), Concerning(w.core, DropCommands(k, pool, batch), c))
  {
    hide Good, Coherent, Flush, NoteMutation, RemoveCommands, Repeats, Specialized, TameCore;
    GoodCoherent(w);
    if k !in w.core.devices {
      NoDeviceNoBuffer(w.core, k, c);
    } else {
      FlushQuiet(cfg, w);
      var flushed := w.(io := Flush(cfg.net, w.io).0);
      QuietGood(w, flushed);
      NotedBuffer(cfg, flushed, k, c);
      var noted := NoteMutation(cfg, flushed, k);
      GoodCoherent(noted);
      OwnBuffer(noted.core, k, c);
      var d := noted.core.devices[k];
      var gone := Freed(d, pool, batch);
      RemoveChange(noted.core, k, gone, c);
      RemovedIn(noted.core, k, gone);
      FailQuiet(RemoveCommands(noted.core, k, gone), k);
      TameBuffer(RemoveCommands(noted.core, k, gone), FailDevice(RemoveCommands(noted.core, k, gone), k), c);
    }
  }

  lemma GoodCoherent(w: World)
    requires Good(w)
    ensures Coherent(w.core)
  {
  }

  lemma DropPoolChange(cfg: Config, w: World, k: Handle, pool: Handle, c: Handle)
    requires Good(w)
    ensures Buffer(DestroyPool(cfg, w, k, pool).core, c)
         == Changed(Buffer(w.core, c), Concerning(w.core, DropPool(k, pool), c))
  {
    hide Good, Coherent, Flush, NoteMutation, RemoveCommands;
    GoodCoherent(w);
    if k !in w.core.devices {
      NoDeviceNoBuffer(w.core, k, c);
    } else {
      FlushQuiet(cfg, w);
      var flushed := w.(io := Flush(cfg.net, w.io).0);
      QuietGood(w, flushed);
      NotedBuffer(cfg, flushed, k, c);
      var noted := NoteMutation(cfg, flushed, k);
      GoodCoherent(noted);
      OwnBuffer(noted.core, k, c);
      var d := noted.core.devices[k];
      var gone := PoolMembers(d, pool);
      RemoveChange(noted.core, k, gone, c);
    }
  }

  lemma ClearPoolChange(cfg: Config, w: World, k: Handle, pool: Handle, c: Handle)
    requires Good(w)
    ensures Buffer(ResetPool(cfg, w, k, pool).core, c)
         == Changed(Buffer(w.core, c), Concerning(w.core, ClearPool(k, pool), c))
  {
    hide Good, Coherent, NoteMutation, Renewed, ClearedStreams;
    GoodCoherent(w);
    if k !in w.core.devices {
      NoDeviceNoBuffer(w.core, k, c);
    } else {
      NotedBuffer(cfg, w, k, c);
      var noted := NoteMutation(cfg, w, k);
      GoodCoherent(noted);
      OwnBuffer(noted.core, k, c);
      BufferOwner(noted.core, c);
      var d := noted.core.devices[k];
      SetBuffer(noted.core, k, d.(commands := Cleared(d.commands, pool)),
                noted.core.recorded + ClearedStreams(d.commands, pool), c);
    }
  }

  lemma RenewChange(cfg: Config, w: World, h: Handle, recording: bool, c: Handle)
    requires Good(w)
    ensures Buffer(RenewCommand(cfg, w, h, recording).core, c)
         == Changed(Buffer(w.core, c), Concerning(w.core, Renew(h, recording), c))
  {
    hide Good, Coherent, NoteMutation, Renewed, RenewedStream;
    GoodCoherent(w);
    BufferOwner(w.core, h);
    match OwnerOf(w.core, h)
    case None =>
    case Some(k) =>
      NotedBuffer(cfg, w, k, c);
      NotedBuffer(cfg, w, k, h);
      var noted := NoteMutation(cfg, w, k);
      GoodCoherent(noted);
      OwnBuffer(noted.core, k, h);
      OwnBuffer(noted.core, k, c);
      BufferOwner(noted.core, c);
      var d := noted.core.devices[k];
      if h in d.commands {
        SetBuffer(noted.core, k, d.(commands := d.commands[h := Renewed(d.commands[h], recording)]),
                  noted.core.recorded[h := RenewedStream(d.commands[h])], c);
      }
  }

  lemma EndChange(cfg: Config, w: World, h: Handle, route: RouteView, c: Handle)
    requires Good(w)
    ensures Buffer(EndCommand(cfg, w, h, route).core, c)
         == Changed(Buffer(w.core, c), Concerning(w.core, End(h, route), c))
  {
    hide Good, Coherent, AdvanceRoute, Ended, TameCore, Specialized, Buffer;
    GoodCoherent(w);
    BufferOwner(w.core, h);
    match OwnerOf(w.core, h)
    case None =>
    case Some(k) =>
      OwnBuffer(w.core, k, h);
      OwnBuffer(w.core, k, c);
      BufferOwner(w.core, c);
      FailQuiet(w.core, k);
      TameBuffer(w.core, FailDevice(w.core, k), c);
      var d := w.core.devices[k];
      if h in d.commands && d.commands[h].recording {
        var e := d.(commands := d.commands[h := Ended(d.commands[h])]);
        SetBuffer(w.core, k, e, w.core.recorded, c);
        AdvancedBuffer(cfg, WithDevice(w, k, e), k, h, route, c);
      }
  }

  lemma AdvancedBuffer(cfg: Config, w: World, k: Handle, h: Handle, route: RouteView, c: Handle)
    requires k in w.core.devices
    ensures var w' := AdvanceRoute(cfg, w, k, h, route).0;
            && Buffer(w'.core, c) == Buffer(w.core, c)
            && Buffer(FailDevice(w'.core, k), c) == Buffer(w.core, c)
  {
    hide AdvanceRoute, TameCore;
    AdvanceQuiet(cfg, w, k, h, route);
    var w' := AdvanceRoute(cfg, w, k, h, route).0;
    TameBuffer(w.core, w'.core, c);
    FailQuiet(w'.core, k);
    TameBuffer(w'.core, FailDevice(w'.core, k), c);
  }

  lemma DropDeviceChange(core: Core, k: Handle, c: Handle)
    requires Coherent(core)
    ensures Buffer(DestroyDevice(core, k), c) == Changed(Buffer(core, c), Concerning(core, DropDevice(k), c))
  {
    hide Coherent;
    BufferOwner(core, c);
  }

  lemma AddDeviceChange(cfg: Config, w: World, k: Handle, fd: int, page: bool, refused: bool, c: Handle)
    requires Good(w)
    ensures Buffer(RegisterDevice(cfg, w, k, fd, page, refused).core, c) == Buffer(w.core, c)
  {
    hide Good, Coherent, Negotiate, TameCore, Local;
    GoodCoherent(w);
    BufferOwner(w.core, c);
    if k in w.core.devices {
      FailQuiet(w.core, k);
      TameBuffer(w.core, FailDevice(w.core, k), c);
    } else {
      var d := FreshDevice(fd, page);
      NegotiateOpen(cfg, WithDevice(w, k, d), k, refused);
      LocalTame(WithDevice(w, k, d), Negotiate(cfg, WithDevice(w, k, d), k, refused).0, k);
      TameBuffer(WithDevice(w, k, d).core, Negotiate(cfg, WithDevice(w, k, d), k, refused).0.core, c);
    }
  }

  lemma AddQueueChange(cfg: Config, w: World, k: Handle, queue: Handle, c: Handle)
    requires Good(w)
    ensures Buffer(RegisterQueue(cfg, w, k, queue).core, c) == Buffer(w.core, c)
  {
    hide Good, DrainEarly, TameCore;
    if queue != 0 && k in w.core.devices {
      DrainEarlyQuiet(cfg, w, k);
      TameBuffer(w.core, DrainEarly(cfg, w, k).0.core, c);
      var (w', ok) := if w.core.devices[k].queues != {queue} then DrainEarly(cfg, w, k) else (w, true);
      FailQuiet(w'.core, k);
      TameBuffer(w'.core, FailDevice(w'.core, k), c);
      QueuedBuffer(w'.core, k, queue, c);
    }
  }

  lemma QueuedBuffer(core: Core, k: Handle, queue: Handle, c: Handle)
    requires k in core.devices
    ensures var d := core.devices[k];
            Buffer(SetDevice(core, k, d.(queues := d.queues + {queue}))
                   .(queueDevices := core.queueDevices[queue := k]), c) == Buffer(core, c)
  {
  }

  /** Every event changes a buffer exactly as its projection on that buffer says. */
  lemma StepChanges(cfg: Config, w: World, e: Event, c: Handle)
    requires Good(w)
    ensures Buffer(Step(cfg, w, e).core, c) == Changed(Buffer(w.core, c), ChangeOf(w.core, e, c))
  {
    hide Good, PerformCall, PerformGate, PerformRegistry, Concerning, TameCore, Buffer;
    match e
    case OfCall(call) =>
      CallQuiet(cfg, w, call);
      TameBuffer(w.core, PerformCall(cfg, w, call).core, c);
    case OfGate(g) =>
      if WaitOver(w.core, g) {
        GateTame(cfg, w, g);
        TameBuffer(w.core, PerformGate(cfg, w, g).core, c);
      }
    case OfRegistry(r) => RegistryChanges(cfg, w, r, c);
  }

  lemma RegistryChanges(cfg: Config, w: World, e: RegistryEvent, c: Handle)
    requires Good(w)
    ensures Buffer(PerformRegistry(cfg, w, e).core, c) == Changed(Buffer(w.core, c), Concerning(w.core, e, c))
  {
    hide Good, Buffer, RegisterDevice, RegisterQueue, FreeCommands, DestroyPool, ResetPool, RenewCommand, EndCommand,
         DestroyDevice, RegisterCommands, InPool;
    GoodCoherent(w);
    match e
    case AddDevice(k, fd, page, refused) => AddDeviceChange(cfg, w, k, fd, page, refused, c);
    case DropDevice(k) => DropDeviceChange(w.core, k, c);
    case AddQueue(k, queue) => AddQueueChange(cfg, w, k, queue, c);
    case AddCommands(k, pool, batch) => AddCommandsChange(w.core, k, pool, batch, c);
    case DropCommands(k, pool, batch) => DropCommandsChange(cfg, w, k, pool, batch, c);
    case DropPool(k, pool) => DropPoolChange(cfg, w, k, pool, c);
    case ClearPool(k, pool) => ClearPoolChange(cfg, w, k, pool, c);
    case Renew(h, recording) => RenewChange(cfg, w, h, recording, c);
    case End(h, route) => EndChange(cfg, w, h, route, c);
  }
}
