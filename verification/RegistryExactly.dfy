/**
 * Exactly what state the operations on devices, queues and command buffers leave, and when they mark
 * a device failed.
 */
module RegistryExactly {
  import opened GuestTypes
  import opened ClusterCodec
  import opened ClusterProofs
  import opened Wire
  import opened GuestState
  import opened RegistryOps
  import opened SubmitOps
  import opened Fates

  /** A device in a given mode with nothing registered on it yet. */
  function NewDevice(fd: int, page: bool, stage: Stage, negotiated: bool, exposed: bool, failed: bool): Device {
    Device(fd, stage, negotiated, page, exposed, false, 0, {}, map[], failed, 0, false, 0, false, 1, false, 0, 0)
  }

  /** How a new device with a control page starts out, by the fate of its capability request. */
  function FirstMode(fd: int, sent: Outcome, refused: bool): Device {
    match sent
    case Refused => NewDevice(fd, true, Detect, false, false, true)
    case Acked =>
      if refused then NewDevice(fd, true, Legacy, false, true, false) else NewDevice(fd, true, Detect, true, true, false)
    case _ => NewDevice(fd, true, Detect, false, true, true)
  }

  /**
   * A registration without a descriptor or a handle does nothing, a repeated one fails the device, one
   * without a control page starts in Legacy, and any other asks for capabilities and starts in Detect
   * exactly if the host answers and does not ask for Legacy.
   */
  lemma RegisterExactly(cfg: Config, w: World, k: Handle, fd: int, page: bool, refused: bool)
    requires ClusterOk(w.io.cluster)
    ensures var w' := RegisterDevice(cfg, w, k, fd, page, refused);
            var sent := if Clears(cfg.net, w.io) then cfg.net(Upcoming(w.io)) else Refused;
            if fd < 0 || k == 0 then w' == w
            else if k in w.core.devices
            then w' == World(SetDevice(w.core, k, w.core.devices[k].(failed := true)), w.io)
            else if !page then w' == World(SetDevice(w.core, k, NewDevice(fd, false, Legacy, false, false, false)), w.io)
            else
              && w'.core == SetDevice(w.core, k, FirstMode(fd, sent, refused))
              && w'.io.log == if sent == Acked || sent == InDoubt
                              then w.io.log + [Controlled(fd, k, Capabilities)] else w.io.log
  {
    hide DrainThenFlime, ClusterOk, Clears, Negotiated;
    FlimeFate(cfg.net, w.io, fd, k, Capabilities);
    var d := FreshDevice(fd, page);
    FirstModeIs(fd, DrainThenFlime(cfg.net, w.io, fd, k, Capabilities).1, refused);
    SetTwice(w.core, k, d);
  }

  lemma FirstModeIs(fd: int, sent: Outcome, refused: bool)
    ensures Negotiated(FreshDevice(fd, true), sent, refused) == FirstMode(fd, sent, refused)
  {
  }

  lemma SetTwice(core: Core, k: Handle, e: Device)
    ensures forall x: Device :: SetDevice(SetDevice(core, k, e), k, x) == SetDevice(core, k, x)
  {
    forall x: Device ensures SetDevice(SetDevice(core, k, e), k, x) == SetDevice(core, k, x) {
      assert core.devices[k := e][k := x] == core.devices[k := x];
    }
  }

  /** A queue joins its device exactly if it is not another's; otherwise the device fails. */
  lemma QueueExactly(cfg: Config, w: World, k: Handle, queue: Handle)
    requires k in w.core.devices && queue != 0 && !w.core.devices[k].early
    ensures var core, d := w.core, w.core.devices[k];
            RegisterQueue(cfg, w, k, queue)
            == if queue in core.queueDevices && core.queueDevices[queue] != k
               then World(SetDevice(core, k, d.(failed := true)), w.io)
               else World(SetDevice(core, k, d.(queues := d.queues + {queue}))
                            .(queueDevices := core.queueDevices[queue := k]), w.io)
  {
  }

  /** Registering again the one queue a route is out for leaves the route alone. */
  lemma SameQueue(cfg: Config, w: World, k: Handle, queue: Handle)
    requires k in w.core.devices && queue != 0 && w.core.devices[k].queues == {queue}
    ensures var e := RegisterQueue(cfg, w, k, queue).core.devices[k];
            e.early == w.core.devices[k].early && RegisterQueue(cfg, w, k, queue).io == w.io
  {
    hide DrainEarly, SetDevice;
    var d := w.core.devices[k];
    Placed(w.core, k, d.(failed := true));
    Placed(w.core, k, d.(queues := d.queues + {queue}));
  }

  /** Any other queue has it drained first, and does not join if that fails. */
  lemma SecondQueue(cfg: Config, w: World, k: Handle, queue: Handle)
    requires k in w.core.devices && queue != 0 && ClusterOk(w.io.cluster)
    requires w.core.devices[k].early && w.core.devices[k].queues != {queue}
    ensures var d, w' := w.core.devices[k], RegisterQueue(cfg, w, k, queue);
            if Drainable(d) && Clears(cfg.net, w.io) && cfg.net(Upcoming(w.io)) == Acked
            then w'.core.devices[k].stage == Legacy && !w'.core.devices[k].early
            else w' == FallbackOrFail(cfg, w, k).0 && w'.core.devices[k].failed
  {
    hide FallbackOrFail, ClusterOk, Clears, Drainable, AfterDrain, SetDevice;
    FallbackOrFailExactly(cfg, w, k);
    var (w', ok) := FallbackOrFail(cfg, w, k);
    DrainedParts(w.core.devices[k]);
    DrainableHas(w.core.devices[k]);
    if ok {
      Placed(w.core, k, AfterDrain(w.core.devices[k]));
      Placed(w'.core, k, w'.core.devices[k].(failed := true));
    }
    Placed(w'.core, k, w'.core.devices[k].(queues := w'.core.devices[k].queues + {queue}));
  }

  lemma DrainableHas(d: Device)
    ensures Drainable(d) ==> HasNumber(d.nextId)
  {
  }

  lemma Placed(core: Core, k: Handle, e: Device)
    ensures k in SetDevice(core, k, e).devices && SetDevice(core, k, e).devices[k] == e
  {
  }

  /** A batch fails its device exactly if some handle in it is null or registered already. */
  lemma BatchFails(core: Core, k: Handle, pool: Handle, batch: seq<Handle>)
    requires k in core.devices
    ensures var d, core' := core.devices[k], RegisterCommands(core, k, pool, batch);
            var bad := exists c <- batch :: c == 0 || c in d.commands || c in core.commandDevices;
            && core'.devices[k].failed == (d.failed || bad)
            && (bad ==> core' == SetDevice(core, k, d.(failed := true)))
            && (!bad ==> forall c <- batch ::
                  && core'.devices[k].commands[c] == Command(k, pool, 1, false, false)
                  && core'.recorded[c] == Stream([], 0, 0, 1) && core'.commandDevices[c] == k)
  {
  }

  /** A free fails a suppressing device exactly on a handle not in the pool or named twice. */
  lemma FreeFails(cfg: Config, w: World, k: Handle, pool: Handle, batch: seq<Handle>)
    requires k in w.core.devices && !w.core.devices[k].early
    ensures var d := w.core.devices[k];
            var foreign := exists c <- batch :: c !in d.commands || d.commands[c].pool != pool;
            var repeated := exists i: nat, j: nat | i < j < |batch| :: batch[i] == batch[j];
            FreeCommands(cfg, w, k, pool, batch).core.devices[k].failed
              == (d.failed || (Suppressing(d) && (foreign || repeated)))
  {
    hide Flush, Specialized, Suppressing;
    var d := w.core.devices[k];
    Readings(d);
    if c :| c in batch && (c !in d.commands || d.commands[c].pool != pool) { assert !Freeable(d, pool, c); }
  }

  /** Freeing buffers and destroying a pool send what is pending first. */
  lemma FreeFlushes(cfg: Config, w: World, k: Handle, pool: Handle, batch: seq<Handle>)
    requires ClusterOk(w.io.cluster) && Clears(cfg.net, w.io)
    ensures FreeCommands(cfg, w, k, pool, batch).io.cluster == EMPTY_CLUSTER
    ensures DestroyPool(cfg, w, k, pool).io.cluster == EMPTY_CLUSTER
  {
    hide Flush, ClusterOk, Clears, RemoveCommands, Freed, Repeats, FallbackOrFail, Specialized;
    FlushFate(cfg.net, w.io);
    var flushed := w.(io := Flush(cfg.net, w.io).0);
    if k in w.core.devices { StaysEmpty(cfg, flushed, k); }
  }

  lemma StaysEmpty(cfg: Config, w: World, k: Handle)
    requires k in w.core.devices && w.io.cluster == EMPTY_CLUSTER
    ensures FallbackOrFail(cfg, w, k).0.io.cluster == EMPTY_CLUSTER
  {
    hide DrainThenFlime;
    EmptyClears(cfg.net, w.io);
    FlimeFate(cfg.net, w.io, w.core.devices[k].fd, k, FallbackFlush);
  }

  /** An end without a begin fails a suppressing device and does nothing else. */
  lemma EndWithoutBegin(cfg: Config, w: World, c: Handle, view: RouteView, k: Handle)
    requires OwnerOf(w.core, c) == Some(k)
    requires var d := w.core.devices[k]; c !in d.commands || !d.commands[c].recording
    ensures var d := w.core.devices[k];
            EndCommand(cfg, w, c, view)
            == World(SetDevice(w.core, k, d.(failed := d.failed || Suppressing(d))), w.io)
  {
    hide AdvanceRoute, Specialized, Suppressing;
    Readings(w.core.devices[k]);
    SetSame(w.core, k);
  }

  /** One that closes a begin makes the buffer executable and fails the device only if advancing does. */
  lemma EndExactly(cfg: Config, w: World, c: Handle, view: RouteView, k: Handle)
    requires OwnerOf(w.core, c) == Some(k)
    requires var d := w.core.devices[k]; c in d.commands && d.commands[c].recording
    ensures var d, b := w.core.devices[k], w.core.devices[k].commands[c];
            var closed := d.(commands := d.commands[c := Command(b.device, b.pool, b.generation, false, true)]);
            var (w', ok) := AdvanceRoute(cfg, World(SetDevice(w.core, k, closed), w.io), k, c, view);
            EndCommand(cfg, w, c, view)
            == if ok then w' else World(SetDevice(w'.core, k, w'.core.devices[k].(failed := true)), w'.io)
  {
    hide AdvanceRoute;
  }

  /**
   * With no route out, a teardown goes through exactly if what is pending is acknowledged and, if
   * there is a session, its packet is; then no session is left, and otherwise the device has failed.
   */
  lemma TeardownExactly(cfg: Config, w: World, k: Handle)
    requires k in w.core.devices && ClusterOk(w.io.cluster) && !w.core.devices[k].early
    ensures var d := w.core.devices[k];
            var (w', ok) := BeforeDestroy(cfg, w, k);
            && (ok <==> Clears(cfg.net, w.io) && (d.exposed ==> cfg.net(Upcoming(w.io)) == Acked))
            && w'.core == SetDevice(w.core, k, if ok then d.(tornDown := true, exposed := false, negotiated := false)
                                               else d.(failed := true))
            && (Clears(cfg.net, w.io) && !d.exposed ==> w'.io.log == w.io.log)
  {
    hide Flush, ClusterOk, Clears;
    FlushFate(cfg.net, w.io);
  }
}
