/**
 * What becomes of a request, and of a device with it, in terms of the network's answers: which
 * requests are made, in what order, and exactly when each transition goes through.
 */
module Fates {
  import opened GuestTypes
  import opened ClusterCodec
  import opened ClusterProofs
  import opened Wire
  import opened GuestState
  import opened RegistryOps

  /** Nothing pending stands in the way of the next request: there is nothing, or the host takes it. */
  predicate Clears(net: Net, io: Io) {
    io.cluster.callCount == 0 || (io.cluster.fd >= 0 && net(io.rpcs) == Acked)
  }

  /** The number of the request that follows the drain. */
  function Upcoming(io: Io): nat { io.rpcs + if io.cluster.callCount == 0 then 0 else 1 }

  /** A device whose descriptor updates are suppressed. */
  predicate Suppressing(d: Device) {
    d.negotiated && (d.stage == Learn || d.stage == Match || d.stage == Fast || d.stage == Recover)
  }

  /** The next submission number is one that may be given out. */
  predicate HasNumber(n: nat) { 0 < n < 0xFFFF_FFFF_FFFF_FFFF }

  lemma FlushFate(net: Net, io: Io)
    requires ClusterOk(io.cluster)
    ensures Flush(net, io).1 <==> Clears(net, io)
    ensures Flush(net, io).0.log == io.log && ClusterOk(Flush(net, io).0.cluster)
    ensures Clears(net, io) ==>
              Flush(net, io).0.cluster == EMPTY_CLUSTER && Flush(net, io).0.rpcs == Upcoming(io)
    ensures io.cluster.callCount == 0 ==> Flush(net, io).0 == io
  {
    hide StreamOk, Canonical, Pending;
    InitialOk();
  }

  /** A request of FLIME's own after its drain: its outcome, and what it adds to the log. */
  lemma FlimeFate(net: Net, io: Io, fd: int, k: Handle, kind: FlimeKind)
    requires ClusterOk(io.cluster)
    ensures var (io', sent) := DrainThenFlime(net, io, fd, k, kind);
            && sent == (if Clears(net, io) then net(Upcoming(io)) else Refused)
            && ClusterOk(io'.cluster)
            && io'.log == (if Clears(net, io) && (sent == Acked || sent == InDoubt)
                           then io.log + [Controlled(fd, k, kind)] else io.log)
            && (Clears(net, io) ==> io'.cluster == EMPTY_CLUSTER && io'.rpcs == Upcoming(io) + 1)
  {
    hide Flush, ClusterOk;
    FlushFate(net, io);
  }

  /** An empty cluster clears, and the next request is numbered next. */
  lemma EmptyClears(net: Net, io: Io)
    requires io.cluster == EMPTY_CLUSTER
    ensures Clears(net, io) && Upcoming(io) == io.rpcs && ClusterOk(io.cluster)
  {
    InitialOk();
  }

  // ------------------------------------------------------------- leaving specialization

  /** A device that may be drained to Legacy. */
  predicate Drainable(d: Device) { Suppressing(d) && !d.active && HasNumber(d.nextId) }

  /** A device after its session was drained. */
  function AfterDrain(d: Device): Device
    requires HasNumber(d.nextId)
  {
    d.(stage := Legacy, negotiated := false, exposed := false, tornDown := true, failed := false,
       active := false, token := 0, recovering := false,
       early := false, earlyCommand := 0, earlyId := 0, nextId := d.nextId + 1)
  }

  lemma DrainedParts(d: Device)
    ensures HasNumber(d.nextId) ==>
              var e := AfterDrain(d); e.stage == Legacy && !e.early && e.lifecycle == d.lifecycle && e.queues == d.queues
  {
  }

  lemma Readings(d: Device)
    ensures Specialized(d) <==> Suppressing(d)
    ensures CanNumber(d) <==> HasNumber(d.nextId)
    ensures HasNumber(d.nextId) ==> DrainedDevice(Numbered(d)) == AfterDrain(d)
  {
  }

  lemma SetSame(core: Core, k: Handle)
    requires k in core.devices
    ensures SetDevice(core, k, core.devices[k]) == core
  {
    assert core.devices[k := core.devices[k]] == core.devices;
  }

  /**
   * Specialization is left exactly if the device is suppressing, unreserved and has a number, and the
   * drain request is acknowledged; the device keeps its objects and nothing else.
   */
  lemma FallbackExactly(cfg: Config, w: World, k: Handle)
    requires k in w.core.devices && ClusterOk(w.io.cluster)
    ensures var d := w.core.devices[k];
            var (w', id) := Fallback(cfg, w, k);
            var drained := Drainable(d) && Clears(cfg.net, w.io) && cfg.net(Upcoming(w.io)) == Acked;
            && (id.Some? <==> drained)
            && (drained ==> id.value == d.nextId && w'.core == SetDevice(w.core, k, AfterDrain(d)))
            && (drained ==> w'.io.cluster == EMPTY_CLUSTER && w'.io.log == w.io.log + [Controlled(d.fd, k, FallbackFlush)])
            && (!drained ==> OnlyDrains(w.io.log, w'.io.log, d.fd, k))
            && (!Drainable(d) ==> w' == w)
  {
    hide DrainThenFlime, ClusterOk, Clears, Specialized, Suppressing, CanNumber, HasNumber, DrainedDevice, AfterDrain;
    var d := w.core.devices[k];
    Readings(d);
    FlimeFate(cfg.net, w.io, d.fd, k, FallbackFlush);
  }

  /** A drain that fails uses up a number exactly if it may have reached the host, and changes nothing else. */
  lemma FallbackStays(cfg: Config, w: World, k: Handle)
    requires k in w.core.devices && ClusterOk(w.io.cluster) && Fallback(cfg, w, k).1.None?
    ensures var d := w.core.devices[k];
            var sent := Drainable(d) && Clears(cfg.net, w.io) && cfg.net(Upcoming(w.io)) != Refused;
            Fallback(cfg, w, k).0.core == SetDevice(w.core, k, if sent then d.(nextId := d.nextId + 1) else d)
  {
    hide DrainThenFlime, ClusterOk, Clears, Specialized, Suppressing, DrainedDevice;
    var d := w.core.devices[k];
    Readings(d);
    SetSame(w.core, k);
    FlimeFate(cfg.net, w.io, d.fd, k, FallbackFlush);
  }

  /** The same with the device marked when the drain does not go through. */
  lemma FallbackOrFailExactly(cfg: Config, w: World, k: Handle)
    requires k in w.core.devices && ClusterOk(w.io.cluster)
    ensures var d := w.core.devices[k];
            var (w', ok) := FallbackOrFail(cfg, w, k);
            && (ok <==> Drainable(d) && Clears(cfg.net, w.io) && cfg.net(Upcoming(w.io)) == Acked)
            && (ok ==> w'.core == SetDevice(w.core, k, AfterDrain(d)))
            && (!ok ==>
                  var e := w'.core.devices[k];
                  e.failed && e.stage == d.stage && e.early == d.early && e.lifecycle == d.lifecycle)
            && OnlyDrains(w.io.log, w'.io.log, d.fd, k)
  {
    hide Fallback, ClusterOk, Clears, Drainable, AfterDrain;
    FallbackExactly(cfg, w, k);
    if Fallback(cfg, w, k).1.None? { FallbackStays(cfg, w, k); }
  }

  /** At most the device's own drain request joined the log. */
  predicate OnlyDrains(log: seq<Entry>, log': seq<Entry>, fd: int, k: Handle) {
    log' == log || log' == log + [Controlled(fd, k, FallbackFlush)]
  }

  // --------------------------------------------------------------------- early routes

  /** The device and buffer are those a route may be sent ahead for. */
  predicate MayRelease(d: Device, command: Handle) {
    && !d.failed && !d.active && d.negotiated && d.stage == Fast
    && d.queue != 0 && d.queues == {d.queue}
    && command != 0 && command in d.commands
    && d.commands[command].executable && !d.commands[command].recording
  }

  /** And its two requests go through and are taken. */
  predicate Released(net: Net, io: Io, d: Device, command: Handle, view: RouteView) {
    && MayRelease(d, command) && HasNumber(d.nextId)
    && view.Ready? && view.accepted && !view.withdrawn
    && Clears(net, io) && net(Upcoming(io)) == Acked && net(Upcoming(io) + 1) == Acked
  }

  lemma GuardReading(d: Device, command: Handle)
    ensures MayRelease(d, command) <==> !d.failed && RouteGuard(d, command)
  {
  }

  /**
   * A route is sent ahead of its submission exactly if device, buffer, planner and both requests
   * agree; then precisely its announcement and its records join the log.
   */
  lemma AdvanceReleases(cfg: Config, w: World, k: Handle, command: Handle, view: RouteView)
    requires k in w.core.devices && ClusterOk(w.io.cluster) && !w.core.devices[k].early
    ensures var d := w.core.devices[k];
            var (w', ok) := AdvanceRoute(cfg, w, k, command, view);
            var released := Released(cfg.net, w.io, d, command, view);
            && (w'.core.devices[k].early <==> released)
            && (released ==>
                  && ok
                  && w'.core == SetDevice(w.core, k, d.(nextId := d.nextId + 1, early := true,
                                                        earlyCommand := command, earlyId := d.nextId))
                  && w'.io.log == w.io.log + [Controlled(d.fd, k, PeriodBegin), Controlled(d.fd, k, Route)])
  {
    hide FallbackOrFail, ClusterOk, Clears, SendRoute, MayRelease, RouteGuard, LegacyDevice, AfterDrain, Drainable;
    var d := w.core.devices[k];
    GuardReading(d, command);
    DrainedNotEarly(cfg, w, k);
    if HasNumber(d.nextId) && view.Ready? {
      SendRouteFate(cfg, w.io, d.fd, k, view.withdrawn, view.accepted);
      var (io, begun, sent) := SendRoute(cfg, w.io, d.fd, k, view.withdrawn, view.accepted);
      ToldNotEarly(d, begun, view.withdrawn);
      DrainedNotEarly(cfg, World(SetDevice(w.core, k, Told(Numbered(d), begun, view.withdrawn)), io), k);
    }
  }

  lemma DrainedNotEarly(cfg: Config, w: World, k: Handle)
    requires k in w.core.devices && ClusterOk(w.io.cluster)
    ensures var (w', ok) := FallbackOrFail(cfg, w, k);
            && (!w.core.devices[k].early ==> !w'.core.devices[k].early)
            && (if ok then w'.core.devices[k].stage == Legacy else w'.core.devices[k].failed)
            && OnlyDrains(w.io.log, w'.io.log, w.core.devices[k].fd, k)
  {
    hide FallbackOrFail, ClusterOk, Clears, Suppressing;
    FallbackOrFailExactly(cfg, w, k);
  }

  lemma ToldNotEarly(d: Device, begun: Outcome, withdrawn: bool)
    requires HasNumber(d.nextId) && !d.early
    ensures !Told(Numbered(d), begun, withdrawn).early
  {
  }

  lemma SendRouteFate(cfg: Config, io: Io, fd: int, k: Handle, withdrawn: bool, accepted: bool)
    requires ClusterOk(io.cluster)
    ensures var (io', begun, sent) := SendRoute(cfg, io, fd, k, withdrawn, accepted);
            var went := Clears(cfg.net, io) && cfg.net(Upcoming(io)) == Acked && !withdrawn;
            && (sent <==> went && cfg.net(Upcoming(io) + 1) == Acked && accepted)
            && begun == (if Clears(cfg.net, io) then cfg.net(Upcoming(io)) else Refused)
            && ClusterOk(io'.cluster)
            && (sent ==> io'.log == io.log + [Controlled(fd, k, PeriodBegin), Controlled(fd, k, Route)])
  {
    hide DrainThenFlime, ClusterOk, Clears;
    FlimeFate(cfg.net, io, fd, k, PeriodBegin);
    var begun := DrainThenFlime(cfg.net, io, fd, k, PeriodBegin).0;
    if Clears(cfg.net, io) {
      EmptyClears(cfg.net, begun);
      FlimeFate(cfg.net, begun, fd, k, Route);
    }
  }

  /**
   * Everything else advancing does.  Without the guard, with no plan ready or without a number it does
   * nothing; an unclassified command or a request that fails drains the device to Legacy or fails it;
   * and a route already out is kept for its own buffer only.
   */
  lemma AdvanceOtherwise(cfg: Config, w: World, k: Handle, command: Handle, view: RouteView)
    requires k in w.core.devices && ClusterOk(w.io.cluster)
    ensures var d := w.core.devices[k];
            var (w', ok) := AdvanceRoute(cfg, w, k, command, view);
            && (d.failed ==> !ok && w' == w)
            && (!d.failed && d.early && d.earlyCommand == command ==> ok && w' == w)
            && (!d.failed && d.early && d.earlyCommand != command ==> w' == FallbackOrFail(cfg, w, k).0)
            && (!d.failed && !d.early && (!MayRelease(d, command) || view.NotReady?) ==> ok && w' == w)
            && (!d.failed && !d.early && MayRelease(d, command) && view.Ready? && !HasNumber(d.nextId) ==> ok && w' == w)
            && (!d.early && MayRelease(d, command) && view.HasOpaque? ==> OnlyDrains(w.io.log, w'.io.log, d.fd, k))
            && (!d.early && MayRelease(d, command) && (view.HasOpaque? || (view.Ready? && HasNumber(d.nextId)))
                  && !Released(cfg.net, w.io, d, command, view) ==>
                  if ok then w'.core.devices[k].stage == Legacy else w'.core.devices[k].failed)
  {
    hide FallbackOrFail, ClusterOk, Clears, SendRoute, MayRelease, RouteGuard, LegacyDevice;
    var d := w.core.devices[k];
    GuardReading(d, command);
    DrainedNotEarly(cfg, w, k);
    if HasNumber(d.nextId) && view.Ready? {
      SendRouteFate(cfg, w.io, d.fd, k, view.withdrawn, view.accepted);
      var (io, begun, sent) := SendRoute(cfg, w.io, d.fd, k, view.withdrawn, view.accepted);
      DrainedNotEarly(cfg, World(SetDevice(w.core, k, Told(Numbered(d), begun, view.withdrawn)), io), k);
    }
  }
}
