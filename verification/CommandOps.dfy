/** The ordering point for ordinary writes, and the recording hooks that precede them. */
module CommandOps {
  import opened GuestTypes
  import opened ClusterCodec
  import opened Wire
  import opened GuestState

  // -------------------------------------------------------------------- marks

  /** MarkPreWriteSemantic. */
  function MarkPre(core: Core, tid: Tid, funId: nat, allow: bool): Core {
    SetMark(core, tid, Mark(funId, allow, false, false, 0, 0))
  }

  /** FailNamedWriteLocked; unlike the other marks it keeps the named command. */
  function FailNamed(core: Core, tid: Tid, owner: Option<Handle>, funId: nat): Core
    requires owner.Some? ==> owner.value in core.devices
  {
    var marked := SetMark(core, tid, Mark(funId, false, true, false, 0, MarkOf(core, tid).named));
    if owner.Some? then FailDevice(marked, owner.value) else marked
  }

  // -------------------------------------------------------------------- hooks

  /**
   * RecordCommandCallLocked for a command whose hook allows clustering, and with the same branches
   * FlimeGuestCmdExecuteCommands; complete is false when its counted array is missing.
   */
  function RecordHook(
      cfg: Config, w: World, tid: Tid, command: Handle, call: Semantic, complete: bool): (World, bool)
  {
    match OwnerOf(w.core, command)
    case None => (w.(core := MarkPre(w.core, tid, call.funId, false)), true)
    case Some(k) =>
      var d := w.core.devices[k];
      if d.stage == Legacy then (w.(core := MarkPre(w.core, tid, call.funId, false)), true)
      else if d.failed then (w.(core := FailNamed(w.core, tid, Some(k), call.funId)), false)
      else if d.early then
        var (drained, ok) := DrainEarly(cfg, w, k);
        if ok then (drained.(core := MarkPre(drained.core, tid, call.funId, false)), true)
        else (drained.(core := FailNamed(drained.core, tid, Some(k), call.funId)), false)
      else
        match if complete then RecordSemantic(w.core, command, call) else None
        case None => (w.(core := FailNamed(w.core, tid, Some(k), call.funId)), false)
        case Some(core) => (w.(core := SetMark(core, tid, RecordedMark(d, command, call.funId))), true)
  }

  /** The mark left by a recorded command. */
  function RecordedMark(d: Device, command: Handle, funId: nat): Mark {
    Mark(funId, Specialized(d) && TypeICluster(funId), false, false, 0, command)
  }

  /** Dispatch hooks; boundary is the planner's answer about this dispatch. */
  function DispatchHook(
      cfg: Config, w: World, tid: Tid, command: Handle, call: Semantic, boundary: bool): World
  {
    var (w', recorded) := RecordHook(cfg, w, tid, command, call, true);
    if recorded && boundary && OwnerOf(w'.core, command).Some? && command in w'.core.recorded
    then w'.(core := SetMark(w'.core, tid, MarkOf(w'.core, tid).(flushAfter := true, routeAfter := command)))
    else w'
  }

  /** A bind whose counted arrays are missing fails the write that follows it. */
  function BadBindHook(w: World, tid: Tid, command: Handle, funId: nat): World {
    w.(core := FailNamed(w.core, tid, OwnerOf(w.core, command), funId))
  }

  // ----------------------------------------------------------- ordinary write

  /** A clusterable call: batched, or sent on its own by the reference transport. */
  function AppendOrSend(cfg: Config, io: Io, fd: int, call: Call): (Io, bool) {
    if cfg.batching then AppendOwned(cfg.net, io, fd, call) else DrainThenSingle(cfg.net, io, fd, call)
  }

  predicate Named(m: Mark, call: Call) { m.funId == call.funId }

  predicate MayCluster(m: Mark, call: Call, sync: bool) {
    Named(m, call) && m.allow && !sync && call.deviceId == GPU_DEVICE_ID && TypeICluster(call.funId)
  }

  /** The clustered half of FlimeGuestWrite, once the marks have been consumed. */
  function ClusterWrite(cfg: Config, w: World, m: Mark, fd: int, call: Call, view: RouteView): (World, bool) {
    var (io, ok) := AppendOrSend(cfg, w.io, fd, call);
    if !ok then (World(FailOwner(w.core, m.named), io), false)
    else
      var (io', flushed) := if m.flushAfter then Flush(cfg.net, io) else (io, true);
      if !flushed then (World(FailOwner(w.core, m.named), io'), false)
      else if m.routeAfter == 0 then (w.(io := io'), true)
      else
        match OwnerOf(w.core, m.routeAfter)
        case None => (w.(io := io'), false)
        case Some(k) =>
          var (routed, advanced) := AdvanceRoute(cfg, w.(io := io'), k, m.routeAfter, view);
          if advanced then (routed, true) else (routed.(core := FailDevice(routed.core, k)), false)
  }

  /** The direct half of FlimeGuestWrite. */
  function DirectWrite(cfg: Config, w: World, owner: Handle, fd: int, call: Call): (World, bool) {
    var (drained, ok) := Flush(cfg.net, w.io);
    if !ok then (World(FailOwner(w.core, owner), drained), false)
    else
      var (io, sent) := SendSingle(cfg.net, drained, fd, call);
      if sent || owner == 0 then (w.(io := io), sent) else (World(FailOwner(w.core, owner), io), false)
  }

  /** FlimeGuestWrite. */
  function Write(
      cfg: Config, w: World, tid: Tid, fd: int, call: Call, sync: bool,
      view: RouteView, order: seq<Handle>): (World, bool)
  {
    var (drained, ok) := DrainGate(cfg, w, call.funId, order);
    if !ok then (drained, false)
    else
      var m := MarkOf(drained.core, tid);
      var w' := drained.(core := SetMark(drained.core, tid, NO_MARK));
      if Named(m, call) && m.block then (w', false)
      else if MayCluster(m, call, sync) then ClusterWrite(cfg, w', m, fd, call, view)
      else DirectWrite(cfg, w', if Named(m, call) then m.named else 0, fd, call)
  }

  // ------------------------------------------------------------ command write

  /** The size a generated command reports for its semantic entry. */
  function EncodedBytes(call: Call): u64 {
    var n := CallBytes(call) + |PayloadOf(call.params)|;
    n % (U64_MAX + 1)
  }

  function GenericSemantic(call: Call, isOpaque: bool): Semantic {
    Semantic(call.funId, [], [], EncodedBytes(call), 0, false, isOpaque, [])
  }

  predicate ClusterCandidate(core: Core, owner: Option<Handle>, call: Call, sync: bool)
    requires owner.Some? ==> owner.value in core.devices
  {
    owner.Some? && Specialized(core.devices[owner.value]) && !core.devices[owner.value].failed &&
    !core.devices[owner.value].early && TypeIWildcard(call.funId) && !sync
  }

  function FailMaybe(core: Core, owner: Option<Handle>): Core
    requires owner.Some? ==> owner.value in core.devices
  {
    if owner.Some? then FailDevice(core, owner.value) else core
  }

  /**
   * The semantic step: the command joins its buffer's recorded stream, or the device leaves
   * specialization, or the write fails.
   */
  function SemanticStep(cfg: Config, w: World, k: Handle, command: Handle, call: Call): (r: (World, bool))
    requires k in w.core.devices
    ensures k in r.0.core.devices
  {
    var d := w.core.devices[k];
    var unsafe := !TypeIWildcard(call.funId);
    if d.stage == Legacy then (w, true)
    else
      match RecordSemantic(w.core, command, GenericSemantic(call, unsafe))
      case None =>
        if Specialized(d) then FallbackOrFail(cfg, w, k)
        else (WithDevice(w, k, LegacyDevice(d)), true)
      case Some(core) =>
        if unsafe && Specialized(d) then FallbackOrFail(cfg, w.(core := core), k)
        else (w.(core := core), true)
  }

  /** Sends or batches a command once its semantics are settled. */
  function EmitCommand(cfg: Config, w: World, owner: Option<Handle>, fd: int, call: Call, sync: bool): (World, bool)
    requires owner.Some? ==> owner.value in w.core.devices
  {
    if ClusterCandidate(w.core, owner, call, sync) then
      var (io, ok) := AppendOrSend(cfg, w.io, fd, call);
      (World(if ok then w.core else FailMaybe(w.core, owner), io), ok)
    else
      var (io, ok) := DrainThenSingle(cfg.net, w.io, fd, call);
      (World(if ok then w.core else FailMaybe(w.core, owner), io), ok)
  }

  /** The part of a command write that follows its first flush. */
  function Settled(cfg: Config, w: World, k: Handle, command: Handle, fd: int, call: Call, sync: bool): (World, bool)
    requires k in w.core.devices
  {
    var (drained, gone) := DrainEarly(cfg, w, k);
    if !gone then (drained, false)
    else
      var (settled, ok) := SemanticStep(cfg, drained, k, command, call);
      if !ok then (settled, false) else EmitCommand(cfg, settled, Some(k), fd, call, sync)
  }

  /** FlimeGuestWriteCommand. */
  function WriteCommand(cfg: Config, w: World, fd: int, call: Call, sync: bool, command: Handle): (World, bool) {
    if command == 0 || call.deviceId != GPU_DEVICE_ID then (w, false)
    else
      var owner := OwnerOf(w.core, command);
      if !call.framed then (w.(core := FailMaybe(w.core, owner)), false)
      else
        var (io, ok) := if ClusterCandidate(w.core, owner, call, sync) then (w.io, true)
                        else Flush(cfg.net, w.io);
        if !ok then (World(FailMaybe(w.core, owner), io), false)
        else if owner == None then EmitCommand(cfg, w.(io := io), None, fd, call, sync)
        else Settled(cfg, w.(io := io), owner.value, command, fd, call, sync)
  }
}
