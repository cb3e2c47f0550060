/**
 * The state behind the guest mutex, and the device transitions several operations share.
 * One critical section is one function from world to world.
 */
module GuestState {
  import opened GuestTypes
  import opened Wire

  type Tid = nat

  datatype Stage = Detect | Learn | Match | Fast | Recover | Legacy

  datatype Command = Command(
    device: Handle, pool: Handle, generation: u64, recording: bool, executable: bool)

  datatype Semantic = Semantic(
    funId: nat, structural: seq<u64>, handles: seq<u64>, encodedBytes: u64,
    templateOffset: u64, dispatch: bool, isOpaque: bool, secondary: seq<u64>)

  datatype Stream = Stream(calls: seq<Semantic>, bytes: u64, dispatches: u32, generation: u64)

  datatype Device = Device(
    fd: int, stage: Stage, negotiated: bool,
    hasPage: bool, exposed: bool, tornDown: bool,
    queue: Handle, queues: set<Handle>, commands: map<Handle, Command>,
    failed: bool, lifecycle: nat,
    active: bool, token: u64, recovering: bool, nextId: u64,
    early: bool, earlyCommand: Handle, earlyId: u64)

  /** The thread-local marks a recording hook leaves for the write that follows it. */
  datatype Mark = Mark(
    funId: int, allow: bool, block: bool, flushAfter: bool, routeAfter: Handle, named: Handle)

  datatype Core = Core(
    devices: map<Handle, Device>,
    queueDevices: map<Handle, Handle>,
    commandDevices: map<Handle, Handle>,
    recorded: map<Handle, Stream>,
    marks: map<Tid, Mark>)

  datatype World = World(core: Core, io: Io)

  /** batching false gives the reference transport that sends every call on its own. */
  datatype Config = Config(net: Net, batching: bool)

  const U64_MAX: nat := 0xFFFF_FFFF_FFFF_FFFF
  const NO_MARK := Mark(-1, false, false, false, 0, 0)
  const INITIAL_CORE := Core(map[], map[], map[], map[], map[])
  const INITIAL_WORLD := World(INITIAL_CORE, INITIAL_IO)

  predicate Specialized(d: Device) { d.negotiated && d.stage != Detect && d.stage != Legacy }

  function MarkOf(core: Core, tid: Tid): Mark {
    if tid in core.marks then core.marks[tid] else NO_MARK
  }

  function SetMark(core: Core, tid: Tid, m: Mark): Core { core.(marks := core.marks[tid := m]) }

  function SetDevice(core: Core, k: Handle, d: Device): Core { core.(devices := core.devices[k := d]) }

  function WithDevice(w: World, k: Handle, d: Device): World { w.(core := SetDevice(w.core, k, d)) }

  function FailDevice(core: Core, k: Handle): Core
    requires k in core.devices
  {
    SetDevice(core, k, core.devices[k].(failed := true))
  }

  /** The device that owns a key of a global index, provided both index entries exist. */
  function Owner(index: map<Handle, Handle>, devices: map<Handle, Device>, key: Handle): Option<Handle> {
    if key in index && index[key] in devices then Some(index[key]) else None
  }

  function OwnerOf(core: Core, command: Handle): (o: Option<Handle>)
    ensures o.Some? ==> o.value in core.devices
  {
    Owner(core.commandDevices, core.devices, command)
  }

  function FailOwner(core: Core, command: Handle): Core {
    match OwnerOf(core, command) case None => core case Some(k) => FailDevice(core, k)
  }

  /** ClearActiveSubmit. */
  function Inactive(d: Device): Device { d.(active := false, token := 0, recovering := false) }

  /** EnterLegacy: leaves specialization and clears both the early and the active submission. */
  function LegacyDevice(d: Device): Device {
    Inactive(d).(stage := Legacy, negotiated := false, early := false, earlyCommand := 0, earlyId := 0)
  }

  /** Leaving specialization by an acknowledged synchronous drain of the host session. */
  function DrainedDevice(d: Device): Device {
    LegacyDevice(d).(exposed := false, tornDown := true, failed := false)
  }

  predicate CanNumber(d: Device) { 0 < d.nextId < U64_MAX }

  function Numbered(d: Device): Device
    requires CanNumber(d)
  {
    d.(nextId := d.nextId + 1)
  }

  /** FallbackToLegacyLocked; the answer is the submission id of the drain. */
  function Fallback(cfg: Config, w: World, k: Handle): (r: (World, Option<u64>))
    requires k in w.core.devices
    ensures k in r.0.core.devices
  {
    var d := w.core.devices[k];
    if !Specialized(d) || d.active || !CanNumber(d) then (w, None)
    else
      var (io, sent) := DrainThenFlime(cfg.net, w.io, d.fd, k, FallbackFlush);
      match sent
      case Refused => (w.(io := io), None)
      case Acked => (World(SetDevice(w.core, k, DrainedDevice(Numbered(d))), io), Some(d.nextId))
      case _ => (World(SetDevice(w.core, k, Numbered(d)), io), None)
  }

  /** FallbackToLegacyLocked whose failure marks the device. */
  function FallbackOrFail(cfg: Config, w: World, k: Handle): (r: (World, bool))
    requires k in w.core.devices
    ensures k in r.0.core.devices
  {
    var (w', id) := Fallback(cfg, w, k);
    if id.Some? then (w', true) else (w'.(core := FailDevice(w'.core, k)), false)
  }

  /** DrainEarlyRouteLocked. */
  function DrainEarly(cfg: Config, w: World, k: Handle): (r: (World, bool))
    requires k in w.core.devices
    ensures k in r.0.core.devices
  {
    if !w.core.devices[k].early then (w, true) else FallbackOrFail(cfg, w, k)
  }

  /** The devices visited by a hash-table walk, in the order it happens to visit them. */
  ghost predicate WalkOf(order: seq<Handle>, devices: map<Handle, Device>) {
    forall k :: k in order <==> k in devices
  }

  /** Drains the early routes of order[..n], stopping at the first failure. */
  function DrainUpTo(cfg: Config, w: World, order: seq<Handle>, n: nat): (World, bool)
    requires n <= |order|
  {
    if n == 0 then (w, true)
    else
      var (w', ok) := DrainUpTo(cfg, w, order, n - 1);
      if !ok || order[n - 1] !in w'.core.devices then (w', ok) else DrainEarly(cfg, w', order[n - 1])
  }

  /** DrainEarlyRoutesBeforeRawCallLocked. */
  function DrainGate(cfg: Config, w: World, funId: nat, order: seq<Handle>): (World, bool) {
    if EarlyRouteBarrier(funId) then DrainUpTo(cfg, w, order, |order|) else (w, true)
  }

  /**
   * What the route planner knows about the period when it is asked to advance: whether the
   * recorded graph matches the learned one, and whether it contains an unclassified command.  If
   * it is ready, the host may withdraw the session when the period is announced, and may refuse
   * the records routed.
   */
  datatype RouteView = NotReady | HasOpaque | Ready(withdrawn: bool, accepted: bool)

  /** What becomes of a device whose control reply asks for Legacy; a reply not reached says nothing. */
  function Told(d: Device, reached: Outcome, withdrawn: bool): Device {
    if reached != Refused && withdrawn then LegacyDevice(d) else d
  }

  predicate RouteGuard(d: Device, command: Handle) {
    && d.stage == Fast && d.negotiated && !d.active && command != 0
    && d.queue != 0 && d.queues == {d.queue}
    && command in d.commands && !d.commands[command].recording && d.commands[command].executable
  }

  /** MaybeAdvanceFastRouteLocked: sends every chunk but the last ahead of the submit. */
  function AdvanceRoute(cfg: Config, w: World, k: Handle, command: Handle, view: RouteView): (r: (World, bool))
    requires k in w.core.devices
    ensures k in r.0.core.devices
  {
    var d := w.core.devices[k];
    if d.failed then (w, false)
    else if d.early then
      if d.earlyCommand == command then (w, true) else FallbackOrFail(cfg, w, k)
    else if !RouteGuard(d, command) || view == NotReady then (w, true)
    else if view == HasOpaque then FallbackOrFail(cfg, w, k)
    else if !CanNumber(d) then (w, true)
    else
      var (io, begun, sent) := SendRoute(cfg, w.io, d.fd, k, view.withdrawn, view.accepted);
      var numbered := Numbered(d);
      if sent
      then (World(SetDevice(w.core, k, numbered.(early := true, earlyCommand := command, earlyId := d.nextId)),
                  io), true)
      else FallbackOrFail(cfg, World(SetDevice(w.core, k, Told(numbered, begun, view.withdrawn)), io), k)
  }

  /**
   * A period announcement and, once it is acknowledged and not answered by a withdrawal, the routed
   * records themselves; the answers are the fate of the announcement and whether all went well.
   */
  function SendRoute(
      cfg: Config, io: Io, fd: int, k: Handle, withdrawn: bool, accepted: bool): (Io, Outcome, bool)
  {
    var (begun, sent) := DrainThenFlime(cfg.net, io, fd, k, PeriodBegin);
    if sent != Acked || withdrawn then (begun, sent, false)
    else
      var (routed, sent') := DrainThenFlime(cfg.net, begun, fd, k, Route);
      (routed, sent, sent' == Acked && accepted)
  }

  /** The recorded stream limits. */
  const MAX_SEMANTIC_CALLS: nat := 256 * 1024
  const MAX_TEMPLATE_BYTES: nat := 256 * 1024 * 1024

  /** AppendSemantic; the subtraction and the sum are those of 64-bit unsigned numbers. */
  function AppendSemantic(s: Stream, call: Semantic): Option<Stream> {
    var bytes := if call.encodedBytes == 0 then 1 else call.encodedBytes;
    var room := (MAX_TEMPLATE_BYTES - bytes) % (U64_MAX + 1);
    if s.bytes > room || |s.calls| >= MAX_SEMANTIC_CALLS then None
    else Some(Stream(s.calls + [call.(encodedBytes := bytes, templateOffset := s.bytes)],
                     (s.bytes + bytes) % (U64_MAX + 1),
                     if call.dispatch then (s.dispatches + 1) % 0x1_0000_0000 else s.dispatches,
                     s.generation))
  }

  /** The template bytes of the first n recorded calls. */
  function SizeUpTo(calls: seq<Semantic>, n: nat): nat
    requires n <= |calls|
  {
    if n == 0 then 0 else SizeUpTo(calls, n - 1) + calls[n - 1].encodedBytes
  }

  function DispatchesUpTo(calls: seq<Semantic>, n: nat): nat
    requires n <= |calls|
  {
    if n == 0 then 0 else DispatchesUpTo(calls, n - 1) + if calls[n - 1].dispatch then 1 else 0
  }

  /**
   * The recorded calls lie one after the other in the template, and the stream's own totals are
   * theirs, in 64- and 32-bit arithmetic.
   */
  predicate Laid(s: Stream) {
    && |s.calls| <= MAX_SEMANTIC_CALLS
    && s.bytes == SizeUpTo(s.calls, |s.calls|) % (U64_MAX + 1)
    && s.dispatches == DispatchesUpTo(s.calls, |s.calls|) % 0x1_0000_0000
    && forall i: nat | i < |s.calls| ::
         s.calls[i].encodedBytes >= 1 && s.calls[i].templateOffset == SizeUpTo(s.calls, i) % (U64_MAX + 1)
  }

  const EMPTY_STREAM := Stream([], 0, 0, 0)

  function StreamOf(core: Core, command: Handle): Stream {
    if command in core.recorded then core.recorded[command] else EMPTY_STREAM
  }

  /** AppendCommandSemanticLocked: only a buffer being recorded on a live device gains an entry. */
  function RecordSemantic(core: Core, command: Handle, call: Semantic): (r: Option<Core>)
    ensures r.Some? ==> r.value == core.(recorded := r.value.recorded)
  {
    match OwnerOf(core, command)
    case None => None
    case Some(k) =>
      var d := core.devices[k];
      if d.stage == Legacy || command !in d.commands || !d.commands[command].recording then None
      else
        match AppendSemantic(StreamOf(core, command), call)
        case None => None
        case Some(s) => Some(core.(recorded := core.recorded[command := s]))
  }
}
