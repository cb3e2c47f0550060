/** Devices, queues and command buffers coming, changing and going. */
module RegistryOps {
  import opened GuestTypes
  import opened Wire
  import opened GuestState

  /** Generations are 64-bit and skip zero when they wrap. */
  function NextGeneration(g: u64): u64 {
    if g == U64_MAX then 1 else g + 1
  }

  // ------------------------------------------------------------------ devices

  function FreshDevice(fd: int, hasPage: bool): Device {
    Device(fd, if hasPage then Detect else Legacy, false, hasPage, false, false,
           0, {}, map[], false, 0, false, 0, false, 1, false, 0, 0)
  }

  /** The device after a capability request that fared as told; refused means the host wants Legacy. */
  function Negotiated(d: Device, sent: Outcome, refused: bool): Device {
    var exposed := if sent == Refused then d else d.(exposed := true);
    if sent != Acked then exposed.(failed := true)
    else if refused then LegacyDevice(exposed)
    else exposed.(negotiated := true, stage := Detect)
  }

  /** NegotiateCapabilitiesLocked followed by the caller's failure handling. */
  function Negotiate(cfg: Config, w: World, k: Handle, refused: bool): (r: (World, bool))
    requires k in w.core.devices
    ensures k in r.0.core.devices
  {
    var d := w.core.devices[k];
    var (io, sent) := DrainThenFlime(cfg.net, w.io, d.fd, k, Capabilities);
    (World(SetDevice(w.core, k, Negotiated(d, sent, refused)), io), sent == Acked && !refused)
  }

  /**
   * FlimeGuestRegisterDevice; page says whether the control page could be allocated, and
   * refused whether the host answered the capability request by asking for Legacy.
   */
  function RegisterDevice(
      cfg: Config, w: World, k: Handle, fd: int, page: bool, refused: bool): World
  {
    if fd < 0 || k == 0 then w
    else if k in w.core.devices then w.(core := FailDevice(w.core, k))
    else
      var d := FreshDevice(fd, page);
      if !page then WithDevice(w, k, d) else Negotiate(cfg, WithDevice(w, k, d), k, refused).0
  }

  /** The global entries of every key that maps to a device other than k. */
  function WithoutOwner(index: map<Handle, Handle>, k: Handle): map<Handle, Handle> {
    map key | key in index && index[key] != k :: index[key]
  }

  /** FlimeGuestDestroyDevice together with RemoveDeviceMappingsLocked. */
  function DestroyDevice(core: Core, k: Handle): Core {
    if k !in core.devices then core
    else core.(
      devices := core.devices - {k},
      queueDevices := WithoutOwner(core.queueDevices, k),
      recorded := map c | c in core.recorded && !(c in core.commandDevices && core.commandDevices[c] == k)
                    :: core.recorded[c],
      commandDevices := WithoutOwner(core.commandDevices, k))
  }

  // ------------------------------------------------------------------- queues

  /** FlimeGuestRegisterQueue. */
  function RegisterQueue(cfg: Config, w: World, k: Handle, queue: Handle): World {
    if queue == 0 || k !in w.core.devices then w
    else
      var (w', ok) := if w.core.devices[k].queues != {queue} then DrainEarly(cfg, w, k) else (w, true);
      if !ok then w'
      else
        var core, d := w'.core, w'.core.devices[k];
        if queue in core.queueDevices && core.queueDevices[queue] != k
        then w'.(core := FailDevice(core, k))
        else w'.(core := SetDevice(core, k, d.(queues := d.queues + {queue}))
                           .(queueDevices := core.queueDevices[queue := k]))
  }

  // ---------------------------------------------------------- command buffers

  const FRESH_STREAM := Stream([], 0, 0, 1)

  function FreshCommand(k: Handle, pool: Handle): Command { Command(k, pool, 1, false, false) }

  /** Every handle of a batch with the same value. */
  function Each<V>(batch: seq<Handle>, v: V): map<Handle, V> { map c | c in batch :: v }

  predicate BadHandle(core: Core, d: Device, c: Handle) {
    c == 0 || c in d.commands || c in core.commandDevices
  }

  /** FlimeGuestRegisterCommandBuffers: all of the batch or none of it. */
  function RegisterCommands(core: Core, k: Handle, pool: Handle, batch: seq<Handle>): Core {
    if k !in core.devices then core
    else
      var d := core.devices[k];
      if exists c <- batch :: BadHandle(core, d, c) then FailDevice(core, k)
      else SetDevice(core, k, d.(commands := d.commands + Each(batch, FreshCommand(k, pool))))
             .(recorded := core.recorded + Each(batch, FRESH_STREAM),
               commandDevices := core.commandDevices + Each(batch, k))
  }

  /** NoteEarlyCommandMutationLocked: a failed drain is recorded on the device only. */
  function NoteMutation(cfg: Config, w: World, k: Handle): (r: World)
    requires k in w.core.devices
    ensures k in r.core.devices
  {
    DrainEarly(cfg, w, k).0
  }

  /** The buffers of a batch that live in the pool the caller names. */
  predicate Freeable(d: Device, pool: Handle, c: Handle) { c in d.commands && d.commands[c].pool == pool }

  function Freed(d: Device, pool: Handle, batch: seq<Handle>): set<Handle> {
    set c | c in batch && Freeable(d, pool, c)
  }

  function PoolMembers(d: Device, pool: Handle): set<Handle> {
    set c: Handle | c in d.commands && d.commands[c].pool == pool
  }

  predicate Repeats(batch: seq<Handle>) {
    exists i: nat, j: nat | i < j < |batch| :: batch[i] == batch[j]
  }

  function RemoveCommands(core: Core, k: Handle, gone: set<Handle>): Core
    requires k in core.devices
  {
    var d := core.devices[k];
    SetDevice(core, k, d.(commands := d.commands - gone))
      .(recorded := core.recorded - gone, commandDevices := core.commandDevices - gone)
  }

  /**
   * FlimeGuestFreeCommandBuffers.  A handle named twice is already gone the second time, so a
   * specialized device fails on a foreign handle and on a repeated one.
   */
  function FreeCommands(cfg: Config, w: World, k: Handle, pool: Handle, batch: seq<Handle>): World {
    var flushed := w.(io := Flush(cfg.net, w.io).0);
    if k !in w.core.devices then flushed
    else
      var noted := NoteMutation(cfg, flushed, k);
      var d := noted.core.devices[k];
      var core := RemoveCommands(noted.core, k, Freed(d, pool, batch));
      if Specialized(d) && ((exists c <- batch :: !Freeable(d, pool, c)) || Repeats(batch))
      then noted.(core := FailDevice(core, k)) else noted.(core := core)
  }

  /** FlimeGuestDestroyCommandPool. */
  function DestroyPool(cfg: Config, w: World, k: Handle, pool: Handle): World {
    var flushed := w.(io := Flush(cfg.net, w.io).0);
    if k !in w.core.devices then flushed
    else
      var noted := NoteMutation(cfg, flushed, k);
      var d := noted.core.devices[k];
      noted.(core := RemoveCommands(noted.core, k, PoolMembers(d, pool)))
  }

  /** A buffer back in the initial state, or in the recording state, with a new generation. */
  function Renewed(c: Command, recording: bool): Command {
    c.(generation := NextGeneration(c.generation), recording := recording, executable := false)
  }

  function RenewedStream(c: Command): Stream { Stream([], 0, 0, NextGeneration(c.generation)) }

  /** The buffers of a pool back in the initial state; the others as they are. */
  function Cleared(commands: map<Handle, Command>, pool: Handle): map<Handle, Command> {
    map c | c in commands :: if commands[c].pool == pool then Renewed(commands[c], false) else commands[c]
  }

  function ClearedStreams(commands: map<Handle, Command>, pool: Handle): map<Handle, Stream> {
    map c | c in commands && commands[c].pool == pool :: RenewedStream(commands[c])
  }

  /** FlimeGuestResetCommandPool after a successful reset. */
  function ResetPool(cfg: Config, w: World, k: Handle, pool: Handle): World {
    if k !in w.core.devices then w
    else
      var noted := NoteMutation(cfg, w, k);
      var core, d := noted.core, noted.core.devices[k];
      noted.(core := SetDevice(core, k, d.(commands := Cleared(d.commands, pool)))
               .(recorded := core.recorded + ClearedStreams(d.commands, pool)))
  }

  /** FlimeGuestBeginCommandBuffer and FlimeGuestResetCommandBuffer after a successful call. */
  function RenewCommand(cfg: Config, w: World, c: Handle, recording: bool): World {
    match OwnerOf(w.core, c)
    case None => w
    case Some(k) =>
      var noted := NoteMutation(cfg, w, k);
      var core, d := noted.core, noted.core.devices[k];
      if c !in d.commands then noted
      else noted.(core := SetDevice(core, k, d.(commands := d.commands[c := Renewed(d.commands[c], recording)]))
                    .(recorded := core.recorded[c := RenewedStream(d.commands[c])]))
  }

  function Ended(c: Command): Command { c.(recording := false, executable := true) }

  /** FlimeGuestEndCommandBuffer after a successful call. */
  function EndCommand(cfg: Config, w: World, c: Handle, view: RouteView): World {
    match OwnerOf(w.core, c)
    case None => w
    case Some(k) =>
      var d := w.core.devices[k];
      if c !in d.commands || !d.commands[c].recording
      then if Specialized(d) then w.(core := FailDevice(w.core, k)) else w
      else
        var ended := WithDevice(w, k, d.(commands := d.commands[c := Ended(d.commands[c])]));
        var (w', ok) := AdvanceRoute(cfg, ended, k, c, view);
        if ok then w' else w'.(core := FailDevice(w'.core, k))
  }
}
