/**
 * Ledger lockstep over whole runs: as long as its device stays out of Legacy and unfailed, the
 * recorded stream of a buffer consists of exactly the commands issued on it since it was last begun
 * or reset, in order and laid out one behind the other, whatever else happens in between; and those
 * of them that were written are in the host's history in the same order.
 */
module LedgerRun {
  import opened GuestTypes
  import opened Wire
  import opened GuestState
  import opened CommandOps
  import opened RegistryOps
  import opened SubmitOps
  import opened Machine
  import opened Evolution
  import opened SubmitProofs
  import opened Ledger
  import opened Lifecycle
  import History
  import TeardownOnce

  /** The buffer is registered and its device neither failed nor in Legacy. */
  predicate Live(core: Core, c: Handle) {
    && OwnerOf(core, c).Some?
    && var d := core.devices[OwnerOf(core, c).value]; c in d.commands && d.stage != Legacy && !d.failed
  }

  /** A command issued on a buffer: recorded by a hook, or written and then at this place of the log. */
  datatype Item = Hooked(semantic: Semantic) | Written(fd: int, call: Call, at: nat)

  function SemanticOf(item: Item): Semantic {
    match item case Hooked(semantic) => semantic case Written(_, call, _) => WrittenSemantic(call)
  }

  /** What a call event issues on buffer c. */
  function ItemOf(w: World, e: CallEvent, c: Handle): Option<Item> {
    match e
    case WriteRecorded(fd, call, _, command) =>
      if command == c && call.deviceId == GPU_DEVICE_ID then Some(Written(fd, call, |w.io.log|)) else None
    case HookRecord(_, command, semantic, _) => if command == c then Some(Hooked(semantic)) else None
    case HookDispatch(_, command, semantic, _) => if command == c then Some(Hooked(semantic)) else None
    case _ => None
  }

  /** What an event adds to the commands issued on buffer c; a begin or reset starts over. */
  function Issued(items: seq<Item>, w: World, e: Event, c: Handle): seq<Item> {
    match e
    case OfCall(call) => (match ItemOf(w, call, c) case None => items case Some(item) => items + [item])
    case OfRegistry(r) =>
      var change := Concerning(w.core, r, c);
      if change.Opened? || change.Cleaned? || change.Born? then [] else items
    case _ => items
  }

  /** The commands issued on c so far, those in its stream at the start of the run included. */
  function IssuedBy(cfg: Config, w: World, events: seq<Event>, n: nat, c: Handle): seq<Item>
    requires n <= |events|
  {
    if n == 0 then Found(StreamOf(w.core, c))
    else Issued(IssuedBy(cfg, w, events, n - 1, c), Run(cfg, w, events, n - 1), events[n - 1], c)
  }

  function Found(s: Stream): seq<Item> {
    seq(|s.calls|, i requires 0 <= i < |s.calls| => Hooked(s.calls[i]))
  }

  /** The entries of the first n commands, each behind the template bytes of those before it. */
  function LaidOut(items: seq<Item>, n: nat): (calls: seq<Semantic>)
    requires n <= |items|
    ensures |calls| == n
  {
    if n == 0 then []
    else
      var before := LaidOut(items, n - 1);
      before + [Stamped(SemanticOf(items[n - 1]), SizeUpTo(before, n - 1) % (U64_MAX + 1))]
  }

  /** Every written command stands in the log where it was put, and in the order they were issued. */
  predicate InLog(items: seq<Item>, log: seq<Entry>) {
    && (forall i | 0 <= i < |items| && items[i].Written? ::
          items[i].at < |log| && log[items[i].at] == Ran(items[i].fd, Received(items[i].call)))
    && (forall i, j | 0 <= i < j < |items| && items[i].Written? && items[j].Written? :: items[i].at < items[j].at)
  }

  // ------------------------------------------------------------ commands on a buffer

  /** The stream after a command: the item's entry behind those already there. */
  predicate Gained(core: Core, core': Core, c: Handle, item: Option<Item>) {
    var s, s' := StreamOf(core, c), StreamOf(core', c);
    match item
    case None => s' == s
    case Some(x) => s'.calls == s.calls + [Stamped(SemanticOf(x), s.bytes)]
  }

  lemma LiveAt(core: Core, c: Handle, k: Handle)
    requires OwnerOf(core, c) == Some(k) && Live(core, c)
    ensures core.devices[k].stage != Legacy && !core.devices[k].failed
  {
  }

  lemma OwnerKept(core: Core, core': Core, c: Handle)
    requires QuietCore(core, core')
    ensures OwnerOf(core', c) == OwnerOf(core, c)
  {
    hide SameStreams, TameDevice, QuietDevice;
  }

  lemma HookIssues(cfg: Config, w: World, tid: Tid, c: Handle, semantic: Semantic, complete: bool)
    requires Live(w.core, c) && Live(RecordHook(cfg, w, tid, c, semantic, complete).0.core, c)
    ensures Gained(w.core, RecordHook(cfg, w, tid, c, semantic, complete).0.core, c, Some(Hooked(semantic)))
  {
    hide RecordHook, QuietCore, KeepsOrder;
    var k, w' := OwnerOf(w.core, c).value, RecordHook(cfg, w, tid, c, semantic, complete).0;
    HookFailsClosed(cfg, w, tid, c, semantic, complete, k);
    RecordHookQuiet(cfg, w, tid, c, semantic, complete);
    OwnerKept(w.core, w'.core, c);
    LiveAt(w'.core, c, k);
  }

  lemma DispatchIssues(cfg: Config, w: World, tid: Tid, c: Handle, semantic: Semantic, boundary: bool)
    requires Live(w.core, c) && Live(DispatchHook(cfg, w, tid, c, semantic, boundary).core, c)
    ensures Gained(w.core, DispatchHook(cfg, w, tid, c, semantic, boundary).core, c, Some(Hooked(semantic)))
  {
    hide RecordHook;
    HookIssues(cfg, w, tid, c, semantic, true);
  }

  lemma WriteIssues(cfg: Config, w: World, fd: int, call: Call, sync: bool, c: Handle)
    requires Good(w) && call.deviceId == GPU_DEVICE_ID
    requires Live(w.core, c) && Live(WriteCommand(cfg, w, fd, call, sync, c).0.core, c)
    ensures var w' := WriteCommand(cfg, w, fd, call, sync, c).0;
            && Gained(w.core, w'.core, c, Some(Written(fd, call, |w.io.log|)))
            && w'.io.log == w.io.log + [Ran(fd, Received(call))]
  {
    hide WriteCommand, QuietCore, KeepsOrder, IoOk, Coherent, AllHeld;
    var k, w' := OwnerOf(w.core, c).value, WriteCommand(cfg, w, fd, call, sync, c).0;
    BufferOwner(w.core, c);
    WriteCommandLockstep(cfg, w, fd, call, sync, c, k);
    WriteCommandQuiet(cfg, w, fd, call, sync, c);
    OwnerKept(w.core, w'.core, c);
    LiveAt(w'.core, c, k);
  }

  // --------------------------------------------------------- commands on other buffers

  predicate Spares(core: Core, core': Core, c: Handle) { StreamOf(core', c) == StreamOf(core, c) }

  lemma HookSpares(cfg: Config, w: World, tid: Tid, command: Handle, semantic: Semantic, complete: bool, c: Handle)
    requires c != command
    ensures Spares(w.core, RecordHook(cfg, w, tid, command, semantic, complete).0.core, c)
  {
    hide DrainEarly, RecordSemantic, RecordedMark, Quiet;
    match OwnerOf(w.core, command)
    case None =>
    case Some(k) =>
      DrainEarlyQuiet(cfg, w, k);
      RecordSpares(w.core, command, semantic, c);
  }

  lemma RecordSpares(core: Core, command: Handle, semantic: Semantic, c: Handle)
    requires c != command
    ensures var r := RecordSemantic(core, command, semantic); r.Some? ==> Spares(core, r.value, c)
  {
    hide AppendSemantic;
  }

  lemma WriteSpares(cfg: Config, w: World, fd: int, call: Call, sync: bool, command: Handle, c: Handle)
    requires c != command
    ensures Spares(w.core, WriteCommand(cfg, w, fd, call, sync, command).0.core, c)
  {
    hide Settled, EmitCommand, Flush, Quiet, ClusterCandidate;
    var owner := OwnerOf(w.core, command);
    var flushed := w.(io := Flush(cfg.net, w.io).0);
    EmitQuiet(cfg, w, None, fd, call, sync);
    EmitQuiet(cfg, flushed, None, fd, call, sync);
    if owner.Some? {
      SettledSpares(cfg, w, owner.value, command, fd, call, sync, c);
      SettledSpares(cfg, flushed, owner.value, command, fd, call, sync, c);
    }
  }

  lemma SettledSpares(cfg: Config, w: World, k: Handle, command: Handle, fd: int, call: Call, sync: bool, c: Handle)
    requires k in w.core.devices && c != command
    ensures Spares(w.core, Settled(cfg, w, k, command, fd, call, sync).0.core, c)
  {
    hide DrainEarly, SemanticStep, EmitCommand, Quiet;
    DrainEarlyQuiet(cfg, w, k);
    var (drained, gone) := DrainEarly(cfg, w, k);
    if gone {
      StepSpares(cfg, drained, k, command, call, c);
      EmitQuiet(cfg, SemanticStep(cfg, drained, k, command, call).0, Some(k), fd, call, sync);
    }
  }

  lemma StepSpares(cfg: Config, w: World, k: Handle, command: Handle, call: Call, c: Handle)
    requires k in w.core.devices && c != command
    ensures Spares(w.core, SemanticStep(cfg, w, k, command, call).0.core, c)
  {
    hide FallbackOrFail, RecordSemantic, GenericSemantic, Quiet;
    var semantic := GenericSemantic(call, !TypeIWildcard(call.funId));
    RecordSpares(w.core, command, semantic, c);
    FallbackOrFailQuiet(cfg, w, k);
    var recorded := RecordSemantic(w.core, command, semantic);
    if recorded.Some? { FallbackOrFailQuiet(cfg, w.(core := recorded.value), k); }
  }

  /** Every call event moves the ledger of a live buffer exactly as issued. */
  lemma CallIssues(cfg: Config, w: World, e: CallEvent, c: Handle)
    requires Good(w) && Live(w.core, c) && Live(PerformCall(cfg, w, e).core, c)
    ensures Gained(w.core, PerformCall(cfg, w, e).core, c, ItemOf(w, e, c))
    ensures ItemOf(w, e, c).Some? && ItemOf(w, e, c).value.Written? ==>
              PerformCall(cfg, w, e).io.log == w.io.log + [Ran(e.fd, Received(e.call))]
  {
    hide Good, Live, Write, WriteCommand, RecordHook, DispatchHook, Flush, Quiet;
    match e
    case WriteCall(tid, fd, call, sync, route, order) => WriteQuiet(cfg, w, tid, fd, call, sync, route, order);
    case WriteRecorded(fd, call, sync, command) =>
      if command != c {
        WriteSpares(cfg, w, fd, call, sync, command, c);
      } else if call.deviceId == GPU_DEVICE_ID {
        WriteIssues(cfg, w, fd, call, sync, c);
      } else {
        Misaddressed(cfg, w, fd, call, sync, c);
      }
    case FlushTransport =>
    case HookRecord(tid, command, semantic, complete) =>
      if command == c { HookIssues(cfg, w, tid, c, semantic, complete); }
      else { HookSpares(cfg, w, tid, command, semantic, complete, c); }
    case HookDispatch(tid, command, semantic, boundary) =>
      if command == c { DispatchIssues(cfg, w, tid, c, semantic, boundary); }
      else { DispatchSpares(cfg, w, tid, command, semantic, boundary, c); }
    case HookBadBind(tid, command, funId) =>
  }

  lemma Misaddressed(cfg: Config, w: World, fd: int, call: Call, sync: bool, c: Handle)
    requires call.deviceId != GPU_DEVICE_ID
    ensures WriteCommand(cfg, w, fd, call, sync, c) == (w, false)
  {
  }

  lemma DispatchSpares(cfg: Config, w: World, tid: Tid, command: Handle, semantic: Semantic, boundary: bool, c: Handle)
    requires c != command
    ensures Spares(w.core, DispatchHook(cfg, w, tid, command, semantic, boundary).core, c)
  {
    hide RecordHook;
    HookSpares(cfg, w, tid, command, semantic, true, c);
  }

  // ------------------------------------------------------------------ other events

  /** A stream that a begin or reset emptied, or that nothing touched. */
  predicate Renews(core: Core, core': Core, e: RegistryEvent, c: Handle) {
    var change := Concerning(core, e, c);
    if change.Opened? || change.Cleaned? then StreamOf(core', c).calls == [] else Spares(core, core', c)
  }

  lemma RegistryIssues(cfg: Config, w: World, e: RegistryEvent, c: Handle)
    requires Good(w) && Buffer(w.core, c).Some? && !Concerning(w.core, e, c).Gone?
    ensures Renews(w.core, PerformRegistry(cfg, w, e).core, e, c)
  {
    hide Good, Coherent, Buffer, RegisterDevice, RegisterQueue, FreeCommands, DestroyPool, ResetPool, RenewCommand,
         EndCommand, DestroyDevice, RegisterCommands, InPool;
    GoodCoherent(w);
    BufferOwner(w.core, c);
    match e
    case AddDevice(k, fd, page, refused) => AddDeviceSpares(cfg, w, k, fd, page, refused, c);
    case DropDevice(k) => DropDeviceSpares(w.core, k, c);
    case AddQueue(k, queue) => AddQueueSpares(cfg, w, k, queue, c);
    case AddCommands(k, pool, batch) => AddCommandsSpares(w.core, k, pool, batch, c);
    case DropCommands(k, pool, batch) => DropCommandsSpares(cfg, w, k, pool, batch, c);
    case DropPool(k, pool) => DropPoolSpares(cfg, w, k, pool, c);
    case ClearPool(k, pool) => ClearPoolRenews(cfg, w, k, pool, c);
    case Renew(h, recording) => RenewRenews(cfg, w, h, recording, c);
    case End(h, route) => EndSpares(cfg, w, h, route, c);
  }

  lemma AddDeviceSpares(cfg: Config, w: World, k: Handle, fd: int, page: bool, refused: bool, c: Handle)
    ensures Spares(w.core, RegisterDevice(cfg, w, k, fd, page, refused).core, c)
  {
    hide Negotiate, KeepsOrder, TameDevice, Held;
    NegotiateOpen(cfg, WithDevice(w, k, FreshDevice(fd, page)), k, refused);
  }

  lemma DropDeviceSpares(core: Core, k: Handle, c: Handle)
    requires c in core.commandDevices && core.commandDevices[c] != k
    ensures Spares(core, DestroyDevice(core, k), c)
  {
  }

  lemma AddQueueSpares(cfg: Config, w: World, k: Handle, queue: Handle, c: Handle)
    ensures Spares(w.core, RegisterQueue(cfg, w, k, queue).core, c)
  {
    hide DrainEarly, Quiet;
    if k in w.core.devices { DrainEarlyQuiet(cfg, w, k); }
  }

  lemma AddCommandsSpares(core: Core, k: Handle, pool: Handle, batch: seq<Handle>, c: Handle)
    requires c in core.commandDevices
    ensures Spares(core, RegisterCommands(core, k, pool, batch), c)
  {
  }

  lemma DropCommandsSpares(cfg: Config, w: World, k: Handle, pool: Handle, batch: seq<Handle>, c: Handle)
    requires Good(w) && !Concerning(w.core, DropCommands(k, pool, batch), c).Gone?
    ensures Spares(w.core, FreeCommands(cfg, w, k, pool, batch).core, c)
  {
    hide Good, Coherent, DrainEarly, Flush, Quiet, Repeats, Specialized, Buffer;
    GoodCoherent(w);
    if k in w.core.devices {
      OwnBuffer(w.core, k, c);
      DrainEarlyQuiet(cfg, w.(io := Flush(cfg.net, w.io).0), k);
      DrainEarlyOpen(cfg, w.(io := Flush(cfg.net, w.io).0), k);
    }
  }

  lemma DropPoolSpares(cfg: Config, w: World, k: Handle, pool: Handle, c: Handle)
    requires Good(w) && !Concerning(w.core, DropPool(k, pool), c).Gone?
    ensures Spares(w.core, DestroyPool(cfg, w, k, pool).core, c)
  {
    hide Good, Coherent, DrainEarly, Flush, Quiet, Buffer;
    GoodCoherent(w);
    if k in w.core.devices {
      OwnBuffer(w.core, k, c);
      DrainEarlyQuiet(cfg, w.(io := Flush(cfg.net, w.io).0), k);
      DrainEarlyOpen(cfg, w.(io := Flush(cfg.net, w.io).0), k);
    }
  }

  lemma ClearPoolRenews(cfg: Config, w: World, k: Handle, pool: Handle, c: Handle)
    requires Good(w)
    ensures Renews(w.core, ResetPool(cfg, w, k, pool).core, RegistryEvent.ClearPool(k, pool), c)
  {
    hide Good, Coherent, DrainEarly, Quiet, Buffer, Cleared;
    GoodCoherent(w);
    if k in w.core.devices {
      OwnBuffer(w.core, k, c);
      DrainEarlyQuiet(cfg, w, k);
      DrainEarlyOpen(cfg, w, k);
    } else {
      NoDeviceNoBuffer(w.core, k, c);
    }
  }

  lemma RenewRenews(cfg: Config, w: World, h: Handle, recording: bool, c: Handle)
    requires Good(w)
    ensures Renews(w.core, RenewCommand(cfg, w, h, recording).core, Renew(h, recording), c)
  {
    hide Good, Coherent, DrainEarly, Quiet, Renewed;
    GoodCoherent(w);
    if OwnerOf(w.core, h).Some? {
      var k := OwnerOf(w.core, h).value;
      DrainEarlyQuiet(cfg, w, k);
      DrainEarlyOpen(cfg, w, k);
    }
  }

  lemma EndSpares(cfg: Config, w: World, h: Handle, route: RouteView, c: Handle)
    ensures Spares(w.core, EndCommand(cfg, w, h, route).core, c)
  {
    hide AdvanceRoute, Quiet, Specialized;
    if OwnerOf(w.core, h).Some? {
      var k := OwnerOf(w.core, h).value;
      var d := w.core.devices[k];
      if h in d.commands {
        AdvanceQuiet(cfg, WithDevice(w, k, d.(commands := d.commands[h := Ended(d.commands[h])])), k, h, route);
      }
    }
  }

  lemma GateSpares(cfg: Config, w: World, e: GateEvent, c: Handle)
    requires Good(w) && WaitOver(w.core, e)
    ensures Spares(w.core, PerformGate(cfg, w, e).core, c)
  {
    hide Quiet, Local, Good, DrainEarly, FallbackOrFail, Flush, SendFlime, BeforeSubmit, ProtocolAfter;
    match e
    case Submit(queue, view) => SubmitSpares(cfg, w, queue, view, c);
    case Complete(token, ok, view) =>
      if token.device in w.core.devices {
        ProtocolAfterFrees(cfg, w, token.device, token.id, ok, view);
        LocalSpares(w, ProtocolAfter(cfg, w, token.device, token.id, ok, view), token.device, c);
      }
    case Release(k, ok) =>
    case Reserve(k) => if k in w.core.devices { DrainEarlyQuiet(cfg, w, k); }
    case Retire(k, live) => if k in w.core.devices { FallbackOrFailQuiet(cfg, w, k); }
    case TearDown(k) => if k in w.core.devices { DrainEarlyQuiet(cfg, w, k); }
  }

  lemma LocalSpares(w: World, w': World, k: Handle, c: Handle)
    requires Local(w, w', k)
    ensures Spares(w.core, w'.core, c)
  {
    hide KeepsOrder, TameDevice;
  }

  lemma SubmitSpares(cfg: Config, w: World, queue: Handle, view: SubmitView, c: Handle)
    requires Good(w) && WaitOver(w.core, Submit(queue, view))
    ensures Spares(w.core, BeforeSubmit(cfg, w, queue, view).0.core, c)
  {
    hide Good, Local;
    match Owner(w.core.queueDevices, w.core.devices, queue)
    case None =>
    case Some(k) =>
      HeldAt(w, k);
      BeforeSubmitReserves(cfg, w, queue, view, k);
      LocalSpares(w, BeforeSubmit(cfg, w, queue, view).0, k, c);
  }

  // -------------------------------------------------------------------------- runs

  lemma LiveBuffer(core: Core, c: Handle)
    requires Live(core, c)
    ensures Buffer(core, c).Some?
  {
  }

  /** The whole stream is laid out as the commands issued say, and those written are in the log. */
  predicate Lockstep(w: World, items: seq<Item>, c: Handle) {
    StreamOf(w.core, c).calls == LaidOut(items, |items|) && InLog(items, w.io.log)
  }

  lemma {:induction false} LaidOutKept(items: seq<Item>, item: Item, n: nat)
    requires n <= |items|
    ensures LaidOut(items + [item], n) == LaidOut(items, n)
  {
    if n > 0 { LaidOutKept(items, item, n - 1); }
  }

  lemma LaidOutNext(items: seq<Item>, item: Item, s: Stream)
    requires Laid(s) && s.calls == LaidOut(items, |items|)
    ensures LaidOut(items + [item], |items| + 1) == s.calls + [Stamped(SemanticOf(item), s.bytes)]
  {
    hide SemanticOf, SizeUpTo;
    LaidOutKept(items, item, |items|);
  }

  lemma {:induction false} LaidOutFound(s: Stream, n: nat)
    requires Laid(s) && n <= |s.calls|
    ensures LaidOut(Found(s), n) == s.calls[..n]
  {
    hide Stamped, Laid, SizeUpTo;
    if n > 0 {
      LaidOutFound(s, n - 1);
      SizeOfPart(s.calls, n - 1, n - 1);
      StampedAgain(s, n - 1);
    }
  }

  lemma StampedAgain(s: Stream, i: nat)
    requires Laid(s) && i < |s.calls|
    ensures Stamped(s.calls[i], SizeUpTo(s.calls, i) % (U64_MAX + 1)) == s.calls[i]
  {
  }

  lemma {:induction false} SizeOfPart(calls: seq<Semantic>, m: nat, n: nat)
    requires n <= m <= |calls|
    ensures SizeUpTo(calls[..m], n) == SizeUpTo(calls, n)
  {
    if n > 0 { SizeOfPart(calls, m, n - 1); }
  }

  lemma LaidAt(w: World, c: Handle)
    requires Good(w)
    ensures Laid(StreamOf(w.core, c))
  {
    hide IoOk, AllHeld;
    GoodCoherent(w);
  }

  /** The log only ever grows. */
  lemma LogGrows(cfg: Config, w: World, e: Event)
    requires Good(w)
    ensures w.io.log <= Step(cfg, w, e).io.log
  {
    hide Good, PerformCall, PerformRegistry, BeforeDestroy;
    if e.OfGate? && e.g.TearDown? {
      TeardownLog(cfg, w, e.g.device);
    } else {
      TeardownOnce.StepCalm(cfg, w, e);
    }
  }

  lemma TeardownLog(cfg: Config, w: World, k: Handle)
    ensures w.io.log <= BeforeDestroy(cfg, w, k).0.io.log
  {
    hide DrainEarly;
    if k in w.core.devices { TeardownOnce.DrainEarlyCalm(cfg, w, k); }
  }

  lemma CallLockstep(cfg: Config, w: World, e: CallEvent, c: Handle, items: seq<Item>)
    requires Good(w) && Live(w.core, c) && Live(PerformCall(cfg, w, e).core, c) && Lockstep(w, items, c)
    requires w.io.log <= PerformCall(cfg, w, e).io.log
    ensures Lockstep(PerformCall(cfg, w, e), Issued(items, w, OfCall(e), c), c)
  {
    hide Good, Live, PerformCall, Laid, LaidOut, WrittenSemantic, Stamped;
    CallIssues(cfg, w, e, c);
    LaidAt(w, c);
    if ItemOf(w, e, c).Some? { LaidOutNext(items, ItemOf(w, e, c).value, StreamOf(w.core, c)); }
  }

  lemma StepIssues(cfg: Config, w: World, e: Event, c: Handle, items: seq<Item>)
    requires Good(w) && Live(w.core, c) && Live(Step(cfg, w, e).core, c) && Lockstep(w, items, c)
    ensures Lockstep(Step(cfg, w, e), Issued(items, w, e, c), c)
  {
    hide Good, Live, PerformCall, PerformRegistry, PerformGate, Concerning, Buffer, ItemOf;
    LogGrows(cfg, w, e);
    LiveBuffer(w.core, c);
    match e
    case OfCall(call) => CallLockstep(cfg, w, call, c, items);
    case OfGate(g) => if WaitOver(w.core, g) { GateSpares(cfg, w, g, c); }
    case OfRegistry(r) =>
      LiveBuffer(PerformRegistry(cfg, w, r).core, c);
      RegistryChanges(cfg, w, r, c);
      History.ConcerningApplies(w.core, e, c);
      RegistryIssues(cfg, w, r, c);
  }

  /**
   * In every run during which a buffer stays live its stream is, entry for entry, what was issued
   * on it, and the host's history has the written ones of these commands in the same order.
   */
  lemma {:induction false} RunIssues(cfg: Config, w: World, events: seq<Event>, n: nat, c: Handle)
    requires n <= |events| && Good(w)
    requires forall i: nat | i <= n :: Live(Run(cfg, w, events, i).core, c)
    ensures var w', items := Run(cfg, w, events, n), IssuedBy(cfg, w, events, n, c);
            StreamOf(w'.core, c).calls == LaidOut(items, |items|) && InLog(items, w'.io.log)
  {
    hide Good, Live, Step, Issued, Laid, LaidOut;
    if n == 0 {
      LaidAt(w, c);
      LaidOutFound(StreamOf(w.core, c), |StreamOf(w.core, c).calls|);
    } else {
      RunIssues(cfg, w, events, n - 1, c);
      RunGood(cfg, w, events, n - 1);
      assert Run(cfg, w, events, n) == Step(cfg, Run(cfg, w, events, n - 1), events[n - 1]);
      StepIssues(cfg, Run(cfg, w, events, n - 1), events[n - 1], c, IssuedBy(cfg, w, events, n - 1, c));
    }
  }
}
