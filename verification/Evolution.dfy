/**
 * What the operations outside registration and submission do to the world as a whole: they keep
 * the ordering law, every index, every command buffer and every reservation.
 */
module Evolution {
  import opened GuestTypes
  import opened Wire
  import opened GuestState
  import opened CommandOps

  // ------------------------------------------------------------------- invariants

  /** Command c of device k is known under the same generation to every index, and its stream is laid out. */
  predicate Indexed(core: Core, k: Handle, c: Handle)
    requires k in core.devices && c in core.devices[k].commands
  {
    && c != 0
    && core.devices[k].commands[c].device == k
    && core.devices[k].commands[c].generation != 0
    && c in core.commandDevices && core.commandDevices[c] == k
    && c in core.recorded && core.recorded[c].generation == core.devices[k].commands[c].generation
    && Laid(core.recorded[c])
  }

  /** A command is in the global index exactly when its device owns it, and then it has a stream. */
  predicate CommandIndex(core: Core) {
    && (forall c <- core.commandDevices ::
          core.commandDevices[c] in core.devices && c in core.devices[core.commandDevices[c]].commands)
    && (forall c <- core.recorded :: c in core.commandDevices)
    && (forall k <- core.devices, c <- core.devices[k].commands :: Indexed(core, k, c))
  }

  /** A queue is in the global index exactly when its device lists it. */
  predicate QueueIndex(core: Core) {
    && (forall q <- core.queueDevices ::
          core.queueDevices[q] in core.devices && q in core.devices[core.queueDevices[q]].queues)
    && (forall k <- core.devices, q <- core.devices[k].queues ::
          q in core.queueDevices && core.queueDevices[q] == k)
  }

  predicate Coherent(core: Core) { CommandIndex(core) && QueueIndex(core) }

  /**
   * A reserved device is either specialized or already drained to Legacy; neither a reservation
   * nor an early route is ever numbered zero; as long as the device has not failed, the guard under
   * which a route was sent ahead of its submission still holds; and a negotiated device has its
   * control page exposed.
   */
  predicate Held(d: Device) {
    && (d.active ==> d.token != 0 && (Specialized(d) || d.stage == Legacy))
    && (d.early ==> d.earlyId != 0)
    && (d.early && !d.failed ==> RouteGuard(d, d.earlyCommand))
    && (d.negotiated ==> d.exposed)
  }

  predicate AllHeld(core: Core) { forall k <- core.devices :: Held(core.devices[k]) }

  // ---------------------------------------------------------------- quiet changes

  /** What even submission leaves alone: the session's descriptor and the device's own objects. */
  predicate TameDevice(d: Device, e: Device) {
    e.fd == d.fd && e.queues == d.queues && e.commands == d.commands
  }

  predicate QuietDevice(d: Device, e: Device) {
    && TameDevice(d, e)
    && e.queue == d.queue && e.lifecycle == d.lifecycle
    && (e.exposed ==> d.exposed) && (e.tornDown != d.tornDown ==> e.tornDown && !e.exposed)
    && (Held(d) ==> Held(e) && e.active == d.active)
    && (Held(d) && d.active ==> e.token == d.token && e.stage == d.stage && e.negotiated == d.negotiated)
  }

  /** A command that its device still owns. */
  predicate Enlisted(core: Core, c: Handle) {
    OwnerOf(core, c).Some? && c in core.devices[OwnerOf(core, c).value].commands
  }

  /** A stream of the same generation that lost nothing and is still laid out if it was. */
  predicate Extends(s: Stream, s': Stream) {
    s'.generation == s.generation && s.calls <= s'.calls && (Laid(s) ==> Laid(s'))
  }

  predicate SameStreams(core: Core, core': Core) {
    && (forall c <- core.recorded :: c in core'.recorded && Extends(core.recorded[c], core'.recorded[c]))
    && (forall c <- core'.recorded :: c in core.recorded || Enlisted(core, c))
  }

  predicate TameCore(core: Core, core': Core) {
    && core'.devices.Keys == core.devices.Keys
    && core'.queueDevices == core.queueDevices
    && core'.commandDevices == core.commandDevices
    && (forall k <- core.devices :: TameDevice(core.devices[k], core'.devices[k]))
    && SameStreams(core, core')
  }

  predicate QuietCore(core: Core, core': Core) {
    TameCore(core, core') && forall k <- core.devices :: QuietDevice(core.devices[k], core'.devices[k])
  }

  predicate KeepsOrder(io: Io, io': Io) { (IoOk(io) ==> IoOk(io')) && Calm(io.log, io'.log) }

  predicate Quiet(w: World, w': World) {
    QuietCore(w.core, w'.core) && KeepsOrder(w.io, w'.io)
  }

  predicate Tame(w: World, w': World) {
    TameCore(w.core, w'.core) && KeepsOrder(w.io, w'.io)
  }

  lemma TameCoherent(core: Core, core': Core)
    requires TameCore(core, core') && Coherent(core)
    ensures Coherent(core')
  {
    hide Indexed;
    TameQueues(core, core');
    TameCommands(core, core');
    TameEntries(core, core');
  }

  lemma TameCommands(core: Core, core': Core)
    requires TameCore(core, core') && CommandIndex(core)
    ensures forall k <- core'.devices, c <- core'.devices[k].commands :: Indexed(core', k, c)
  {
    forall k, c | k in core'.devices && c in core'.devices[k].commands ensures Indexed(core', k, c) {
      assert TameDevice(core.devices[k], core'.devices[k]) && Indexed(core, k, c);
    }
  }

  lemma TameEntries(core: Core, core': Core)
    requires TameCore(core, core') && CommandIndex(core)
    ensures forall c <- core'.commandDevices ::
              core'.commandDevices[c] in core'.devices && c in core'.devices[core'.commandDevices[c]].commands
    ensures forall c <- core'.recorded :: c in core'.commandDevices
  {
    hide Indexed;
    forall c | c in core'.commandDevices ensures c in core'.devices[core'.commandDevices[c]].commands {
      assert TameDevice(core.devices[core.commandDevices[c]], core'.devices[core.commandDevices[c]]);
    }
  }

  lemma TameQueues(core: Core, core': Core)
    requires TameCore(core, core') && QueueIndex(core)
    ensures QueueIndex(core')
  {
    hide SameStreams;
    forall k | k in core'.devices ensures core'.devices[k].queues == core.devices[k].queues {
      assert TameDevice(core.devices[k], core'.devices[k]);
    }
  }

  lemma QuietHeld(core: Core, core': Core)
    requires QuietCore(core, core') && AllHeld(core)
    ensures AllHeld(core')
  {
    forall k | k in core'.devices ensures Held(core'.devices[k]) {
      assert QuietDevice(core.devices[k], core'.devices[k]);
    }
  }

  lemma Still(core: Core)
    ensures QuietCore(core, core)
  {
  }

  lemma ExtendsThen(a: Stream, b: Stream, c: Stream)
    requires Extends(a, b) && Extends(b, c)
    ensures Extends(a, c)
  {
    hide Laid;
  }

  lemma TameCoreThen(a: Core, b: Core, c: Core)
    requires TameCore(a, b) && TameCore(b, c)
    ensures TameCore(a, c)
  {
    forall c | Enlisted(b, c) ensures Enlisted(a, c) {
      var k := b.commandDevices[c];
      assert OwnerOf(a, c) == Some(k) && OwnerOf(b, c) == Some(k);
      assert TameDevice(a.devices[k], b.devices[k]);
    }
    forall h | h in a.recorded ensures h in c.recorded && Extends(a.recorded[h], c.recorded[h]) {
      ExtendsThen(a.recorded[h], b.recorded[h], c.recorded[h]);
    }
    forall k | k in a.devices ensures TameDevice(a.devices[k], c.devices[k]) {
      assert TameDevice(a.devices[k], b.devices[k]) && TameDevice(b.devices[k], c.devices[k]);
    }
  }

  lemma QuietCoreThen(a: Core, b: Core, c: Core)
    requires QuietCore(a, b) && QuietCore(b, c)
    ensures QuietCore(a, c)
  {
    TameCoreThen(a, b, c);
    forall k | k in a.devices ensures QuietDevice(a.devices[k], c.devices[k]) {
      assert QuietDevice(a.devices[k], b.devices[k]) && QuietDevice(b.devices[k], c.devices[k]);
    }
  }

  lemma Then(a: World, b: World, c: World)
    requires Quiet(a, b) && Quiet(b, c)
    ensures Quiet(a, c)
  {
    hide IoOk, QuietCore, Calm;
    CalmThen(a.io.log, b.io.log, c.io.log);
    QuietCoreThen(a.core, b.core, c.core);
  }

  lemma DeviceQuiet(core: Core, k: Handle, e: Device)
    requires k in core.devices && QuietDevice(core.devices[k], e)
    ensures QuietCore(core, SetDevice(core, k, e))
  {
  }

  lemma FailQuiet(core: Core, k: Handle)
    requires k in core.devices
    ensures QuietCore(core, FailDevice(core, k))
  {
    DeviceQuiet(core, k, core.devices[k].(failed := true));
  }

  lemma FailOwnerQuiet(core: Core, c: Handle)
    ensures QuietCore(core, FailOwner(core, c))
    ensures FailOwner(core, c).marks == core.marks
    ensures FailOwner(core, c).recorded == core.recorded
  {
    if OwnerOf(core, c).Some? { FailQuiet(core, OwnerOf(core, c).value); }
  }

  lemma MarkQuiet(core: Core, tid: Tid, m: Mark)
    ensures QuietCore(core, SetMark(core, tid, m))
  {
  }

  lemma OrderThen(a: Io, b: Io, c: Io)
    requires KeepsOrder(a, b) && KeepsOrder(b, c)
    ensures KeepsOrder(a, c)
  {
    hide IoOk, Calm;
    CalmThen(a.log, b.log, c.log);
  }

  lemma StillOrder(io: Io)
    ensures KeepsOrder(io, io)
  {
    hide IoOk;
  }

  lemma FlimeOrder(cfg: Config, io: Io, fd: int, k: Handle, kind: FlimeKind)
    requires kind != Teardown
    ensures KeepsOrder(io, DrainThenFlime(cfg.net, io, fd, k, kind).0)
  {
    hide IoOk, DrainThenFlime, Calm;
    RequestsCalm(cfg.net, io, fd, Call(0, 0, [], false), k, kind);
    if IoOk(io) { DrainThenFlimeKeeps(cfg.net, io, fd, k, kind); }
  }

  lemma SingleOrder(cfg: Config, io: Io, fd: int, call: Call)
    ensures KeepsOrder(io, DrainThenSingle(cfg.net, io, fd, call).0)
  {
    hide IoOk, DrainThenSingle, Calm;
    RequestsCalm(cfg.net, io, fd, call, 0, Route);
    if IoOk(io) { DrainThenSingleKeeps(cfg.net, io, fd, call); }
  }

  // -------------------------------------------------------------- device transitions

  lemma FallbackQuiet(cfg: Config, w: World, k: Handle)
    requires k in w.core.devices
    ensures Quiet(w, Fallback(cfg, w, k).0)
    ensures Fallback(cfg, w, k).1.Some? ==>
              && Fallback(cfg, w, k).0.core.devices[k] == DrainedDevice(Numbered(w.core.devices[k]))
              && Fallback(cfg, w, k).1.value == w.core.devices[k].nextId
              && !w.core.devices[k].active
  {
    hide IoOk, QuietCore, DrainThenFlime;
    Still(w.core);
    var d := w.core.devices[k];
    if Specialized(d) && !d.active && CanNumber(d) {
      FlimeOrder(cfg, w.io, d.fd, k, FallbackFlush);
      DeviceQuiet(w.core, k, DrainedDevice(Numbered(d)));
      DeviceQuiet(w.core, k, Numbered(d));
    }
  }

  lemma FallbackKeeps(cfg: Config, w: World, k: Handle)
    requires k in w.core.devices
    ensures Fallback(cfg, w, k).0.core.marks == w.core.marks
    ensures Fallback(cfg, w, k).0.core.recorded == w.core.recorded
  {
    hide DrainThenFlime;
  }

  lemma FallbackOrFailQuiet(cfg: Config, w: World, k: Handle)
    requires k in w.core.devices
    ensures Quiet(w, FallbackOrFail(cfg, w, k).0)
    ensures FallbackOrFail(cfg, w, k).0.core.marks == w.core.marks
    ensures FallbackOrFail(cfg, w, k).0.core.recorded == w.core.recorded
  {
    hide IoOk, QuietCore, Fallback;
    FallbackKeeps(cfg, w, k);
    FallbackQuiet(cfg, w, k);
    var (w', id) := Fallback(cfg, w, k);
    FailQuiet(w'.core, k);
    QuietCoreThen(w.core, w'.core, FailDevice(w'.core, k));
  }

  lemma DrainEarlyQuiet(cfg: Config, w: World, k: Handle)
    requires k in w.core.devices
    ensures Quiet(w, DrainEarly(cfg, w, k).0)
    ensures DrainEarly(cfg, w, k).0.core.marks == w.core.marks
    ensures DrainEarly(cfg, w, k).0.core.recorded == w.core.recorded
  {
    FallbackOrFailQuiet(cfg, w, k);
  }

  lemma {:induction false} DrainUpToQuiet(cfg: Config, w: World, order: seq<Handle>, n: nat)
    requires n <= |order|
    ensures Quiet(w, DrainUpTo(cfg, w, order, n).0)
    ensures DrainUpTo(cfg, w, order, n).0.core.marks == w.core.marks
    ensures DrainUpTo(cfg, w, order, n).0.core.recorded == w.core.recorded
  {
    hide IoOk, QuietCore, DrainEarly;
    Still(w.core);
    if n > 0 {
      DrainUpToQuiet(cfg, w, order, n - 1);
      var (w', ok) := DrainUpTo(cfg, w, order, n - 1);
      if ok && order[n - 1] in w'.core.devices {
        DrainEarlyQuiet(cfg, w', order[n - 1]);
        Then(w, w', DrainEarly(cfg, w', order[n - 1]).0);
      }
    }
  }

  lemma SendRouteKeeps(cfg: Config, io: Io, fd: int, k: Handle, withdrawn: bool, accepted: bool)
    ensures KeepsOrder(io, SendRoute(cfg, io, fd, k, withdrawn, accepted).0)
  {
    hide KeepsOrder, DrainThenFlime;
    FlimeOrder(cfg, io, fd, k, PeriodBegin);
    var begun := DrainThenFlime(cfg.net, io, fd, k, PeriodBegin).0;
    FlimeOrder(cfg, begun, fd, k, Route);
    OrderThen(io, begun, DrainThenFlime(cfg.net, begun, fd, k, Route).0);
  }

  lemma AdvanceQuiet(cfg: Config, w: World, k: Handle, command: Handle, view: RouteView)
    requires k in w.core.devices
    ensures Quiet(w, AdvanceRoute(cfg, w, k, command, view).0)
    ensures AdvanceRoute(cfg, w, k, command, view).0.core.marks == w.core.marks
    ensures AdvanceRoute(cfg, w, k, command, view).0.core.recorded == w.core.recorded
  {
    hide IoOk, QuietCore, DrainThenFlime, SendRoute, FallbackOrFail;
    Still(w.core);
    var d := w.core.devices[k];
    FallbackOrFailQuiet(cfg, w, k);
    if !d.failed && !d.early && RouteGuard(d, command) && view.Ready? && CanNumber(d) {
      SendRouteKeeps(cfg, w.io, d.fd, k, view.withdrawn, view.accepted);
      var (io, begun, sent) := SendRoute(cfg, w.io, d.fd, k, view.withdrawn, view.accepted);
      if sent {
        DeviceQuiet(w.core, k, Numbered(d).(early := true, earlyCommand := command, earlyId := d.nextId));
      } else {
        var told := Told(Numbered(d), begun, view.withdrawn);
        DeviceQuiet(w.core, k, told);
        var numbered := World(SetDevice(w.core, k, told), io);
        FallbackOrFailQuiet(cfg, numbered, k);
        Then(w, numbered, FallbackOrFail(cfg, numbered, k).0);
      }
    }
  }

  // -------------------------------------------------------------------- recording

  lemma {:induction false} SumsKept(calls: seq<Semantic>, call: Semantic, n: nat)
    requires n <= |calls|
    ensures SizeUpTo(calls + [call], n) == SizeUpTo(calls, n)
    ensures DispatchesUpTo(calls + [call], n) == DispatchesUpTo(calls, n)
  {
    if n > 0 { SumsKept(calls, call, n - 1); }
  }

  /** A recorded call lies right behind the ones before it. */
  lemma AppendLaid(s: Stream, call: Semantic)
    requires Laid(s) && AppendSemantic(s, call).Some?
    ensures Laid(AppendSemantic(s, call).value)
  {
    hide AppendSemantic, SizeUpTo, DispatchesUpTo;
    var s' := AppendSemantic(s, call).value;
    AppendTotals(s, call);
    AppendPlaces(s, call);
  }

  /** Every entry lies behind the bytes of the entries before it. */
  lemma AppendPlaces(s: Stream, call: Semantic)
    requires Laid(s) && AppendSemantic(s, call).Some?
    ensures var calls := AppendSemantic(s, call).value.calls;
            && |calls| <= MAX_SEMANTIC_CALLS
            && forall i: nat | i < |calls| ::
                 calls[i].encodedBytes >= 1 && calls[i].templateOffset == SizeUpTo(calls, i) % (U64_MAX + 1)
  {
    hide SizeUpTo, DispatchesUpTo;
    var calls := AppendSemantic(s, call).value.calls;
    var n := |s.calls|;
    forall i: nat | i < n + 1
      ensures calls[i].encodedBytes >= 1 && calls[i].templateOffset == SizeUpTo(calls, i) % (U64_MAX + 1)
    {
      SumsKept(s.calls, calls[n], i);
      assert calls == s.calls + [calls[n]];
      if i < n { assert calls[i] == s.calls[i]; }
    }
  }

  lemma AppendTotals(s: Stream, call: Semantic)
    requires Laid(s) && AppendSemantic(s, call).Some?
    ensures var s' := AppendSemantic(s, call).value;
            && s'.bytes == SizeUpTo(s'.calls, |s'.calls|) % (U64_MAX + 1)
            && s'.dispatches == DispatchesUpTo(s'.calls, |s'.calls|) % 0x1_0000_0000
  {
    hide Laid, AppendSemantic, SizeUpTo, DispatchesUpTo;
    LaidTotals(s);
    AppendSums(s, call);
    WrapSum64(SizeUpTo(s.calls, |s.calls|), AppendSemantic(s, call).value.calls[|s.calls|].encodedBytes);
    WrapSum32(DispatchesUpTo(s.calls, |s.calls|), 1);
  }

  lemma LaidTotals(s: Stream)
    requires Laid(s)
    ensures s.bytes == SizeUpTo(s.calls, |s.calls|) % 0x1_0000_0000_0000_0000
    ensures s.dispatches == DispatchesUpTo(s.calls, |s.calls|) % 0x1_0000_0000
  {
  }

  lemma AppendSums(s: Stream, call: Semantic)
    requires AppendSemantic(s, call).Some?
    ensures var s', n := AppendSemantic(s, call).value, |s.calls|;
            && |s'.calls| == n + 1
            && s'.bytes == (s.bytes + s'.calls[n].encodedBytes) % 0x1_0000_0000_0000_0000
            && s'.dispatches == (if call.dispatch then (s.dispatches + 1) % 0x1_0000_0000 else s.dispatches)
            && SizeUpTo(s'.calls, n + 1) == SizeUpTo(s.calls, n) + s'.calls[n].encodedBytes
            && DispatchesUpTo(s'.calls, n + 1) == DispatchesUpTo(s.calls, n) + if call.dispatch then 1 else 0
  {
    var s' := AppendSemantic(s, call).value;
    SumsKept(s.calls, s'.calls[|s.calls|], |s.calls|);
  }

  lemma WrapSum64(a: nat, b: nat)
    ensures (a % 0x1_0000_0000_0000_0000 + b) % 0x1_0000_0000_0000_0000 == (a + b) % 0x1_0000_0000_0000_0000
  {
  }

  lemma WrapSum32(a: nat, b: nat)
    ensures (a % 0x1_0000_0000 + b) % 0x1_0000_0000 == (a + b) % 0x1_0000_0000
  {
  }

  lemma AppendExtends(s: Stream, call: Semantic)
    ensures AppendSemantic(s, call).Some? ==> Extends(s, AppendSemantic(s, call).value)
  {
    hide Laid;
    if Laid(s) && AppendSemantic(s, call).Some? { AppendLaid(s, call); }
  }

  lemma RecordQuiet(core: Core, command: Handle, call: Semantic)
    ensures var r := RecordSemantic(core, command, call); r.Some? ==> QuietCore(core, r.value)
  {
    hide Laid, AppendSemantic;
    AppendExtends(StreamOf(core, command), call);
  }

  /** A recorded command and the mark left for it. */
  lemma MarkedQuiet(core: Core, tid: Tid, command: Handle, call: Semantic)
    ensures var r := RecordSemantic(core, command, call);
            forall m :: r.Some? ==> QuietCore(core, SetMark(r.value, tid, m))
  {
    hide QuietCore, RecordSemantic;
    RecordQuiet(core, command, call);
    var r := RecordSemantic(core, command, call);
    if r.Some? {
      forall m ensures QuietCore(core, SetMark(r.value, tid, m)) {
        MarkQuiet(r.value, tid, m);
        QuietCoreThen(core, r.value, SetMark(r.value, tid, m));
      }
    }
  }

  lemma FailNamedQuiet(core: Core, tid: Tid, owner: Option<Handle>, funId: nat)
    requires owner.Some? ==> owner.value in core.devices
    ensures QuietCore(core, FailNamed(core, tid, owner, funId))
  {
    if owner.Some? {
      var marked := FailNamed(core, tid, None, funId);
      FailQuiet(marked, owner.value);
      QuietCoreThen(core, marked, FailDevice(marked, owner.value));
    }
  }

  /** A hook that reaches its owner: the ways it ends when an early route is pending. */
  lemma HookTailQuiet(cfg: Config, w: World, tid: Tid, k: Handle, funId: nat)
    requires k in w.core.devices
    ensures var (drained, ok) := DrainEarly(cfg, w, k);
            && Quiet(w, drained.(core := MarkPre(drained.core, tid, funId, false)))
            && Quiet(w, drained.(core := FailNamed(drained.core, tid, Some(k), funId)))
  {
    hide IoOk, DrainEarly;
    DrainEarlyQuiet(cfg, w, k);
    var (drained, ok) := DrainEarly(cfg, w, k);
    FailNamedQuiet(drained.core, tid, Some(k), funId);
    Then(w, drained, drained.(core := MarkPre(drained.core, tid, funId, false)));
    Then(w, drained, drained.(core := FailNamed(drained.core, tid, Some(k), funId)));
  }

  lemma RecordHookQuiet(cfg: Config, w: World, tid: Tid, command: Handle, call: Semantic,
                        complete: bool)
    ensures Quiet(w, RecordHook(cfg, w, tid, command, call, complete).0)
  {
    hide IoOk, QuietCore, FailNamed, RecordSemantic, DrainEarly, Specialized;
    MarkQuiet(w.core, tid, Mark(call.funId, false, false, false, 0, 0));
    match OwnerOf(w.core, command)
    case None =>
    case Some(k) =>
      HookTailQuiet(cfg, w, tid, k, call.funId);
      FailNamedQuiet(w.core, tid, Some(k), call.funId);
      MarkedQuiet(w.core, tid, command, call);
  }

  // ---------------------------------------------------------------------- writes

  lemma AppendOrSendKeeps(cfg: Config, io: Io, fd: int, call: Call)
    requires Clusterable(call.funId)
    ensures KeepsOrder(io, AppendOrSend(cfg, io, fd, call).0)
  {
    hide IoOk, AppendOwned, DrainThenSingle, Calm;
    SingleOrder(cfg, io, fd, call);
    AppendCalm(cfg.net, io, fd, call);
    if IoOk(io) { AppendKeeps(cfg.net, io, fd, call); }
  }

  lemma FlushOrder(cfg: Config, io: Io)
    ensures KeepsOrder(io, Flush(cfg.net, io).0)
  {
    hide IoOk, Flush, Calm;
    RequestsCalm(cfg.net, io, 0, Call(0, 0, [], false), 0, Route);
    if IoOk(io) { FlushKeeps(cfg.net, io); }
  }

  lemma ClusterWriteQuiet(cfg: Config, w: World, m: Mark, fd: int, call: Call, view: RouteView)
    requires Clusterable(call.funId)
    ensures Quiet(w, ClusterWrite(cfg, w, m, fd, call, view).0)
    ensures ClusterWrite(cfg, w, m, fd, call, view).0.core.marks == w.core.marks
    ensures ClusterWrite(cfg, w, m, fd, call, view).0.core.recorded == w.core.recorded
  {
    hide IoOk, QuietCore, AdvanceRoute, Flush, AppendOrSend, FailOwner;
    Still(w.core);
    AppendOrSendKeeps(cfg, w.io, fd, call);
    FailOwnerQuiet(w.core, m.named);
    var (io, ok) := AppendOrSend(cfg, w.io, fd, call);
    FlushOrder(cfg, io);
    var (io', flushed) := if m.flushAfter then Flush(cfg.net, io) else (io, true);
    if ok && flushed && m.routeAfter != 0 && OwnerOf(w.core, m.routeAfter).Some? {
      var sent, k := w.(io := io'), OwnerOf(w.core, m.routeAfter).value;
      AdvanceQuiet(cfg, sent, k, m.routeAfter, view);
      var (routed, advanced) := AdvanceRoute(cfg, sent, k, m.routeAfter, view);
      FailQuiet(routed.core, k);
      Then(w, sent, routed);
      Then(w, routed, routed.(core := FailDevice(routed.core, k)));
    }
  }

  lemma DirectWriteQuiet(cfg: Config, w: World, owner: Handle, fd: int, call: Call)
    ensures Quiet(w, DirectWrite(cfg, w, owner, fd, call).0)
    ensures DirectWrite(cfg, w, owner, fd, call).0.core.marks == w.core.marks
    ensures DirectWrite(cfg, w, owner, fd, call).0.core.recorded == w.core.recorded
  {
    hide IoOk, QuietCore, FailOwner;
    Still(w.core);
    FailOwnerQuiet(w.core, owner);
    FlushOrder(cfg, w.io);
    SingleOrder(cfg, w.io, fd, call);
  }

  lemma WriteQuiet(cfg: Config, w: World, tid: Tid, fd: int, call: Call, sync: bool,
                   view: RouteView, order: seq<Handle>)
    ensures Quiet(w, Write(cfg, w, tid, fd, call, sync, view, order).0)
    ensures Write(cfg, w, tid, fd, call, sync, view, order).0.core.recorded == w.core.recorded
  {
    hide IoOk, QuietCore, ClusterWrite, DirectWrite, DrainUpTo;
    Still(w.core);
    DrainUpToQuiet(cfg, w, order, |order|);
    var (drained, ok) := DrainGate(cfg, w, call.funId, order);
    if ok {
      var m := MarkOf(drained.core, tid);
      var w' := drained.(core := SetMark(drained.core, tid, NO_MARK));
      assert Quiet(drained, w') by { MarkQuiet(drained.core, tid, NO_MARK); }
      Then(w, drained, w');
      if Named(m, call) && m.block {
      } else if MayCluster(m, call, sync) {
        ClusterWriteQuiet(cfg, w', m, fd, call, view);
        Then(w, w', ClusterWrite(cfg, w', m, fd, call, view).0);
      } else {
        var owner := if Named(m, call) then m.named else 0;
        DirectWriteQuiet(cfg, w', owner, fd, call);
        Then(w, w', DirectWrite(cfg, w', owner, fd, call).0);
      }
    }
  }

  lemma SemanticStepQuiet(cfg: Config, w: World, k: Handle, command: Handle, call: Call)
    requires k in w.core.devices
    ensures Quiet(w, SemanticStep(cfg, w, k, command, call).0)
    ensures SemanticStep(cfg, w, k, command, call).0.core.marks == w.core.marks
  {
    hide IoOk, QuietCore, FallbackOrFail, RecordSemantic;
    Still(w.core);
    var d, unsafe := w.core.devices[k], !TypeIWildcard(call.funId);
    if d.stage != Legacy {
      RecordQuiet(w.core, command, GenericSemantic(call, unsafe));
      match RecordSemantic(w.core, command, GenericSemantic(call, unsafe))
      case None =>
        if Specialized(d) { FallbackOrFailQuiet(cfg, w, k); } else { DeviceQuiet(w.core, k, LegacyDevice(d)); }
      case Some(core) =>
        if unsafe && Specialized(d) {
          FallbackOrFailQuiet(cfg, w.(core := core), k);
          Then(w, w.(core := core), FallbackOrFail(cfg, w.(core := core), k).0);
        }
    }
  }

  lemma EmitQuiet(cfg: Config, w: World, owner: Option<Handle>, fd: int, call: Call, sync: bool)
    requires owner.Some? ==> owner.value in w.core.devices
    ensures Quiet(w, EmitCommand(cfg, w, owner, fd, call, sync).0)
    ensures EmitCommand(cfg, w, owner, fd, call, sync).0.core.marks == w.core.marks
    ensures EmitCommand(cfg, w, owner, fd, call, sync).0.core.recorded == w.core.recorded
  {
    hide IoOk, QuietCore, AppendOrSend, DrainThenSingle;
    Still(w.core);
    if owner.Some? { FailQuiet(w.core, owner.value); }
    if ClusterCandidate(w.core, owner, call, sync) { AppendOrSendKeeps(cfg, w.io, fd, call); }
    SingleOrder(cfg, w.io, fd, call);
  }

  lemma WriteCommandQuiet(cfg: Config, w: World, fd: int, call: Call, sync: bool, command: Handle)
    ensures Quiet(w, WriteCommand(cfg, w, fd, call, sync, command).0)
    ensures WriteCommand(cfg, w, fd, call, sync, command).0.core.marks == w.core.marks
  {
    hide IoOk, QuietCore, EmitCommand, Settled, Flush;
    Still(w.core);
    var owner := OwnerOf(w.core, command);
    if owner.Some? { FailQuiet(w.core, owner.value); }
    FlushOrder(cfg, w.io);
    var (io, ok) := if ClusterCandidate(w.core, owner, call, sync) then (w.io, true)
                    else Flush(cfg.net, w.io);
    var flushed := w.(io := io);
    if owner == None {
      EmitQuiet(cfg, flushed, None, fd, call, sync);
      Then(w, flushed, EmitCommand(cfg, flushed, None, fd, call, sync).0);
    } else {
      SettledQuiet(cfg, flushed, owner.value, command, fd, call, sync);
      Then(w, flushed, Settled(cfg, flushed, owner.value, command, fd, call, sync).0);
    }
  }

  lemma SettledQuiet(cfg: Config, w: World, k: Handle, command: Handle, fd: int, call: Call, sync: bool)
    requires k in w.core.devices
    ensures Quiet(w, Settled(cfg, w, k, command, fd, call, sync).0)
    ensures Settled(cfg, w, k, command, fd, call, sync).0.core.marks == w.core.marks
  {
    hide IoOk, QuietCore, EmitCommand, SemanticStep, DrainEarly;
    DrainEarlyQuiet(cfg, w, k);
    var (drained, gone) := DrainEarly(cfg, w, k);
    if gone {
      SemanticStepQuiet(cfg, drained, k, command, call);
      var (settled, ok) := SemanticStep(cfg, drained, k, command, call);
      Then(w, drained, settled);
      if ok {
        EmitQuiet(cfg, settled, Some(k), fd, call, sync);
        Then(w, settled, EmitCommand(cfg, settled, Some(k), fd, call, sync).0);
      }
    }
  }
}
