/**
 * The one-shot marks a recording hook leaves for the next write of its thread: at most one write
 * sees them, only one with their function, and a blocked write puts nothing anywhere.
 */
module Marks {
  import opened GuestTypes
  import opened Wire
  import opened GuestState
  import opened CommandOps
  import opened RegistryOps
  import opened SubmitOps
  import opened Machine
  import opened Evolution
  import opened SubmitProofs

  function Remark(w: World, tid: Tid, m: Mark): World { w.(core := SetMark(w.core, tid, m)) }

  predicate HookOf(e: Event, tid: Tid) {
    && e.OfCall?
    && match e.c
       case HookRecord(t, _, _, _) => t == tid
       case HookDispatch(t, _, _, _) => t == tid
       case HookBadBind(t, _, _) => t == tid
       case _ => false
  }

  predicate WriteOf(e: Event, tid: Tid) { e.OfCall? && e.c.WriteCall? && e.c.tid == tid }

  /** What every mark left by a hook looks like. */
  predicate MarkOk(m: Mark) {
    && (m.allow ==> TypeICluster(m.funId))
    && (m.block ==> !m.allow && !m.flushAfter && m.routeAfter == 0)
    && (m.routeAfter != 0 ==> m.flushAfter)
    && (m.allow && m.routeAfter != 0 ==> m.routeAfter == m.named)
  }

  predicate MarksOk(core: Core) { forall t <- core.marks :: MarkOk(core.marks[t]) }

  // ------------------------------------------------------------- who leaves marks

  lemma LocalMarks(w: World, w': World, k: Handle)
    requires Local(w, w', k)
    ensures w'.core.marks == w.core.marks
  {
    hide KeepsOrder, TameDevice;
  }

  lemma RegistryMarks(cfg: Config, w: World, e: RegistryEvent)
    ensures PerformRegistry(cfg, w, e).core.marks == w.core.marks
  {
    hide Quiet, Local, DrainEarly, Negotiate, AdvanceRoute, Flush, Repeats, Freeable, Cleared, ClearedStreams, Renewed;
    match e
    case AddDevice(k, fd, page, refused) =>
      var d := FreshDevice(fd, page);
      NegotiateOpen(cfg, WithDevice(w, k, d), k, refused);
      LocalMarks(WithDevice(w, k, d), Negotiate(cfg, WithDevice(w, k, d), k, refused).0, k);
    case AddQueue(k, queue) => if k in w.core.devices { DrainEarlyQuiet(cfg, w, k); }
    case DropCommands(k, _, _) => DropMarks(cfg, w, k);
    case DropPool(k, _) => DropMarks(cfg, w, k);
    case ClearPool(k, pool) => if k in w.core.devices { DrainEarlyQuiet(cfg, w, k); }
    case Renew(c, recording) => if OwnerOf(w.core, c).Some? { DrainEarlyQuiet(cfg, w, OwnerOf(w.core, c).value); }
    case End(c, route) => EndMarks(cfg, w, c, route);
    case _ =>
  }

  lemma DropMarks(cfg: Config, w: World, k: Handle)
    ensures k in w.core.devices ==>
              NoteMutation(cfg, w.(io := Flush(cfg.net, w.io).0), k).core.marks == w.core.marks
  {
    hide Quiet, DrainEarly, Flush;
    if k in w.core.devices { DrainEarlyQuiet(cfg, w.(io := Flush(cfg.net, w.io).0), k); }
  }

  lemma EndMarks(cfg: Config, w: World, c: Handle, route: RouteView)
    ensures EndCommand(cfg, w, c, route).core.marks == w.core.marks
  {
    hide Quiet, AdvanceRoute;
    if OwnerOf(w.core, c).Some? {
      var k := OwnerOf(w.core, c).value;
      var d := w.core.devices[k];
      if c in d.commands {
        AdvanceQuiet(cfg, WithDevice(w, k, d.(commands := d.commands[c := Ended(d.commands[c])])), k, c, route);
      }
    }
  }

  lemma GateMarks(cfg: Config, w: World, e: GateEvent)
    requires Good(w) && WaitOver(w.core, e)
    ensures PerformGate(cfg, w, e).core.marks == w.core.marks
  {
    hide Quiet, Local, Good, DrainEarly, FallbackOrFail, Flush, SendFlime, BeforeSubmit, ProtocolAfter;
    match e
    case Submit(queue, view) => SubmitMarks(cfg, w, queue, view);
    case Complete(token, ok, view) =>
      if token.device in w.core.devices {
        ProtocolAfterFrees(cfg, w, token.device, token.id, ok, view);
        LocalMarks(w, ProtocolAfter(cfg, w, token.device, token.id, ok, view), token.device);
      }
    case Release(k, ok) =>
    case Reserve(k) => if k in w.core.devices { DrainEarlyQuiet(cfg, w, k); }
    case Retire(k, live) => if k in w.core.devices { FallbackOrFailQuiet(cfg, w, k); }
    case TearDown(k) => if k in w.core.devices { DrainEarlyQuiet(cfg, w, k); }
  }

  lemma SubmitMarks(cfg: Config, w: World, queue: Handle, view: SubmitView)
    requires Good(w) && WaitOver(w.core, Submit(queue, view))
    ensures BeforeSubmit(cfg, w, queue, view).0.core.marks == w.core.marks
  {
    hide Good, Local;
    match Owner(w.core.queueDevices, w.core.devices, queue)
    case None =>
    case Some(k) =>
      HeldAt(w, k);
      BeforeSubmitReserves(cfg, w, queue, view, k);
      LocalMarks(w, BeforeSubmit(cfg, w, queue, view).0, k);
  }

  /** Only the thread's own hooks and writes change its mark, and then no other thread's. */
  lemma HookMarks(cfg: Config, w: World, tid: Tid, command: Handle, call: Semantic, complete: bool, other: Tid)
    requires other != tid
    ensures MarkOf(RecordHook(cfg, w, tid, command, call, complete).0.core, other) == MarkOf(w.core, other)
  {
    hide Quiet, DrainEarly, RecordSemantic, RecordedMark;
    match OwnerOf(w.core, command)
    case None =>
    case Some(k) =>
      DrainEarlyQuiet(cfg, w, k);
      RecordMarks(w.core, command, call);
  }

  lemma RecordMarks(core: Core, command: Handle, call: Semantic)
    ensures RecordSemantic(core, command, call).Some? ==> RecordSemantic(core, command, call).value.marks == core.marks
  {
  }

  lemma GateDrainMarks(cfg: Config, w: World, funId: nat, order: seq<Handle>)
    ensures DrainGate(cfg, w, funId, order).0.core.marks == w.core.marks
  {
    hide Quiet, DrainUpTo;
    DrainUpToQuiet(cfg, w, order, |order|);
  }

  lemma WriteMarks(cfg: Config, w: World, tid: Tid, fd: int, call: Call, sync: bool, route: RouteView, order: seq<Handle>)
    ensures var (w', ok) := Write(cfg, w, tid, fd, call, sync, route, order);
            w'.core.marks == if DrainGate(cfg, w, call.funId, order).1 then w.core.marks[tid := NO_MARK] else w.core.marks
  {
    hide Quiet, DrainGate, ClusterWrite, DirectWrite;
    GateDrainMarks(cfg, w, call.funId, order);
    var (drained, ok) := DrainGate(cfg, w, call.funId, order);
    var m := MarkOf(drained.core, tid);
    var w' := Remark(drained, tid, NO_MARK);
    if MayCluster(m, call, sync) { ClusterWriteQuiet(cfg, w', m, fd, call, route); }
    DirectWriteQuiet(cfg, w', if Named(m, call) then m.named else 0, fd, call);
  }

  lemma CallMarks(cfg: Config, w: World, e: CallEvent, tid: Tid)
    requires !HookOf(OfCall(e), tid) && !WriteOf(OfCall(e), tid)
    ensures MarkOf(PerformCall(cfg, w, e).core, tid) == MarkOf(w.core, tid)
  {
    hide Quiet, Write, WriteCommand, RecordHook, Flush, DrainGate;
    match e
    case WriteCall(t, fd, call, sync, route, order) => WriteMarks(cfg, w, t, fd, call, sync, route, order);
    case WriteRecorded(fd, call, sync, command) => WriteCommandQuiet(cfg, w, fd, call, sync, command);
    case FlushTransport =>
    case HookRecord(t, command, semantic, complete) => HookMarks(cfg, w, t, command, semantic, complete, tid);
    case HookDispatch(t, command, semantic, boundary) => HookMarks(cfg, w, t, command, semantic, true, tid);
    case HookBadBind(t, command, funId) =>
  }

  /** Marks are per thread: no other thread's step, whatever it does, touches this thread's mark. */
  lemma MarksApart(cfg: Config, w: World, e: Event, tid: Tid)
    requires Good(w) && !HookOf(e, tid) && !WriteOf(e, tid)
    ensures MarkOf(Step(cfg, w, e).core, tid) == MarkOf(w.core, tid)
  {
    hide Good, PerformCall, PerformRegistry, PerformGate;
    match e
    case OfCall(c) => CallMarks(cfg, w, c, tid);
    case OfRegistry(r) => RegistryMarks(cfg, w, r);
    case OfGate(g) => if WaitOver(w.core, g) { GateMarks(cfg, w, g); }
  }

  // ------------------------------------------------------------ who consumes them

  /** A write that gets past the drain gate clears every field of its thread's mark, whatever then happens. */
  lemma WriteSpends(cfg: Config, w: World, tid: Tid, fd: int, call: Call, sync: bool, route: RouteView, order: seq<Handle>)
    ensures MarkOf(Write(cfg, w, tid, fd, call, sync, route, order).0.core, tid)
         == if DrainGate(cfg, w, call.funId, order).1 then NO_MARK else MarkOf(w.core, tid)
  {
    hide Write, DrainGate;
    WriteMarks(cfg, w, tid, fd, call, sync, route, order);
  }

  /** Without new hooks a spent mark stays spent: no later write of the thread is affected by it. */
  lemma {:induction false} SpentStaysSpent(cfg: Config, w: World, events: seq<Event>, n: nat, tid: Tid)
    requires n <= |events| && Good(w) && MarkOf(w.core, tid) == NO_MARK
    requires forall e <- events :: !HookOf(e, tid)
    ensures MarkOf(Run(cfg, w, events, n).core, tid) == NO_MARK
  {
    hide Good, Step, MarkOf, HookOf;
    if n > 0 {
      var before, e := Run(cfg, w, events, n - 1), events[n - 1];
      SpentStaysSpent(cfg, w, events, n - 1, tid);
      RunGood(cfg, w, events, n - 1);
      if WriteOf(e, tid) { SpentStep(cfg, before, e, tid); } else { MarksApart(cfg, before, e, tid); }
    }
  }

  lemma SpentStep(cfg: Config, w: World, e: Event, tid: Tid)
    requires WriteOf(e, tid) && MarkOf(w.core, tid) == NO_MARK
    ensures MarkOf(Step(cfg, w, e).core, tid) == NO_MARK
  {
    hide Write;
    WriteSpends(cfg, w, tid, e.c.fd, e.c.call, e.c.sync, e.c.route, e.c.order);
  }

  /** A write its hook blocked fails, and puts nothing into the cluster or onto the wire. */
  lemma BlockedWriteSendsNothing(cfg: Config, w: World, tid: Tid, fd: int, call: Call, sync: bool,
                                 route: RouteView, order: seq<Handle>)
    requires MarkOf(w.core, tid).block && Named(MarkOf(w.core, tid), call)
    ensures var (w', ok) := Write(cfg, w, tid, fd, call, sync, route, order);
            !ok && w'.io == DrainGate(cfg, w, call.funId, order).0.io
    ensures !EarlyRouteBarrier(call.funId) ==>
              Write(cfg, w, tid, fd, call, sync, route, order).0 == Remark(w, tid, NO_MARK)
  {
    hide DrainUpTo;
    GateDrainMarks(cfg, w, call.funId, order);
  }

  // --------------------------------------------------- a mark for another function

  lemma FallbackRemark(cfg: Config, w: World, k: Handle, tid: Tid, m: Mark)
    requires k in w.core.devices
    ensures Fallback(cfg, Remark(w, tid, m), k) == (Remark(Fallback(cfg, w, k).0, tid, m), Fallback(cfg, w, k).1)
  {
    hide DrainThenFlime, Specialized, DrainedDevice, Numbered;
  }

  lemma DrainEarlyRemark(cfg: Config, w: World, k: Handle, tid: Tid, m: Mark)
    requires k in w.core.devices
    ensures DrainEarly(cfg, Remark(w, tid, m), k) == (Remark(DrainEarly(cfg, w, k).0, tid, m), DrainEarly(cfg, w, k).1)
  {
    hide Fallback;
    FallbackRemark(cfg, w, k, tid, m);
  }

  lemma {:induction false} DrainUpToRemark(cfg: Config, w: World, order: seq<Handle>, n: nat, tid: Tid, m: Mark)
    requires n <= |order|
    ensures DrainUpTo(cfg, Remark(w, tid, m), order, n)
         == (Remark(DrainUpTo(cfg, w, order, n).0, tid, m), DrainUpTo(cfg, w, order, n).1)
  {
    hide DrainEarly;
    if n > 0 {
      DrainUpToRemark(cfg, w, order, n - 1, tid, m);
      var w' := DrainUpTo(cfg, w, order, n - 1).0;
      if order[n - 1] in w'.core.devices { DrainEarlyRemark(cfg, w', order[n - 1], tid, m); }
    }
  }

  lemma RemarkTwice(w: World, tid: Tid, m: Mark, m': Mark)
    ensures Remark(Remark(w, tid, m), tid, m') == Remark(w, tid, m')
    ensures MarkOf(Remark(w, tid, m).core, tid) == m
  {
    assert w.core.marks[tid := m][tid := m'] == w.core.marks[tid := m'];
  }

  /**
   * A mark for one function has no influence on a write of another: put any other such mark in its
   * place and the write gives the same answer and the same requests, and past the drain gate the
   * same world.
   */
  lemma MarkOnlyForItsFunction(cfg: Config, w: World, tid: Tid, m: Mark, fd: int, call: Call, sync: bool,
                               route: RouteView, order: seq<Handle>)
    requires !Named(m, call) && !Named(MarkOf(w.core, tid), call)
    ensures var (a, ok) := Write(cfg, w, tid, fd, call, sync, route, order);
            var (b, ok') := Write(cfg, Remark(w, tid, m), tid, fd, call, sync, route, order);
            && ok == ok' && a.io == b.io
            && (DrainGate(cfg, w, call.funId, order).1 ==> a == b)
  {
    hide DrainUpTo, ClusterWrite, DirectWrite;
    GateDrainMarks(cfg, w, call.funId, order);
    DrainUpToRemark(cfg, w, order, |order|, tid, m);
    RemarkTwice(DrainGate(cfg, w, call.funId, order).0, tid, m, NO_MARK);
  }

  // ------------------------------------------------------------- planning boundaries

  lemma HookMarkOk(cfg: Config, w: World, tid: Tid, command: Handle, call: Semantic, complete: bool)
    requires MarksOk(w.core)
    ensures MarksOk(RecordHook(cfg, w, tid, command, call, complete).0.core)
  {
    hide Quiet, DrainEarly, RecordSemantic, Specialized, MarkOk;
    LeftMarksOk(w.core.devices, command, call.funId);
    match OwnerOf(w.core, command)
    case None =>
    case Some(k) =>
      DrainEarlyQuiet(cfg, w, k);
      RecordMarks(w.core, command, call);
  }

  lemma LeftMarksOk(devices: map<Handle, Device>, command: Handle, funId: nat)
    ensures MarkOk(Mark(funId, false, false, false, 0, 0))
    ensures forall named :: MarkOk(Mark(funId, false, true, false, 0, named))
    ensures forall k <- devices :: MarkOk(RecordedMark(devices[k], command, funId))
  {
  }

  lemma DispatchMarkOk(cfg: Config, w: World, tid: Tid, command: Handle, call: Semantic, boundary: bool)
    requires MarksOk(w.core)
    ensures MarksOk(DispatchHook(cfg, w, tid, command, call, boundary).core)
  {
    hide RecordHook;
    HookMarkOk(cfg, w, tid, command, call, true);
    HookMarkNamed(cfg, w, tid, command, call);
  }

  lemma HookMarkNamed(cfg: Config, w: World, tid: Tid, command: Handle, call: Semantic)
    ensures var (w', recorded) := RecordHook(cfg, w, tid, command, call, true);
            recorded ==>
              var m := MarkOf(w'.core, tid);
              !m.block && (m.allow ==> TypeICluster(m.funId) && m.named == command)
  {
    hide DrainEarly, RecordSemantic, Specialized;
  }

  lemma MarksOkStep(cfg: Config, w: World, e: Event)
    requires Good(w) && MarksOk(w.core)
    ensures MarksOk(Step(cfg, w, e).core)
  {
    hide Good, MarkOk, PerformRegistry, PerformGate, PerformCall;
    match e
    case OfCall(c) => MarksOkCall(cfg, w, c);
    case OfRegistry(r) => RegistryMarks(cfg, w, r);
    case OfGate(g) => if WaitOver(w.core, g) { GateMarks(cfg, w, g); }
  }

  lemma MarksOkCall(cfg: Config, w: World, e: CallEvent)
    requires MarksOk(w.core)
    ensures MarksOk(PerformCall(cfg, w, e).core)
  {
    hide Quiet, Write, WriteCommand, RecordHook, DispatchHook, Flush, DrainGate;
    match e
    case WriteCall(t, fd, call, sync, route, order) => WriteMarks(cfg, w, t, fd, call, sync, route, order);
    case WriteRecorded(fd, call, sync, command) => WriteCommandQuiet(cfg, w, fd, call, sync, command);
    case FlushTransport =>
    case HookRecord(t, command, semantic, complete) => HookMarkOk(cfg, w, t, command, semantic, complete);
    case HookDispatch(t, command, semantic, boundary) => DispatchMarkOk(cfg, w, t, command, semantic, boundary);
    case HookBadBind(t, command, funId) =>
  }

  /** In every run a pending route always comes with a pending flush, and a block comes alone. */
  lemma {:induction false} MarksOkAlways(cfg: Config, w: World, events: seq<Event>, n: nat)
    requires n <= |events| && Good(w) && MarksOk(w.core)
    ensures MarksOk(Run(cfg, w, events, n).core)
  {
    hide Good, Step, MarksOk;
    if n > 0 {
      MarksOkAlways(cfg, w, events, n - 1);
      RunGood(cfg, w, events, n - 1);
      MarksOkStep(cfg, Run(cfg, w, events, n - 1), events[n - 1]);
    }
  }

  /**
   * Boundary handoff: whatever a write that must be flushed adds behind its own call - a route
   * sent on ahead, or the drain that replaces it - the host receives after that call and after
   * everything that came before it.
   */
  lemma DispatchBeforeRoute(cfg: Config, w: World, m: Mark, fd: int, call: Call, view: RouteView)
    requires IoOk(w.io) && Clusterable(call.funId) && m.flushAfter
    ensures var (io, ok) := AppendOrSend(cfg, w.io, fd, call);
            var (io', flushed) := Flush(cfg.net, io);
            if ok && flushed
            then HostRanOnce(io'.wire) == w.io.log + [Ran(fd, Received(call))]
            else ClusterWrite(cfg, w, m, fd, call, view) ==
                   (World(FailOwner(w.core, m.named), if ok then io' else io), false)
  {
    hide IoOk, AppendOrSend, AdvanceRoute, FailOwner, Flush;
    AppendAnswers(cfg, w.io, fd, call);
    var (io, ok) := AppendOrSend(cfg, w.io, fd, call);
    FlushKeeps(cfg.net, io);
    if Flush(cfg.net, io).1 { AllSeen(Flush(cfg.net, io).0); }
  }

  lemma AppendAnswers(cfg: Config, io: Io, fd: int, call: Call)
    requires IoOk(io) && Clusterable(call.funId)
    ensures var (io', ok) := AppendOrSend(cfg, io, fd, call);
            IoOk(io') && (ok ==> io'.log == io.log + [Ran(fd, Received(call))])
  {
    hide IoOk, AppendOwned, DrainThenSingle;
    AppendKeeps(cfg.net, io, fd, call);
    DrainThenSingleKeeps(cfg.net, io, fd, call);
  }
}
