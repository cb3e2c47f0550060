/**
 * Batching is invisible: side by side with a transport that sends every call on its own, over a
 * network that acknowledges everything, the two agree after every event on all of the guest's
 * state and on the history the host has been given or is about to be given.
 */
module Batching {
  import opened GuestTypes
  import opened ClusterCodec
  import opened ClusterProofs
  import opened Wire
  import opened GuestState
  import opened CommandOps
  import opened RegistryOps
  import opened SubmitOps
  import opened Machine
  import opened Evolution

  function Batched(net: Net): Config { Config(net, true) }

  function Reference(net: Net): Config { Config(net, false) }

  ghost predicate AllAcks(net: Net) { forall n :: net(n) == Acked }

  /** The same history; the reference transport never has anything pending. */
  predicate TwinIo(b: Io, r: Io) {
    && b.log == r.log
    && AllAcked(b.wire, |b.wire|) && AllAcked(r.wire, |r.wire|)
    && ClusterOk(b.cluster) && (Empty(b.cluster) || b.cluster.fd >= 0)
    && r.cluster == EMPTY_CLUSTER
  }

  predicate Twin(b: World, r: World) { b.core == r.core && TwinIo(b.io, r.io) }

  predicate Same<X(==)>(b: (World, X), r: (World, X)) { Twin(b.0, r.0) && b.1 == r.1 }

  predicate SameIo<X(==)>(b: (Io, X), r: (Io, X)) { TwinIo(b.0, r.0) && b.1 == r.1 }

  // ------------------------------------------------------------------ requests

  lemma FlushAcks(net: Net, io: Io)
    requires AllAcks(net) && ClusterOk(io.cluster) && (Empty(io.cluster) || io.cluster.fd >= 0)
    ensures Flush(net, io).1 && Flush(net, io).0.cluster == EMPTY_CLUSTER && Flush(net, io).0.log == io.log
  {
  }

  lemma FlushSame(net: Net, b: Io, r: Io)
    requires AllAcks(net) && TwinIo(b, r)
    ensures SameIo(Flush(net, b), Flush(net, r)) && Flush(net, b).1
    ensures Empty(Flush(net, b).0.cluster)
  {
  }

  lemma FlimeSame(net: Net, b: Io, r: Io, fd: int, k: Handle, kind: FlimeKind)
    requires AllAcks(net) && TwinIo(b, r)
    ensures SameIo(DrainThenFlime(net, b, fd, k, kind), DrainThenFlime(net, r, fd, k, kind))
  {
    FlushSame(net, b, r);
  }

  lemma SingleSame(net: Net, b: Io, r: Io, fd: int, call: Call)
    requires AllAcks(net) && TwinIo(b, r)
    ensures SameIo(DrainThenSingle(net, b, fd, call), DrainThenSingle(net, r, fd, call))
  {
    FlushSame(net, b, r);
  }

  /** A call the batch passes on, or can take because the descriptor is usable. */
  predicate Batchable(fd: int, call: Call) {
    match Dispose(call)
    case Reject => false
    case SendDirect => true
    case Batch => fd >= 0
  }

  lemma ExtendTwin(b: Io, r: Io, fd: int, call: Call)
    requires TwinIo(b, r) && fd >= 0 && Dispose(call) == Batch && !MustDrainFirst(b.cluster, fd, call)
    ensures TwinIo(b.(cluster := Extend(b.cluster, fd, call), log := b.log + [Ran(fd, Received(call))]),
                   r.(log := r.log + [Ran(fd, Received(call))]))
  {
    ExtendAppends(b.cluster, fd, call);
  }

  lemma AppendSame(net: Net, b: Io, r: Io, fd: int, call: Call)
    requires AllAcks(net) && TwinIo(b, r) && Batchable(fd, call)
    ensures SameIo(AppendOrSend(Batched(net), b, fd, call), AppendOrSend(Reference(net), r, fd, call))
  {
    hide ClusterOk, DrainThenSingle, Dispose, Extend, MustDrainFirst;
    SingleSame(net, b, r, fd, call);
    if Dispose(call) == Batch {
      SaneWhenOk(b.cluster);
      FlushSame(net, b, r);
      DrainedMakesRoom(fd, call);
      SentAlone(net, r, fd, call);
      var (drained, ok) := if MustDrainFirst(b.cluster, fd, call) then Flush(net, b) else (b, true);
      ExtendTwin(drained, r, fd, call);
    }
  }

  lemma SaneWhenOk(c: Cluster)
    requires ClusterOk(c) && (Empty(c) || c.fd >= 0)
    ensures ClusterSane(c)
  {
  }

  lemma SentAlone(net: Net, r: Io, fd: int, call: Call)
    requires AllAcks(net) && r.cluster == EMPTY_CLUSTER
    ensures DrainThenSingle(net, r, fd, call).1
    ensures var io := DrainThenSingle(net, r, fd, call).0;
            io.cluster == EMPTY_CLUSTER && io.log == r.log + [Ran(fd, Received(call))]
  {
  }

  // -------------------------------------------------------------- device transitions

  lemma FallbackSame(net: Net, b: World, r: World, k: Handle)
    requires AllAcks(net) && Twin(b, r) && k in b.core.devices
    ensures Same(Fallback(Batched(net), b, k), Fallback(Reference(net), r, k))
    ensures Same(FallbackOrFail(Batched(net), b, k), FallbackOrFail(Reference(net), r, k))
    ensures Same(DrainEarly(Batched(net), b, k), DrainEarly(Reference(net), r, k))
  {
    hide TwinIo, DrainThenFlime;
    FlimeSame(net, b.io, r.io, b.core.devices[k].fd, k, FallbackFlush);
  }

  lemma {:induction false} DrainUpToSame(net: Net, b: World, r: World, order: seq<Handle>, n: nat)
    requires AllAcks(net) && Twin(b, r) && n <= |order|
    ensures Same(DrainUpTo(Batched(net), b, order, n), DrainUpTo(Reference(net), r, order, n))
  {
    hide TwinIo, DrainEarly;
    if n > 0 {
      DrainUpToSame(net, b, r, order, n - 1);
      var (b', r') := (DrainUpTo(Batched(net), b, order, n - 1).0, DrainUpTo(Reference(net), r, order, n - 1).0);
      if order[n - 1] in b'.core.devices { FallbackSame(net, b', r', order[n - 1]); }
    }
  }

  lemma SendRouteSame(net: Net, b: Io, r: Io, fd: int, k: Handle, withdrawn: bool, accepted: bool)
    requires AllAcks(net) && TwinIo(b, r)
    ensures var (b', begun, sent) := SendRoute(Batched(net), b, fd, k, withdrawn, accepted);
            var (r', begun', sent') := SendRoute(Reference(net), r, fd, k, withdrawn, accepted);
            TwinIo(b', r') && begun == begun' && sent == sent'
  {
    hide TwinIo, DrainThenFlime;
    FlimeSame(net, b, r, fd, k, PeriodBegin);
    FlimeSame(net, DrainThenFlime(net, b, fd, k, PeriodBegin).0,
              DrainThenFlime(net, r, fd, k, PeriodBegin).0, fd, k, Route);
  }

  lemma AdvanceSame(net: Net, b: World, r: World, k: Handle, command: Handle, view: RouteView)
    requires AllAcks(net) && Twin(b, r) && k in b.core.devices
    ensures Same(AdvanceRoute(Batched(net), b, k, command, view), AdvanceRoute(Reference(net), r, k, command, view))
  {
    hide TwinIo, SendRoute, FallbackOrFail, RouteGuard, Told;
    var d := b.core.devices[k];
    FallbackSame(net, b, r, k);
    if !d.failed && !d.early && view.Ready? && CanNumber(d) {
      SendRouteSame(net, b.io, r.io, d.fd, k, view.withdrawn, view.accepted);
      var (bio, begun, sent) := SendRoute(Batched(net), b.io, d.fd, k, view.withdrawn, view.accepted);
      var rio := SendRoute(Reference(net), r.io, d.fd, k, view.withdrawn, view.accepted).0;
      var told := SetDevice(b.core, k, Told(Numbered(d), begun, view.withdrawn));
      FallbackSame(net, World(told, bio), World(told, rio), k);
    }
  }

  // ------------------------------------------------------------------------ hooks

  lemma HookSame(net: Net, b: World, r: World, tid: Tid, command: Handle, call: Semantic, complete: bool)
    requires AllAcks(net) && Twin(b, r)
    ensures Same(RecordHook(Batched(net), b, tid, command, call, complete),
                 RecordHook(Reference(net), r, tid, command, call, complete))
  {
    hide TwinIo, DrainEarly, FailNamed, RecordSemantic, Specialized;
    match OwnerOf(b.core, command)
    case None =>
    case Some(k) => FallbackSame(net, b, r, k);
  }

  lemma DispatchSame(net: Net, b: World, r: World, tid: Tid, command: Handle, call: Semantic, boundary: bool)
    requires AllAcks(net) && Twin(b, r)
    ensures Twin(DispatchHook(Batched(net), b, tid, command, call, boundary),
                 DispatchHook(Reference(net), r, tid, command, call, boundary))
  {
    hide TwinIo, RecordHook;
    HookSame(net, b, r, tid, command, call, true);
  }

  // ----------------------------------------------------------------------- writes

  lemma ClusterWriteSame(net: Net, b: World, r: World, m: Mark, fd: int, call: Call, view: RouteView)
    requires AllAcks(net) && Twin(b, r) && Batchable(fd, call)
    ensures Same(ClusterWrite(Batched(net), b, m, fd, call, view), ClusterWrite(Reference(net), r, m, fd, call, view))
  {
    hide TwinIo, AppendOrSend, Flush, AdvanceRoute, FailOwner;
    AppendSame(net, b.io, r.io, fd, call);
    var (bio, rio) := (AppendOrSend(Batched(net), b.io, fd, call).0, AppendOrSend(Reference(net), r.io, fd, call).0);
    FlushSame(net, bio, rio);
    if OwnerOf(b.core, m.routeAfter).Some? {
      var k := OwnerOf(b.core, m.routeAfter).value;
      AdvanceSame(net, b.(io := bio), r.(io := rio), k, m.routeAfter, view);
      AdvanceSame(net, b.(io := Flush(net, bio).0), r.(io := Flush(net, rio).0), k, m.routeAfter, view);
    }
  }

  lemma DirectWriteSame(net: Net, b: World, r: World, owner: Handle, fd: int, call: Call)
    requires AllAcks(net) && Twin(b, r)
    ensures Same(DirectWrite(Batched(net), b, owner, fd, call), DirectWrite(Reference(net), r, owner, fd, call))
  {
    hide FailOwner;
    FlushSame(net, b.io, r.io);
  }

  /** An ordinary write that asks to be batched although the batch cannot take it. */
  predicate VisibleWrite(core: Core, tid: Tid, fd: int, call: Call, sync: bool) {
    var m := MarkOf(core, tid);
    MayCluster(m, call, sync) && !m.block && !Batchable(fd, call)
  }

  /** A command of device k that is batched once its semantics are settled. */
  predicate Joins(core: Core, k: Handle, command: Handle, call: Call, sync: bool)
    requires k in core.devices
  {
    && ClusterCandidate(core, Some(k), call, sync)
    && RecordSemantic(core, command, GenericSemantic(call, false)).Some?
  }

  /** A command write that gets as far as the batch although the batch cannot take it. */
  predicate VisibleCommand(core: Core, fd: int, call: Call, sync: bool, command: Handle) {
    && command != 0 && call.deviceId == GPU_DEVICE_ID && call.framed
    && OwnerOf(core, command).Some?
    && Joins(core, OwnerOf(core, command).value, command, call, sync)
    && !Batchable(fd, call)
  }

  lemma WriteSame(net: Net, b: World, r: World, tid: Tid, fd: int, call: Call, sync: bool,
                  view: RouteView, order: seq<Handle>)
    requires AllAcks(net) && Twin(b, r) && !VisibleWrite(b.core, tid, fd, call, sync)
    ensures Same(Write(Batched(net), b, tid, fd, call, sync, view, order),
                 Write(Reference(net), r, tid, fd, call, sync, view, order))
  {
    hide TwinIo, ClusterWrite, DirectWrite, DrainUpTo;
    DrainUpToSame(net, b, r, order, |order|);
    var (b', ok) := DrainGate(Batched(net), b, call.funId, order);
    var (r', _) := DrainGate(Reference(net), r, call.funId, order);
    if ok {
      var m := MarkOf(b'.core, tid);
      var b'' := b'.(core := SetMark(b'.core, tid, NO_MARK));
      var r'' := r'.(core := SetMark(r'.core, tid, NO_MARK));
      if MayCluster(m, call, sync) && !m.block { ClusterWriteSame(net, b'', r'', m, fd, call, view); }
      DirectWriteSame(net, b'', r'', if Named(m, call) then m.named else 0, fd, call);
    }
  }

  lemma SemanticStepSame(net: Net, b: World, r: World, k: Handle, command: Handle, call: Call)
    requires AllAcks(net) && Twin(b, r) && k in b.core.devices
    ensures Same(SemanticStep(Batched(net), b, k, command, call), SemanticStep(Reference(net), r, k, command, call))
  {
    hide TwinIo, FallbackOrFail, RecordSemantic, GenericSemantic;
    FallbackSame(net, b, r, k);
    var recorded := RecordSemantic(b.core, command, GenericSemantic(call, !TypeIWildcard(call.funId)));
    if recorded.Some? { FallbackSame(net, b.(core := recorded.value), r.(core := recorded.value), k); }
  }

  lemma EmitSame(net: Net, b: World, r: World, owner: Option<Handle>, fd: int, call: Call, sync: bool)
    requires AllAcks(net) && Twin(b, r) && (owner.Some? ==> owner.value in b.core.devices)
    requires ClusterCandidate(b.core, owner, call, sync) ==> Batchable(fd, call)
    ensures Same(EmitCommand(Batched(net), b, owner, fd, call, sync), EmitCommand(Reference(net), r, owner, fd, call, sync))
  {
    hide TwinIo, AppendOrSend, DrainThenSingle;
    SingleSame(net, b.io, r.io, fd, call);
    if ClusterCandidate(b.core, owner, call, sync) { AppendSame(net, b.io, r.io, fd, call); }
  }

  /** Draining and recording a command leave it a candidate for the batch in no other case. */
  lemma JoinsExactly(cfg: Config, w: World, k: Handle, command: Handle, call: Call, sync: bool)
    requires k in w.core.devices
    ensures var (drained, gone) := DrainEarly(cfg, w, k);
            var (settled, ok) := SemanticStep(cfg, drained, k, command, call);
            && (gone && ok && ClusterCandidate(settled.core, Some(k), call, sync) <==> Joins(w.core, k, command, call, sync))
            && (Joins(w.core, k, command, call, sync) ==> drained == w && settled.io == w.io)
  {
    hide DrainEarly, SemanticStep, ClusterCandidate, RecordSemantic, GenericSemantic, TypeIWildcard;
    var (drained, gone) := DrainEarly(cfg, w, k);
    DrainsCandidate(cfg, w, k, call, sync);
    StepsCandidate(cfg, drained, k, command, call, sync);
  }

  /** A candidate has no early route to drain, and a drained device has no candidates. */
  lemma DrainsCandidate(cfg: Config, w: World, k: Handle, call: Call, sync: bool)
    requires k in w.core.devices
    ensures var (drained, gone) := DrainEarly(cfg, w, k);
            && (ClusterCandidate(w.core, Some(k), call, sync) ==> gone && drained == w)
            && (gone && ClusterCandidate(drained.core, Some(k), call, sync) ==>
                  ClusterCandidate(w.core, Some(k), call, sync))
  {
    hide FallbackOrFail, TypeIWildcard;
    Lowered(cfg, w, k);
  }

  lemma Lowered(cfg: Config, w: World, k: Handle)
    requires k in w.core.devices
    ensures var (w', ok) := FallbackOrFail(cfg, w, k);
            if ok then w'.core.devices[k].stage == Legacy else w'.core.devices[k].failed
  {
    hide DrainThenFlime;
  }

  /** A candidate stays one exactly if its entry joins the stream. */
  lemma StepsCandidate(cfg: Config, w: World, k: Handle, command: Handle, call: Call, sync: bool)
    requires k in w.core.devices
    ensures var (settled, ok) := SemanticStep(cfg, w, k, command, call);
            && (ok && ClusterCandidate(settled.core, Some(k), call, sync) <==> Joins(w.core, k, command, call, sync))
            && (Joins(w.core, k, command, call, sync) ==> settled.io == w.io)
  {
    hide FallbackOrFail, RecordSemantic, GenericSemantic, TypeIWildcard;
    Lowered(cfg, w, k);
    var unsafe := !TypeIWildcard(call.funId);
    var recorded := RecordSemantic(w.core, command, GenericSemantic(call, unsafe));
    if recorded.Some? { Lowered(cfg, w.(core := recorded.value), k); }
  }

  lemma SettledSame(net: Net, b: World, r: World, k: Handle, command: Handle, fd: int, call: Call, sync: bool)
    requires AllAcks(net) && Twin(b, r) && k in b.core.devices
    requires Joins(b.core, k, command, call, sync) ==> Batchable(fd, call)
    ensures Same(Settled(Batched(net), b, k, command, fd, call, sync),
                 Settled(Reference(net), r, k, command, fd, call, sync))
  {
    hide TwinIo, DrainEarly, SemanticStep, EmitCommand, Joins, ClusterCandidate;
    FallbackSame(net, b, r, k);
    var (b', r') := (DrainEarly(Batched(net), b, k).0, DrainEarly(Reference(net), r, k).0);
    SemanticStepSame(net, b', r', k, command, call);
    JoinsExactly(Batched(net), b, k, command, call, sync);
    var (b'', ok) := SemanticStep(Batched(net), b', k, command, call);
    if DrainEarly(Batched(net), b, k).1 && ok {
      EmitSame(net, b'', SemanticStep(Reference(net), r', k, command, call).0, Some(k), fd, call, sync);
    }
  }

  lemma NoCandidate(core: Core, call: Call, sync: bool)
    ensures !ClusterCandidate(core, None, call, sync)
  {
  }

  lemma WriteCommandSame(net: Net, b: World, r: World, fd: int, call: Call, sync: bool, command: Handle)
    requires AllAcks(net) && Twin(b, r) && !VisibleCommand(b.core, fd, call, sync, command)
    ensures Same(WriteCommand(Batched(net), b, fd, call, sync, command),
                 WriteCommand(Reference(net), r, fd, call, sync, command))
  {
    hide TwinIo, Settled, EmitCommand, Flush, ClusterCandidate, Joins, Batchable;
    FlushSame(net, b.io, r.io);
    var owner := OwnerOf(b.core, command);
    var flush := !ClusterCandidate(b.core, owner, call, sync);
    var (b', r') := (if flush then b.(io := Flush(net, b.io).0) else b, if flush then r.(io := Flush(net, r.io).0) else r);
    NoCandidate(b.core, call, sync);
    EmitSame(net, b', r', None, fd, call, sync);
    if owner.Some? && command != 0 && call.deviceId == GPU_DEVICE_ID && call.framed {
      SettledSame(net, b', r', owner.value, command, fd, call, sync);
    }
  }

  // --------------------------------------------------------------------- registry

  lemma NegotiateSame(net: Net, b: World, r: World, k: Handle, refused: bool)
    requires AllAcks(net) && Twin(b, r) && k in b.core.devices
    ensures Same(Negotiate(Batched(net), b, k, refused), Negotiate(Reference(net), r, k, refused))
  {
    hide TwinIo, DrainThenFlime, Negotiated;
    FlimeSame(net, b.io, r.io, b.core.devices[k].fd, k, Capabilities);
  }

  lemma AddDeviceSame(net: Net, b: World, r: World, k: Handle, fd: int, page: bool, refused: bool)
    requires AllAcks(net) && Twin(b, r)
    ensures Twin(RegisterDevice(Batched(net), b, k, fd, page, refused),
                 RegisterDevice(Reference(net), r, k, fd, page, refused))
  {
    hide TwinIo, Negotiate;
    var d := FreshDevice(fd, page);
    NegotiateSame(net, WithDevice(b, k, d), WithDevice(r, k, d), k, refused);
  }

  lemma AddQueueSame(net: Net, b: World, r: World, k: Handle, queue: Handle)
    requires AllAcks(net) && Twin(b, r)
    ensures Twin(RegisterQueue(Batched(net), b, k, queue), RegisterQueue(Reference(net), r, k, queue))
  {
    hide TwinIo, DrainEarly;
    if k in b.core.devices { FallbackSame(net, b, r, k); }
  }

  lemma DropSame(net: Net, b: World, r: World, k: Handle, pool: Handle, batch: seq<Handle>)
    requires AllAcks(net) && Twin(b, r)
    ensures Twin(FreeCommands(Batched(net), b, k, pool, batch), FreeCommands(Reference(net), r, k, pool, batch))
    ensures Twin(DestroyPool(Batched(net), b, k, pool), DestroyPool(Reference(net), r, k, pool))
  {
    hide TwinIo, Flush, DrainEarly, RemoveCommands, Repeats, Freeable, Specialized;
    FlushSame(net, b.io, r.io);
    if k in b.core.devices {
      FallbackSame(net, b.(io := Flush(net, b.io).0), r.(io := Flush(net, r.io).0), k);
    }
  }

  lemma RenewSame(net: Net, b: World, r: World, k: Handle, pool: Handle, c: Handle, recording: bool)
    requires AllAcks(net) && Twin(b, r)
    ensures Twin(ResetPool(Batched(net), b, k, pool), ResetPool(Reference(net), r, k, pool))
    ensures Twin(RenewCommand(Batched(net), b, c, recording), RenewCommand(Reference(net), r, c, recording))
  {
    hide TwinIo, DrainEarly, Cleared, ClearedStreams, Renewed, RenewedStream;
    if k in b.core.devices { FallbackSame(net, b, r, k); }
    if OwnerOf(b.core, c).Some? { FallbackSame(net, b, r, OwnerOf(b.core, c).value); }
  }

  lemma EndSame(net: Net, b: World, r: World, c: Handle, route: RouteView)
    requires AllAcks(net) && Twin(b, r)
    ensures Twin(EndCommand(Batched(net), b, c, route), EndCommand(Reference(net), r, c, route))
  {
    hide TwinIo, AdvanceRoute;
    if OwnerOf(b.core, c).Some? {
      var k := OwnerOf(b.core, c).value;
      var d := b.core.devices[k];
      if c in d.commands && d.commands[c].recording {
        var e := d.(commands := d.commands[c := Ended(d.commands[c])]);
        AdvanceSame(net, WithDevice(b, k, e), WithDevice(r, k, e), k, c, route);
      }
    }
  }

  // ------------------------------------------------------------------- submission

  /** The same outcome of a preparation. */
  predicate SamePrepared(b: (World, Prepared, u64), r: (World, Prepared, u64)) {
    Twin(b.0, r.0) && b.1 == r.1 && b.2 == r.2
  }

  lemma PrepareFallbackSame(net: Net, b: World, r: World, k: Handle)
    requires AllAcks(net) && Twin(b, r) && k in b.core.devices
    ensures SamePrepared(PrepareFallback(Batched(net), b, k), PrepareFallback(Reference(net), r, k))
  {
    hide TwinIo, Fallback;
    FallbackSame(net, b, r, k);
  }

  lemma CompleteEarlySame(net: Net, b: World, r: World, k: Handle, view: SubmitView)
    requires AllAcks(net) && Twin(b, r) && k in b.core.devices
    ensures SamePrepared(CompleteEarly(Batched(net), b, k, view), CompleteEarly(Reference(net), r, k, view))
  {
    hide TwinIo, PrepareFallback, DrainThenFlime;
    var d := b.core.devices[k];
    PrepareFallbackSame(net, b, r, k);
    FlimeSame(net, b.io, r.io, d.fd, k, Route);
    PrepareFallbackSame(net, b.(io := DrainThenFlime(net, b.io, d.fd, k, Route).0),
                        r.(io := DrainThenFlime(net, r.io, d.fd, k, Route).0), k);
  }

  lemma RouteSubmissionSame(net: Net, b: World, r: World, k: Handle, view: SubmitView)
    requires AllAcks(net) && Twin(b, r) && k in b.core.devices
    ensures SamePrepared(RouteSubmission(Batched(net), b, k, view), RouteSubmission(Reference(net), r, k, view))
  {
    hide TwinIo, PrepareFallback, DrainThenFlime;
    var d := b.core.devices[k];
    PrepareFallbackSame(net, b, r, k);
    if CanNumber(d) {
      var (b1, r1) := (DrainThenFlime(net, b.io, d.fd, k, PeriodBegin).0, DrainThenFlime(net, r.io, d.fd, k, PeriodBegin).0);
      FlimeSame(net, b.io, r.io, d.fd, k, PeriodBegin);
      FlimeSame(net, b1, r1, d.fd, k, Report);
      var (b2, r2) :=
        if view.mismatch
        then (DrainThenFlime(net, b1, d.fd, k, Report).0, DrainThenFlime(net, r1, d.fd, k, Report).0)
        else (b1, r1);
      FlimeSame(net, b2, r2, d.fd, k, Route);
      var numbered := SetDevice(b.core, k, Numbered(d));
      PrepareFallbackSame(net, World(numbered, DrainThenFlime(net, b2, d.fd, k, Route).0),
                          World(numbered, DrainThenFlime(net, r2, d.fd, k, Route).0), k);
    }
  }

  lemma ObserveDetectSame(net: Net, b: World, r: World, k: Handle, view: SubmitView)
    requires AllAcks(net) && Twin(b, r) && k in b.core.devices
    ensures SamePrepared(ObserveDetect(Batched(net), b, k, view), ObserveDetect(Reference(net), r, k, view))
  {
    hide TwinIo, DrainThenFlime, Observed;
    var fd := b.core.devices[k].fd;
    FlimeSame(net, b.io, r.io, fd, k, Interval);
    FlimeSame(net, DrainThenFlime(net, b.io, fd, k, Interval).0, DrainThenFlime(net, r.io, fd, k, Interval).0,
              fd, k, Interval);
  }

  lemma ProtocolBeforeSame(net: Net, b: World, r: World, k: Handle, view: SubmitView)
    requires AllAcks(net) && Twin(b, r) && k in b.core.devices
    ensures SamePrepared(ProtocolBefore(Batched(net), b, k, view), ProtocolBefore(Reference(net), r, k, view))
  {
    hide TwinIo, Flush, PrepareFallback, CompleteEarly, RouteSubmission, ObserveDetect;
    FlushSame(net, b.io, r.io);
    var d := if view.hostLegacy then LegacyDevice(b.core.devices[k]) else b.core.devices[k];
    var b' := World(SetDevice(b.core, k, d), Flush(net, b.io).0);
    var r' := World(SetDevice(r.core, k, d), Flush(net, r.io).0);
    PrepareFallbackSame(net, b', r', k);
    CompleteEarlySame(net, b', r', k, view);
    RouteSubmissionSame(net, b', r', k, view);
    ObserveDetectSame(net, b', r', k, view);
  }

  lemma ClassifySame(net: Net, b: World, r: World, k: Handle, view: SubmitView)
    requires AllAcks(net) && Twin(b, r) && k in b.core.devices
    ensures SamePrepared(Classify(Batched(net), b, k, view), Classify(Reference(net), r, k, view))
  {
    hide TwinIo, ProtocolBefore, PrepareFallback;
    ProtocolBeforeSame(net, b, r, k, view);
    PrepareFallbackSame(net, b, r, k);
  }

  lemma AdoptSame(net: Net, b: World, r: World, k: Handle, queue: Handle, refused: bool)
    requires AllAcks(net) && Twin(b, r) && k in b.core.devices
    ensures Same(AdoptQueue(Batched(net), b, k, queue), AdoptQueue(Reference(net), r, k, queue))
    ensures Same(EnsureNegotiated(Batched(net), b, k, refused), EnsureNegotiated(Reference(net), r, k, refused))
  {
    hide TwinIo, DrainEarly, Negotiate;
    FallbackSame(net, b, r, k);
    NegotiateSame(net, b, r, k, refused);
  }

  lemma BeforeSubmitSame(net: Net, b: World, r: World, queue: Handle, view: SubmitView)
    requires AllAcks(net) && Twin(b, r)
    ensures var (b', gate, token) := BeforeSubmit(Batched(net), b, queue, view);
            var (r', gate', token') := BeforeSubmit(Reference(net), r, queue, view);
            Twin(b', r') && gate == gate' && token == token'
  {
    hide TwinIo, AdoptQueue, EnsureNegotiated, Classify;
    match Owner(b.core.queueDevices, b.core.devices, queue)
    case None =>
    case Some(k) =>
      AdoptSame(net, b, r, k, queue, view.refused);
      var (b1, r1) := (AdoptQueue(Batched(net), b, k, queue).0, AdoptQueue(Reference(net), r, k, queue).0);
      AdoptSame(net, b1, r1, k, queue, view.refused);
      var (b2, r2) := (EnsureNegotiated(Batched(net), b1, k, view.refused).0,
                       EnsureNegotiated(Reference(net), r1, k, view.refused).0);
      ClassifySame(net, b2, r2, k, view);
  }

  lemma AbandonSame(net: Net, b: World, r: World, k: Handle)
    requires AllAcks(net) && Twin(b, r) && k in b.core.devices
    ensures Twin(AbandonRecovery(Batched(net), b, k), AbandonRecovery(Reference(net), r, k))
  {
    hide TwinIo, Fallback;
    var d := b.core.devices[k].(active := false);
    FallbackSame(net, WithDevice(b, k, d), WithDevice(r, k, d), k);
  }

  lemma ProtocolAfterSame(net: Net, b: World, r: World, k: Handle, id: u64, ok: bool, view: AfterView)
    requires AllAcks(net) && Twin(b, r) && k in b.core.devices
    ensures Twin(ProtocolAfter(Batched(net), b, k, id, ok, view), ProtocolAfter(Reference(net), r, k, id, ok, view))
  {
    hide TwinIo, AbandonRecovery, DrainThenFlime;
    var d := b.core.devices[k];
    var (b', r') := (DrainThenFlime(net, b.io, d.fd, k, Report).0, DrainThenFlime(net, r.io, d.fd, k, Report).0);
    FlimeSame(net, b.io, r.io, d.fd, k, Report);
    FlimeSame(net, b', r', d.fd, k, Report);
    AbandonSame(net, b, r, k);
    AbandonSame(net, b.(io := b'), r.(io := r'), k);
  }

  lemma GateSame(net: Net, b: World, r: World, e: GateEvent)
    requires AllAcks(net) && Twin(b, r)
    ensures Twin(PerformGate(Batched(net), b, e), PerformGate(Reference(net), r, e))
  {
    hide TwinIo, BeforeSubmit, AfterSubmit, BeginLifecycle, EndLifecycle, PrepareRetirement, BeforeDestroy;
    match e
    case Submit(queue, view) => BeforeSubmitSame(net, b, r, queue, view);
    case Complete(token, ok, view) => AfterSubmitSame(net, b, r, token, ok, view);
    case Reserve(k) => LifecycleSame(net, b, r, k, true);
    case Release(k, ok) => LifecycleSame(net, b, r, k, ok);
    case Retire(k, live) => RetireSame(net, b, r, k, live);
    case TearDown(k) => TeardownSame(net, b, r, k);
  }

  lemma AfterSubmitSame(net: Net, b: World, r: World, token: Token, ok: bool, view: AfterView)
    requires AllAcks(net) && Twin(b, r)
    ensures Twin(AfterSubmit(Batched(net), b, token, ok, view), AfterSubmit(Reference(net), r, token, ok, view))
  {
    hide TwinIo, ProtocolAfter;
    if token.device in b.core.devices { ProtocolAfterSame(net, b, r, token.device, token.id, ok, view); }
  }

  lemma LifecycleSame(net: Net, b: World, r: World, k: Handle, ok: bool)
    requires AllAcks(net) && Twin(b, r)
    ensures Twin(BeginLifecycle(Batched(net), b, k), BeginLifecycle(Reference(net), r, k))
    ensures Twin(EndLifecycle(b, k, ok), EndLifecycle(r, k, ok))
  {
    hide TwinIo, DrainEarly;
    if k in b.core.devices { FallbackSame(net, b, r, k); }
  }

  lemma RetireSame(net: Net, b: World, r: World, k: Handle, live: bool)
    requires AllAcks(net) && Twin(b, r)
    ensures Twin(PrepareRetirement(Batched(net), b, k, live).0, PrepareRetirement(Reference(net), r, k, live).0)
  {
    hide TwinIo, FallbackOrFail;
    if k in b.core.devices { FallbackSame(net, b, r, k); }
  }

  lemma TeardownSame(net: Net, b: World, r: World, k: Handle)
    requires AllAcks(net) && Twin(b, r)
    ensures Same(BeforeDestroy(Batched(net), b, k), BeforeDestroy(Reference(net), r, k))
  {
    hide DrainEarly;
    if k in b.core.devices {
      FallbackSame(net, b, r, k);
      FlushSame(net, DrainEarly(Batched(net), b, k).0.io, DrainEarly(Reference(net), r, k).0.io);
    }
  }

  // ------------------------------------------------------------------------- runs

  /** An event that shows: it hands the batch a call that the batch cannot take. */
  predicate Visible(core: Core, e: Event) { e.OfCall? && VisibleCall(core, e.c) }

  predicate VisibleCall(core: Core, e: CallEvent) {
    match e
    case WriteCall(tid, fd, call, sync, _, _) => VisibleWrite(core, tid, fd, call, sync)
    case WriteRecorded(fd, call, sync, command) => VisibleCommand(core, fd, call, sync, command)
    case _ => false
  }

  lemma CallSame(net: Net, b: World, r: World, e: CallEvent)
    requires AllAcks(net) && Twin(b, r) && !VisibleCall(b.core, e)
    ensures Twin(PerformCall(Batched(net), b, e), PerformCall(Reference(net), r, e))
  {
    hide TwinIo, Write, WriteCommand, Flush, RecordHook, DispatchHook, FailNamed, VisibleWrite, VisibleCommand;
    match e
    case WriteCall(tid, fd, call, sync, route, order) => WriteSame(net, b, r, tid, fd, call, sync, route, order);
    case WriteRecorded(fd, call, sync, command) => WriteCommandSame(net, b, r, fd, call, sync, command);
    case FlushTransport => FlushSame(net, b.io, r.io);
    case HookRecord(tid, command, semantic, complete) => HookSame(net, b, r, tid, command, semantic, complete);
    case HookDispatch(tid, command, semantic, boundary) => DispatchSame(net, b, r, tid, command, semantic, boundary);
    case HookBadBind(tid, command, funId) =>
  }

  lemma RegistrySame(net: Net, b: World, r: World, e: RegistryEvent)
    requires AllAcks(net) && Twin(b, r)
    ensures Twin(PerformRegistry(Batched(net), b, e), PerformRegistry(Reference(net), r, e))
  {
    hide TwinIo, RegisterDevice, RegisterQueue, RegisterCommands, FreeCommands, DestroyPool, ResetPool,
         RenewCommand, EndCommand, DestroyDevice;
    match e
    case AddDevice(k, fd, page, refused) => AddDeviceSame(net, b, r, k, fd, page, refused);
    case DropDevice(k) =>
    case AddQueue(k, queue) => AddQueueSame(net, b, r, k, queue);
    case AddCommands(k, pool, batch) =>
    case DropCommands(k, pool, batch) => DropSame(net, b, r, k, pool, batch);
    case DropPool(k, pool) => DropSame(net, b, r, k, pool, []);
    case ClearPool(k, pool) => RenewSame(net, b, r, k, pool, 0, false);
    case Renew(c, recording) => RenewSame(net, b, r, 0, 0, c, recording);
    case End(c, route) => EndSame(net, b, r, c, route);
  }

  lemma StepSame(net: Net, b: World, r: World, e: Event)
    requires AllAcks(net) && Twin(b, r) && !Visible(b.core, e)
    ensures Twin(Step(Batched(net), b, e), Step(Reference(net), r, e))
  {
    hide TwinIo, PerformCall, PerformRegistry, PerformGate, VisibleCall;
    match e
    case OfCall(c) => CallSame(net, b, r, c);
    case OfRegistry(registry) => RegistrySame(net, b, r, registry);
    case OfGate(g) => GateSame(net, b, r, g);
  }

  /** None of the first n events of the batched run shows. */
  predicate NoneVisible(net: Net, events: seq<Event>, n: nat)
    requires n <= |events|
  {
    forall i | 0 <= i < n :: !Visible(Run(Batched(net), INITIAL_WORLD, events, i).core, events[i])
  }

  lemma {:induction false} RunSame(net: Net, events: seq<Event>, n: nat)
    requires AllAcks(net) && n <= |events| && NoneVisible(net, events, n)
    ensures Twin(Run(Batched(net), INITIAL_WORLD, events, n), Run(Reference(net), INITIAL_WORLD, events, n))
  {
    hide Twin, Step, Visible;
    InitialTwin();
    if n > 0 {
      RunSame(net, events, n - 1);
      StepSame(net, Run(Batched(net), INITIAL_WORLD, events, n - 1),
               Run(Reference(net), INITIAL_WORLD, events, n - 1), events[n - 1]);
    }
  }

  /**
   * After n events the guest's state is the one it would have without batching; what the host ran
   * followed by what is pending is what an unbatched host would have run; and a drain then makes
   * the host's history that of an unbatched host.
   */
  predicate Agrees(net: Net, events: seq<Event>, n: nat)
    requires n <= |events|
  {
    var b := Run(Batched(net), INITIAL_WORLD, events, n);
    var r := Run(Reference(net), INITIAL_WORLD, events, n);
    && b.core == r.core
    && HostRan(b.io.wire) + PendingEntries(b.io.cluster) == HostRan(r.io.wire)
    && HostRan(Flush(net, b.io).0.wire) == HostRan(r.io.wire)
  }

  lemma TwinAgrees(net: Net, events: seq<Event>, n: nat)
    requires AllAcks(net) && n <= |events|
    requires Twin(Run(Batched(net), INITIAL_WORLD, events, n), Run(Reference(net), INITIAL_WORLD, events, n))
    ensures Agrees(net, events, n)
  {
    hide Run, Coherent, AllHeld, IoOk;
    var b := Run(Batched(net), INITIAL_WORLD, events, n);
    var r := Run(Reference(net), INITIAL_WORLD, events, n);
    InitialGood();
    RunGood(Batched(net), INITIAL_WORLD, events, n);
    RunGood(Reference(net), INITIAL_WORLD, events, n);
    TwinRan(net, b.io, r.io);
    Exact(b.io);
  }

  /** What the two hosts have run, once the batched one is drained, is the common log. */
  lemma TwinRan(net: Net, b: Io, r: Io)
    requires AllAcks(net) && TwinIo(b, r) && IoOk(b) && IoOk(r)
    ensures HostRan(Flush(net, b).0.wire) == b.log && HostRan(r.wire) == r.log
  {
    hide IoOk;
    FlushSame(net, b, r);
    FlushKeeps(net, b);
    Exact(r);
    Exact(Flush(net, b).0);
    NothingPending(r.cluster);
    NothingPending(Flush(net, b).0.cluster);
  }

  lemma InitialTwin()
    ensures Twin(INITIAL_WORLD, INITIAL_WORLD)
  {
    InitialOk();
  }

  lemma Exact(io: Io)
    requires IoOk(io) && AllAcked(io.wire, |io.wire|)
    ensures HostRan(io.wire) + PendingEntries(io.cluster) == io.log
  {
    hide IoOk;
    ExactIffAcknowledged(io);
  }

  lemma NothingPending(c: Cluster)
    requires c == EMPTY_CLUSTER
    ensures forall s: seq<Entry> :: s + PendingEntries(c) == s
  {
    InitialOk();
    assert PendingEntries(EMPTY_CLUSTER) == [];
  }

  // ------------------------------------------------------------ where it is not

  /** Something is pending on a descriptor nothing can be sent on. */
  predicate Stuck(io: Io) { !Empty(io.cluster) && io.cluster.fd < 0 }

  /** Over a network that acknowledges everything, a drain fails only for such a cluster. */
  lemma FlushExactly(net: Net, io: Io)
    requires AllAcks(net) && ClusterOk(io.cluster)
    ensures Flush(net, io).1 <==> !Stuck(io)
  {
    if !Stuck(io) { FlushAcks(net, io); }
  }

  /** The first call of a batch may come with any descriptor, and a negative one gets the batch stuck. */
  lemma StuckReached(net: Net, io: Io, fd: int, call: Call)
    requires io.cluster == EMPTY_CLUSTER && Dispose(call) == Batch
    ensures AppendOwned(net, io, fd, call).1
    ensures Stuck(AppendOwned(net, io, fd, call).0) <==> fd < 0
  {
  }

  /** And then nothing leaves the guest again, whatever the network would do. */
  lemma Wedged(net: Net, io: Io, fd: int, call: Call, k: Handle, kind: FlimeKind)
    requires Stuck(io)
    ensures Flush(net, io) == (io, false)
    ensures DrainThenSingle(net, io, fd, call) == (io, false)
    ensures DrainThenFlime(net, io, fd, k, kind) == (io, Refused)
    ensures AppendOwned(net, io, fd, call) == (io, false)
  {
  }

  /** A call the batch cannot take is lost to the host: it is refused, or the batch gets stuck on it. */
  lemma AppendDiffers(net: Net, b: Io, r: Io, fd: int, call: Call)
    requires AllAcks(net) && TwinIo(b, r) && !Batchable(fd, call)
    ensures var (b', ok) := AppendOrSend(Batched(net), b, fd, call);
            && Flush(net, b').0.wire == Flush(net, b).0.wire
            && (ok ==> Stuck(b'))
    ensures var (r', ok) := AppendOrSend(Reference(net), r, fd, call);
            ok && TwinIo(r', r') && r'.log == r.log + [Ran(fd, Received(call))]
  {
    hide ClusterOk, Dispose, MustDrainFirst, DrainThenSingle;
    SentAlone(net, r, fd, call);
    SelfTwin(b, r);
    SingleSame(net, r, r, fd, call);
    FlushAcks(net, b);
    if Dispose(call) == Batch {
      SaneWhenOk(b.cluster);
      MovesDescriptor(b.cluster, fd, call);
      var drained := Flush(net, b).0;
      Wedged(net, AppendOwned(net, b, fd, call).0, fd, call, 0, Route);
    }
  }

  lemma MovesDescriptor(c: Cluster, fd: int, call: Call)
    requires fd < 0 && (Empty(c) || c.fd >= 0)
    ensures MustDrainFirst(c, fd, call) <==> !Empty(c)
  {
  }

  lemma SelfTwin(b: Io, r: Io)
    requires TwinIo(b, r)
    ensures TwinIo(r, r)
  {
    InitialOk();
  }

  lemma StuckAdvance(cfg: Config, w: World, k: Handle, command: Handle, view: RouteView)
    requires Stuck(w.io) && k in w.core.devices
    ensures AdvanceRoute(cfg, w, k, command, view).0.io == w.io
  {
    hide Flush, DrainThenFlime, FallbackOrFail, RouteGuard, Told;
    var d := w.core.devices[k];
    Wedged(cfg.net, w.io, d.fd, Call(0, 0, [], false), k, PeriodBegin);
    StuckFallback(cfg, w, k);
    if view.Ready? && CanNumber(d) {
      StuckFallback(cfg, WithDevice(w, k, Told(Numbered(d), Refused, view.withdrawn)), k);
    }
  }

  lemma StuckFallback(cfg: Config, w: World, k: Handle)
    requires Stuck(w.io) && k in w.core.devices
    ensures FallbackOrFail(cfg, w, k).0.io == w.io
  {
    hide DrainThenFlime;
    Wedged(cfg.net, w.io, w.core.devices[k].fd, Call(0, 0, [], false), k, FallbackFlush);
  }

  /** A reference transport keeps to itself whatever route it goes on to advance. */
  lemma ReferenceAdvance(net: Net, r: World, k: Handle, command: Handle, view: RouteView)
    requires AllAcks(net) && TwinIo(r.io, r.io) && k in r.core.devices
    ensures var r' := AdvanceRoute(Reference(net), r, k, command, view).0;
            TwinIo(r'.io, r'.io) && Calm(r.io.log, r'.io.log)
  {
    hide AdvanceRoute, TwinIo, Calm, Quiet;
    AdvanceSame(net, r, r, k, command, view);
    var b' := AdvanceRoute(Batched(net), r, k, command, view).0;
    var r' := AdvanceRoute(Reference(net), r, k, command, view).0;
    SelfTwin(b'.io, r'.io);
    AdvanceQuiet(Reference(net), r, k, command, view);
    QuietCalmly(r, r');
  }

  lemma QuietCalmly(w: World, w': World)
    requires Quiet(w, w')
    ensures Calm(w.io.log, w'.io.log)
  {
    hide QuietCore, Calm, IoOk;
  }

  /** The batched host misses the call for good, the reference host has it in its history. */
  predicate Misses(net: Net, b: Io, b': Io, r: Io, r': Io) {
    && Flush(net, b').0.wire == Flush(net, b).0.wire
    && TwinIo(r', r') && r.log <= r'.log && |r.log| < |r'.log|
  }

  lemma ClusterWriteDiffers(net: Net, b: World, r: World, m: Mark, fd: int, call: Call, view: RouteView)
    requires AllAcks(net) && Twin(b, r) && !Batchable(fd, call)
    ensures Misses(net, b.io, ClusterWrite(Batched(net), b, m, fd, call, view).0.io,
                   r.io, ClusterWrite(Reference(net), r, m, fd, call, view).0.io)
  {
    hide TwinIo, AppendOrSend, AdvanceRoute, FailOwner, Flush;
    AppendDiffers(net, b.io, r.io, fd, call);
    var (bio, ok) := AppendOrSend(Batched(net), b.io, fd, call);
    var rio := AppendOrSend(Reference(net), r.io, fd, call).0;
    FlushSame(net, rio, rio);
    SelfTwin(Flush(net, rio).0, Flush(net, rio).0);
    PlainFlush(net, rio);
    if ok { Wedged(net, bio, fd, call, 0, Route); }
    if OwnerOf(b.core, m.routeAfter).Some? {
      var k := OwnerOf(b.core, m.routeAfter).value;
      if ok { StuckAdvance(Batched(net), b.(io := bio), k, m.routeAfter, view); }
      ReferenceAdvance(net, r.(io := rio), k, m.routeAfter, view);
    }
  }

  lemma PlainFlush(net: Net, r: Io)
    requires TwinIo(r, r)
    ensures Flush(net, r) == (r, true)
  {
    InitialOk();
  }

  lemma WriteDiffers(net: Net, b: World, r: World, tid: Tid, fd: int, call: Call, sync: bool,
                     view: RouteView, order: seq<Handle>)
    requires AllAcks(net) && Twin(b, r) && VisibleWrite(b.core, tid, fd, call, sync)
    ensures Misses(net, b.io, Write(Batched(net), b, tid, fd, call, sync, view, order).0.io,
                   r.io, Write(Reference(net), r, tid, fd, call, sync, view, order).0.io)
  {
    hide TwinIo, ClusterWrite, DirectWrite, DrainUpTo, Misses, Batchable;
    var m := MarkOf(b.core, tid);
    ClusterWriteDiffers(net, b.(core := SetMark(b.core, tid, NO_MARK)), r.(core := SetMark(r.core, tid, NO_MARK)),
                        m, fd, call, view);
  }

  lemma CommandDiffers(net: Net, b: World, r: World, fd: int, call: Call, sync: bool, command: Handle)
    requires AllAcks(net) && Twin(b, r) && VisibleCommand(b.core, fd, call, sync, command)
    ensures Misses(net, b.io, WriteCommand(Batched(net), b, fd, call, sync, command).0.io,
                   r.io, WriteCommand(Reference(net), r, fd, call, sync, command).0.io)
  {
    hide TwinIo, DrainEarly, SemanticStep, AppendOrSend, Batchable, Flush, RecordSemantic, GenericSemantic;
    var k := OwnerOf(b.core, command).value;
    JoinsExactly(Batched(net), b, k, command, call, sync);
    JoinsExactly(Reference(net), r, k, command, call, sync);
    AppendDiffers(net, b.io, r.io, fd, call);
  }

  /** An event that shows leaves the drained batched host with less than the reference host has. */
  lemma StepDiffers(net: Net, b: World, r: World, e: Event)
    requires AllAcks(net) && Twin(b, r) && Good(b) && Good(r) && Visible(b.core, e)
    ensures var b', r' := Step(Batched(net), b, e), Step(Reference(net), r, e);
            |HostRan(Flush(net, b'.io).0.wire)| < |HostRan(r'.io.wire)|
  {
    hide Coherent, AllHeld, IoOk, TwinIo, Write, WriteCommand, VisibleWrite, VisibleCommand, Misses, HostRan, Flush;
    var b', r' := Step(Batched(net), b, e), Step(Reference(net), r, e);
    match e.c {
      case WriteCall(tid, fd, call, sync, route, order) => WriteDiffers(net, b, r, tid, fd, call, sync, route, order);
      case WriteRecorded(fd, call, sync, command) => CommandDiffers(net, b, r, fd, call, sync, command);
    }
    StepGood(Reference(net), r, e);
    MissesShort(net, b.io, b'.io, r.io, r'.io);
  }

  lemma MissesShort(net: Net, b: Io, b': Io, r: Io, r': Io)
    requires AllAcks(net) && TwinIo(b, r) && IoOk(b) && IoOk(r) && IoOk(r') && Misses(net, b, b', r, r')
    ensures |HostRan(Flush(net, b').0.wire)| < |HostRan(r'.wire)|
  {
    hide IoOk;
    TwinRan(net, b, r);
    TwinRan(net, r', r');
  }

  lemma {:induction false} FirstVisible(net: Net, events: seq<Event>, n: nat)
    requires AllAcks(net) && n <= |events| && forall i | 0 <= i <= n :: Agrees(net, events, i)
    ensures NoneVisible(net, events, n)
  {
    hide Agrees, Visible, Step, Good, Twin;
    if n > 0 {
      FirstVisible(net, events, n - 1);
      RunSame(net, events, n - 1);
      var b := Run(Batched(net), INITIAL_WORLD, events, n - 1);
      if Visible(b.core, events[n - 1]) { ShowsAt(net, events, n - 1); }
    }
  }

  lemma ShowsAt(net: Net, events: seq<Event>, n: nat)
    requires AllAcks(net) && n < |events|
    requires Visible(Run(Batched(net), INITIAL_WORLD, events, n).core, events[n])
    requires Twin(Run(Batched(net), INITIAL_WORLD, events, n), Run(Reference(net), INITIAL_WORLD, events, n))
    ensures !Agrees(net, events, n + 1)
  {
    hide Visible, Step, Good, Twin, HostRan, Flush;
    InitialGood();
    RunGood(Batched(net), INITIAL_WORLD, events, n);
    RunGood(Reference(net), INITIAL_WORLD, events, n);
    StepDiffers(net, Run(Batched(net), INITIAL_WORLD, events, n), Run(Reference(net), INITIAL_WORLD, events, n), events[n]);
  }

  /**
   * From the start, over a network that acknowledges everything: batching is invisible after each
   * of the first n events if and only if none of these events hands the batch a call that it cannot
   * take, and right after the first that does the batched host, even when drained, has run less.
   */
  lemma BatchingInvisible(net: Net, events: seq<Event>, n: nat)
    requires AllAcks(net) && n <= |events|
    ensures (forall i | 0 <= i <= n :: Agrees(net, events, i)) <==> NoneVisible(net, events, n)
  {
    hide Agrees, Visible, Run, Twin;
    if NoneVisible(net, events, n) {
      forall i | 0 <= i <= n ensures Agrees(net, events, i) {
        RunSame(net, events, i);
        TwinAgrees(net, events, i);
      }
    }
    if forall i | 0 <= i <= n :: Agrees(net, events, i) { FirstVisible(net, events, n); }
  }

  /** Well-formed clusterable calls on usable descriptors never show. */
  lemma CanonicInvisible(net: Net, events: seq<Event>, n: nat)
    requires AllAcks(net) && n <= |events|
    requires forall e <- events ::
               && (e.OfCall? && e.c.WriteCall? && TypeICluster(e.c.call.funId) ==> Batchable(e.c.fd, e.c.call))
               && (e.OfCall? && e.c.WriteRecorded? && TypeIWildcard(e.c.call.funId) ==> Batchable(e.c.fd, e.c.call))
    ensures Agrees(net, events, n)
  {
    hide Agrees, Run, Twin, Batchable, TypeICluster, TypeIWildcard;
    RunSame(net, events, n);
    TwinAgrees(net, events, n);
  }

  /**
   * With nothing failing, an append answers for its call exactly when the call is one the batch
   * does not reject; the reference transport would have sent a rejected call.
   */
  lemma RejectedExactly(net: Net, io: Io, fd: int, call: Call)
    requires AllAcks(net) && ClusterOk(io.cluster) && (Empty(io.cluster) || io.cluster.fd >= 0)
    ensures AppendOwned(net, io, fd, call).1 <==> Dispose(call) != Reject
    ensures DrainThenSingle(net, io, fd, call).1
  {
    SaneWhenOk(io.cluster);
    FlushAcks(net, io);
    if Dispose(call) == Batch { DrainedMakesRoom(fd, call); }
  }

  // ------------------------------------------------------------------------- replays

  lemma PendingSome(io: Io)
    requires IoOk(io) && !Empty(io.cluster)
    ensures ClusterOk(io.cluster) && PendingEntries(io.cluster) != []
  {
  }

  /**
   * Two drains one after the other make the host run the pending calls twice exactly if the first
   * was delivered without an acknowledgement and the second was delivered.
   */
  lemma ReplayedExactly(net: Net, io: Io)
    requires IoOk(io) && !Empty(io.cluster) && io.cluster.fd >= 0
    ensures var pending := PendingEntries(io.cluster);
            var twice := Flush(net, Flush(net, io).0).0;
            var repeated := HostRan(twice.wire) == HostRan(io.wire) + pending + pending;
            && pending != []
            && (repeated <==> net(io.rpcs) == InDoubt && Delivered(net(io.rpcs + 1)))
  {
    hide IoOk, Flush, PendingEntries, HostRan;
    PendingSome(io);
    FlushAdds(net, io);
    if net(io.rpcs) != Acked { FlushAdds(net, Flush(net, io).0); }
  }

  /** A drain gives the host what is pending if it is delivered, and forgets it if it is acknowledged. */
  lemma FlushAdds(net: Net, io: Io)
    requires ClusterOk(io.cluster) && !Empty(io.cluster) && io.cluster.fd >= 0
    ensures var once := Flush(net, io).0;
            && HostRan(once.wire) == HostRan(io.wire) + (if Delivered(net(io.rpcs)) then PendingEntries(io.cluster) else [])
            && (net(io.rpcs) != Acked ==> once.cluster == io.cluster && once.rpcs == io.rpcs + 1)
            && (net(io.rpcs) == Acked ==> Flush(net, once).0 == once)
  {
    var c := io.cluster;
    SeenNext(io.wire, Envelope(c.fd, c.words, c.payload, net(io.rpcs).Acked?), true);
  }

  /** A call batched, drained in doubt and drained again is run twice by the host and logged once. */
  lemma Replayed(net: Net, fd: int, call: Call)
    requires Dispose(call) == Batch && Clusterable(call.funId) && fd >= 0
    requires net(0) == InDoubt && net(1) == Acked
    ensures var io := AppendOwned(net, INITIAL_IO, fd, call).0;
            var twice := Flush(net, Flush(net, io).0);
            && twice.1 && twice.0.log == [Ran(fd, Received(call))]
            && HostRan(twice.0.wire) == [Ran(fd, Received(call)), Ran(fd, Received(call))]
  {
    hide IoOk, Flush, PendingEntries, HostRan, Dispose;
    var io := AppendOwned(net, INITIAL_IO, fd, call).0;
    AppendedAlone(net, fd, call);
    PendingSome(io);
    FlushAdds(net, io);
    var once := Flush(net, io).0;
    FlushAdds(net, once);
    FlushKeeps(net, io);
    FlushKeeps(net, once);
    FlushAnswers(net, once);
  }

  lemma FlushAnswers(net: Net, io: Io)
    requires ClusterOk(io.cluster) && !Empty(io.cluster) && io.cluster.fd >= 0
    ensures Flush(net, io).1 <==> net(io.rpcs) == Acked
  {
  }

  /** The first batched call is pending and nothing else is. */
  lemma AppendedAlone(net: Net, fd: int, call: Call)
    requires Dispose(call) == Batch && Clusterable(call.funId) && fd >= 0
    ensures var io := AppendOwned(net, INITIAL_IO, fd, call).0;
            && IoOk(io) && ClusterOk(io.cluster) && !Empty(io.cluster) && io.cluster.fd >= 0
            && io.rpcs == 0 && HostRan(io.wire) == [] && io.log == [Ran(fd, Received(call))]
            && PendingEntries(io.cluster) == [Ran(fd, Received(call))]
  {
    hide Dispose, PendingEntries;
    InitialOk();
    AppendKeeps(net, INITIAL_IO, fd, call);
    var io := AppendOwned(net, INITIAL_IO, fd, call).0;
    assert io.wire == [] && HostRanOnce(io.wire) == [];
    assert [] + PendingEntries(io.cluster) == PendingEntries(io.cluster);
  }
}
