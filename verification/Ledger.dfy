/**
 * The recorded stream keeps step with what is sent: while a device stays specialized and unfailed,
 * no command of its buffers passes without its entry in the stream.
 */
module Ledger {
  import opened GuestTypes
  import opened ClusterCodec
  import opened Wire
  import opened GuestState
  import opened CommandOps
  import opened Evolution
  import opened SubmitProofs

  /** A semantic entry as it is kept: at least one byte of template, behind the bytes already there. */
  function Stamped(call: Semantic, offset: u64): Semantic {
    call.(encodedBytes := if call.encodedBytes == 0 then 1 else call.encodedBytes, templateOffset := offset)
  }

  /** Exactly this entry joined the command's stream, at its end; every other stream is as it was. */
  predicate GrewByOne(core: Core, core': Core, command: Handle, call: Semantic) {
    var s, s' := StreamOf(core, command), StreamOf(core', command);
    && core'.recorded.Keys == core.recorded.Keys + {command}
    && (forall c <- core.recorded :: c != command ==> core'.recorded[c] == core.recorded[c])
    && s'.calls == s.calls + [Stamped(call, s.bytes)]
    && s'.generation == s.generation
  }

  /** The entry of a command write: a command without a classification is opaque. */
  function WrittenSemantic(call: Call): Semantic { GenericSemantic(call, !TypeIWildcard(call.funId)) }

  lemma RecordGrows(core: Core, command: Handle, call: Semantic)
    ensures var r := RecordSemantic(core, command, call);
            r.Some? ==> GrewByOne(core, r.value, command, call)
  {
  }

  /** Streams are what they were; only devices, marks or requests changed. */
  predicate SameRecords(a: World, b: World) { a.core.recorded == b.core.recorded }

  lemma FallbackRecords(cfg: Config, w: World, k: Handle)
    requires k in w.core.devices
    ensures SameRecords(w, FallbackOrFail(cfg, w, k).0) && SameRecords(w, DrainEarly(cfg, w, k).0)
    ensures FallbackOrFail(cfg, w, k).1 ==> FallbackOrFail(cfg, w, k).0.core.devices[k].stage == Legacy
    ensures !FallbackOrFail(cfg, w, k).1 ==> FallbackOrFail(cfg, w, k).0.core.devices[k].failed
  {
    hide DrainThenFlime, Specialized;
  }

  // ----------------------------------------------------------------- command writes

  /** The write has settled its command: it is recorded, or its device has left specialization. */
  predicate Accounted(w: World, w': World, k: Handle, command: Handle, call: Call)
    requires k in w.core.devices && k in w'.core.devices
  {
    w'.core.devices[k].stage == Legacy ||
    GrewByOne(w.core, w'.core, command, WrittenSemantic(call))
  }

  /** Past its semantic step a write has accounted for its command, and an unsafe one is not specialized. */
  lemma SemanticStepAccounts(cfg: Config, w: World, k: Handle, command: Handle, call: Call)
    requires k in w.core.devices
    ensures var (w', ok) := SemanticStep(cfg, w, k, command, call);
            && (ok ==> Accounted(w, w', k, command, call))
            && (ok && !TypeIWildcard(call.funId) ==> !Specialized(w'.core.devices[k]))
            && (!ok ==> w'.core.devices[k].failed)
            && (ok && w'.core.devices[k].stage != Legacy ==> w'.io == w.io)
  {
    hide RecordSemantic, FallbackOrFail, GrewByOne;
    RecordGrows(w.core, command, WrittenSemantic(call));
    FallbackRecords(cfg, w, k);
    var recorded := RecordSemantic(w.core, command, WrittenSemantic(call));
    if recorded.Some? { FallbackRecords(cfg, w.(core := recorded.value), k); }
  }

  /** A command that was sent or batched is the newest entry of the log; otherwise its device has failed. */
  lemma EmitAnswers(cfg: Config, w: World, k: Handle, fd: int, call: Call, sync: bool)
    requires k in w.core.devices && IoOk(w.io)
    ensures var (w', ok) := EmitCommand(cfg, w, Some(k), fd, call, sync);
            && SameRecords(w, w') && k in w'.core.devices
            && w'.core.devices[k].stage == w.core.devices[k].stage
            && Specialized(w'.core.devices[k]) == Specialized(w.core.devices[k])
            && (if ok then w'.io.log == w.io.log + [Ran(fd, Received(call))] else w'.core.devices[k].failed)
  {
    hide IoOk, AppendOwned, DrainThenSingle;
    DrainThenSingleKeeps(cfg.net, w.io, fd, call);
    if ClusterCandidate(w.core, Some(k), call, sync) { AppendKeeps(cfg.net, w.io, fd, call); }
  }

  /**
   * Ledger lockstep.  However a command write on an owned buffer ends, its device is in Legacy, or
   * it has failed, or the write succeeded having added exactly one entry to that buffer's stream,
   * with the right classification, and exactly that command to what the host runs.
   */
  lemma WriteCommandLockstep(cfg: Config, w: World, fd: int, call: Call, sync: bool, command: Handle, k: Handle)
    requires OwnerOf(w.core, command) == Some(k) && command != 0 && call.deviceId == GPU_DEVICE_ID
    requires IoOk(w.io)
    ensures var (w', ok) := WriteCommand(cfg, w, fd, call, sync, command);
            && k in w'.core.devices
            && (|| w'.core.devices[k].stage == Legacy
                || w'.core.devices[k].failed
                || (&& ok
                    && GrewByOne(w.core, w'.core, command, WrittenSemantic(call))
                    && w'.io.log == w.io.log + [Ran(fd, Received(call))]))
  {
    hide IoOk, Flush, Settled, GrewByOne, ClusterCandidate;
    FlushKeeps(cfg.net, w.io);
    SettledLockstep(cfg, w, fd, call, sync, command, k);
    SettledLockstep(cfg, w.(io := Flush(cfg.net, w.io).0), fd, call, sync, command, k);
    var flushed := w.(io := Flush(cfg.net, w.io).0);
    SameGrowth(w, flushed, Settled(cfg, flushed, k, command, fd, call, sync).0, command, call);
  }

  lemma SameGrowth(a: World, b: World, c: World, command: Handle, call: Call)
    requires a.core == b.core
    ensures GrewByOne(b.core, c.core, command, WrittenSemantic(call)) ==>
            GrewByOne(a.core, c.core, command, WrittenSemantic(call))
  {
  }

  lemma SettledLockstep(cfg: Config, w: World, fd: int, call: Call, sync: bool, command: Handle, k: Handle)
    requires k in w.core.devices && IoOk(w.io)
    ensures var (w', ok) := Settled(cfg, w, k, command, fd, call, sync);
            && k in w'.core.devices
            && (|| w'.core.devices[k].stage == Legacy
                || w'.core.devices[k].failed
                || (&& ok
                    && GrewByOne(w.core, w'.core, command, WrittenSemantic(call))
                    && w'.io.log == w.io.log + [Ran(fd, Received(call))]))
  {
    hide IoOk, FallbackOrFail, SemanticStep, EmitCommand, GrewByOne;
    FallbackRecords(cfg, w, k);
    DrainEarlyQuiet(cfg, w, k);
    var (drained, gone) := DrainEarly(cfg, w, k);
    if gone {
      SemanticStepAccounts(cfg, drained, k, command, call);
      SemanticStepQuiet(cfg, drained, k, command, call);
      LegacySemantics(cfg, drained, k, command, call);
      var (settled, ok) := SemanticStep(cfg, drained, k, command, call);
      if ok {
        EmitAnswers(cfg, settled, k, fd, call, sync);
        GrowthKept(drained, settled, EmitCommand(cfg, settled, Some(k), fd, call, sync).0, command, call);
      }
    }
  }

  lemma LegacySemantics(cfg: Config, w: World, k: Handle, command: Handle, call: Call)
    requires k in w.core.devices
    ensures w.core.devices[k].stage == Legacy ==> SemanticStep(cfg, w, k, command, call) == (w, true)
  {
  }

  lemma GrowthKept(a: World, b: World, c: World, command: Handle, call: Call)
    requires SameRecords(b, c)
    ensures GrewByOne(a.core, b.core, command, WrittenSemantic(call)) ==>
            GrewByOne(a.core, c.core, command, WrittenSemantic(call))
  {
  }

  // ---------------------------------------------------------------- opaque boundary

  /** Nothing but FLIME's own requests joined the log. */
  predicate OnlyControls(log: seq<Entry>, log': seq<Entry>) {
    log <= log' && forall i | |log| <= i < |log'| :: log'[i].Controlled?
  }

  lemma FallbackControls(cfg: Config, w: World, k: Handle)
    requires k in w.core.devices
    ensures OnlyControls(w.io.log, FallbackOrFail(cfg, w, k).0.io.log)
  {
    hide Specialized, DrainedDevice, Numbered;
  }

  lemma SemanticStepControls(cfg: Config, w: World, k: Handle, command: Handle, call: Call)
    requires k in w.core.devices
    ensures OnlyControls(w.io.log, SemanticStep(cfg, w, k, command, call).0.io.log)
  {
    hide RecordSemantic, FallbackOrFail, OnlyControls;
    NoControls(w.io.log);
    FallbackControls(cfg, w, k);
    var recorded := RecordSemantic(w.core, command, WrittenSemantic(call));
    if recorded.Some? { FallbackControls(cfg, w.(core := recorded.value), k); }
  }

  lemma NoControls(log: seq<Entry>)
    ensures OnlyControls(log, log)
  {
  }

  lemma ControlsThen(a: seq<Entry>, b: seq<Entry>, c: seq<Entry>)
    requires OnlyControls(a, b) && OnlyControls(b, c)
    ensures OnlyControls(a, c)
  {
  }

  /**
   * Opaque boundary.  A command without a descriptor classification reaches the host only with its
   * device out of specialization and the cluster empty: if the device is still specialized when
   * the write returns, the write failed and nothing but control requests was sent.
   */
  lemma OpaqueBoundary(cfg: Config, w: World, fd: int, call: Call, sync: bool, command: Handle, k: Handle)
    requires OwnerOf(w.core, command) == Some(k) && !TypeIWildcard(call.funId) && IoOk(w.io)
    ensures var (w', ok) := WriteCommand(cfg, w, fd, call, sync, command);
            && k in w'.core.devices
            && (ok ==> !Specialized(w'.core.devices[k]) && Empty(w'.io.cluster))
            && (Specialized(w'.core.devices[k]) ==> OnlyControls(w.io.log, w'.io.log))
  {
    hide IoOk, Flush, Settled, OnlyControls, Specialized;
    NoControls(w.io.log);
    FlushKeeps(cfg.net, w.io);
    FailSpecialized(w.core, k);
    OpaqueSettled(cfg, w.(io := Flush(cfg.net, w.io).0), fd, call, sync, command, k);
  }

  lemma FailSpecialized(core: Core, k: Handle)
    requires k in core.devices
    ensures Specialized(FailDevice(core, k).devices[k]) == Specialized(core.devices[k])
  {
  }

  lemma OpaqueSettled(cfg: Config, w: World, fd: int, call: Call, sync: bool, command: Handle, k: Handle)
    requires k in w.core.devices && !TypeIWildcard(call.funId) && IoOk(w.io)
    ensures var (w', ok) := Settled(cfg, w, k, command, fd, call, sync);
            && k in w'.core.devices
            && (ok ==> !Specialized(w'.core.devices[k]) && Empty(w'.io.cluster))
            && (Specialized(w'.core.devices[k]) ==> OnlyControls(w.io.log, w'.io.log))
  {
    hide IoOk, FallbackOrFail, SemanticStep, OnlyControls, Specialized, DrainThenSingle;
    NoControls(w.io.log);
    FallbackControls(cfg, w, k);
    DrainEarlyQuiet(cfg, w, k);
    var (drained, gone) := DrainEarly(cfg, w, k);
    if gone {
      SemanticStepControls(cfg, drained, k, command, call);
      SemanticStepAccounts(cfg, drained, k, command, call);
      SemanticStepQuiet(cfg, drained, k, command, call);
      var (settled, ok) := SemanticStep(cfg, drained, k, command, call);
      ControlsThen(w.io.log, drained.io.log, settled.io.log);
      if ok {
        EmitAnswers(cfg, settled, k, fd, call, sync);
        DrainThenSingleKeeps(cfg.net, settled.io, fd, call);
      }
    }
  }

  // ------------------------------------------------------------------------- hooks

  /**
   * A recording hook fails closed: afterwards its device is in Legacy, or the next write of the
   * thread for this function is blocked, or the command joined its stream and may pass.
   */
  lemma HookFailsClosed(cfg: Config, w: World, tid: Tid, command: Handle, call: Semantic, complete: bool, k: Handle)
    requires OwnerOf(w.core, command) == Some(k)
    ensures var w' := RecordHook(cfg, w, tid, command, call, complete).0;
            && k in w'.core.devices
            && var m := MarkOf(w'.core, tid);
            && m.funId == call.funId
            && (|| w'.core.devices[k].stage == Legacy
                || m.block
                || GrewByOne(w.core, w'.core, command, call))
            && (m.block ==> w'.core.devices[k].failed && w'.core.recorded == w.core.recorded)
  {
    hide DrainEarly, RecordSemantic, RecordedMark, GrewByOne, FailNamed, Specialized, FallbackOrFail;
    FailedMark(w.core, tid, k, call.funId);
    FailedMark(DrainEarly(cfg, w, k).0.core, tid, k, call.funId);
    PlainMark(w.core.devices[k], command, call.funId);
    FallbackRecords(cfg, w, k);
    if w.core.devices[k].early { DrainEarlyEnds(cfg, w, k); }
    RecordGrows(w.core, command, call);
    if complete && RecordSemantic(w.core, command, call).Some? {
      MarkGrowth(w.core, RecordSemantic(w.core, command, call).value, tid, command, call);
    }
  }

  lemma FailedMark(core: Core, tid: Tid, k: Handle, funId: nat)
    requires k in core.devices
    ensures var core' := FailNamed(core, tid, Some(k), funId);
            && k in core'.devices && core'.devices[k].failed && core'.recorded == core.recorded
            && MarkOf(core', tid).block && MarkOf(core', tid).funId == funId
  {
  }

  lemma PlainMark(d: Device, command: Handle, funId: nat)
    ensures !RecordedMark(d, command, funId).block && RecordedMark(d, command, funId).funId == funId
  {
  }

  lemma DrainEarlyEnds(cfg: Config, w: World, k: Handle)
    requires k in w.core.devices && w.core.devices[k].early
    ensures var (w', ok) := DrainEarly(cfg, w, k);
            if ok then w'.core.devices[k].stage == Legacy else w'.core.devices[k].failed
  {
    hide FallbackOrFail;
    FallbackRecords(cfg, w, k);
  }

  lemma MarkGrowth(core: Core, core': Core, tid: Tid, command: Handle, call: Semantic)
    ensures forall m :: GrewByOne(core, core', command, call) ==>
                        GrewByOne(core, SetMark(core', tid, m), command, call)
  {
  }

  // ------------------------------------------------------------------ recorded writes

  lemma AdvanceControls(cfg: Config, w: World, k: Handle, command: Handle, view: RouteView)
    requires k in w.core.devices
    ensures OnlyControls(w.io.log, AdvanceRoute(cfg, w, k, command, view).0.io.log)
  {
    hide FallbackOrFail, SendRoute, RouteGuard, OnlyControls, Told;
    NoControls(w.io.log);
    FallbackControls(cfg, w, k);
    var d := w.core.devices[k];
    if view.Ready? && CanNumber(d) {
      RouteControls(cfg, w.io, d.fd, k, view.withdrawn, view.accepted);
      var (io, begun, sent) := SendRoute(cfg, w.io, d.fd, k, view.withdrawn, view.accepted);
      var told := World(SetDevice(w.core, k, Told(Numbered(d), begun, view.withdrawn)), io);
      FallbackControls(cfg, told, k);
      ControlsThen(w.io.log, io.log, FallbackOrFail(cfg, told, k).0.io.log);
    }
  }

  lemma RouteControls(cfg: Config, io: Io, fd: int, k: Handle, withdrawn: bool, accepted: bool)
    ensures OnlyControls(io.log, SendRoute(cfg, io, fd, k, withdrawn, accepted).0.log)
  {
  }

  /** Failing the owner of a command fails its device. */
  lemma FailOwnerFails(core: Core, c: Handle, k: Handle)
    requires OwnerOf(core, c) == Some(k)
    ensures k in FailOwner(core, c).devices && FailOwner(core, c).devices[k].failed
  {
  }

  /**
   * The write of a recorded command answers for it: it succeeds only with the command in the
   * history, followed by nothing but FLIME's own requests, and if it fails the command's device has
   * failed, so the stream and the host cannot part unnoticed.
   */
  lemma RecordedWriteAnswers(cfg: Config, w: World, tid: Tid, fd: int, call: Call, sync: bool,
                             view: RouteView, order: seq<Handle>, k: Handle)
    requires IoOk(w.io) && !EarlyRouteBarrier(call.funId)
    requires var m := MarkOf(w.core, tid);
             && Named(m, call) && !m.block && m.named != 0 && OwnerOf(w.core, m.named) == Some(k)
             && (m.routeAfter != 0 ==> m.routeAfter == m.named)
    ensures var (w', ok) := Write(cfg, w, tid, fd, call, sync, view, order);
            && k in w'.core.devices
            && (ok ==> OnlyControls(w.io.log + [Ran(fd, Received(call))], w'.io.log))
            && (!ok ==> w'.core.devices[k].failed)
  {
    hide IoOk, ClusterWrite, DirectWrite, OnlyControls, DrainUpTo;
    var m, cleared := MarkOf(w.core, tid), w.(core := SetMark(w.core, tid, NO_MARK));
    if MayCluster(m, call, sync) {
      ClusterAnswers(cfg, cleared, m, fd, call, view, k);
    } else {
      DirectAnswers(cfg, cleared, m.named, fd, call, k);
    }
  }

  lemma DirectAnswers(cfg: Config, w: World, owner: Handle, fd: int, call: Call, k: Handle)
    requires IoOk(w.io) && owner != 0 && OwnerOf(w.core, owner) == Some(k)
    ensures var (w', ok) := DirectWrite(cfg, w, owner, fd, call);
            && k in w'.core.devices
            && (ok ==> OnlyControls(w.io.log + [Ran(fd, Received(call))], w'.io.log))
            && (!ok ==> w'.core.devices[k].failed)
  {
    hide IoOk, FailOwner;
    FailOwnerFails(w.core, owner, k);
    FlushKeeps(cfg.net, w.io);
    DrainThenSingleKeeps(cfg.net, w.io, fd, call);
    NoControls(w.io.log + [Ran(fd, Received(call))]);
  }

  lemma ClusterAnswers(cfg: Config, w: World, m: Mark, fd: int, call: Call, view: RouteView, k: Handle)
    requires IoOk(w.io) && Clusterable(call.funId) && OwnerOf(w.core, m.named) == Some(k)
    requires m.routeAfter != 0 ==> m.routeAfter == m.named
    ensures var (w', ok) := ClusterWrite(cfg, w, m, fd, call, view);
            && k in w'.core.devices
            && (ok ==> OnlyControls(w.io.log + [Ran(fd, Received(call))], w'.io.log))
            && (!ok ==> w'.core.devices[k].failed)
  {
    hide IoOk, FailOwner, AppendOwned, DrainThenSingle, AdvanceRoute, OnlyControls, Flush;
    FailOwnerFails(w.core, m.named, k);
    AppendKeeps(cfg.net, w.io, fd, call);
    DrainThenSingleKeeps(cfg.net, w.io, fd, call);
    NoControls(w.io.log + [Ran(fd, Received(call))]);
    var (io, ok) := AppendOrSend(cfg, w.io, fd, call);
    FlushKeeps(cfg.net, io);
    AdvanceControls(cfg, w.(io := io), k, m.routeAfter, view);
    AdvanceControls(cfg, w.(io := Flush(cfg.net, io).0), k, m.routeAfter, view);
  }

  // ---------------------------------------------------------------------- raw calls

  lemma {:induction false} WalkDrains(cfg: Config, w: World, order: seq<Handle>, n: nat)
    requires n <= |order|
    ensures var (w', ok) := DrainUpTo(cfg, w, order, n);
            && w'.core.devices.Keys == w.core.devices.Keys
            && (ok ==> forall i | 0 <= i < n :: order[i] in w'.core.devices ==> !w'.core.devices[order[i]].early)
  {
    hide DrainEarly, KeepsOrder, TameDevice, Held;
    if n > 0 {
      WalkDrains(cfg, w, order, n - 1);
      var (w', ok) := DrainUpTo(cfg, w, order, n - 1);
      if ok && order[n - 1] in w'.core.devices {
        DrainedEarly(cfg, w', order[n - 1]);
        DrainEarlyOpen(cfg, w', order[n - 1]);
      }
    }
  }

  /** A raw call that must not overtake a released route goes ahead only once no device has one. */
  lemma BarrierDrainsAll(cfg: Config, w: World, funId: nat, order: seq<Handle>)
    requires EarlyRouteBarrier(funId) && WalkOf(order, w.core.devices)
    ensures var (w', ok) := DrainGate(cfg, w, funId, order);
            ok ==> forall k <- w'.core.devices :: !w'.core.devices[k].early
  {
    WalkDrains(cfg, w, order, |order|);
  }

  // ------------------------------------------------------------------ stream limits

  /**
   * The byte limit of a stream holds exactly for calls within the limit: the room left is computed
   * by a subtraction that wraps for larger ones.
   */
  lemma LimitHoldsExactly(s: Stream, call: Semantic)
    requires s.bytes <= MAX_TEMPLATE_BYTES && AppendSemantic(s, call).Some?
    ensures var s' := AppendSemantic(s, call).value;
            var bytes := if call.encodedBytes == 0 then 1 else call.encodedBytes;
            s'.bytes == s.bytes + bytes <= MAX_TEMPLATE_BYTES <==> call.encodedBytes <= MAX_TEMPLATE_BYTES
  {
  }

  /** A call larger than the whole limit is accepted by an empty stream. */
  lemma LimitMissed()
    ensures var call := Semantic(1044, [], [], MAX_TEMPLATE_BYTES + 1, 0, false, false, []);
            AppendSemantic(EMPTY_STREAM, call).Some? &&
            AppendSemantic(EMPTY_STREAM, call).value.bytes > MAX_TEMPLATE_BYTES
  {
  }
}
