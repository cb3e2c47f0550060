/**
 * Exactly when a call joins the pending batch and when it makes a request, which function numbers may
 * join, and exactly when a command is recorded, all in the numbers of the program.
 */
module BatchExactly {
  import opened GuestTypes
  import opened ClusterCodec
  import opened ClusterProofs
  import opened Wire
  import opened GuestState
  import opened CommandOps
  import opened RegistryOps
  import opened Evolution
  import opened Machine
  import opened Ledger
  import opened Fates
  import Batching

  // ------------------------------------------------------------------------ one append

  /** A parameter the host can tell from every other: a null without length, or bytes it owns. */
  predicate PlainParam(p: Param) {
    match p case Null(nominal) => nominal == 0 case Data(bytes) => 0 < |bytes| <= 2147483647
  }

  /** A call that can go into a batch at all. */
  predicate Plain(call: Call) {
    && call.framed && call.deviceId == 1 && call.funId < 16777216
    && |call.params| <= 32 && |PayloadOf(call.params)| <= 1048575
    && forall p <- call.params :: PlainParam(p)
  }

  /** There is room behind the pending calls: one descriptor, 64 calls, 64 KiB of records, 1 MiB of payload. */
  predicate Room(c: Cluster, fd: int, call: Call) {
    || c.callCount == 0
    || (&& c.fd == fd && c.callCount < 64
        && 8 * |c.words| + 16 + 16 * |call.params| <= 65536
        && |c.payload| + |PayloadOf(call.params)| <= 1048576)
  }

  lemma PlainIs(call: Call)
    requires Plain(call)
    ensures Dispose(call) == Batch
  {
    assert forall p <- call.params :: PlainParam(p);
  }

  lemma RoomIs(c: Cluster, fd: int, call: Call)
    requires ClusterOk(c) && Plain(call)
    ensures Room(c, fd, call) <==> !MustDrainFirst(c, fd, call)
  {
    hide StreamOk, Canonical, Pending;
  }

  /**
   * A plain call makes no request exactly if there is room: then wire and request count stay and the
   * pending calls grow by it.  Otherwise one flush is made, and the call is alone in the batch if the
   * flush is acknowledged and refused with nothing lost if it is not.
   */
  lemma AppendExactly(net: Net, io: Io, fd: int, call: Call)
    requires IoOk(io) && Plain(call) && (io.cluster.callCount == 0 || io.cluster.fd >= 0)
    ensures var (io', ok) := AppendOwned(net, io, fd, call);
            && (io'.rpcs == io.rpcs <==> Room(io.cluster, fd, call))
            && (Room(io.cluster, fd, call) ==>
                  && ok && io'.wire == io.wire && io'.log == io.log + [Ran(fd, Received(call))]
                  && Pending(io'.cluster) == Pending(io.cluster) + [Received(call)]
                  && io'.cluster.callCount == io.cluster.callCount + 1 && io'.cluster.fd == fd)
            && (!Room(io.cluster, fd, call) ==>
                  && io'.rpcs == io.rpcs + 1 && (ok <==> net(io.rpcs) == Acked)
                  && (ok ==> Pending(io'.cluster) == [Received(call)] && io'.cluster.callCount == 1 && io'.cluster.fd == fd)
                  && (ok ==> io'.log == io.log + [Ran(fd, Received(call))])
                  && (!ok ==> io'.cluster == io.cluster && io'.log == io.log))
  {
    hide Dispose, MustDrainFirst, Room, OnlyClusterable, StreamOk, Canonical, WireOk, HostRanOnce, Pending;
    PlainIs(call);
    RoomIs(io.cluster, fd, call);
    EmptyRoom(fd, call);
    DrainedMakesRoom(fd, call);
    if Room(io.cluster, fd, call) {
      Grown(io.cluster, fd, call);
    } else {
      Grown(EMPTY_CLUSTER, fd, call);
      NoRoom(io.cluster, fd, call);
    }
  }

  lemma EmptyRoom(fd: int, call: Call)
    ensures Room(EMPTY_CLUSTER, fd, call)
  {
  }

  lemma NoRoom(c: Cluster, fd: int, call: Call)
    requires !Room(c, fd, call)
    ensures c.callCount > 0
  {
  }

  lemma Grown(c: Cluster, fd: int, call: Call)
    requires ClusterOk(c) && Plain(call) && Room(c, fd, call)
    ensures var e := Extend(c, fd, call);
            Pending(e) == Pending(c) + [Received(call)] && e.callCount == c.callCount + 1 && e.fd == fd
  {
    hide Dispose, MustDrainFirst, ClusterOk, Pending;
    PlainIs(call);
    RoomIs(c, fd, call);
    ExtendAppends(c, fd, call);
  }

  /** A call nobody may be sent: not frozen properly, not the GPU's, or with an impossible length. */
  predicate Impossible(call: Call) {
    || !call.framed || call.deviceId != 1 || call.funId >= 16777216
    || (|call.params| <= 32 && exists p <- call.params ::
          match p case Null(nominal) => nominal > 2147483647 case Data(bytes) => |bytes| == 0 || |bytes| > 2147483647)
  }

  /**
   * A call that cannot go into a batch is refused with nothing changed exactly if it is impossible;
   * otherwise it goes out on its own behind a flush.
   */
  lemma AppendOtherwise(net: Net, io: Io, fd: int, call: Call)
    requires ClusterOk(io.cluster) && !Plain(call)
    ensures var (io', ok) := AppendOwned(net, io, fd, call);
            if Impossible(call) then io' == io && !ok
            else
              && (ok <==> Clears(net, io) && net(Upcoming(io)) == Acked)
              && (ok ==> io'.log == io.log + [Ran(fd, Received(call))] && io'.cluster == EMPTY_CLUSTER)
              && (Clears(net, io) ==> io'.rpcs == Upcoming(io) + 1)
  {
    hide Flush, ClusterOk, PayloadOf;
    FlushFate(net, io);
    ImpossibleIs(call);
  }

  lemma ImpossibleIs(call: Call)
    requires !Plain(call)
    ensures Dispose(call) == if Impossible(call) then Reject else SendDirect
  {
    hide PayloadOf;
    if Dispose(call) == Batch { BatchIsPlain(call); }
  }

  lemma BatchIsPlain(call: Call)
    requires Dispose(call) == Batch
    ensures Plain(call)
  {
    hide PayloadOf;
    forall p | p in call.params ensures PlainParam(p) {
      assert p.Null? ==> p.nominal == 0;
    }
  }

  // ------------------------------------------------------------------ function numbers

  /** vkCmd functions whose own hooks may ask for batching. */
  predicate HookJoins(n: int) { n == 1025 || n == 1027 || n == 1044 || n == 1045 || n == 1046 || n == 1057 }

  /** vkCmd functions that a generated command write may batch: no draws, and none with a hook of its own. */
  predicate CommandJoins(n: int) {
    || 1021 <= n <= 1024 || n == 1026 || 1028 <= n <= 1043
    || 1053 <= n <= 1056 || 1058 <= n <= 1099
  }

  lemma NumbersAre(n: int)
    ensures TypeICluster(n) <==> HookJoins(n)
    ensures TypeIWildcard(n) <==> CommandJoins(n)
    ensures 1047 <= n <= 1052 || n < 1021 || n > 1099 ==> !HookJoins(n) && !CommandJoins(n)
    ensures 1021 <= n <= 1099 && !(1047 <= n <= 1052) <==> HookJoins(n) || CommandJoins(n)
  {
  }

  /**
   * A draw, or a call outside the vkCmd range, or one with a hook of its own, that a command write of
   * an owned buffer lets through leaves its device out of suppression and nothing pending.
   */
  lemma UnclassifiedNumbers(cfg: Config, w: World, fd: int, call: Call, sync: bool, command: Handle, k: Handle)
    requires OwnerOf(w.core, command) == Some(k) && IoOk(w.io)
    requires 1047 <= call.funId <= 1052 || call.funId < 1021 || call.funId > 1099 || HookJoins(call.funId)
    ensures var (w', ok) := WriteCommand(cfg, w, fd, call, sync, command);
            && k in w'.core.devices
            && (ok ==> !Suppressing(w'.core.devices[k]) && w'.io.cluster.callCount == 0)
            && (Suppressing(w'.core.devices[k]) ==> OnlyControls(w.io.log, w'.io.log))
  {
    hide WriteCommand, IoOk, TypeIWildcard, TypeICluster, HookJoins, CommandJoins, Specialized, Suppressing, OnlyControls;
    NumbersAre(call.funId);
    HooksApart(call.funId);
    OpaqueBoundary(cfg, w, fd, call, sync, command, k);
    Readings(WriteCommand(cfg, w, fd, call, sync, command).0.core.devices[k]);
  }

  lemma HooksApart(n: int)
    ensures HookJoins(n) ==> !CommandJoins(n)
  {
  }

  predicate NoDraws(calls: seq<HostCall>) {
    forall h <- calls :: 1021 <= h.id % 16777216 <= 1099 && !(1047 <= h.id % 16777216 <= 1052)
  }

  /** In every run no draw and no call outside the vkCmd range is ever pending, or in an envelope. */
  lemma RunNumbers(cfg: Config, events: seq<Event>, n: nat)
    requires n <= |events|
    ensures var io := Run(cfg, INITIAL_WORLD, events, n).io;
            && NoDraws(Pending(io.cluster))
            && forall p <- io.wire :: p.Envelope? ==> NoDraws(Decode(p.words, 0, p.payload))
  {
    hide Run, Coherent, AllHeld, HostAccepts, Decode, ClusterOk, HostRanOnce;
    InitialGood();
    RunGood(cfg, INITIAL_WORLD, events, n);
    var io := Run(cfg, INITIAL_WORLD, events, n).io;
    ClusterableNumbers(Pending(io.cluster));
    forall p | p in io.wire && p.Envelope? ensures NoDraws(Decode(p.words, 0, p.payload)) {
      assert PacketOk(p);
      ClusterableNumbers(Decode(p.words, 0, p.payload));
    }
  }

  lemma ClusterableNumbers(calls: seq<HostCall>)
    requires OnlyClusterable(calls)
    ensures NoDraws(calls)
  {
    forall h | h in calls ensures 1021 <= h.id % 16777216 <= 1099 && !(1047 <= h.id % 16777216 <= 1052) {
      assert Clusterable(FunOf(h.id));
      NumbersAre(FunOf(h.id));
    }
  }

  /** The function numbers of raw calls that must not overtake a route already sent. */
  const BARRIERS: set<nat> := {
    1013, 1014, 1016, 1102, 1104, 1105, 1106, 1128, 1129, 1130, 1131, 1132, 1133, 1139, 1147, 1154, 1163,
    1180, 1181, 1232, 1238, 1239, 1240, 1249, 1250}

  /** Such a call goes ahead only with no route left out; every other one is not held up at all. */
  lemma BarrierExactly(cfg: Config, w: World, funId: nat, order: seq<Handle>)
    requires WalkOf(order, w.core.devices)
    ensures var (w', ok) := DrainGate(cfg, w, funId, order);
            if funId in BARRIERS then ok ==> forall k <- w'.core.devices :: !w'.core.devices[k].early
            else ok && w' == w
  {
    hide DrainUpTo;
    if funId in BARRIERS { BarrierDrainsAll(cfg, w, funId, order); }
  }

  // --------------------------------------------------------------------- what is recorded

  /** A stream has room for one more entry of so many bytes, as the program's 64-bit subtraction sees it. */
  predicate Takes(s: Stream, encodedBytes: u64) {
    var bytes := if encodedBytes == 0 then 1 else encodedBytes;
    && |s.calls| < 262144
    && s.bytes <= (if bytes <= 268435456 then 268435456 - bytes else 18446744073977987072 - bytes)
  }

  /** The buffer is being recorded and its stream takes the entry. */
  predicate Recordable(core: Core, k: Handle, c: Handle, encodedBytes: u64)
    requires k in core.devices
  {
    && c in core.devices[k].commands && core.devices[k].commands[c].recording
    && Takes(if c in core.recorded then core.recorded[c] else Stream([], 0, 0, 0), encodedBytes)
  }

  lemma RecordedExactly(core: Core, k: Handle, c: Handle, call: Semantic)
    requires OwnerOf(core, c) == Some(k)
    ensures RecordSemantic(core, c, call).Some?
            <==> core.devices[k].stage != Legacy && Recordable(core, k, c, call.encodedBytes)
  {
    RoomLeft(StreamOf(core, c), call);
  }

  lemma RoomLeft(s: Stream, call: Semantic)
    ensures AppendSemantic(s, call).Some? <==> Takes(s, call.encodedBytes)
  {
  }

  /** Exactly when a recording hook adds its command to the buffer's stream. */
  predicate HookRecords(core: Core, k: Handle, c: Handle, call: Semantic, complete: bool)
    requires k in core.devices
  {
    var d := core.devices[k];
    d.stage != Legacy && !d.failed && !d.early && complete && Recordable(core, k, c, call.encodedBytes)
  }

  /**
   * A recording hook on an owned buffer records exactly under these conditions, and the write that
   * follows may then be batched exactly if the device suppresses and the function is one of six.
   */
  lemma HookExactly(cfg: Config, w: World, tid: Tid, c: Handle, call: Semantic, complete: bool, k: Handle)
    requires OwnerOf(w.core, c) == Some(k)
    ensures var (w', ok) := RecordHook(cfg, w, tid, c, call, complete);
            var d, m := w.core.devices[k], MarkOf(w'.core, tid);
            && (HookRecords(w.core, k, c, call, complete) ==>
                  && ok && w'.io == w.io && w'.core.devices == w.core.devices
                  && GrewByOne(w.core, w'.core, c, call)
                  && m == Mark(call.funId, Suppressing(d) && HookJoins(call.funId), false, false, 0, c))
            && (!HookRecords(w.core, k, c, call, complete) ==> w'.core.recorded == w.core.recorded && !m.allow)
  {
    hide FallbackOrFail, RecordSemantic, Recordable, GrewByOne, TypeICluster, HookJoins, Specialized, Suppressing;
    RecordedExactly(w.core, k, c, call);
    NumbersAre(call.funId);
    Readings(w.core.devices[k]);
    FallbackRecords(cfg, w, k);
    RecordGrows(w.core, c, call);
    if complete && RecordSemantic(w.core, c, call).Some? {
      MarkGrowth(w.core, RecordSemantic(w.core, c, call).value, tid, c, call);
    }
  }

  /** In Legacy a hook that does not record only clears the mark; otherwise it drains a route or blocks the write. */
  lemma HookOtherwise(cfg: Config, w: World, tid: Tid, c: Handle, call: Semantic, complete: bool, k: Handle)
    requires OwnerOf(w.core, c) == Some(k) && ClusterOk(w.io.cluster) && !HookRecords(w.core, k, c, call, complete)
    ensures var (w', ok) := RecordHook(cfg, w, tid, c, call, complete);
            var d, m := w.core.devices[k], MarkOf(w'.core, tid);
            var plain := Mark(call.funId, false, false, false, 0, 0);
            var blocked := Mark(call.funId, false, true, false, 0, MarkOf(w.core, tid).named);
            if d.stage == Legacy then ok && w'.io == w.io && w'.core.devices == w.core.devices && m == plain
            else if d.early && !d.failed then
              && (ok <==> Drainable(d) && Clears(cfg.net, w.io) && cfg.net(Upcoming(w.io)) == Acked)
              && m == if ok then plain else blocked
            else
              && !ok && m == blocked && w'.io == w.io
              && w'.core.devices == w.core.devices[k := d.(failed := true)]
  {
    hide FallbackOrFail, RecordSemantic, Recordable, ClusterOk, Clears, Drainable, AfterDrain;
    RecordedExactly(w.core, k, c, call);
    FallbackOrFailExactly(cfg, w, k);
    DrainKeepsMarks(cfg, w, k);
  }

  lemma DrainKeepsMarks(cfg: Config, w: World, k: Handle)
    requires k in w.core.devices
    ensures FallbackOrFail(cfg, w, k).0.core.marks == w.core.marks
  {
    hide DrainThenFlime;
  }

  // ------------------------------------------------------------------- command writes

  /** The bytes of a command's entry. */
  function EntryBytes(call: Call): u64 {
    (16 + 16 * |call.params| + |PayloadOf(call.params)|) % 0x1_0000_0000_0000_0000
  }

  /** The entry of a command write. */
  lemma EntryExactly(call: Call)
    ensures WrittenSemantic(call) == Semantic(
              call.funId, [], [], EntryBytes(call), 0, false, !CommandJoins(call.funId), [])
  {
    hide PayloadOf, TypeIWildcard, CommandJoins;
    NumbersAre(call.funId);
  }

  /** Exactly when a plain command of an owned buffer joins the batch. */
  predicate Joins(core: Core, k: Handle, command: Handle, call: Call, sync: bool)
    requires k in core.devices
  {
    var d := core.devices[k];
    && Suppressing(d) && !d.failed && !d.early && !sync && CommandJoins(call.funId)
    && Recordable(core, k, command, EntryBytes(call))
  }

  lemma JoinsIs(core: Core, k: Handle, command: Handle, call: Call, sync: bool)
    requires OwnerOf(core, command) == Some(k)
    ensures Joins(core, k, command, call, sync) <==> Batching.Joins(core, k, command, call, sync)
  {
    hide RecordSemantic, Recordable, PayloadOf, TypeIWildcard, CommandJoins, Suppressing, Specialized;
    NumbersAre(call.funId);
    Readings(core.devices[k]);
    EntryExactly(call);
    RecordedExactly(core, k, command, WrittenSemantic(call));
    SuppressingStage(core.devices[k]);
  }

  lemma SuppressingStage(d: Device)
    ensures Suppressing(d) ==> d.stage != Legacy
  {
  }

  /** The pending calls stayed, or went. */
  predicate Sheds(io: Io, io': Io) { io'.cluster == io.cluster || io'.cluster == EMPTY_CLUSTER }

  lemma RequestsShed(net: Net, io: Io, fd: int, call: Call, k: Handle, kind: FlimeKind)
    ensures Sheds(io, Flush(net, io).0) && Sheds(io, DrainThenSingle(net, io, fd, call).0)
    ensures Sheds(io, DrainThenFlime(net, io, fd, k, kind).0)
  {
  }

  lemma DrainSheds(cfg: Config, w: World, k: Handle)
    requires k in w.core.devices
    ensures Sheds(w.io, FallbackOrFail(cfg, w, k).0.io) && Sheds(w.io, DrainEarly(cfg, w, k).0.io)
  {
    hide DrainThenFlime;
    RequestsShed(cfg.net, w.io, w.core.devices[k].fd, Call(0, 0, [], false), k, FallbackFlush);
  }

  lemma StepSheds(cfg: Config, w: World, k: Handle, command: Handle, call: Call)
    requires k in w.core.devices
    ensures Sheds(w.io, SemanticStep(cfg, w, k, command, call).0.io)
  {
    hide FallbackOrFail, RecordSemantic, GenericSemantic;
    DrainSheds(cfg, w, k);
    var recorded := RecordSemantic(w.core, command, GenericSemantic(call, !TypeIWildcard(call.funId)));
    if recorded.Some? { DrainSheds(cfg, w.(core := recorded.value), k); }
  }

  lemma SettledSheds(cfg: Config, w: World, k: Handle, command: Handle, fd: int, call: Call, sync: bool)
    requires OwnerOf(w.core, command) == Some(k) && !Joins(w.core, k, command, call, sync)
    ensures Sheds(w.io, Settled(cfg, w, k, command, fd, call, sync).0.io)
  {
    hide DrainEarly, SemanticStep, ClusterCandidate, Joins, Batching.Joins, DrainThenSingle;
    JoinsIs(w.core, k, command, call, sync);
    Batching.JoinsExactly(cfg, w, k, command, call, sync);
    DrainSheds(cfg, w, k);
    var drained := DrainEarly(cfg, w, k).0;
    StepSheds(cfg, drained, k, command, call);
    var settled := SemanticStep(cfg, drained, k, command, call).0;
    RequestsShed(cfg.net, settled.io, fd, call, k, Route);
  }

  lemma CommandSheds(cfg: Config, w: World, fd: int, call: Call, sync: bool, command: Handle)
    requires OwnerOf(w.core, command).Some? ==> !Joins(w.core, OwnerOf(w.core, command).value, command, call, sync)
    ensures Sheds(w.io, WriteCommand(cfg, w, fd, call, sync, command).0.io)
  {
    hide Settled, Flush, ClusterCandidate, Joins, DrainThenSingle;
    RequestsShed(cfg.net, w.io, fd, call, 0, Route);
    var flushed := w.(io := Flush(cfg.net, w.io).0);
    RequestsShed(cfg.net, flushed.io, fd, call, 0, Route);
    Batching.NoCandidate(w.core, call, sync);
    if OwnerOf(w.core, command).Some? {
      var k := OwnerOf(w.core, command).value;
      SettledSheds(cfg, w, k, command, fd, call, sync);
      SettledSheds(cfg, flushed, k, command, fd, call, sync);
    }
  }

  /** A joined command is recorded and pending, and nothing is sent. */
  lemma CommandJoined(cfg: Config, w: World, fd: int, call: Call, sync: bool, command: Handle, k: Handle)
    requires cfg.batching && OwnerOf(w.core, command) == Some(k) && command != 0 && Plain(call)
    requires Joins(w.core, k, command, call, sync)
    ensures var (w', ok) := WriteCommand(cfg, w, fd, call, sync, command);
            && w'.io == AppendOwned(cfg.net, w.io, fd, call).0 && ok == AppendOwned(cfg.net, w.io, fd, call).1
            && GrewByOne(w.core, w'.core, command, WrittenSemantic(call))
  {
    hide Flush, AppendOwned, RecordSemantic, GenericSemantic, Joins, GrewByOne, TypeIWildcard, PayloadOf, PlainParam;
    JoinsIs(w.core, k, command, call, sync);
    Batching.JoinsExactly(cfg, w, k, command, call, sync);
    RecordGrows(w.core, command, WrittenSemantic(call));
    var core := RecordSemantic(w.core, command, WrittenSemantic(call)).value;
    GrowthKept(w, w.(core := core), WriteCommand(cfg, w, fd, call, sync, command).0, command, call);
  }

  /**
   * With room behind the pending calls, a plain command written on a buffer joins them exactly if its
   * device suppresses, is unfailed and has no route out, the write is asynchronous, its number is one
   * that may join, and its entry can be recorded; then it is recorded and nothing is sent.
   */
  lemma CommandExactly(cfg: Config, w: World, fd: int, call: Call, sync: bool, command: Handle, k: Handle)
    requires cfg.batching && OwnerOf(w.core, command) == Some(k) && command != 0 && Plain(call) && IoOk(w.io)
    requires (w.io.cluster.callCount == 0 || w.io.cluster.fd >= 0) && Room(w.io.cluster, fd, call)
    ensures var (w', ok) := WriteCommand(cfg, w, fd, call, sync, command);
            var joined := Pending(w'.io.cluster) == Pending(w.io.cluster) + [Received(call)];
            && (joined <==> Joins(w.core, k, command, call, sync))
            && (joined ==>
                  && ok && w'.io.wire == w.io.wire && w'.io.rpcs == w.io.rpcs
                  && GrewByOne(w.core, w'.core, command, WrittenSemantic(call)))
  {
    hide WriteCommand, IoOk, Joins, Plain, Room, Pending, GrewByOne, AppendOwned, ClusterOk;
    AppendExactly(cfg.net, w.io, fd, call);
    InitialOk();
    if Joins(w.core, k, command, call, sync) {
      CommandJoined(cfg, w, fd, call, sync, command, k);
    } else {
      CommandSheds(cfg, w, fd, call, sync, command);
      NothingPending();
    }
  }

  lemma NothingPending()
    ensures Pending(EMPTY_CLUSTER) == []
  {
    InitialOk();
  }

  // ------------------------------------------------ command writes that do not get that far

  /** A write that names no buffer or not the GPU does nothing, and a malformed one only fails its device. */
  lemma CommandRefused(cfg: Config, w: World, fd: int, call: Call, sync: bool, command: Handle)
    requires command == 0 || call.deviceId != 1 || !call.framed
    ensures var (w', ok) := WriteCommand(cfg, w, fd, call, sync, command);
            && !ok && w'.io == w.io
            && w'.core == if command != 0 && call.deviceId == 1 then FailOwner(w.core, command) else w.core
  {
  }

  /**
   * A well-formed one that may not be batched sends what is pending first; if that fails the device
   * fails, and its command is neither recorded nor sent.
   */
  lemma CommandUnflushed(cfg: Config, w: World, fd: int, call: Call, sync: bool, command: Handle)
    requires command != 0 && call.deviceId == 1 && call.framed && ClusterOk(w.io.cluster) && !Clears(cfg.net, w.io)
    requires match OwnerOf(w.core, command)
             case None => true
             case Some(k) =>
               var d := w.core.devices[k];
               !Suppressing(d) || d.failed || d.early || sync || !CommandJoins(call.funId)
    ensures var (w', ok) := WriteCommand(cfg, w, fd, call, sync, command);
            !ok && w'.core == FailOwner(w.core, command) && w'.io.log == w.io.log
  {
    hide Flush, ClusterOk, Clears, Settled, TypeIWildcard, CommandJoins, Suppressing, Specialized;
    NumbersAre(call.funId);
    FlushFate(cfg.net, w.io);
    if OwnerOf(w.core, command).Some? { Readings(w.core.devices[OwnerOf(w.core, command).value]); }
  }

  /** On a buffer nobody registered a command goes out on its own, behind whatever is pending. */
  lemma CommandUnowned(cfg: Config, w: World, fd: int, call: Call, sync: bool, command: Handle)
    requires command != 0 && call.deviceId == 1 && call.framed && ClusterOk(w.io.cluster)
    requires OwnerOf(w.core, command) == None
    ensures var (w', ok) := WriteCommand(cfg, w, fd, call, sync, command);
            && w'.core == w.core
            && (ok <==> Clears(cfg.net, w.io) && cfg.net(Upcoming(w.io)) == Acked)
            && (ok ==> w'.io.log == w.io.log + [Ran(fd, Received(call))])
  {
    hide Flush, ClusterOk, Clears;
    FlushFate(cfg.net, w.io);
    if Clears(cfg.net, w.io) {
      FlushFate(cfg.net, Flush(cfg.net, w.io).0);
      EmptyClears(cfg.net, Flush(cfg.net, w.io).0);
    }
  }

  // -------------------------------------------------------------- commands sent on their own

  /** A device that meets a command it cannot record before it suppresses anything goes to Legacy. */
  function GivenUp(d: Device): Device {
    d.(stage := Legacy, negotiated := false, active := false, token := 0, recovering := false,
       early := false, earlyCommand := 0, earlyId := 0)
  }

  /**
   * The semantic step of a command write: on a suppressing device a command that may not be batched,
   * or cannot be recorded, needs a drain; on any other it is recorded, or the device gives up.
   */
  lemma StepExactly(cfg: Config, w: World, k: Handle, c: Handle, call: Call)
    requires OwnerOf(w.core, c) == Some(k) && ClusterOk(w.io.cluster)
    ensures var d := w.core.devices[k];
            var (w', ok) := SemanticStep(cfg, w, k, c, call);
            var records := d.stage != Legacy && Recordable(w.core, k, c, EntryBytes(call));
            var drains := Suppressing(d) && (!CommandJoins(call.funId) || !records);
            && (ok <==> drains ==> Drainable(d) && Clears(cfg.net, w.io) && cfg.net(Upcoming(w.io)) == Acked)
            && (if records then GrewByOne(w.core, w'.core, c, WrittenSemantic(call))
                else w'.core.recorded == w.core.recorded)
            && (!drains ==> w'.io == w.io)
            && (ok ==> w'.core.devices == w.core.devices[k :=
                  if drains then AfterDrain(d) else if records || d.stage == Legacy then d else GivenUp(d)])
            && (drains && ok ==>
                  w'.io.cluster == EMPTY_CLUSTER && w'.io.rpcs == Upcoming(w.io) + 1
                  && w'.io.log == w.io.log + [Controlled(d.fd, k, FallbackFlush)])
            && (!ok ==> w'.core.devices[k].failed)
  {
    hide FallbackOrFail, RecordSemantic, Recordable, ClusterOk, Clears, Drainable, GrewByOne, TypeIWildcard, CommandJoins,
         AfterDrain, PayloadOf, Suppressing, Specialized;
    var d := w.core.devices[k];
    Readings(d);
    NumbersAre(call.funId);
    EntryExactly(call);
    SuppressingStage(d);
    SetSame(w.core, k);
    RecordedExactly(w.core, k, c, WrittenSemantic(call));
    RecordGrows(w.core, c, WrittenSemantic(call));
    DrainWhole(cfg, w, k);
    var recorded := RecordSemantic(w.core, c, WrittenSemantic(call));
    if recorded.Some? {
      DrainWhole(cfg, w.(core := recorded.value), k);
      GrowthKept(w, w.(core := recorded.value), FallbackOrFail(cfg, w.(core := recorded.value), k).0, c, call);
    }
  }

  /** A drain as a whole: its answer, device, log and request count, and the streams left alone. */
  lemma DrainWhole(cfg: Config, w: World, k: Handle)
    requires k in w.core.devices && ClusterOk(w.io.cluster)
    ensures var d := w.core.devices[k];
            var (w', ok) := FallbackOrFail(cfg, w, k);
            && (ok <==> Drainable(d) && Clears(cfg.net, w.io) && cfg.net(Upcoming(w.io)) == Acked)
            && w'.core.recorded == w.core.recorded
            && (!ok ==> w'.core.devices[k].failed)
            && (ok ==>
                  && w'.core.devices == w.core.devices[k := AfterDrain(d)]
                  && w'.io.cluster == EMPTY_CLUSTER && w'.io.rpcs == Upcoming(w.io) + 1
                  && w'.io.log == w.io.log + [Controlled(d.fd, k, FallbackFlush)])
  {
    hide Fallback, ClusterOk, Clears, Drainable, AfterDrain;
    FallbackExactly(cfg, w, k);
    FallbackNumbers(cfg, w, k);
    FallbackRecords(cfg, w, k);
  }

  lemma FallbackNumbers(cfg: Config, w: World, k: Handle)
    requires k in w.core.devices && ClusterOk(w.io.cluster)
    ensures Fallback(cfg, w, k).1.Some? ==> Fallback(cfg, w, k).0.io.rpcs == Upcoming(w.io) + 1
  {
    hide DrainThenFlime, ClusterOk, Clears;
    FlimeFate(cfg.net, w.io, w.core.devices[k].fd, k, FallbackFlush);
  }

  /**
   * A command that may not be batched, written on a suppressing device with no route out, goes out
   * exactly if the flush, the drain of the session and its own request are all acknowledged, in that
   * order; its device is then in Legacy.
   */
  lemma OpaqueExactly(cfg: Config, w: World, fd: int, call: Call, sync: bool, c: Handle, k: Handle)
    requires OwnerOf(w.core, c) == Some(k) && ClusterOk(w.io.cluster)
    requires c != 0 && call.deviceId == 1 && call.framed && !CommandJoins(call.funId)
    requires Suppressing(w.core.devices[k]) && !w.core.devices[k].early
    ensures var d, r := w.core.devices[k], Upcoming(w.io);
            var (w', ok) := WriteCommand(cfg, w, fd, call, sync, c);
            && (ok <==> Clears(cfg.net, w.io) && Drainable(d) && cfg.net(r) == Acked && cfg.net(r + 1) == Acked)
            && (ok ==>
                  && w'.core.devices == w.core.devices[k := AfterDrain(d)]
                  && w'.io.log == w.io.log + [Controlled(d.fd, k, FallbackFlush), Ran(fd, Received(call))])
  {
    hide SemanticStep, DrainThenSingle, Flush, ClusterOk, Clears, Drainable, AfterDrain, TypeIWildcard, CommandJoins,
         Recordable, GrewByOne, Suppressing, Specialized;
    NumbersAre(call.funId);
    FlushFate(cfg.net, w.io);
    var flushed := w.(io := Flush(cfg.net, w.io).0);
    if Clears(cfg.net, w.io) {
      EmptyClears(cfg.net, flushed.io);
      StepExactly(cfg, flushed, k, c, call);
      var (settled, ok) := SemanticStep(cfg, flushed, k, c, call);
      if ok { SingleFate(cfg.net, settled.io, fd, call); }
    }
  }

  /** A call on its own behind its drain. */
  lemma SingleFate(net: Net, io: Io, fd: int, call: Call)
    requires io.cluster == EMPTY_CLUSTER
    ensures var (io', ok) := DrainThenSingle(net, io, fd, call);
            && (ok <==> net(io.rpcs) == Acked)
            && (ok ==> io'.log == io.log + [Ran(fd, Received(call))] && io'.cluster == EMPTY_CLUSTER)
  {
  }

  /**
   * On a device that suppresses nothing and has no route out every command goes out on its own,
   * exactly if the flush and its request are acknowledged; it is recorded, or the device gives up.
   */
  lemma UnsuppressedExactly(cfg: Config, w: World, fd: int, call: Call, sync: bool, c: Handle, k: Handle)
    requires OwnerOf(w.core, c) == Some(k) && ClusterOk(w.io.cluster)
    requires c != 0 && call.deviceId == 1 && call.framed
    requires !Suppressing(w.core.devices[k]) && !w.core.devices[k].early
    ensures var d := w.core.devices[k];
            var (w', ok) := WriteCommand(cfg, w, fd, call, sync, c);
            var records := d.stage != Legacy && Recordable(w.core, k, c, EntryBytes(call));
            && (ok <==> Clears(cfg.net, w.io) && cfg.net(Upcoming(w.io)) == Acked)
            && (ok ==>
                  && w'.io.log == w.io.log + [Ran(fd, Received(call))]
                  && w'.core.devices == w.core.devices[k := if records || d.stage == Legacy then d else GivenUp(d)])
            && (ok && records ==> GrewByOne(w.core, w'.core, c, WrittenSemantic(call)))
  {
    hide SemanticStep, DrainThenSingle, Flush, ClusterOk, Clears, Drainable, AfterDrain, TypeIWildcard, CommandJoins,
         Recordable, GrewByOne, Specialized, PayloadOf;
    var d := w.core.devices[k];
    Readings(d);
    FlushFate(cfg.net, w.io);
    var flushed := w.(io := Flush(cfg.net, w.io).0);
    if Clears(cfg.net, w.io) {
      EmptyClears(cfg.net, flushed.io);
      StepExactly(cfg, flushed, k, c, call);
      var settled := SemanticStep(cfg, flushed, k, c, call).0;
      GivenUpMode(d);
      SingleFate(cfg.net, settled.io, fd, call);
      GrowthKept(flushed, settled, WriteCommand(cfg, w, fd, call, sync, c).0, c, call);
      GrowthFrom(w, flushed, WriteCommand(cfg, w, fd, call, sync, c).0, c, call);
    }
  }

  /**
   * On a device with a route out the route is drained first: then the command goes out unrecorded,
   * exactly if flush, drain and its own request are acknowledged, and otherwise the device has failed.
   */
  lemma HinderedExactly(cfg: Config, w: World, fd: int, call: Call, sync: bool, c: Handle, k: Handle)
    requires OwnerOf(w.core, c) == Some(k) && ClusterOk(w.io.cluster)
    requires c != 0 && call.deviceId == 1 && call.framed && w.core.devices[k].early
    ensures var d, r := w.core.devices[k], Upcoming(w.io);
            var (w', ok) := WriteCommand(cfg, w, fd, call, sync, c);
            && w'.core.recorded == w.core.recorded
            && (ok <==> Clears(cfg.net, w.io) && Drainable(d) && cfg.net(r) == Acked && cfg.net(r + 1) == Acked)
            && (ok ==>
                  && w'.core.devices == w.core.devices[k := AfterDrain(d)]
                  && w'.io.log == w.io.log + [Controlled(d.fd, k, FallbackFlush), Ran(fd, Received(call))])
            && (!ok ==> w'.core.devices[k].failed)
  {
    hide FallbackOrFail, DrainThenSingle, Flush, ClusterOk, Clears, Drainable, AfterDrain, TypeIWildcard, Specialized,
         GenericSemantic, RecordSemantic;
    var d := w.core.devices[k];
    FlushFate(cfg.net, w.io);
    var flushed := w.(io := Flush(cfg.net, w.io).0);
    if Clears(cfg.net, w.io) {
      EmptyClears(cfg.net, flushed.io);
      DrainWhole(cfg, flushed, k);
      DrainableLegacy(d);
      var (drained, ok) := FallbackOrFail(cfg, flushed, k);
      if ok { SingleFate(cfg.net, drained.io, fd, call); }
    }
  }

  lemma DrainableLegacy(d: Device)
    ensures Drainable(d) ==>
              HasNumber(d.nextId) && AfterDrain(d).stage == Legacy && !Specialized(AfterDrain(d)) && !AfterDrain(d).early
  {
  }

  lemma GivenUpMode(d: Device)
    ensures !Specialized(GivenUp(d))
  {
  }

  lemma GrowthFrom(a: World, b: World, c: World, command: Handle, call: Call)
    requires a.core == b.core
    ensures GrewByOne(b.core, c.core, command, WrittenSemantic(call)) ==>
            GrewByOne(a.core, c.core, command, WrittenSemantic(call))
  {
  }

  // ------------------------------------------------------------------ ordinary writes

  lemma {:induction false} WalkSheds(cfg: Config, w: World, order: seq<Handle>, n: nat)
    requires n <= |order|
    ensures Sheds(w.io, DrainUpTo(cfg, w, order, n).0.io)
  {
    hide DrainEarly;
    if n > 0 {
      WalkSheds(cfg, w, order, n - 1);
      var w' := DrainUpTo(cfg, w, order, n - 1).0;
      if order[n - 1] in w'.core.devices { DrainSheds(cfg, w', order[n - 1]); }
    }
  }

  /** A barrier call is none of those that may be batched, so it leaves no more pending than it found. */
  lemma BarrierSheds(cfg: Config, w: World, tid: Tid, fd: int, call: Call, sync: bool, view: RouteView, order: seq<Handle>)
    requires EarlyRouteBarrier(call.funId)
    ensures Sheds(w.io, Write(cfg, w, tid, fd, call, sync, view, order).0.io)
  {
    hide DrainUpTo, ClusterWrite, DirectWrite;
    WalkSheds(cfg, w, order, |order|);
    var drained := DrainUpTo(cfg, w, order, |order|).0;
    DirectSheds(cfg, drained.(core := SetMark(drained.core, tid, NO_MARK)),
                if Named(MarkOf(drained.core, tid), call) then MarkOf(drained.core, tid).named else 0, fd, call);
  }

  /**
   * With room behind the pending calls, an ordinary write of a plain call whose thread has no flush
   * and no route to follow joins them exactly if the thread's mark is for this function, allows it
   * and does not block it, the write is asynchronous, and the function is one of six.
   */
  lemma WriteExactly(cfg: Config, w: World, tid: Tid, fd: int, call: Call, sync: bool, view: RouteView, order: seq<Handle>)
    requires cfg.batching && Plain(call) && IoOk(w.io)
    requires (w.io.cluster.callCount == 0 || w.io.cluster.fd >= 0) && Room(w.io.cluster, fd, call)
    requires var m := MarkOf(w.core, tid); !m.flushAfter && m.routeAfter == 0
    ensures var (w', ok) := Write(cfg, w, tid, fd, call, sync, view, order);
            var joined := Pending(w'.io.cluster) == Pending(w.io.cluster) + [Received(call)];
            var m := MarkOf(w.core, tid);
            && (joined <==> m.funId == call.funId && m.allow && !m.block && !sync && HookJoins(call.funId))
            && (joined ==> ok && w'.io.wire == w.io.wire && w'.io.rpcs == w.io.rpcs)
  {
    hide IoOk, Plain, Room, Pending, ClusterOk, Write, HookJoins;
    NothingPending();
    if EarlyRouteBarrier(call.funId) {
      BarrierSheds(cfg, w, tid, fd, call, sync, view, order);
      BarriersApart(call.funId);
    } else {
      UnhinderedWrite(cfg, w, tid, fd, call, sync, view, order);
    }
  }

  lemma UnhinderedWrite(cfg: Config, w: World, tid: Tid, fd: int, call: Call, sync: bool,
                        view: RouteView, order: seq<Handle>)
    requires cfg.batching && Plain(call) && IoOk(w.io) && !EarlyRouteBarrier(call.funId)
    requires (w.io.cluster.callCount == 0 || w.io.cluster.fd >= 0) && Room(w.io.cluster, fd, call)
    requires var m := MarkOf(w.core, tid); !m.flushAfter && m.routeAfter == 0
    ensures var (w', ok) := Write(cfg, w, tid, fd, call, sync, view, order);
            var m := MarkOf(w.core, tid);
            if m.funId == call.funId && m.allow && !m.block && !sync && HookJoins(call.funId)
            then ok && Pending(w'.io.cluster) == Pending(w.io.cluster) + [Received(call)]
                 && w'.io.wire == w.io.wire && w'.io.rpcs == w.io.rpcs
            else Sheds(w.io, w'.io)
  {
    hide IoOk, Plain, Room, Pending, AppendOwned, ClusterOk, DrainUpTo, SendSingle, Flush, TypeICluster, HookJoins;
    AppendExactly(cfg.net, w.io, fd, call);
    NumbersAre(call.funId);
    PlainDevice(call);
    DirectSheds(cfg, w.(core := SetMark(w.core, tid, NO_MARK)),
                if Named(MarkOf(w.core, tid), call) then MarkOf(w.core, tid).named else 0, fd, call);
  }

  lemma BarriersApart(n: int)
    ensures EarlyRouteBarrier(n) ==> !HookJoins(n)
  {
  }

  lemma PlainDevice(call: Call)
    requires Plain(call)
    ensures call.deviceId == 1
  {
  }

  lemma DirectSheds(cfg: Config, w: World, owner: Handle, fd: int, call: Call)
    ensures Sheds(w.io, DirectWrite(cfg, w, owner, fd, call).0.io)
  {
  }

  /** A write that is not batched goes out on its own, and its command's device fails exactly if it does not. */
  lemma DirectExactly(cfg: Config, w: World, owner: Handle, fd: int, call: Call)
    requires ClusterOk(w.io.cluster)
    ensures var (w', ok) := DirectWrite(cfg, w, owner, fd, call);
            && (ok <==> Clears(cfg.net, w.io) && cfg.net(Upcoming(w.io)) == Acked)
            && (ok ==> w'.core == w.core && w'.io.log == w.io.log + [Ran(fd, Received(call))])
            && (!ok && owner != 0 ==> w'.core == FailOwner(w.core, owner))
  {
    hide Flush, ClusterOk, Clears, FailOwner;
    FlushFate(cfg.net, w.io);
  }

  /**
   * A batched write answers for its marks: the flush they ask for must be acknowledged, and the route
   * they ask for must find its buffer's device and go through; the device of whatever failed is failed.
   */
  lemma MarkedExactly(cfg: Config, w: World, m: Mark, fd: int, call: Call, view: RouteView)
    requires cfg.batching && Plain(call) && IoOk(w.io) && fd >= 0
    requires (w.io.cluster.callCount == 0 || w.io.cluster.fd >= 0) && Room(w.io.cluster, fd, call)
    ensures var (w', ok) := ClusterWrite(cfg, w, m, fd, call, view);
            var flushed := m.flushAfter ==> cfg.net(w.io.rpcs) == Acked;
            && (!flushed ==> !ok && w'.core == FailOwner(w.core, m.named))
            && (flushed && m.routeAfter == 0 ==> ok && w'.core == w.core)
            && (flushed && m.routeAfter != 0 && OwnerOf(w.core, m.routeAfter).None? ==> !ok && w'.core == w.core)
            && (flushed && m.routeAfter != 0 && OwnerOf(w.core, m.routeAfter).Some? ==>
                  var k := OwnerOf(w.core, m.routeAfter).value;
                  var batched := AppendOwned(cfg.net, w.io, fd, call).0;
                  var io := if m.flushAfter then Flush(cfg.net, batched).0 else batched;
                  var (routed, advanced) := AdvanceRoute(cfg, w.(io := io), k, m.routeAfter, view);
                  && ok == advanced
                  && w'.core == if advanced then routed.core
                                else SetDevice(routed.core, k, routed.core.devices[k].(failed := true)))
  {
    hide IoOk, Plain, Room, Pending, AppendOwned, Flush, AdvanceRoute, FailOwner, Clears;
    AppendExactly(cfg.net, w.io, fd, call);
    AppendedOk(cfg.net, w.io, fd, call);
    var io := AppendOwned(cfg.net, w.io, fd, call).0;
    FlushFate(cfg.net, io);
    ClearsOne(cfg.net, io);
  }

  lemma ClearsOne(net: Net, io: Io)
    requires io.cluster.callCount > 0 && io.cluster.fd >= 0
    ensures Clears(net, io) <==> net(io.rpcs) == Acked
  {
  }

  lemma AppendedOk(net: Net, io: Io, fd: int, call: Call)
    requires IoOk(io) && Plain(call) && Room(io.cluster, fd, call)
    requires io.cluster.callCount == 0 || io.cluster.fd >= 0
    ensures ClusterOk(AppendOwned(net, io, fd, call).0.cluster)
  {
    hide Dispose, MustDrainFirst, Room, StreamOk, Canonical, Pending;
    PlainIs(call);
    RoomIs(io.cluster, fd, call);
    ExtendAppends(io.cluster, fd, call);
  }

  /**
   * A dispatch marks its write for a flush and a route exactly if it went through, the planner found a
   * boundary, and its buffer is registered and has a stream.
   */
  lemma DispatchExactly(cfg: Config, w: World, tid: Tid, c: Handle, call: Semantic, boundary: bool)
    ensures var (hooked, ok) := RecordHook(cfg, w, tid, c, call, true);
            var w' := DispatchHook(cfg, w, tid, c, call, boundary);
            var marked := ok && boundary && OwnerOf(hooked.core, c).Some? && c in hooked.core.recorded;
            && MarkOf(w'.core, tid)
               == (if marked then MarkOf(hooked.core, tid).(flushAfter := true, routeAfter := c)
                   else MarkOf(hooked.core, tid))
            && w'.io == hooked.io && w'.core.devices == hooked.core.devices && w'.core.recorded == hooked.core.recorded
  {
    hide RecordHook;
  }

  /** A bind whose arrays are missing blocks the write that follows and fails the buffer's device. */
  lemma BadBindExactly(w: World, tid: Tid, c: Handle, funId: nat)
    ensures var w', m := BadBindHook(w, tid, c, funId), MarkOf(BadBindHook(w, tid, c, funId).core, tid);
            && m == Mark(funId, false, true, false, 0, MarkOf(w.core, tid).named)
            && w'.core.devices == FailOwner(w.core, c).devices
            && w'.core.recorded == w.core.recorded && w'.io == w.io
  {
  }

  // ---------------------------------------------------------------- what the host lets in

  /** A call a host may be handed out of an envelope. */
  predicate Admissible(h: HostCall) {
    && h.id / 4294967296 == 1 && h.id / 16777216 % 256 == 0 && |h.params| <= 32
    && h.id % 16777216 != 9999 && h.id % 16777216 != 1902 && h.id % 16777216 != 1906
  }

  /** One record of a call stream as the host checks it: its fields, its end, and each parameter's place. */
  lemma RecordMeans(words: seq<nat>, at: nat, saveBytes: nat)
    requires at + 2 <= |words|
    ensures RecordOk(words, at, saveBytes) <==>
              && words[at] / 4294967296 == 1 && words[at] / 16777216 % 256 == 0
              && words[at + 1] <= 32 && at + 2 + 2 * words[at + 1] <= |words|
              && forall i: nat | i < words[at + 1] ::
                   var length, offset := words[at + 2 + 2 * i], words[at + 3 + 2 * i];
                   offset == 0 || (length <= 2147483647 && offset + length <= saveBytes)
  {
  }

  /**
   * What the preflight rules out: envelopes over 1 MiB, calls not for the GPU, flagged, with too many
   * parameters or of a control function, a route next to a submit, and a route beyond the guest's limits.
   */
  lemma PreflightMeans(words: seq<nat>, save: seq<byte>)
    requires HostAccepts(words, save)
    ensures 8 * |words| <= 1048576 && |save| <= 1048576
    ensures forall h <- Decode(words, 0, save) :: Admissible(h)
    ensures var calls := Decode(words, 0, save);
            forall h <- calls, g <- calls | h.id % 16777216 == 1907 ::
              && g.id % 16777216 != 1235 && g.id % 16777216 != 1236
              && 8 * |words| <= 65536 && |calls| <= 64
  {
    DecodedAdmissible(words, 0, save);
    forall h | h in Decode(words, 0, save) ensures Admissible(h) { assert Dispatchable(FunOf(h.id)); }
    var calls := Decode(words, 0, save);
    forall h, g | h in calls && g in calls && h.id % 16777216 == 1907
      ensures g.id % 16777216 != 1235 && g.id % 16777216 != 1236
    {
      assert FunOf(h.id) == 1907;
      assert IsSubmit(FunOf(g.id)) ==> RouteConflict(calls);
    }
  }

  lemma {:induction false} DecodedAdmissible(words: seq<nat>, at: nat, save: seq<byte>)
    requires StreamOk(words, at, |save|)
    ensures forall h <- Decode(words, at, save) ::
              h.id / 4294967296 == 1 && h.id / 16777216 % 256 == 0 && |h.params| <= 32
    decreases |words| - at
  {
    if at != |words| { DecodedAdmissible(words, ClusterCodec.Next(words, at), save); }
  }
}
