/**
 * The transport in its own form: globals behind one mutex, updated step by step.  Every method is
 * one critical section and does what its specification says, so what is proved of runs holds of it.
 */
module Guest {
  import opened GuestTypes
  import opened ClusterCodec
  import opened ClusterProofs
  import opened Wire
  import opened GuestState
  import opened CommandOps
  import opened RegistryOps
  import opened SubmitOps
  import opened Machine
  import opened Evolution
  import opened SubmitProofs
  import opened BindWords

  class Transport {
    const cfg: Config
    var devices: map<Handle, Device>
    var queueDevices: map<Handle, Handle>
    var commandDevices: map<Handle, Handle>
    var recorded: map<Handle, Stream>
    var marks: map<Tid, Mark>
    var cluster: Cluster
    var wire: seq<Packet>
    var log: seq<Entry>
    var rpcs: nat

    function View(): World
      reads this
    {
      World(Core(devices, queueDevices, commandDevices, recorded, marks), Io(cluster, wire, log, rpcs))
    }

    constructor (cfg: Config)
      ensures this.cfg == cfg && View() == INITIAL_WORLD
    {
      this.cfg := cfg;
      devices, queueDevices, commandDevices, recorded, marks := map[], map[], map[], map[], map[];
      cluster, wire, log, rpcs := EMPTY_CLUSTER, [], [], 0;
    }

    // ------------------------------------------------------------------- requests

    /** FlushAnyClusterLocked. */
    method Flush() returns (ok: bool)
      modifies this`cluster, this`wire, this`rpcs
      ensures (View().io, ok) == Wire.Flush(cfg.net, old(View().io))
    {
      if cluster.callCount == 0 { return true; }
      if cluster.fd < 0 || cluster.words == [] || |cluster.payload| <= 1 { return false; }
      var outcome := cfg.net(rpcs);
      rpcs := rpcs + 1;
      if Delivered(outcome) {
        wire := wire + [Envelope(cluster.fd, cluster.words, cluster.payload, outcome == Acked)];
      }
      if outcome != Acked { return false; }
      cluster := EMPTY_CLUSTER;
      return true;
    }

    method SendSingle(fd: int, call: Call) returns (ok: bool)
      modifies this`wire, this`log, this`rpcs
      ensures (View().io, ok) == Wire.SendSingle(cfg.net, old(View().io), fd, call)
    {
      var outcome := cfg.net(rpcs);
      rpcs := rpcs + 1;
      if Delivered(outcome) {
        wire := wire + [Single(fd, Received(call))];
        log := log + [Ran(fd, Received(call))];
      }
      return outcome == Acked;
    }

    method SendFlime(fd: int, device: Handle, kind: FlimeKind) returns (outcome: Outcome)
      modifies this`wire, this`log, this`rpcs
      ensures (View().io, outcome) == Wire.SendFlime(cfg.net, old(View().io), fd, device, kind)
    {
      outcome := cfg.net(rpcs);
      rpcs := rpcs + 1;
      if Delivered(outcome) {
        wire := wire + [Flime(fd, device, kind)];
        log := log + [Controlled(fd, device, kind)];
      }
    }

    /** Packs one call at the end of the cluster: its record, then its payload behind the others'. */
    method Pack(fd: int, call: Call)
      requires Dispose(call) == Batch
      modifies this`cluster
      ensures cluster == Extend(old(cluster), fd, call)
    {
      var base := |cluster.payload|;
      var words, owned := EncodeParams(call.params, base);
      var encoded := [CallId(call), |call.params|] + words;
      var padding: seq<byte> := if owned == [] && base == 1 then [0] else [];
      Packed(cluster, fd, call, encoded, padding, owned);
      cluster := Cluster(if cluster.callCount == 0 then fd else cluster.fd, cluster.callCount + 1,
                         cluster.words + encoded, cluster.payload + padding + owned);
    }

    /** The descriptors of a parameter list and the bytes they own, for a payload that starts at base. */
    static method EncodeParams(params: seq<Param>, base: nat) returns (words: seq<nat>, owned: seq<byte>)
      ensures words == ParamsWords(params, base) && owned == PayloadOf(params)
    {
      words, owned := [], [];
      for i := 0 to |params|
        invariant owned == BytesUpTo(params, i) && words == WordsUpTo(params, i, base)
      {
        match params[i]
        case Null(nominal) => words := words + [nominal, 0];
        case Data(bytes) =>
          words := words + [|bytes|, base + |owned|];
          owned := owned + bytes;
      }
    }

    static lemma Packed(c: Cluster, fd: int, call: Call, encoded: seq<nat>, padding: seq<byte>, owned: seq<byte>)
      requires encoded == [CallId(call), |call.params|] + ParamsWords(call.params, |c.payload|)
      requires owned == PayloadOf(call.params) && padding == Padding(c, call)
      ensures Extend(c, fd, call) ==
                Cluster(if c.callCount == 0 then fd else c.fd, c.callCount + 1,
                        c.words + encoded, c.payload + padding + owned)
    {
      hide PayloadOf, ParamsWords, Padding;
      Assoc(c.words, [CallId(call), |call.params|], ParamsWords(call.params, |c.payload|));
    }

    /** AppendOwnedClusterLocked. */
    method AppendOwned(fd: int, call: Call) returns (ok: bool)
      modifies this`cluster, this`wire, this`log, this`rpcs
      ensures (View().io, ok) == Wire.AppendOwned(cfg.net, old(View().io), fd, call)
    {
      match Dispose(call)
      case Reject => return false;
      case SendDirect =>
        ok := Flush();
        if ok { ok := SendSingle(fd, call); }
      case Batch =>
        if !ClusterSane(cluster) { return false; }
        if MustDrainFirst(cluster, fd, call) {
          ok := Flush();
          if !ok { return; }
        }
        Pack(fd, call);
        log := log + [Ran(fd, Received(call))];
        return true;
    }

    method AppendOrSend(fd: int, call: Call) returns (ok: bool)
      modifies this`cluster, this`wire, this`log, this`rpcs
      ensures (View().io, ok) == CommandOps.AppendOrSend(cfg, old(View().io), fd, call)
    {
      if cfg.batching {
        ok := AppendOwned(fd, call);
      } else {
        ok := Flush();
        if ok { ok := SendSingle(fd, call); }
      }
    }

    // ------------------------------------------------------------ leaving specialization

    /** A control, route or fallback request, once the cluster is drained. */
    method SendControl(fd: int, k: Handle, kind: FlimeKind) returns (outcome: Outcome)
      modifies this`cluster, this`wire, this`log, this`rpcs
      ensures (View().io, outcome) == DrainThenFlime(cfg.net, old(View().io), fd, k, kind)
    {
      hide Wire.Flush, Wire.SendFlime;
      var ok := Flush();
      if !ok { return Refused; }
      outcome := SendFlime(fd, k, kind);
    }

    /** ClearActiveSubmit. */
    method ClearActive(k: Handle)
      requires k in devices
      modifies this`devices
      ensures View() == WithDevice(old(View()), k, Inactive(old(devices)[k]))
    {
      devices := devices[k := devices[k].(active := false, token := 0, recovering := false)];
    }

    /** EnterLegacy. */
    method EnterLegacy(k: Handle)
      requires k in devices
      modifies this`devices
      ensures View() == WithDevice(old(View()), k, LegacyDevice(old(devices)[k]))
    {
      ClearActive(k);
      devices := devices[k := devices[k].(early := false, earlyCommand := 0, earlyId := 0)];
      devices := devices[k := devices[k].(stage := Legacy, negotiated := false)];
    }

    /** FallbackToLegacyLocked. */
    method Fallback(k: Handle) returns (id: Option<u64>)
      requires k in devices
      modifies this
      ensures (View(), id) == GuestState.Fallback(cfg, old(View()), k) && k in devices
    {
      hide DrainThenFlime;
      var d := devices[k];
      if !Specialized(d) || d.active || !CanNumber(d) { return None; }
      var outcome := SendControl(d.fd, k, FallbackFlush);
      if outcome == Refused { return None; }
      devices := devices[k := d.(nextId := d.nextId + 1)];
      if outcome != Acked { return None; }
      EnterLegacy(k);
      devices := devices[k := devices[k].(exposed := false, tornDown := true, failed := false)];
      assert devices == old(devices)[k := devices[k]];
      return Some(d.nextId);
    }

    method FallbackOrFail(k: Handle) returns (ok: bool)
      requires k in devices
      modifies this
      ensures (View(), ok) == GuestState.FallbackOrFail(cfg, old(View()), k) && k in devices
    {
      hide GuestState.Fallback;
      var id := Fallback(k);
      if id == None { Fail(k); }
      return id != None;
    }

    method DrainEarlyRoute(k: Handle) returns (ok: bool)
      requires k in devices
      modifies this
      ensures (View(), ok) == DrainEarly(cfg, old(View()), k)
    {
      if !devices[k].early { return true; }
      ok := FallbackOrFail(k);
    }

    /** DrainEarlyRoutesBeforeRawCallLocked; order is the order the hash table happens to give. */
    method DrainEarlyRoutesBeforeRawCall(funId: nat, order: seq<Handle>) returns (ok: bool)
      modifies this
      ensures (View(), ok) == DrainGate(cfg, old(View()), funId, order)
    {
      if !EarlyRouteBarrier(funId) { return true; }
      ok := true;
      ghost var before := View();
      var i := 0;
      while i < |order| && ok
        invariant 0 <= i <= |order|
        invariant (View(), ok) == DrainUpTo(cfg, before, order, i)
      {
        if order[i] in devices { ok := DrainEarlyRoute(order[i]); }
        i := i + 1;
      }
      StoppedEarly(before, order, i);
    }

    lemma {:induction false} StoppedEarly(w: World, order: seq<Handle>, i: nat)
      requires i <= |order| && (i < |order| ==> !DrainUpTo(cfg, w, order, i).1)
      ensures DrainUpTo(cfg, w, order, |order|) == DrainUpTo(cfg, w, order, i)
      decreases |order| - i
    {
      if i < |order| { StoppedEarly(w, order, i + 1); }
    }

    /** MaybeAdvanceFastRouteLocked. */
    method AdvanceRoute(k: Handle, command: Handle, view: RouteView) returns (ok: bool)
      requires k in devices
      modifies this
      ensures (View(), ok) == GuestState.AdvanceRoute(cfg, old(View()), k, command, view) && k in devices
    {
      hide GuestState.FallbackOrFail, GuestState.SendRoute, RouteGuard, Told;
      var d := devices[k];
      if d.failed { return false; }
      if d.early {
        if d.earlyCommand == command { return true; }
        ok := FallbackOrFail(k);
        return;
      }
      if !RouteGuard(d, command) || view == NotReady { return true; }
      if view == HasOpaque {
        ok := FallbackOrFail(k);
        return;
      }
      if !CanNumber(d) { return true; }
      devices := devices[k := d.(nextId := d.nextId + 1)];
      var sent := SendRoute(k, view.withdrawn, view.accepted);
      assert devices == old(devices)[k := devices[k]];
      if !sent {
        ok := FallbackOrFail(k);
        return;
      }
      devices := devices[k := devices[k].(early := true, earlyCommand := command, earlyId := d.nextId)];
      assert devices == old(devices)[k := devices[k]];
      return true;
    }

    /** Announces a period and routes its records. */
    method SendRoute(k: Handle, withdrawn: bool, accepted: bool) returns (sent: bool)
      requires k in devices
      modifies this
      ensures var before := old(devices)[k];
              var (io, begun, all) := GuestState.SendRoute(cfg, old(View().io), before.fd, k, withdrawn, accepted);
              && sent == all && k in devices
              && View() == World(SetDevice(old(View().core), k, if all then before else Told(before, begun, withdrawn)), io)
    {
      hide DrainThenFlime;
      var outcome := Announce(k, PeriodBegin, withdrawn);
      if outcome != Acked || withdrawn { return false; }
      outcome := SendControl(devices[k].fd, k, Route);
      return outcome == Acked && accepted;
    }

    /** A control request; a reply that asks for Legacy is obeyed at once. */
    method Announce(k: Handle, kind: FlimeKind, withdrawn: bool) returns (outcome: Outcome)
      requires k in devices
      modifies this
      ensures var (io, reached) := DrainThenFlime(cfg.net, old(View().io), old(devices)[k].fd, k, kind);
              && outcome == reached && k in devices
              && View() == World(SetDevice(old(View().core), k, Told(old(devices)[k], reached, withdrawn)), io)
    {
      hide DrainThenFlime;
      outcome := SendControl(devices[k].fd, k, kind);
      if outcome != Refused && withdrawn { EnterLegacy(k); }
      assert devices == devices[k := devices[k]];
    }

    method Fail(k: Handle)
      requires k in devices
      modifies this`devices
      ensures View() == old(View()).(core := FailDevice(old(View().core), k))
    {
      devices := devices[k := devices[k].(failed := true)];
    }

    /** Fails the device behind a command, if there is one. */
    method FailCommand(command: Handle)
      modifies this`devices
      ensures View() == old(View()).(core := FailOwner(old(View().core), command))
    {
      if command in commandDevices && commandDevices[command] in devices {
        Fail(commandDevices[command]);
      }
    }

    // ----------------------------------------------------------------------- writes

    /** FlimeGuestWrite. */
    method Write(tid: Tid, fd: int, call: Call, sync: bool, view: RouteView, order: seq<Handle>) returns (ok: bool)
      modifies this
      ensures (View(), ok) == CommandOps.Write(cfg, old(View()), tid, fd, call, sync, view, order)
    {
      hide ClusterWrite, DirectWrite, DrainGate;
      ok := DrainEarlyRoutesBeforeRawCall(call.funId, order);
      if !ok { return; }
      var mark := if tid in marks then marks[tid] else NO_MARK;
      var named := mark.funId == call.funId;
      var allowCluster :=
        named && mark.allow && !sync && call.deviceId == GPU_DEVICE_ID && TypeICluster(call.funId);
      var commandOwner: Handle := if named then mark.named else 0;
      marks := marks[tid := NO_MARK];
      if named && mark.block { return false; }
      if allowCluster {
        ok := WriteClustered(mark, fd, call, view);
      } else {
        ok := WriteDirect(commandOwner, fd, call);
      }
    }

    method WriteClustered(mark: Mark, fd: int, call: Call, view: RouteView) returns (ok: bool)
      modifies this
      ensures (View(), ok) == ClusterWrite(cfg, old(View()), mark, fd, call, view)
    {
      hide FailOwner, Wire.Flush, CommandOps.AppendOrSend, GuestState.AdvanceRoute;
      ok := AppendOrSend(fd, call);
      if !ok { FailCommand(mark.named); return; }
      if mark.flushAfter {
        ok := Flush();
        if !ok { FailCommand(mark.named); return; }
      }
      if mark.routeAfter != 0 { ok := RouteAfter(mark.routeAfter, view); }
    }

    method WriteDirect(commandOwner: Handle, fd: int, call: Call) returns (ok: bool)
      modifies this
      ensures (View(), ok) == DirectWrite(cfg, old(View()), commandOwner, fd, call)
    {
      hide FailOwner, Wire.Flush, Wire.SendSingle;
      ok := Flush();
      if !ok { FailCommand(commandOwner); return; }
      ok := SendSingle(fd, call);
      if !ok && commandOwner != 0 { FailCommand(commandOwner); }
    }

    method RouteAfter(command: Handle, view: RouteView) returns (ok: bool)
      modifies this
      ensures (View(), ok) ==
        match OwnerOf(old(View().core), command)
        case None => (old(View()), false)
        case Some(k) =>
          var (routed, advanced) := GuestState.AdvanceRoute(cfg, old(View()), k, command, view);
          if advanced then (routed, true) else (routed.(core := FailDevice(routed.core, k)), false)
    {
      hide GuestState.AdvanceRoute;
      if command !in commandDevices || commandDevices[command] !in devices { return false; }
      var k := commandDevices[command];
      ok := AdvanceRoute(k, command, view);
      if !ok { Fail(k); }
    }

    /** FlimeGuestWriteCommand. */
    method WriteCommand(fd: int, call: Call, sync: bool, command: Handle) returns (ok: bool)
      modifies this
      ensures (View(), ok) == CommandOps.WriteCommand(cfg, old(View()), fd, call, sync, command)
    {
      hide Wire.Flush, CommandOps.Settled;
      if command == 0 || call.deviceId != GPU_DEVICE_ID { return false; }
      var owner := OwnerOf(View().core, command);
      if !call.framed {
        if owner.Some? { Fail(owner.value); }
        return false;
      }
      if !ClusterCandidate(View().core, owner, call, sync) {
        ok := Flush();
        if !ok {
          if owner.Some? { Fail(owner.value); }
          return;
        }
      }
      if owner == None {
        ok := Emit(owner, fd, call, sync);
      } else {
        ok := Settle(owner.value, command, fd, call, sync);
      }
    }

    /** The rest of a command write once its device is known: drain, record, emit. */
    method Settle(k: Handle, command: Handle, fd: int, call: Call, sync: bool) returns (ok: bool)
      requires k in devices
      modifies this
      ensures (View(), ok) == Settled(cfg, old(View()), k, command, fd, call, sync)
    {
      hide DrainEarly, SemanticStep, EmitCommand;
      ok := DrainEarlyRoute(k);
      if !ok { return; }
      DrainedIn(old(View()), k);
      ok := Record(k, command, call);
      if !ok { return; }
      ok := Emit(Some(k), fd, call, sync);
    }

    lemma DrainedIn(w: World, k: Handle)
      requires k in w.core.devices
      ensures k in DrainEarly(cfg, w, k).0.core.devices
    {
    }

    method Record(k: Handle, command: Handle, call: Call) returns (ok: bool)
      requires k in devices
      modifies this
      ensures (View(), ok) == SemanticStep(cfg, old(View()), k, command, call)
    {
      hide GuestState.FallbackOrFail, RecordSemantic, GenericSemantic;
      var unsafe := !TypeIWildcard(call.funId);
      if devices[k].stage == Legacy { return true; }
      var specialized := Specialized(devices[k]);
      match RecordSemantic(View().core, command, GenericSemantic(call, unsafe))
      case None =>
        if specialized {
          ok := FallbackOrFail(k);
        } else {
          devices := devices[k := LegacyDevice(devices[k])];
          return true;
        }
      case Some(core) =>
        recorded := core.recorded;
        ok := true;
        if unsafe && specialized { ok := FallbackOrFail(k); }
    }

    method Emit(owner: Option<Handle>, fd: int, call: Call, sync: bool) returns (ok: bool)
      requires owner.Some? ==> owner.value in devices
      modifies this
      ensures (View(), ok) == EmitCommand(cfg, old(View()), owner, fd, call, sync)
    {
      hide Wire.Flush, Wire.SendSingle, CommandOps.AppendOrSend;
      if ClusterCandidate(View().core, owner, call, sync) {
        ok := AppendOrSend(fd, call);
      } else {
        ok := Flush();
        if ok { ok := SendSingle(fd, call); }
      }
      if !ok && owner.Some? { Fail(owner.value); }
    }

    /** FlimeGuestFlushTransport. */
    method FlushTransport() returns (ok: bool)
      modifies this`cluster, this`wire, this`rpcs
      ensures (View().io, ok) == Wire.Flush(cfg.net, old(View().io))
      ensures ok ==> cluster.callCount == 0
    {
      if cluster.callCount == 0 { return true; }
      ok := Flush();
    }

    // --------------------------------------------------------------------- devices

    method Negotiate(k: Handle, refused: bool) returns (ok: bool)
      requires k in devices
      modifies this
      ensures (View(), ok) == RegistryOps.Negotiate(cfg, old(View()), k, refused)
    {
      hide DrainThenFlime;
      var outcome := SendControl(devices[k].fd, k, Capabilities);
      if outcome != Refused { devices := devices[k := devices[k].(exposed := true)]; }
      if outcome != Acked {
        Fail(k);
      } else if refused {
        EnterLegacy(k);
      } else {
        devices := devices[k := devices[k].(negotiated := true, stage := Detect)];
      }
      assert devices == old(devices)[k := devices[k]];
      return outcome == Acked && !refused;
    }

    /** FlimeGuestRegisterDevice. */
    method RegisterDevice(fd: int, k: Handle, page: bool, refused: bool)
      modifies this
      ensures View() == RegistryOps.RegisterDevice(cfg, old(View()), k, fd, page, refused)
    {
      hide RegistryOps.Negotiate;
      if fd < 0 || k == 0 { return; }
      if k in devices { Fail(k); return; }
      devices := devices[k := FreshDevice(fd, page)];
      if page { var _ := Negotiate(k, refused); }
    }

    /** FlimeGuestBeforeDestroyDevice, once neither a submission nor a lifecycle is in flight. */
    method BeforeDestroyDevice(k: Handle) returns (ok: bool)
      modifies this
      ensures (View(), ok) == BeforeDestroy(cfg, old(View()), k)
    {
      hide DrainEarly, Wire.Flush, Wire.SendFlime;
      if k !in devices { return true; }
      DrainedIn(View(), k);
      var gone := DrainEarlyRoute(k);
      if !gone { return false; }
      ok := Flush();
      if !ok { Fail(k); return; }
      if devices[k].exposed {
        var outcome := SendFlime(devices[k].fd, k, Teardown);
        if outcome != Acked { Fail(k); return false; }
      }
      devices := devices[k := TornDown(devices[k])];
    }

    /** RemoveDeviceMappingsLocked: walks both indexes, erasing as it goes. */
    method RemoveDeviceMappings(k: Handle)
      modifies this`queueDevices, this`commandDevices, this`recorded
      ensures queueDevices == WithoutOwner(old(queueDevices), k)
      ensures commandDevices == WithoutOwner(old(commandDevices), k)
      ensures recorded == map c | c in old(recorded) && !(c in old(commandDevices) && old(commandDevices)[c] == k)
                            :: old(recorded)[c]
    {
      var todo := queueDevices.Keys;
      UnownedEnds(queueDevices, k);
      hide Unowned, StreamsBut;
      while todo != {}
        invariant todo <= old(queueDevices).Keys && queueDevices == Unowned(old(queueDevices), k, todo)
        invariant commandDevices == old(commandDevices) && recorded == old(recorded)
        decreases |todo|
      {
        var q :| q in todo;
        UnownedStep(old(queueDevices), k, todo, q);
        if queueDevices[q] == k { queueDevices := queueDevices - {q}; }
        todo := todo - {q};
      }
      todo := commandDevices.Keys;
      UnownedEnds(commandDevices, k);
      StreamsEnds(recorded, commandDevices, k);
      while todo != {}
        invariant todo <= old(commandDevices).Keys && queueDevices == WithoutOwner(old(queueDevices), k)
        invariant commandDevices == Unowned(old(commandDevices), k, todo)
        invariant recorded == StreamsBut(old(recorded), old(commandDevices), k, todo)
        decreases |todo|
      {
        var c :| c in todo;
        UnownedStep(old(commandDevices), k, todo, c);
        StreamsStep(old(recorded), old(commandDevices), k, todo, c);
        if commandDevices[c] == k {
          recorded := recorded - {c};
          commandDevices := commandDevices - {c};
        }
        todo := todo - {c};
      }
    }

    // -- what the walks leave of an index while todo has not been looked at yet

    static function Unowned(index: map<Handle, Handle>, k: Handle, todo: set<Handle>): map<Handle, Handle> {
      map q | q in index && (q in todo || index[q] != k) :: index[q]
    }

    static lemma UnownedEnds(index: map<Handle, Handle>, k: Handle)
      ensures Unowned(index, k, index.Keys) == index && Unowned(index, k, {}) == WithoutOwner(index, k)
    {
    }

    static lemma UnownedStep(index: map<Handle, Handle>, k: Handle, todo: set<Handle>, q: Handle)
      requires q in todo && todo <= index.Keys
      ensures q in Unowned(index, k, todo) && Unowned(index, k, todo)[q] == index[q]
      ensures Unowned(index, k, todo - {q})
           == if index[q] == k then Unowned(index, k, todo) - {q} else Unowned(index, k, todo)
    {
    }

    static function StreamsBut(
        recorded: map<Handle, Stream>, owners: map<Handle, Handle>, k: Handle, todo: set<Handle>): map<Handle, Stream>
    {
      map c | c in recorded && !(c in owners && c !in todo && owners[c] == k) :: recorded[c]
    }

    static lemma StreamsEnds(recorded: map<Handle, Stream>, owners: map<Handle, Handle>, k: Handle)
      ensures StreamsBut(recorded, owners, k, owners.Keys) == recorded
      ensures StreamsBut(recorded, owners, k, {}) ==
                map c | c in recorded && !(c in owners && owners[c] == k) :: recorded[c]
    {
    }

    static lemma StreamsStep(recorded: map<Handle, Stream>, owners: map<Handle, Handle>, k: Handle,
                             todo: set<Handle>, c: Handle)
      requires c in todo && todo <= owners.Keys
      ensures StreamsBut(recorded, owners, k, todo - {c}) ==
                if owners[c] == k then StreamsBut(recorded, owners, k, todo) - {c} else StreamsBut(recorded, owners, k, todo)
    {
    }

    /** FlimeGuestDestroyDevice. */
    method DestroyDevice(k: Handle)
      modifies this
      ensures View() == old(View()).(core := RegistryOps.DestroyDevice(old(View().core), k))
    {
      if k !in devices { return; }
      RemoveDeviceMappings(k);
      devices := devices - {k};
    }

    /** FlimeGuestRegisterQueue. */
    method RegisterQueue(k: Handle, queue: Handle)
      modifies this
      ensures View() == RegistryOps.RegisterQueue(cfg, old(View()), k, queue)
    {
      hide DrainEarly;
      if queue == 0 || k !in devices { return; }
      DrainedIn(View(), k);
      if devices[k].queues != {queue} {
        var ok := DrainEarlyRoute(k);
        if !ok { return; }
      }
      if queue in queueDevices && queueDevices[queue] != k { Fail(k); return; }
      queueDevices := queueDevices[queue := k];
      devices := devices[k := devices[k].(queues := devices[k].queues + {queue})];
    }

    // ------------------------------------------------------------- command buffers

    /** FlimeGuestRegisterCommandBuffers: the whole batch is checked before any of it is entered. */
    method RegisterCommandBuffers(k: Handle, pool: Handle, batch: seq<Handle>)
      modifies this
      ensures View() == old(View()).(core := RegisterCommands(old(View().core), k, pool, batch))
    {
      if k !in devices { return; }
      hide BadHandle;
      for i := 0 to |batch|
        invariant View() == old(View())
        invariant forall j | 0 <= j < i :: !BadHandle(View().core, devices[k], batch[j])
      {
        if BadHandle(View().core, devices[k], batch[i]) {
          Fail(k);
          return;
        }
      }
      EnterAll(k, pool, batch);
    }

    /** The second loop of a registration. */
    method EnterAll(k: Handle, pool: Handle, batch: seq<Handle>)
      requires k in devices
      modifies this`devices, this`recorded, this`commandDevices
      ensures devices == old(devices)[k := old(devices)[k].(commands :=
                old(devices)[k].commands + Each(batch, FreshCommand(k, pool)))]
      ensures recorded == old(recorded) + Each(batch, FRESH_STREAM)
      ensures commandDevices == old(commandDevices) + Each(batch, k)
    {
      var commands := devices[k].commands;
      for i := 0 to |batch|
        invariant devices == old(devices)
        invariant commands == Entered(devices[k].commands, batch, i, FreshCommand(k, pool))
        invariant recorded == Entered(old(recorded), batch, i, FRESH_STREAM)
        invariant commandDevices == Entered(old(commandDevices), batch, i, k)
      {
        commands := commands[batch[i] := FreshCommand(k, pool)];
        recorded := recorded[batch[i] := FRESH_STREAM];
        commandDevices := commandDevices[batch[i] := k];
      }
      EnteredAll(devices[k].commands, batch, FreshCommand(k, pool));
      EnteredAll(old(recorded), batch, FRESH_STREAM);
      EnteredAll(old(commandDevices), batch, k);
      devices := devices[k := devices[k].(commands := commands)];
    }

    static function Entered<V>(m: map<Handle, V>, batch: seq<Handle>, n: nat, v: V): map<Handle, V>
      requires n <= |batch|
    {
      if n == 0 then m else Entered(m, batch, n - 1, v)[batch[n - 1] := v]
    }

    static lemma {:induction false} EnteredIs<V>(m: map<Handle, V>, batch: seq<Handle>, n: nat, v: V)
      requires n <= |batch|
      ensures forall c :: c in Entered(m, batch, n, v) <==> c in m || exists i: nat | i < n :: batch[i] == c
      ensures forall c <- Entered(m, batch, n, v) ::
                Entered(m, batch, n, v)[c] == if exists i: nat | i < n :: batch[i] == c then v else m[c]
    {
      if n > 0 { EnteredIs(m, batch, n - 1, v); }
    }

    static lemma EnteredAll<V>(m: map<Handle, V>, batch: seq<Handle>, v: V)
      ensures Entered(m, batch, |batch|, v) == m + Each(batch, v)
    {
      EnteredIs(m, batch, |batch|, v);
    }

    /** FlimeGuestFreeCommandBuffers. */
    method FreeCommandBuffers(k: Handle, pool: Handle, batch: seq<Handle>)
      modifies this
      ensures View() == FreeCommands(cfg, old(View()), k, pool, batch)
    {
      hide DrainEarly, Wire.Flush, Repeats, Freeable;
      var _ := Flush();
      if k !in devices { return; }
      DrainedIn(View(), k);
      var _ := DrainEarlyRoute(k);
      FreedCore(View().core, k, pool, batch);
      hide RemoveCommands, FailDevice, Freed, Specialized;
      FreeEach(k, pool, batch);
    }

    static lemma FreedCore(core: Core, k: Handle, pool: Handle, batch: seq<Handle>)
      requires k in core.devices
      ensures var d, removed := core.devices[k], RemoveCommands(core, k, Freed(core.devices[k], pool, batch));
              var missed := Specialized(d) && ((exists c <- batch :: !Freeable(d, pool, c)) || Repeats(batch));
              k in removed.devices &&
              (if missed then FailDevice(removed, k) else removed) ==
                core.(devices := core.devices[k := d.(commands := d.commands - Freed(d, pool, batch),
                                                      failed := d.failed || missed)],
                      recorded := core.recorded - Freed(d, pool, batch),
                      commandDevices := core.commandDevices - Freed(d, pool, batch))
    {
      var d := core.devices[k];
      var e := d.(commands := d.commands - Freed(d, pool, batch));
      assert core.devices[k := e][k := e.(failed := true)] == core.devices[k := e.(failed := true)];
    }

    /** The loop of a free: a handle already gone counts as foreign. */
    method FreeEach(k: Handle, pool: Handle, batch: seq<Handle>)
      requires k in devices
      modifies this`devices, this`recorded, this`commandDevices
      ensures var d := old(devices)[k];
              && devices == old(devices)[k := d.(
                   commands := d.commands - Freed(d, pool, batch),
                   failed := d.failed ||
                             (Specialized(d) && ((exists c <- batch :: !Freeable(d, pool, c)) || Repeats(batch))))]
              && recorded == old(recorded) - Freed(d, pool, batch)
              && commandDevices == old(commandDevices) - Freed(d, pool, batch)
    {
      hide Missed, FreedUpTo, Freeable, Freed, Repeats, Specialized;
      var d := devices[k];
      var commands, failed := d.commands, d.failed;
      FreedNone(d, pool, batch);
      for i := 0 to |batch|
        invariant devices == old(devices)
        invariant commands == d.commands - FreedUpTo(d, pool, batch, i)
        invariant recorded == old(recorded) - FreedUpTo(d, pool, batch, i)
        invariant commandDevices == old(commandDevices) - FreedUpTo(d, pool, batch, i)
        invariant failed == (d.failed || (Specialized(d) && Missed(d, pool, batch, i)))
      {
        var c := batch[i];
        FreedStep(d, pool, batch, i);
        if c !in commands || commands[c].pool != pool {
          if Specialized(d) { failed := true; }
        } else {
          commands := Without(commands, FreedUpTo(d, pool, batch, i), c, d.commands);
          recorded := Without(recorded, FreedUpTo(d, pool, batch, i), c, old(recorded));
          commandDevices := Without(commandDevices, FreedUpTo(d, pool, batch, i), c, old(commandDevices));
        }
      }
      FreedAll(d, pool, batch);
      devices := devices[k := d.(commands := commands, failed := failed)];
    }

    /** Erasing one more key of a map that has already lost some. */
    static function Without<V>(
        m: map<Handle, V>, gone: set<Handle>, c: Handle, ghost before: map<Handle, V>): (r: map<Handle, V>)
      requires m == before - gone
      ensures r == before - (gone + {c})
    {
      m - {c}
    }

    static lemma FreedNone(d: Device, pool: Handle, batch: seq<Handle>)
      ensures FreedUpTo(d, pool, batch, 0) == {} && !Missed(d, pool, batch, 0)
    {
    }

    static lemma FreedStep(d: Device, pool: Handle, batch: seq<Handle>, n: nat)
      requires n < |batch|
      ensures var c, gone := batch[n], FreedUpTo(d, pool, batch, n);
              var live := c in d.commands - gone && d.commands[c].pool == pool;
              && FreedUpTo(d, pool, batch, n + 1) == (if live then gone + {c} else gone)
              && Missed(d, pool, batch, n + 1) == (Missed(d, pool, batch, n) || !live)
    {
    }

    // -- what the loop of a free has done after n handles

    static function FreedUpTo(d: Device, pool: Handle, batch: seq<Handle>, n: nat): set<Handle>
      requires n <= |batch|
    {
      if n == 0 then {}
      else FreedUpTo(d, pool, batch, n - 1) + if Freeable(d, pool, batch[n - 1]) then {batch[n - 1]} else {}
    }

    /** Some handle among the first n was foreign, or gone by the time it was looked at. */
    static predicate Missed(d: Device, pool: Handle, batch: seq<Handle>, n: nat)
      requires n <= |batch|
    {
      n > 0 && (Missed(d, pool, batch, n - 1) ||
                !Freeable(d, pool, batch[n - 1]) || batch[n - 1] in FreedUpTo(d, pool, batch, n - 1))
    }

    static lemma {:induction false} FreedIs(d: Device, pool: Handle, batch: seq<Handle>, n: nat)
      requires n <= |batch|
      ensures forall c :: c in FreedUpTo(d, pool, batch, n) <==>
                Freeable(d, pool, c) && exists i: nat | i < n :: batch[i] == c
    {
      if n > 0 { FreedIs(d, pool, batch, n - 1); }
    }

    static lemma {:induction false} MissedIs(d: Device, pool: Handle, batch: seq<Handle>, n: nat)
      requires n <= |batch|
      ensures Missed(d, pool, batch, n) <==>
                (exists i: nat | i < n :: !Freeable(d, pool, batch[i])) ||
                (exists i: nat, j: nat | i < j < n :: batch[i] == batch[j])
    {
      if n > 0 {
        MissedIs(d, pool, batch, n - 1);
        FreedIs(d, pool, batch, n - 1);
      }
    }

    static lemma FreedAll(d: Device, pool: Handle, batch: seq<Handle>)
      ensures FreedUpTo(d, pool, batch, |batch|) == Freed(d, pool, batch)
      ensures Missed(d, pool, batch, |batch|) <==> (exists c <- batch :: !Freeable(d, pool, c)) || Repeats(batch)
    {
      FreedIs(d, pool, batch, |batch|);
      MissedIs(d, pool, batch, |batch|);
    }

    /** FlimeGuestDestroyCommandPool: erases the pool's buffers while walking all of them. */
    method DestroyCommandPool(k: Handle, pool: Handle)
      modifies this
      ensures View() == DestroyPool(cfg, old(View()), k, pool)
    {
      hide DrainEarly, Wire.Flush;
      var _ := Flush();
      if k !in devices { return; }
      DrainedIn(View(), k);
      var _ := DrainEarlyRoute(k);
      ErasePool(k, pool);
    }

    method ErasePool(k: Handle, pool: Handle)
      requires k in devices
      modifies this`devices, this`recorded, this`commandDevices
      ensures var d := old(devices)[k];
              && devices == old(devices)[k := d.(commands := d.commands - PoolMembers(d, pool))]
              && recorded == old(recorded) - PoolMembers(d, pool)
              && commandDevices == old(commandDevices) - PoolMembers(d, pool)
    {
      var d := devices[k];
      var commands, todo := d.commands, d.commands.Keys;
      ErasedEnds(d, pool);
      hide Erased, PoolMembers;
      while todo != {}
        invariant todo <= d.commands.Keys && devices == old(devices)
        invariant commands == d.commands - Erased(d, pool, todo)
        invariant recorded == old(recorded) - Erased(d, pool, todo)
        invariant commandDevices == old(commandDevices) - Erased(d, pool, todo)
        decreases |todo|
      {
        var c :| c in todo;
        ErasedStep(d, pool, todo, c);
        if commands[c].pool == pool {
          recorded := Without(recorded, Erased(d, pool, todo), c, old(recorded));
          commandDevices := Without(commandDevices, Erased(d, pool, todo), c, old(commandDevices));
          commands := Without(commands, Erased(d, pool, todo), c, d.commands);
        }
        todo := todo - {c};
      }
      devices := devices[k := d.(commands := commands)];
    }

    /** The buffers of the pool among those already looked at. */
    static function Erased(d: Device, pool: Handle, todo: set<Handle>): set<Handle> {
      PoolMembers(d, pool) - todo
    }

    static lemma ErasedEnds(d: Device, pool: Handle)
      ensures Erased(d, pool, d.commands.Keys) == {} && Erased(d, pool, {}) == PoolMembers(d, pool)
    {
    }

    static lemma ErasedStep(d: Device, pool: Handle, todo: set<Handle>, c: Handle)
      requires c in todo && todo <= d.commands.Keys
      ensures c !in Erased(d, pool, todo)
      ensures Erased(d, pool, todo - {c}) ==
                if d.commands[c].pool == pool then Erased(d, pool, todo) + {c} else Erased(d, pool, todo)
    {
    }

    /** FlimeGuestResetCommandPool, after a successful reset. */
    method ResetCommandPool(k: Handle, pool: Handle)
      modifies this
      ensures View() == ResetPool(cfg, old(View()), k, pool)
    {
      hide DrainEarly;
      if k !in devices { return; }
      DrainedIn(View(), k);
      var _ := DrainEarlyRoute(k);
      ClearPool(k, pool);
    }

    method ClearPool(k: Handle, pool: Handle)
      requires k in devices
      modifies this`devices, this`recorded
      ensures var d := old(devices)[k];
              && devices == old(devices)[k := d.(commands := Cleared(d.commands, pool))]
              && recorded == old(recorded) + ClearedStreams(d.commands, pool)
    {
      var d := devices[k];
      var commands, todo := d.commands, d.commands.Keys;
      ClearedEnds(d.commands, recorded, pool);
      hide ClearedBut, StreamsWith, Renewed, RenewedStream, Cleared, ClearedStreams;
      while todo != {}
        invariant todo <= d.commands.Keys && devices == old(devices)
        invariant commands == ClearedBut(d.commands, pool, todo)
        invariant recorded == StreamsWith(old(recorded), d.commands, pool, todo)
        decreases |todo|
      {
        var c :| c in todo;
        ClearedStep(d.commands, old(recorded), pool, todo, c);
        todo := todo - {c};
        if commands[c].pool == pool {
          recorded := recorded[c := RenewedStream(commands[c])];
          commands := commands[c := Renewed(commands[c], false)];
        }
      }
      devices := devices[k := d.(commands := commands)];
    }

    // -- what the walk of a reset has changed while todo has not been looked at yet

    static function ClearedBut(commands: map<Handle, Command>, pool: Handle, todo: set<Handle>): map<Handle, Command> {
      map c | c in commands ::
        if c !in todo && commands[c].pool == pool then Renewed(commands[c], false) else commands[c]
    }

    static function StreamsWith(recorded: map<Handle, Stream>, commands: map<Handle, Command>, pool: Handle,
                                todo: set<Handle>): map<Handle, Stream>
    {
      recorded + map c | c in commands && c !in todo && commands[c].pool == pool :: RenewedStream(commands[c])
    }

    static lemma ClearedEnds(commands: map<Handle, Command>, recorded: map<Handle, Stream>, pool: Handle)
      ensures ClearedBut(commands, pool, commands.Keys) == commands
      ensures ClearedBut(commands, pool, {}) == Cleared(commands, pool)
      ensures StreamsWith(recorded, commands, pool, commands.Keys) == recorded
      ensures StreamsWith(recorded, commands, pool, {}) == recorded + ClearedStreams(commands, pool)
    {
    }

    static lemma ClearedStep(commands: map<Handle, Command>, recorded: map<Handle, Stream>, pool: Handle,
                             todo: set<Handle>, c: Handle)
      requires c in todo && todo <= commands.Keys
      ensures var cleared, streams := ClearedBut(commands, pool, todo), StreamsWith(recorded, commands, pool, todo);
              && c in cleared && cleared[c] == commands[c]
              && ClearedBut(commands, pool, todo - {c}) ==
                   (if commands[c].pool == pool then cleared[c := Renewed(commands[c], false)] else cleared)
              && StreamsWith(recorded, commands, pool, todo - {c}) ==
                   (if commands[c].pool == pool then streams[c := RenewedStream(commands[c])] else streams)
    {
      hide Renewed, RenewedStream;
    }

    /** FlimeGuestBeginCommandBuffer, FlimeGuestResetCommandBuffer: the new state of a renewed buffer. */
    method RenewCommandBuffer(c: Handle, recording: bool)
      modifies this
      ensures View() == RenewCommand(cfg, old(View()), c, recording)
    {
      hide DrainEarly;
      if c !in commandDevices || commandDevices[c] !in devices { return; }
      var k := commandDevices[c];
      DrainedIn(View(), k);
      var _ := DrainEarlyRoute(k);
      if c !in devices[k].commands { return; }
      var command := devices[k].commands[c];
      var generation: u64 := if command.generation == U64_MAX then 0 else command.generation + 1;
      if generation == 0 { generation := 1; }
      devices := devices[k := devices[k].(commands := devices[k].commands[c := command.(
        generation := generation, recording := recording, executable := false)])];
      recorded := recorded[c := Stream([], 0, 0, generation)];
    }

    method BeginCommandBuffer(c: Handle)
      modifies this
      ensures View() == RenewCommand(cfg, old(View()), c, true)
    {
      RenewCommandBuffer(c, true);
    }

    method ResetCommandBuffer(c: Handle)
      modifies this
      ensures View() == RenewCommand(cfg, old(View()), c, false)
    {
      RenewCommandBuffer(c, false);
    }

    /** FlimeGuestEndCommandBuffer, after a successful call. */
    method EndCommandBuffer(c: Handle, view: RouteView)
      modifies this
      ensures View() == EndCommand(cfg, old(View()), c, view)
    {
      hide GuestState.AdvanceRoute;
      if c !in commandDevices || commandDevices[c] !in devices { return; }
      var k := commandDevices[c];
      var d := devices[k];
      if c !in d.commands || !d.commands[c].recording {
        if Specialized(d) { Fail(k); }
        return;
      }
      devices := devices[k := d.(commands := d.commands[c := d.commands[c].(recording := false, executable := true)])];
      var ok := AdvanceRoute(k, c, view);
      if !ok { Fail(k); }
    }

    // ------------------------------------------------------------------- recording

    /** RecordCommandCallLocked; FlimeGuestCmdExecuteCommands takes the same branches. */
    method RecordCommandCall(tid: Tid, command: Handle, semantic: Semantic, complete: bool) returns (ok: bool)
      modifies this
      ensures (View(), ok) == RecordHook(cfg, old(View()), tid, command, semantic, complete)
    {
      hide DrainEarly, RecordSemantic, Specialized;
      if command !in commandDevices || commandDevices[command] !in devices ||
         devices[commandDevices[command]].stage == Legacy
      {
        Mark(tid, semantic.funId);
        return true;
      }
      var k := commandDevices[command];
      if devices[k].failed { FailNamedWrite(tid, Some(k), semantic.funId); return false; }
      if devices[k].early {
        DrainedIn(View(), k);
        ok := DrainEarlyRoute(k);
        if ok { Mark(tid, semantic.funId); } else { FailNamedWrite(tid, Some(k), semantic.funId); }
        return;
      }
      match if complete then RecordSemantic(View().core, command, semantic) else None
      case None =>
        FailNamedWrite(tid, Some(k), semantic.funId);
        return false;
      case Some(core) =>
        recorded := core.recorded;
        marks := marks[tid := RecordedMark(devices[k], command, semantic.funId)];
        return true;
    }

    /** MarkPreWriteSemantic for a call that must not be batched. */
    method Mark(tid: Tid, funId: nat)
      modifies this`marks
      ensures View() == old(View()).(core := MarkPre(old(View().core), tid, funId, false))
    {
      marks := marks[tid := GuestState.Mark(funId, false, false, false, 0, 0)];
    }

    /** FailNamedWriteLocked: the device, if any, fails and the write that follows is blocked. */
    method FailNamedWrite(tid: Tid, owner: Option<Handle>, funId: nat)
      requires owner.Some? ==> owner.value in devices
      modifies this`marks, this`devices
      ensures View() == old(View()).(core := FailNamed(old(View().core), tid, owner, funId))
    {
      var named := (if tid in marks then marks[tid] else NO_MARK).named;
      marks := marks[tid := GuestState.Mark(funId, false, true, false, 0, named)];
      if owner.Some? { Fail(owner.value); }
    }

    /** FlimeGuestCmdBindDescriptorSets; a counted array that is missing blocks the write that follows. */
    method CmdBindDescriptorSets(tid: Tid, funId: nat, bind: Bind, missing: bool, encodedBytes: u64)
      requires Countable(bind)
      modifies this
      ensures View() ==
        if missing then BadBindHook(old(View()), tid, bind.command, funId)
        else RecordHook(cfg, old(View()), tid, bind.command,
                        Semantic(funId, Structural(bind), Handles(bind), encodedBytes, 0, false, false, []), true).0
    {
      hide RecordHook, FailNamed;
      if missing {
        FailNamedWrite(tid, OwnerOf(View().core, bind.command), funId);
        return;
      }
      var structural, handles := Build(bind);
      var _ := RecordCommandCall(
        tid, bind.command, Semantic(funId, structural, handles, encodedBytes, 0, false, false, []), true);
    }

    /** The dispatch hooks; boundary is what the planner says once the dispatch is recorded. */
    method CmdDispatch(tid: Tid, command: Handle, semantic: Semantic, boundary: bool)
      modifies this
      ensures View() == DispatchHook(cfg, old(View()), tid, command, semantic, boundary)
    {
      hide RecordHook;
      var ok := RecordCommandCall(tid, command, semantic, true);
      if ok && boundary && command in commandDevices && commandDevices[command] in devices && command in recorded {
        var mark := if tid in marks then marks[tid] else NO_MARK;
        marks := marks[tid := mark.(flushAfter := true, routeAfter := command)];
      }
    }

    // ------------------------------------------------------------------ submission

    /** PrepareFallbackLegacySubmitLocked: the device is reserved under the number of the drain. */
    method PrepareFallback(k: Handle) returns (prepared: Prepared, id: u64)
      requires k in devices
      modifies this
      ensures (View(), prepared, id) == SubmitOps.PrepareFallback(cfg, old(View()), k) && k in devices
    {
      hide GuestState.Fallback;
      var drained := Fallback(k);
      if drained == None {
        prepared, id := Block(k);
        return;
      }
      devices := devices[k := devices[k].(active := true, token := drained.value)];
      return PFallback, drained.value;
    }

    method Block(k: Handle) returns (prepared: Prepared, id: u64)
      requires k in devices
      modifies this`devices
      ensures (View(), prepared, id) == Blocked(old(View()), k)
    {
      Fail(k);
      return PBlocked, 0;
    }

    /** SaveActiveOccurrence. */
    method Reserve(k: Handle, number: u64, recovering: bool) returns (prepared: Prepared, id: u64)
      requires k in devices
      modifies this`devices
      ensures (View(), prepared, id) == SubmitOps.Reserve(old(View()), k, number, recovering)
    {
      devices := devices[k := devices[k].(active := true, token := number, recovering := recovering)];
      return PReady, number;
    }

    /** The last chunk of a submission whose earlier chunks were sent ahead. */
    method CompleteEarly(k: Handle, view: SubmitView) returns (prepared: Prepared, id: u64)
      requires k in devices
      modifies this
      ensures (View(), prepared, id) == SubmitOps.CompleteEarly(cfg, old(View()), k, view) && k in devices
    {
      hide DrainThenFlime, SubmitOps.PrepareFallback;
      if view.hasOpaque || !view.exact {
        prepared, id := PrepareFallback(k);
        return;
      }
      var outcome := SendControl(devices[k].fd, k, Route);
      if outcome != Acked || view.verdict != Accepted {
        prepared, id := PrepareFallback(k);
        return;
      }
      var number := devices[k].earlyId;
      devices := devices[k := devices[k].(early := false, earlyCommand := 0, earlyId := 0)];
      prepared, id := Reserve(k, number, false);
    }

    /** Routes a whole submission under a fresh number. */
    method RouteSubmission(k: Handle, view: SubmitView) returns (prepared: Prepared, id: u64)
      requires k in devices
      modifies this
      ensures (View(), prepared, id) == SubmitOps.RouteSubmission(cfg, old(View()), k, view) && k in devices
    {
      hide DrainThenFlime, SubmitOps.PrepareFallback, LegacyDevice;
      if view.recovering && !view.checkpoint {
        prepared, id := PrepareFallback(k);
        return;
      }
      if !CanNumber(devices[k]) || !view.planned {
        prepared, id := Block(k);
        return;
      }
      var number := devices[k].nextId;
      devices := devices[k := devices[k].(nextId := number + 1)];
      var told := AnnounceSubmission(k, view);
      assert devices == old(devices)[k := devices[k]];
      if !told {
        prepared, id := Block(k);
        return;
      }
      var outcome := SendControl(devices[k].fd, k, Route);
      var verdict := if outcome == Acked then view.verdict else Rejected;
      if verdict == Accepted && (!view.recovering || view.verified) {
        prepared, id := Reserve(k, number, view.recovering);
      } else if view.recovering || verdict == NeedsRecovery {
        prepared, id := PrepareFallback(k);
      } else {
        prepared, id := Block(k);
      }
    }

    /** The period announcement, and before a recovery the mismatch report. */
    method AnnounceSubmission(k: Handle, view: SubmitView) returns (told: bool)
      requires k in devices
      modifies this
      ensures var before := old(devices)[k];
              var (begun, sent) := DrainThenFlime(cfg.net, old(View().io), before.fd, k, PeriodBegin);
              var (reported, sent') := DrainThenFlime(cfg.net, begun, before.fd, k, Report);
              k in devices &&
              if sent != Acked || view.withdrawn
              then !told && View() == World(SetDevice(old(View().core), k, Told(before, sent, view.withdrawn)), begun)
              else if !view.mismatch then told && View() == World(old(View().core), begun)
              else
                && told == (sent' == Acked && !view.disowned)
                && View() == World(SetDevice(old(View().core), k, Told(before, sent', view.disowned)), reported)
    {
      hide DrainThenFlime, LegacyDevice;
      var outcome := Announce(k, PeriodBegin, view.withdrawn);
      if outcome != Acked || view.withdrawn { return false; }
      assert devices == old(devices);
      if !view.mismatch { return true; }
      outcome := Announce(k, Report, view.disowned);
      return outcome == Acked && !view.disowned;
    }

    /** A submission in Detect; one repeated often enough is announced twice and starts learning. */
    method ObserveDetect(k: Handle, view: SubmitView) returns (prepared: Prepared, id: u64)
      requires k in devices
      modifies this
      ensures (View(), prepared, id) == SubmitOps.ObserveDetect(cfg, old(View()), k, view) && k in devices
    {
      hide DrainThenFlime;
      if !view.dispatches || !view.promoted { return PLegacy, 0; }
      var outcome := Announce(k, Interval, view.withdrawn);
      if outcome == Acked { outcome := SendControl(devices[k].fd, k, Interval); }
      if outcome != Acked {
        prepared, id := Block(k);
        assert devices == old(devices)[k := devices[k]];
        return;
      }
      if !view.withdrawn { devices := devices[k := devices[k].(stage := Learn)]; }
      assert devices == old(devices)[k := devices[k]];
      return PLegacy, 0;
    }

    /** ProtocolBeforeSubmitLocked. */
    method ProtocolBefore(k: Handle, view: SubmitView) returns (prepared: Prepared, id: u64)
      requires k in devices
      modifies this
      ensures (View(), prepared, id) == SubmitOps.ProtocolBefore(cfg, old(View()), k, view) && k in devices
    {
      hide Wire.Flush, SubmitOps.PrepareFallback, SubmitOps.CompleteEarly, SubmitOps.RouteSubmission,
           SubmitOps.ObserveDetect, LegacyDevice;
      if devices[k].failed || devices[k].active {
        prepared, id := Block(k);
        return;
      }
      var ok := Flush();
      if !ok || !view.refreshed {
        prepared, id := Block(k);
        return;
      }
      assert devices == devices[k := devices[k]];
      if view.hostLegacy { EnterLegacy(k); }
      if !view.assembled && devices[k].stage != Detect && devices[k].stage != Legacy {
        prepared, id := PrepareFallback(k);
      } else if !view.assembled || devices[k].stage == Legacy || !devices[k].negotiated {
        return PLegacy, 0;
      } else if devices[k].stage == Detect {
        prepared, id := ObserveDetect(k, view);
      } else if !view.dispatches || view.hasOpaque {
        prepared, id := PrepareFallback(k);
      } else if devices[k].early {
        prepared, id := CompleteEarly(k, view);
      } else {
        prepared, id := RouteSubmission(k, view);
      }
    }

    /** What a submit whose device answered the negotiation is: described, merely observed, or neither. */
    method Classify(k: Handle, view: SubmitView) returns (prepared: Prepared, id: u64)
      requires k in devices
      modifies this
      ensures (View(), prepared, id) == SubmitOps.Classify(cfg, old(View()), k, view) && k in devices
    {
      hide SubmitOps.ProtocolBefore, SubmitOps.PrepareFallback;
      if view.built {
        prepared, id := ProtocolBefore(k, view);
      } else if devices[k].stage == Detect {
        return PLegacy, 0;
      } else if Specialized(devices[k]) {
        prepared, id := PrepareFallback(k);
      } else {
        prepared, id := Block(k);
      }
    }

    /**
     * FlimeGuestBeforeQueueSubmit and FlimeGuestBeforeQueueSubmit2, which differ only in how they
     * describe the submit, from the moment their wait is over.  A device nobody held is afterwards
     * held exactly if the token will release it, and in the token's mode.
     */
    method BeforeQueueSubmit(queue: Handle, view: SubmitView) returns (gate: Gate, token: Token)
      modifies this
      ensures (View(), gate, token) == BeforeSubmit(cfg, old(View()), queue, view)
      ensures var owner := Owner(old(queueDevices), old(devices), queue);
              owner.Some? && Held(old(devices)[owner.value]) && !old(devices)[owner.value].active ==>
                && owner.value in devices && token.device == owner.value && token.valid
                && Holds(token, devices[owner.value]) && GateFits(gate, token, devices[owner.value])
    {
      hide AdoptQueue, EnsureNegotiated, SubmitOps.Classify, Held, Specialized;
      ReservesHere(View(), queue, view);
      token := NO_TOKEN.(queue := queue);
      if queue !in queueDevices || queueDevices[queue] !in devices { return LegacyGate, token; }
      var k := queueDevices[queue];
      token := token.(device := k, valid := true);
      var ok := Adopt(k, queue);
      if !ok { return BlockedGate, token; }
      ok := EnsureNegotiatedNow(k, view.refused);
      if !ok { return if devices[k].stage == Legacy then LegacyGate else BlockedGate, token; }
      var prepared, id := Classify(k, view);
      match prepared
      case PReady => return ReadyGate, token.(id := id, specialized := true);
      case PFallback => return LegacyGate, token.(id := id, fallback := true);
      case PLegacy => return LegacyGate, token.(id := id);
      case PBlocked => return BlockedGate, token.(id := id);
    }

    lemma ReservesHere(w: World, queue: Handle, view: SubmitView)
      ensures var owner := Owner(w.core.queueDevices, w.core.devices, queue);
              owner.Some? && Held(w.core.devices[owner.value]) && !w.core.devices[owner.value].active ==>
                var (w', gate, token) := BeforeSubmit(cfg, w, queue, view);
                && owner.value in w'.core.devices && token.device == owner.value && token.valid
                && Holds(token, w'.core.devices[owner.value]) && GateFits(gate, token, w'.core.devices[owner.value])
    {
      hide BeforeSubmit, Held, Holds, GateFits, KeepsOrder, TameDevice;
      var owner := Owner(w.core.queueDevices, w.core.devices, queue);
      if owner.Some? && Held(w.core.devices[owner.value]) && !w.core.devices[owner.value].active {
        BeforeSubmitReserves(cfg, w, queue, view, owner.value);
      }
    }

    method Adopt(k: Handle, queue: Handle) returns (ok: bool)
      requires k in devices
      modifies this
      ensures (View(), ok) == AdoptQueue(cfg, old(View()), k, queue) && k in devices
    {
      hide DrainEarly;
      if devices[k].queue == queue { return true; }
      DrainedIn(View(), k);
      if devices[k].queue != 0 {
        ok := DrainEarlyRoute(k);
        if !ok { return; }
      }
      devices := devices[k := devices[k].(queue := queue)];
      return true;
    }

    method EnsureNegotiatedNow(k: Handle, refused: bool) returns (ok: bool)
      requires k in devices
      modifies this
      ensures (View(), ok) == EnsureNegotiated(cfg, old(View()), k, refused) && k in devices
    {
      hide RegistryOps.Negotiate;
      NegotiatedIn(View(), k, refused);
      if devices[k].failed { return false; }
      if devices[k].negotiated { return true; }
      if devices[k].stage == Legacy { return false; }
      ok := Negotiate(k, refused);
    }

    lemma NegotiatedIn(w: World, k: Handle, refused: bool)
      requires k in w.core.devices
      ensures k in RegistryOps.Negotiate(cfg, w, k, refused).0.core.devices
    {
    }

    /** FailActiveSubmitLocked. */
    method FailActive(k: Handle)
      requires k in devices
      modifies this`devices
      ensures View() == SubmitOps.FailActive(old(View()), k)
    {
      Fail(k);
      ClearActive(k);
    }

    /** FallbackActiveRecoveryToLegacyLocked, or failure when the drain does not go through. */
    method AbandonRecovery(k: Handle)
      requires k in devices
      modifies this
      ensures View() == SubmitOps.AbandonRecovery(cfg, old(View()), k)
    {
      hide GuestState.Fallback;
      devices := devices[k := devices[k].(active := false)];
      var id := Fallback(k);
      if id == None { FailActive(k); }
    }

    /** ProtocolAfterSubmitLocked. */
    method ProtocolAfter(k: Handle, id: u64, ok: bool, view: AfterView)
      requires k in devices
      modifies this
      ensures View() == SubmitOps.ProtocolAfter(cfg, old(View()), k, id, ok, view)
    {
      hide DrainThenFlime, SubmitOps.AbandonRecovery;
      var d := devices[k];
      if !d.active || id == 0 || id != d.token || !ok {
        FailActive(k);
      } else if d.recovering && !view.checkpoint {
        AbandonRecovery(k);
      } else if d.recovering {
        AfterRecovery(k, view);
      } else {
        AfterPeriod(k, view);
      }
    }

    /** The end of a recovery period: its report, and back to Detect. */
    method AfterRecovery(k: Handle, view: AfterView)
      requires k in devices
      modifies this
      ensures var d := old(devices)[k];
              var (io, sent) := DrainThenFlime(cfg.net, old(View().io), d.fd, k, Report);
              var reported := old(View()).(io := io);
              View() ==
                if sent != Refused && view.withdrawn then SubmitOps.FailActive(WithDevice(reported, k, LegacyDevice(d)), k)
                else if sent != Acked then SubmitOps.AbandonRecovery(cfg, reported, k)
                else WithDevice(reported, k, Inactive(d).(stage := Detect, early := false, earlyCommand := 0, earlyId := 0))
    {
      hide DrainThenFlime, SubmitOps.AbandonRecovery;
      var outcome := SendControl(devices[k].fd, k, Report);
      if outcome != Refused && view.withdrawn {
        EnterLegacy(k);
        FailActive(k);
      } else if outcome != Acked {
        AbandonRecovery(k);
      } else {
        ClearActive(k);
        devices := devices[k := devices[k].(stage := Detect, early := false, earlyCommand := 0, earlyId := 0)];
      }
    }

    /** The end of an ordinary period: its two reports, and on to the next stage. */
    method AfterPeriod(k: Handle, view: AfterView)
      requires k in devices
      modifies this
      ensures var d := old(devices)[k];
              var (io, sent) := DrainThenFlime(cfg.net, old(View().io), d.fd, k, Report);
              var (io', sent') := DrainThenFlime(cfg.net, io, d.fd, k, Report);
              var once, twice := old(View()).(io := io), old(View()).(io := io');
              View() ==
                if sent != Refused && view.withdrawn then SubmitOps.FailActive(WithDevice(once, k, LegacyDevice(d)), k)
                else if sent != Acked then SubmitOps.FailActive(once, k)
                else if sent' != Refused && view.disowned
                then SubmitOps.FailActive(WithDevice(twice, k, LegacyDevice(d)), k)
                else if sent' != Acked then SubmitOps.FailActive(twice, k)
                else WithDevice(twice, k, Inactive(d).(stage := view.next, failed := d.failed || !view.retired))
    {
      hide DrainThenFlime;
      var reported := ReportPeriod(k, view.withdrawn);
      if !reported { return; }
      reported := ReportPeriod(k, view.disowned);
      if !reported { return; }
      ClearActive(k);
      devices := devices[k := devices[k].(stage := view.next, failed := devices[k].failed || !view.retired)];
    }

    /** One report; the submission in progress fails with it. */
    method ReportPeriod(k: Handle, withdrawn: bool) returns (reported: bool)
      requires k in devices
      modifies this
      ensures var d := old(devices)[k];
              var (io, sent) := DrainThenFlime(cfg.net, old(View().io), d.fd, k, Report);
              var w := old(View()).(io := io);
              && reported == (sent == Acked && !withdrawn)
              && k in devices
              && View() == if sent != Refused && withdrawn then SubmitOps.FailActive(WithDevice(w, k, LegacyDevice(d)), k)
                           else if sent != Acked then SubmitOps.FailActive(w, k) else w
    {
      hide DrainThenFlime;
      var outcome := SendControl(devices[k].fd, k, Report);
      if outcome != Refused && withdrawn { EnterLegacy(k); }
      reported := outcome == Acked && !withdrawn;
      if !reported { FailActive(k); }
    }

    /**
     * FlimeGuestAfterQueueSubmit; it notifies the waiting threads exactly if its token releases
     * something, and nobody holds the device any more that the token held.
     */
    method AfterQueueSubmit(token: Token, ok: bool, view: AfterView) returns (notified: bool)
      modifies this
      ensures View() == AfterSubmit(cfg, old(View()), token, ok, view)
      ensures notified == Releases(token)
      ensures notified && token.device in old(devices) && Holds(token, old(devices)[token.device]) ==>
                token.device in devices && !devices[token.device].active
    {
      hide SubmitOps.ProtocolAfter;
      FreesHere(View(), token, ok, view);
      if !token.valid || (!token.specialized && !token.fallback) { return false; }
      if token.device in devices {
        if token.fallback {
          AfterFallback(token.device, token.id, ok);
        } else {
          ProtocolAfter(token.device, token.id, ok, view);
        }
      }
      return true;
    }

    /** The completion of a submission that went out under the number of a drain. */
    method AfterFallback(k: Handle, id: u64, ok: bool)
      requires k in devices
      modifies this`devices
      ensures var d := old(devices)[k];
              View() == if d.active && d.token == id
                        then WithDevice(old(View()), k, Inactive(d).(failed := d.failed || !ok)) else old(View())
    {
      if !devices[k].active || devices[k].token != id { return; }
      if !ok { Fail(k); }
      ClearActive(k);
      assert devices == old(devices)[k := devices[k]];
    }

    lemma FreesHere(w: World, token: Token, ok: bool, view: AfterView)
      ensures Releases(token) && token.device in w.core.devices && Holds(token, w.core.devices[token.device]) ==>
                var core := AfterSubmit(cfg, w, token, ok, view).core;
                token.device in core.devices && !core.devices[token.device].active
    {
      hide AfterSubmit, Holds, Held, KeepsOrder, TameDevice;
      if Releases(token) && token.device in w.core.devices && Holds(token, w.core.devices[token.device]) {
        AfterSubmitFrees(cfg, w, token, ok, view);
      }
    }

    /** FlimeGuestBeforeDescriptorLifecycle, once no submission is active. */
    method BeforeDescriptorLifecycle(k: Handle)
      modifies this
      ensures View() == BeginLifecycle(cfg, old(View()), k)
    {
      hide DrainEarly;
      if k !in devices { return; }
      DrainedIn(View(), k);
      var _ := DrainEarlyRoute(k);
      devices := devices[k := devices[k].(lifecycle := devices[k].lifecycle + 1)];
    }

    /** FlimeGuestAfterDescriptorLifecycle; it always notifies. */
    method AfterDescriptorLifecycle(k: Handle, ok: bool)
      modifies this
      ensures View() == EndLifecycle(old(View()), k, ok)
    {
      if k !in devices { return; }
      var failed := devices[k].failed || !ok;
      var lifecycle := devices[k].lifecycle;
      if lifecycle != 0 { lifecycle := lifecycle - 1; }
      devices := devices[k := devices[k].(failed := failed, lifecycle := lifecycle)];
    }

    /** FlimeGuestPrepareDescriptorRetirement. */
    method PrepareDescriptorRetirement(k: Handle, live: bool) returns (ok: bool)
      modifies this
      ensures (View(), ok) == PrepareRetirement(cfg, old(View()), k, live)
    {
      hide GuestState.FallbackOrFail;
      if k !in devices || !Specialized(devices[k]) || (!devices[k].early && !live) { return true; }
      if devices[k].failed { return false; }
      ok := FallbackOrFail(k);
    }

    // ------------------------------------------------------------------------ runs

    method DoCall(e: CallEvent)
      modifies this
      ensures View() == PerformCall(cfg, old(View()), e)
    {
      hide CommandOps.Write, CommandOps.WriteCommand, Wire.Flush, RecordHook, DispatchHook, FailNamed;
      match e
      case WriteCall(tid, fd, call, sync, route, order) => var _ := Write(tid, fd, call, sync, route, order);
      case WriteRecorded(fd, call, sync, command) => var _ := WriteCommand(fd, call, sync, command);
      case FlushTransport => var _ := FlushTransport();
      case HookRecord(tid, command, semantic, complete) => var _ := RecordCommandCall(tid, command, semantic, complete);
      case HookDispatch(tid, command, semantic, boundary) => CmdDispatch(tid, command, semantic, boundary);
      case HookBadBind(tid, command, funId) => FailNamedWrite(tid, OwnerOf(View().core, command), funId);
    }

    method DoRegistry(e: RegistryEvent)
      modifies this
      ensures View() == PerformRegistry(cfg, old(View()), e)
    {
      hide RegistryOps.RegisterDevice, RegistryOps.DestroyDevice, RegistryOps.RegisterQueue, RegisterCommands,
           FreeCommands, DestroyPool, ResetPool, RenewCommand, EndCommand;
      match e
      case AddDevice(k, fd, page, refused) => RegisterDevice(fd, k, page, refused);
      case DropDevice(k) => DestroyDevice(k);
      case AddQueue(k, queue) => RegisterQueue(k, queue);
      case AddCommands(k, pool, batch) => RegisterCommandBuffers(k, pool, batch);
      case DropCommands(k, pool, batch) => FreeCommandBuffers(k, pool, batch);
      case DropPool(k, pool) => DestroyCommandPool(k, pool);
      case ClearPool(k, pool) => ResetCommandPool(k, pool);
      case Renew(c, recording) => if recording { BeginCommandBuffer(c); } else { ResetCommandBuffer(c); }
      case End(c, route) => EndCommandBuffer(c, route);
    }

    method DoGate(e: GateEvent)
      modifies this
      ensures View() == PerformGate(cfg, old(View()), e)
    {
      hide BeforeSubmit, AfterSubmit, BeginLifecycle, EndLifecycle, PrepareRetirement, BeforeDestroy;
      match e
      case Submit(queue, view) => var _, _ := BeforeQueueSubmit(queue, view);
      case Complete(token, ok, view) => var _ := AfterQueueSubmit(token, ok, view);
      case Reserve(k) => BeforeDescriptorLifecycle(k);
      case Release(k, ok) => AfterDescriptorLifecycle(k, ok);
      case Retire(k, live) => var _ := PrepareDescriptorRetirement(k, live);
      case TearDown(k) => var _ := BeforeDestroyDevice(k);
    }

    /** Any sequence of critical sections leaves the transport in the state of that run, and safe. */
    method DoAll(events: seq<Event>)
      requires Good(View())
      modifies this
      ensures View() == Run(cfg, old(View()), events, |events|)
      ensures Good(View())
    {
      hide Good, PerformCall, PerformRegistry, PerformGate, WaitOver;
      ghost var start := View();
      for i := 0 to |events|
        invariant View() == Run(cfg, start, events, i)
      {
        match events[i]
        case OfCall(c) => DoCall(c);
        case OfRegistry(r) => DoRegistry(r);
        case OfGate(g) => if WaitOver(View().core, g) { DoGate(g); }
      }
      RunGood(cfg, start, events, |events|);
    }
  }
}
