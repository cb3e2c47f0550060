/**
 * The physical side of the transport: the cluster, what has been put on the wire, and the
 * primitive requests every guest operation is made of.
 */
module Wire {
  import opened GuestTypes
  import opened ClusterCodec
  import opened ClusterProofs

  /** FLIME's own requests, which bypass the ordinary write wrapper. */
  datatype FlimeKind =
    | Capabilities | Interval | PeriodBegin | Route | Report | Teardown | FallbackFlush

  /** One physical request as the host received it. */
  datatype Packet =
    | Envelope(fd: int, words: seq<nat>, payload: seq<byte>, acked: bool)
    | Single(fd: int, call: HostCall)
    | Flime(fd: int, device: Handle, kind: FlimeKind)

  /** One request as an unbatched transport would issue it. */
  datatype Entry = Ran(fd: int, call: HostCall) | Controlled(fd: int, device: Handle, kind: FlimeKind)

  /**
   * wire lists what reached the host.  log lists, in lock order, every call the transport took
   * responsibility for and every FLIME request that reached the host.
   */
  datatype Io = Io(cluster: Cluster, wire: seq<Packet>, log: seq<Entry>, rpcs: nat)

  const INITIAL_IO := Io(EMPTY_CLUSTER, [], [], 0)

  // ------------------------------------------------------- primitive requests

  /** FlushAnyClusterLocked.  A cluster whose flush was not acknowledged is kept. */
  function Flush(net: Net, io: Io): (Io, bool) {
    var c := io.cluster;
    if Empty(c) then (io, true)
    else if c.fd < 0 || c.words == [] || |c.payload| <= 1 then (io, false)
    else
      var o := net(io.rpcs);
      var wire := if Delivered(o) then io.wire + [Envelope(c.fd, c.words, c.payload, o.Acked?)] else io.wire;
      (Io(if o.Acked? then EMPTY_CLUSTER else c, wire, io.log, io.rpcs + 1), o.Acked?)
  }

  /** ParamManager::write and writeFrozen. */
  function SendSingle(net: Net, io: Io, fd: int, call: Call): (Io, bool) {
    var o := net(io.rpcs);
    if Delivered(o)
    then (io.(wire := io.wire + [Single(fd, Received(call))],
              log := io.log + [Ran(fd, Received(call))],
              rpcs := io.rpcs + 1), o.Acked?)
    else (io.(rpcs := io.rpcs + 1), false)
  }

  function SendFlime(net: Net, io: Io, fd: int, device: Handle, kind: FlimeKind): (Io, Outcome) {
    var o := net(io.rpcs);
    if Delivered(o)
    then (io.(wire := io.wire + [Flime(fd, device, kind)],
              log := io.log + [Controlled(fd, device, kind)],
              rpcs := io.rpcs + 1), o)
    else (io.(rpcs := io.rpcs + 1), o)
  }

  /** A control, route or fallback request: the cluster is drained first. */
  function DrainThenFlime(net: Net, io: Io, fd: int, device: Handle, kind: FlimeKind): (Io, Outcome) {
    var (drained, ok) := Flush(net, io);
    if ok then SendFlime(net, drained, fd, device, kind) else (drained, Refused)
  }

  function DrainThenSingle(net: Net, io: Io, fd: int, call: Call): (Io, bool) {
    var (drained, ok) := Flush(net, io);
    if ok then SendSingle(net, drained, fd, call) else (drained, false)
  }

  /** The integrity check the live cluster must pass before a call joins it. */
  predicate ClusterSane(c: Cluster) {
    if Empty(c) then c == EMPTY_CLUSTER
    else
      && c.fd >= 0 && c.callCount <= MAX_CALLS
      && c.words != [] && 8 * |c.words| <= MAX_CALL_BYTES
      && 1 < |c.payload| <= MAX_PAYLOAD_BYTES && c.payload[0] == 0
  }

  /** AppendOwnedClusterLocked. */
  function AppendOwned(net: Net, io: Io, fd: int, call: Call): (Io, bool) {
    match Dispose(call)
    case Reject => (io, false)
    case SendDirect => DrainThenSingle(net, io, fd, call)
    case Batch =>
      if !ClusterSane(io.cluster) then (io, false)
      else
        var (drained, ok) := if MustDrainFirst(io.cluster, fd, call) then Flush(net, io) else (io, true);
        if !ok then (drained, false)
        else (drained.(cluster := Extend(drained.cluster, fd, call),
                       log := drained.log + [Ran(fd, Received(call))]), true)
  }

  // ------------------------------------------------------------ what was seen

  function Entries(fd: int, calls: seq<HostCall>): seq<Entry> {
    seq(|calls|, i requires 0 <= i < |calls| => Ran(fd, calls[i]))
  }

  /** What one packet makes the host run; retries says whether unacknowledged envelopes count. */
  function Effect(p: Packet, retries: bool): seq<Entry> {
    match p
    case Envelope(fd, words, payload, acked) =>
      if acked || retries then Entries(fd, Decode(words, 0, payload)) else []
    case Single(fd, call) => [Ran(fd, call)]
    case Flime(fd, device, kind) => [Controlled(fd, device, kind)]
  }

  /** What the first n packets make the host run. */
  function SeenUpTo(wire: seq<Packet>, n: nat, retries: bool): seq<Entry>
    requires n <= |wire|
  {
    if n == 0 then [] else SeenUpTo(wire, n - 1, retries) + Effect(wire[n - 1], retries)
  }

  /** Everything the host ran, replays of unacknowledged envelopes included. */
  function HostRan(wire: seq<Packet>): seq<Entry> { SeenUpTo(wire, |wire|, true) }

  /** The same with every unacknowledged envelope left out. */
  function HostRanOnce(wire: seq<Packet>): seq<Entry> { SeenUpTo(wire, |wire|, false) }

  function PendingEntries(c: Cluster): seq<Entry> { Entries(c.fd, Pending(c)) }

  predicate OnlyClusterable(calls: seq<HostCall>) {
    forall h <- calls :: Clusterable(FunOf(h.id))
  }

  predicate PacketOk(p: Packet) {
    p.Envelope? ==>
      && HostAccepts(p.words, p.payload)
      && Decode(p.words, 0, p.payload) != []
      && OnlyClusterable(Decode(p.words, 0, p.payload))
  }

  predicate WireOk(wire: seq<Packet>) { forall p <- wire :: PacketOk(p) }

  /**
   * The ordering law: what the host ran, unacknowledged envelopes aside, followed by what is
   * still pending, is the log.  Together with it: every envelope ever sent passes the host
   * preflight, and nothing but clusterable commands is ever batched.
   */
  predicate IoOk(io: Io) {
    && ClusterOk(io.cluster)
    && OnlyClusterable(Pending(io.cluster))
    && WireOk(io.wire)
    && HostRanOnce(io.wire) + PendingEntries(io.cluster) == io.log
  }

  predicate IsTeardown(e: Entry) { e.Controlled? && e.kind == Teardown }

  /** The log only grew, and not by a teardown. */
  predicate Calm(log: seq<Entry>, log': seq<Entry>) {
    log <= log' && forall i | |log| <= i < |log'| :: !IsTeardown(log'[i])
  }

  // ------------------------------------------------------------------- proofs

  lemma CalmThen(a: seq<Entry>, b: seq<Entry>, c: seq<Entry>)
    requires Calm(a, b) && Calm(b, c)
    ensures Calm(a, c)
  {
    assert forall i | |a| <= i < |b| :: c[i] == b[i];
  }

  /** No primitive request but a teardown itself puts a teardown on the log. */
  lemma RequestsCalm(net: Net, io: Io, fd: int, call: Call, device: Handle, kind: FlimeKind)
    requires kind != Teardown
    ensures Calm(io.log, Flush(net, io).0.log)
    ensures Calm(io.log, DrainThenSingle(net, io, fd, call).0.log)
    ensures Calm(io.log, DrainThenFlime(net, io, fd, device, kind).0.log)
  {
  }

  lemma AppendCalm(net: Net, io: Io, fd: int, call: Call)
    ensures Calm(io.log, AppendOwned(net, io, fd, call).0.log)
  {
    hide Dispose, ClusterSane, MustDrainFirst, Extend;
    RequestsCalm(net, io, fd, call, 0, Route);
  }

  lemma {:induction false} SeenKept(wire: seq<Packet>, p: Packet, n: nat, retries: bool)
    requires n <= |wire|
    ensures SeenUpTo(wire + [p], n, retries) == SeenUpTo(wire, n, retries)
  {
    if n > 0 { SeenKept(wire, p, n - 1, retries); }
  }

  lemma SeenNext(wire: seq<Packet>, p: Packet, retries: bool)
    ensures SeenUpTo(wire + [p], |wire| + 1, retries) == SeenUpTo(wire, |wire|, retries) + Effect(p, retries)
  {
    SeenKept(wire, p, |wire|, retries);
  }

  lemma InitialOk()
    ensures IoOk(INITIAL_IO)
  {
  }

  lemma WireGrows(wire: seq<Packet>, p: Packet)
    requires WireOk(wire) && PacketOk(p)
    ensures WireOk(wire + [p])
    ensures HostRanOnce(wire + [p]) == HostRanOnce(wire) + Effect(p, false)
  {
    SeenNext(wire, p, false);
    forall q | q in wire + [p] ensures PacketOk(q) { assert q in wire || q == p; }
  }

  lemma EnvelopeOk(c: Cluster, acked: bool)
    requires ClusterOk(c) && !Empty(c) && OnlyClusterable(Pending(c))
    ensures PacketOk(Envelope(c.fd, c.words, c.payload, acked))
  {
    EnvelopeAccepted(c);
  }

  /** A flush that succeeds empties the cluster; one that fails leaves it as it was. */
  lemma FlushKeeps(net: Net, io: Io)
    requires IoOk(io)
    ensures var (io', ok) := Flush(net, io);
            && IoOk(io')
            && io'.log == io.log
            && (ok ==> Empty(io'.cluster))
            && (!ok ==> io'.cluster == io.cluster)
  {
    var c, o := io.cluster, net(io.rpcs);
    if !Empty(c) {
      EnvelopeOk(c, o.Acked?);
      WireGrows(io.wire, Envelope(c.fd, c.words, c.payload, o.Acked?));
      InitialOk();
      assert PendingEntries(EMPTY_CLUSTER) == [];
    }
  }

  /** A call of its own keeps the law only because the cluster is empty when it is sent. */
  lemma SendSingleKeeps(net: Net, io: Io, fd: int, call: Call)
    requires IoOk(io) && Empty(io.cluster)
    ensures IoOk(SendSingle(net, io, fd, call).0)
    ensures SendSingle(net, io, fd, call).1 ==>
              SendSingle(net, io, fd, call).0.log == io.log + [Ran(fd, Received(call))]
    ensures Empty(SendSingle(net, io, fd, call).0.cluster)
  {
    WireGrows(io.wire, Single(fd, Received(call)));
  }

  lemma SendFlimeKeeps(net: Net, io: Io, fd: int, device: Handle, kind: FlimeKind)
    requires IoOk(io) && Empty(io.cluster)
    ensures IoOk(SendFlime(net, io, fd, device, kind).0)
    ensures Empty(SendFlime(net, io, fd, device, kind).0.cluster)
  {
    WireGrows(io.wire, Flime(fd, device, kind));
  }

  lemma DrainThenFlimeKeeps(net: Net, io: Io, fd: int, device: Handle, kind: FlimeKind)
    requires IoOk(io)
    ensures IoOk(DrainThenFlime(net, io, fd, device, kind).0)
    ensures DrainThenFlime(net, io, fd, device, kind).1.Acked? ==>
              Empty(DrainThenFlime(net, io, fd, device, kind).0.cluster)
  {
    FlushKeeps(net, io);
    var (drained, ok) := Flush(net, io);
    if ok { SendFlimeKeeps(net, drained, fd, device, kind); }
  }

  lemma DrainThenSingleKeeps(net: Net, io: Io, fd: int, call: Call)
    requires IoOk(io)
    ensures var (io', ok) := DrainThenSingle(net, io, fd, call);
            && IoOk(io')
            && (ok ==> Empty(io'.cluster) && io'.log == io.log + [Ran(fd, Received(call))])
  {
    FlushKeeps(net, io);
    var (drained, ok) := Flush(net, io);
    if ok { SendSingleKeeps(net, drained, fd, call); }
  }

  /** Extending the cluster adds the call at the end of everything seen or pending. */
  lemma ExtendKeeps(io: Io, fd: int, call: Call)
    requires IoOk(io) && Dispose(call) == Batch && Clusterable(call.funId)
    requires !MustDrainFirst(io.cluster, fd, call)
    ensures IoOk(io.(cluster := Extend(io.cluster, fd, call), log := io.log + [Ran(fd, Received(call))]))
  {
    var c, e := io.cluster, Extend(io.cluster, fd, call);
    ExtendAppends(c, fd, call);
    IdFields(call);
    assert PendingEntries(e) == PendingEntries(c) + [Ran(fd, Received(call))];
    Assoc(HostRanOnce(io.wire), PendingEntries(c), [Ran(fd, Received(call))]);
  }

  lemma AppendKeeps(net: Net, io: Io, fd: int, call: Call)
    requires IoOk(io) && Clusterable(call.funId)
    ensures var (io', ok) := AppendOwned(net, io, fd, call);
            IoOk(io') && (ok ==> io'.log == io.log + [Ran(fd, Received(call))])
  {
    match Dispose(call)
    case Reject =>
    case SendDirect => DrainThenSingleKeeps(net, io, fd, call);
    case Batch =>
      if ClusterSane(io.cluster) {
        FlushKeeps(net, io);
        DrainedMakesRoom(fd, call);
        var (drained, ok) := if MustDrainFirst(io.cluster, fd, call) then Flush(net, io) else (io, true);
        if ok { ExtendKeeps(drained, fd, call); }
      }
  }

  /** With nothing pending, what the host ran is the log. */
  lemma AllSeen(io: Io)
    requires IoOk(io) && Empty(io.cluster)
    ensures HostRanOnce(io.wire) == io.log
  {
    InitialOk();
    assert PendingEntries(io.cluster) == [];
  }

  // ------------------------------------------------ replays of unacknowledged envelopes

  predicate AllAcked(wire: seq<Packet>, n: nat)
    requires n <= |wire|
  {
    forall i: nat | i < n :: wire[i].Envelope? ==> wire[i].acked
  }

  lemma EffectOf(p: Packet)
    requires PacketOk(p)
    ensures p.Envelope? && !p.acked ==> Effect(p, false) == [] && |Effect(p, true)| > 0
    ensures !p.Envelope? || p.acked ==> Effect(p, true) == Effect(p, false)
  {
    hide HostAccepts, OnlyClusterable;
  }

  /** Counting replays lengthens the history exactly when some envelope was not acknowledged. */
  lemma {:induction false} ReplayLength(wire: seq<Packet>, n: nat)
    requires n <= |wire| && WireOk(wire)
    ensures |SeenUpTo(wire, n, true)| >= |SeenUpTo(wire, n, false)|
    ensures AllAcked(wire, n) ==> SeenUpTo(wire, n, true) == SeenUpTo(wire, n, false)
    ensures !AllAcked(wire, n) ==> |SeenUpTo(wire, n, true)| > |SeenUpTo(wire, n, false)|
  {
    hide PacketOk, Effect;
    if n > 0 {
      ReplayLength(wire, n - 1);
      EffectOf(wire[n - 1]);
      assert wire[n - 1] in wire;
    }
  }

  /**
   * The host ran the log and nothing else, pending calls aside, if and only if every envelope
   * that reached it was acknowledged.
   */
  lemma ExactIffAcknowledged(io: Io)
    requires IoOk(io)
    ensures HostRan(io.wire) + PendingEntries(io.cluster) == io.log <==> AllAcked(io.wire, |io.wire|)
  {
    ReplayLength(io.wire, |io.wire|);
    if !AllAcked(io.wire, |io.wire|) {
      assert |HostRan(io.wire) + PendingEntries(io.cluster)| > |io.log|;
    }
  }
}
