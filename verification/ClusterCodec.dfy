/**
 * The clustered-call envelope: how the guest packs several frozen calls into one call
 * stream and one payload buffer, and how the host checks and unpacks them.
 *
 * The call stream is modelled by its 64-bit words: call id, parameter count, then one
 * (length, payload offset) pair a parameter.  Offset zero means a null pointer, which is
 * why byte 0 of the payload is reserved.
 */
module ClusterCodec {
  import opened GuestTypes

  const MAX_PARAMETERS := 32
  const MAX_CALLS := 64
  const MAX_CALL_BYTES := 64 * 1024
  const MAX_PAYLOAD_BYTES := 1024 * 1024

  /** The limits of the host envelope, before it knows who built it. */
  const HOST_MAX_BYTES := 1024 * 1024

  const FUN_CLUSTER := 9999
  const FUN_REGISTER_MAPPED_MEMORY := 1902
  const FUN_FLIME_CONTROL := 1906
  const FUN_FLIME_ROUTE := 1907

  // ---------------------------------------------------------------- guest side

  datatype Cluster = Cluster(fd: int, callCount: nat, words: seq<nat>, payload: seq<byte>)

  const EMPTY_CLUSTER := Cluster(-1, 0, [], [0])

  predicate Empty(c: Cluster) { c.callCount == 0 }

  function ParamBytes(p: Param): seq<byte> {
    match p case Null(_) => [] case Data(bytes) => bytes
  }

  /** The bytes the first n parameters contribute, in order. */
  function BytesUpTo(params: seq<Param>, n: nat): seq<byte>
    requires n <= |params|
  {
    if n == 0 then [] else BytesUpTo(params, n - 1) + ParamBytes(params[n - 1])
  }

  function PayloadOf(params: seq<Param>): seq<byte> { BytesUpTo(params, |params|) }

  function ParamWords(p: Param, base: nat): seq<nat> {
    match p case Null(nominal) => [nominal, 0] case Data(bytes) => [|bytes|, base]
  }

  /** The pairs written for the first n parameters when the list's bytes start at base. */
  function WordsUpTo(params: seq<Param>, n: nat, base: nat): (w: seq<nat>)
    requires n <= |params|
    ensures |w| == 2 * n
  {
    if n == 0 then []
    else WordsUpTo(params, n - 1, base) + ParamWords(params[n - 1], base + |BytesUpTo(params, n - 1)|)
  }

  function ParamsWords(params: seq<Param>, base: nat): seq<nat> {
    WordsUpTo(params, |params|, base)
  }

  function CallBytes(call: Call): nat { 16 + 16 * |call.params| }

  datatype Disposition = Reject | SendDirect | Batch

  /** The id fields of a clusterable call: the GPU device and a 24-bit function number. */
  predicate WellAddressed(call: Call) {
    call.deviceId == GPU_DEVICE_ID && call.funId < 0x100_0000
  }

  predicate ParamSizesOk(params: seq<Param>) {
    forall p <- params :: match p
      case Null(nominal) => nominal <= INT_MAX
      case Data(bytes) => 0 < |bytes| <= INT_MAX
  }

  /** A null pointer with a non-zero nominal length cannot be told apart on the host. */
  predicate AmbiguousNull(params: seq<Param>) {
    exists p <- params :: p.Null? && p.nominal != 0
  }

  /** The checks AppendOwnedClusterLocked makes on the call alone. */
  function Dispose(call: Call): Disposition {
    if !call.framed || !WellAddressed(call) then Reject
    else if |call.params| > MAX_PARAMETERS then SendDirect
    else if !ParamSizesOk(call.params) then Reject
    else if AmbiguousNull(call.params) || |PayloadOf(call.params)| > MAX_PAYLOAD_BYTES - 1 then SendDirect
    else Batch
  }

  /** Keeps the payload longer than its reserved byte even when the call carries none. */
  function Padding(c: Cluster, call: Call): seq<byte> {
    if PayloadOf(call.params) == [] && |c.payload| == 1 then [0] else []
  }

  predicate Fits(c: Cluster, call: Call) {
    && 8 * |c.words| <= MAX_CALL_BYTES - CallBytes(call)
    && |c.payload| <= MAX_PAYLOAD_BYTES - |PayloadOf(call.params)| - |Padding(c, call)|
  }

  /** Whether a non-empty cluster must be drained before this call can join it. */
  predicate MustDrainFirst(c: Cluster, fd: int, call: Call) {
    !Empty(c) && (c.fd != fd || c.callCount >= MAX_CALLS || !Fits(c, call))
  }

  function Extend(c: Cluster, fd: int, call: Call): Cluster {
    Cluster(if Empty(c) then fd else c.fd,
            c.callCount + 1,
            c.words + [CallId(call), |call.params|] + ParamsWords(call.params, |c.payload|),
            c.payload + Padding(c, call) + PayloadOf(call.params))
  }

  // ----------------------------------------------------------------- host side

  function FunOf(id: nat): nat { id % 0x100_0000 }

  /** The index just past the record that starts at index at. */
  function Next(words: seq<nat>, at: nat): nat
    requires at + 2 <= |words|
  {
    at + 2 + 2 * words[at + 1]
  }

  predicate PairOk(length: nat, offset: nat, saveBytes: nat) {
    offset != 0 ==> length <= INT_MAX && offset <= saveBytes && length <= saveBytes - offset
  }

  predicate PairCanonical(length: nat, offset: nat) { (length == 0) == (offset == 0) }

  /** A complete record, addressed to the GPU, with every parameter inside the save buffer. */
  predicate RecordOk(words: seq<nat>, at: nat, saveBytes: nat) {
    && at + 2 <= |words|
    && words[at] / 0x1_0000_0000 == GPU_DEVICE_ID
    && (words[at] / 0x100_0000) % 256 == 0
    && words[at + 1] <= MAX_PARAMETERS
    && Next(words, at) <= |words|
    && forall i: nat | i < words[at + 1] ::
         PairOk(words[at + 2 + 2 * i], words[at + 3 + 2 * i], saveBytes)
  }

  predicate RecordCanonical(words: seq<nat>, at: nat)
    requires at + 2 <= |words| && Next(words, at) <= |words|
  {
    forall i: nat | i < words[at + 1] ::
      PairCanonical(words[at + 2 + 2 * i], words[at + 3 + 2 * i])
  }

  /** Nothing but complete and valid records from index at to the end. */
  predicate StreamOk(words: seq<nat>, at: nat, saveBytes: nat)
    decreases |words| - at
  {
    at == |words| || (RecordOk(words, at, saveBytes) && StreamOk(words, Next(words, at), saveBytes))
  }

  predicate Canonical(words: seq<nat>, at: nat)
    decreases |words| - at
  {
    at + 2 <= |words| && Next(words, at) <= |words| ==>
      RecordCanonical(words, at) && Canonical(words, Next(words, at))
  }

  function DecodeParam(length: nat, offset: nat, save: seq<byte>): Param {
    if offset != 0 && offset + length <= |save| then Data(save[offset..offset + length])
    else Null(if length < 0x1_0000_0000_0000_0000 then length else 0)
  }

  function DecodeRecord(words: seq<nat>, at: nat, save: seq<byte>): HostCall
    requires at + 2 <= |words| && Next(words, at) <= |words|
  {
    HostCall(words[at],
             seq(words[at + 1], i requires 0 <= i < words[at + 1] =>
               DecodeParam(words[at + 2 + 2 * i], words[at + 3 + 2 * i], save)))
  }

  /** The calls the host dispatches from index at on, in order. */
  function Decode(words: seq<nat>, at: nat, save: seq<byte>): seq<HostCall>
    decreases |words| - at
  {
    if at + 2 <= |words| && Next(words, at) <= |words|
    then [DecodeRecord(words, at, save)] + Decode(words, Next(words, at), save)
    else []
  }

  predicate Dispatchable(funId: nat) {
    funId != FUN_CLUSTER && funId != FUN_REGISTER_MAPPED_MEMORY && funId != FUN_FLIME_CONTROL
  }

  /** The host runs both kinds of call in one envelope only if no route shares it with a submit. */
  predicate RouteConflict(calls: seq<HostCall>) {
    (exists h <- calls :: FunOf(h.id) == FUN_FLIME_ROUTE) && exists h <- calls :: IsSubmit(FunOf(h.id))
  }

  predicate IsSubmit(funId: nat) { funId == 1235 || funId == 1236 }

  /** Everything the host preflight demands of an envelope before it runs any inner call. */
  predicate HostAccepts(words: seq<nat>, save: seq<byte>) {
    var calls := Decode(words, 0, save);
    && 8 * |words| <= HOST_MAX_BYTES
    && |save| <= HOST_MAX_BYTES
    && StreamOk(words, 0, |save|)
    && (forall h <- calls :: Dispatchable(FunOf(h.id)))
    && !RouteConflict(calls)
    && ((exists h <- calls :: FunOf(h.id) == FUN_FLIME_ROUTE) ==>
          && 8 * |words| <= MAX_CALL_BYTES
          && |save| <= MAX_PAYLOAD_BYTES
          && |calls| <= MAX_CALLS
          && Canonical(words, 0))
  }
}
