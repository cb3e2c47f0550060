/** Why unpacking an envelope on the host gives back exactly the calls the guest packed. */
module ClusterProofs {
  import opened GuestTypes
  import opened ClusterCodec

  /** The calls waiting in the cluster, as the host would decode them. */
  function Pending(c: Cluster): seq<HostCall> { Decode(c.words, 0, c.payload) }

  /** The state every reachable cluster is in, whatever calls were appended to it. */
  predicate ClusterOk(c: Cluster) {
    && (Empty(c) ==> c == EMPTY_CLUSTER)
    && (!Empty(c) ==>
          && c.callCount <= MAX_CALLS
          && |c.words| > 0
          && 8 * |c.words| <= MAX_CALL_BYTES
          && 1 < |c.payload| <= MAX_PAYLOAD_BYTES
          && c.payload[0] == 0)
    && StreamOk(c.words, 0, |c.payload|)
    && Canonical(c.words, 0)
    && |Pending(c)| == c.callCount
  }

  // ------------------------------------------------------------ one record

  predicate Packable(params: seq<Param>) { ParamSizesOk(params) && !AmbiguousNull(params) }

  /** The bytes stand in the save buffer at the given offset. */
  predicate At(save: seq<byte>, base: nat, bytes: seq<byte>) {
    base + |bytes| <= |save| && forall i: nat | i < |bytes| :: save[base + i] == bytes[i]
  }

  lemma AtTransitive(save: seq<byte>, base: nat, outer: seq<byte>, offset: nat, inner: seq<byte>)
    requires At(save, base, outer) && At(outer, offset, inner)
    ensures At(save, base + offset, inner)
  {
    forall i: nat | i < |inner| ensures save[base + offset + i] == inner[i] {
      assert save[base + (offset + i)] == outer[offset + i];
    }
  }

  lemma AtPrefix(a: seq<byte>, b: seq<byte>, offset: nat, inner: seq<byte>)
    requires At(a, offset, inner)
    ensures At(a + b, offset, inner)
  {
    forall i: nat | i < |inner| ensures (a + b)[offset + i] == inner[i] { assert a[offset + i] == inner[i]; }
  }

  /** The bytes of parameter i stand right after the bytes of the parameters before it. */
  lemma {:induction false} BytesAt(params: seq<Param>, n: nat, i: nat)
    requires i < n <= |params|
    ensures At(BytesUpTo(params, n), |BytesUpTo(params, i)|, ParamBytes(params[i]))
  {
    if i < n - 1 {
      BytesAt(params, n - 1, i);
      AtPrefix(BytesUpTo(params, n - 1), ParamBytes(params[n - 1]),
               |BytesUpTo(params, i)|, ParamBytes(params[i]));
    }
  }

  /** The words written for parameter i: its length, and its payload offset unless it is null. */
  lemma {:induction false} WordsAt(params: seq<Param>, n: nat, base: nat, i: nat)
    requires i < n <= |params|
    ensures WordsUpTo(params, n, base)[2 * i]
         == ParamWords(params[i], base + |BytesUpTo(params, i)|)[0]
    ensures WordsUpTo(params, n, base)[2 * i + 1]
         == ParamWords(params[i], base + |BytesUpTo(params, i)|)[1]
  {
    if i < n - 1 { WordsAt(params, n - 1, base, i); }
  }

  /** The pair written for a parameter is in bounds, canonical, and decodes to the parameter. */
  lemma ParamRoundTrip(params: seq<Param>, base: nat, save: seq<byte>, i: nat)
    requires Packable(params) && base >= 1 && i < |params|
    requires At(save, base, PayloadOf(params))
    ensures var w := ParamsWords(params, base);
            && PairOk(w[2 * i], w[2 * i + 1], |save|)
            && PairCanonical(w[2 * i], w[2 * i + 1])
            && DecodeParam(w[2 * i], w[2 * i + 1], save) == params[i]
  {
    var p, at := params[i], base + |BytesUpTo(params, i)|;
    WordsAt(params, |params|, base, i);
    BytesAt(params, |params|, i);
    AtTransitive(save, base, PayloadOf(params), |BytesUpTo(params, i)|, ParamBytes(p));
    assert p in params;
    PairRoundTrip(p, at, save);
  }

  lemma PairRoundTrip(p: Param, at: nat, save: seq<byte>)
    requires Packable([p]) && at >= 1 && At(save, at, ParamBytes(p))
    ensures var w := ParamWords(p, at);
            PairOk(w[0], w[1], |save|) && PairCanonical(w[0], w[1]) && DecodeParam(w[0], w[1], save) == p
  {
    assert p in [p];
    if p.Data? { assert save[at..at + |p.bytes|] == p.bytes; }
  }

  function Record(call: Call, base: nat): seq<nat>
    requires WellAddressed(call)
  {
    [CallId(call), |call.params|] + ParamsWords(call.params, base)
  }

  lemma IdFields(call: Call)
    requires WellAddressed(call)
    ensures CallId(call) / 0x1_0000_0000 == GPU_DEVICE_ID
    ensures (CallId(call) / 0x100_0000) % 256 == 0
    ensures FunOf(CallId(call)) == call.funId
  {
    assert CallId(call) == 0x1_0000_0000 + call.funId;
    assert CallId(call) / 0x100_0000 == 256;
  }

  lemma RecordIndex(words: seq<nat>, at: nat, call: Call, base: nat)
    requires WellAddressed(call) && at <= |words| && words[at..] == Record(call, base)
    ensures |words| == at + 2 + 2 * |call.params|
    ensures words[at] == CallId(call) && words[at + 1] == |call.params|
    ensures forall i: nat | i < |call.params| ::
              words[at + 2 + 2 * i] == ParamsWords(call.params, base)[2 * i] &&
              words[at + 3 + 2 * i] == ParamsWords(call.params, base)[2 * i + 1]
  {
    var w, r := ParamsWords(call.params, base), words[at..];
    assert words[at] == r[0] && words[at + 1] == r[1];
    forall i: nat | i < |call.params|
      ensures words[at + 2 + 2 * i] == w[2 * i] && words[at + 3 + 2 * i] == w[2 * i + 1]
    {
      assert r[2 + 2 * i] == w[2 * i] && r[3 + 2 * i] == w[2 * i + 1];
    }
  }

  predicate PairGood(words: seq<nat>, at: nat, i: nat, p: Param, save: seq<byte>)
    requires at + 3 + 2 * i < |words|
  {
    var len, off := words[at + 2 + 2 * i], words[at + 3 + 2 * i];
    PairOk(len, off, |save|) && PairCanonical(len, off) && DecodeParam(len, off, save) == p
  }

  lemma PairsGood(words: seq<nat>, at: nat, call: Call, base: nat, save: seq<byte>)
    requires WellAddressed(call) && Packable(call.params)
    requires base >= 1 && At(save, base, PayloadOf(call.params))
    requires at <= |words| && words[at..] == Record(call, base)
    ensures |words| == at + 2 + 2 * |call.params|
    ensures forall i: nat | i < |call.params| :: PairGood(words, at, i, call.params[i], save)
  {
    RecordIndex(words, at, call, base);
    forall i: nat | i < |call.params| ensures PairGood(words, at, i, call.params[i], save) {
      ParamRoundTrip(call.params, base, save, i);
    }
  }

  /** A record packed at index at passes the host checks and decodes to its call. */
  lemma RecordRoundTrip(words: seq<nat>, at: nat, call: Call, base: nat, save: seq<byte>)
    requires Dispose(call) == Batch && base >= 1 && At(save, base, PayloadOf(call.params))
    requires at <= |words| && words[at..] == Record(call, base)
    ensures RecordOk(words, at, |save|) && RecordCanonical(words, at) && Next(words, at) == |words|
    ensures DecodeRecord(words, at, save) == Received(call)
  {
    IdFields(call);
    RecordIndex(words, at, call, base);
    PairsGood(words, at, call, base, save);
    forall i: nat | i < words[at + 1]
      ensures PairOk(words[at + 2 + 2 * i], words[at + 3 + 2 * i], |save|)
      ensures PairCanonical(words[at + 2 + 2 * i], words[at + 3 + 2 * i])
    {
      assert PairGood(words, at, i, call.params[i], save);
    }
    DecodedParams(words, at, call, save);
  }

  lemma DecodedParams(words: seq<nat>, at: nat, call: Call, save: seq<byte>)
    requires WellAddressed(call) && |words| == at + 2 + 2 * |call.params|
    requires words[at] == CallId(call) && words[at + 1] == |call.params|
    requires forall i: nat | i < |call.params| :: PairGood(words, at, i, call.params[i], save)
    ensures DecodeRecord(words, at, save) == Received(call)
  {
    var decoded := DecodeRecord(words, at, save).params;
    forall i: nat | i < |call.params| ensures decoded[i] == call.params[i] {
      assert PairGood(words, at, i, call.params[i], save);
    }
  }

  // -------------------------------------------------------------- whole stream

  /** A valid record means the same in a longer stream over a longer save buffer. */
  lemma RecordKept(words: seq<nat>, words': seq<nat>, at: nat, save: seq<byte>, save': seq<byte>)
    requires words <= words' && save <= save' && RecordOk(words, at, |save|)
    ensures RecordOk(words', at, |save'|) && Next(words', at) == Next(words, at)
    ensures RecordCanonical(words, at) ==> RecordCanonical(words', at)
    ensures DecodeRecord(words', at, save') == DecodeRecord(words, at, save)
  {
    forall i: nat | i < words[at + 1]
      ensures DecodeParam(words[at + 2 + 2 * i], words[at + 3 + 2 * i], save')
           == DecodeParam(words[at + 2 + 2 * i], words[at + 3 + 2 * i], save)
    {
      var len, off := words[at + 2 + 2 * i], words[at + 3 + 2 * i];
      assert PairOk(len, off, |save|);
      if off != 0 { assert save'[off..off + len] == save[off..off + len]; }
    }
  }

  lemma Assoc<T>(a: seq<T>, b: seq<T>, c: seq<T>)
    ensures (a + b) + c == a + (b + c)
  {
  }

  /** Growing a valid stream leaves its calls in front of whatever was added. */
  lemma {:induction false} StreamKept(
      words: seq<nat>, words': seq<nat>, at: nat, save: seq<byte>, save': seq<byte>)
    requires at <= |words| && words <= words' && save <= save'
    requires StreamOk(words, at, |save|) && Canonical(words, at)
    requires StreamOk(words', |words|, |save'|) && Canonical(words', |words|)
    ensures StreamOk(words', at, |save'|) && Canonical(words', at)
    ensures Decode(words', at, save') == Decode(words, at, save) + Decode(words', |words|, save')
    decreases |words| - at
  {
    if at < |words| {
      RecordKept(words, words', at, save, save');
      var next := Next(words, at);
      StreamKept(words, words', next, save, save');
      Assoc([DecodeRecord(words, at, save)], Decode(words, next, save), Decode(words', |words|, save'));
    }
  }

  /** The sizes the guest keeps within its own ceilings. */
  lemma ExtendShape(c: Cluster, fd: int, call: Call)
    requires ClusterOk(c) && Dispose(call) == Batch && !MustDrainFirst(c, fd, call)
    ensures var e := Extend(c, fd, call);
            && e.words == c.words + Record(call, |c.payload|)
            && c.payload <= e.payload
            && At(e.payload, |c.payload|, PayloadOf(call.params))
            && !Empty(e) && e.callCount <= MAX_CALLS && |e.words| > 0
            && 8 * |e.words| <= MAX_CALL_BYTES
            && 1 < |e.payload| <= MAX_PAYLOAD_BYTES
            && e.payload[0] == 0
  {
  }

  /** A record put at the end of a valid stream is the last thing the stream decodes to. */
  lemma StreamExtended(words: seq<nat>, save: seq<byte>, call: Call, base: nat, save': seq<byte>)
    requires StreamOk(words, 0, |save|) && Canonical(words, 0) && save <= save'
    requires Dispose(call) == Batch && base >= 1 && At(save', base, PayloadOf(call.params))
    ensures var words' := words + Record(call, base);
            && StreamOk(words', 0, |save'|) && Canonical(words', 0)
            && Decode(words', 0, save') == Decode(words, 0, save) + [Received(call)]
  {
    var words', at := words + Record(call, base), |words|;
    RecordRoundTrip(words', at, call, base, save') by {
      assert words'[at..] == Record(call, base);
    }
    assert Decode(words', at, save') == [Received(call)];
    StreamKept(words, words', 0, save, save');
  }

  /** Appending a call to a cluster appends exactly that call to what the host will run. */
  lemma ExtendAppends(c: Cluster, fd: int, call: Call)
    requires ClusterOk(c) && Dispose(call) == Batch && !MustDrainFirst(c, fd, call)
    ensures ClusterOk(Extend(c, fd, call))
    ensures Pending(Extend(c, fd, call)) == Pending(c) + [Received(call)]
  {
    ExtendShape(c, fd, call);
    StreamExtended(c.words, c.payload, call, |c.payload|, Extend(c, fd, call).payload);
  }

  /** An empty cluster always has room, so draining first is enough. */
  lemma DrainedMakesRoom(fd: int, call: Call)
    requires Dispose(call) == Batch
    ensures ClusterOk(EMPTY_CLUSTER) && Pending(EMPTY_CLUSTER) == []
    ensures Fits(EMPTY_CLUSTER, call) && !MustDrainFirst(EMPTY_CLUSTER, fd, call)
  {
  }

  /** An envelope of clusterable calls passes the host preflight as a whole. */
  lemma EnvelopeAccepted(c: Cluster)
    requires ClusterOk(c) && forall h <- Pending(c) :: Clusterable(FunOf(h.id))
    ensures HostAccepts(c.words, c.payload)
  {
  }
}
