/**
 * How far encoding moves its pointer, how far its writes reach, and how both compare with what the
 * counters reserve.  The bytes themselves are not modelled.
 */
module Encoding {
  import opened GuestTypes
  import opened Counting

  function Max(a: nat, b: nat): nat { if a < b then b else a }

  /** The write pointer of the encoder, and the end of the furthest byte written so far. */
  class Encoder {
    var at: nat
    ghost var extent: nat

    ghost predicate Valid()
      reads this
    {
      at <= extent
    }

    constructor ()
      ensures Valid() && at == 0 && extent == 0
    {
      at, extent := 0, 0;
    }

    /** A copy of n bytes, and the pointer moved past them. */
    method Put(n: nat)
      requires Valid()
      modifies this
      ensures Valid() && at == old(at) + n && extent == Max(old(extent), at)
    {
      extent := Max(extent, at + n);
      at := at + n;
    }

    /**
     * An array of handles: element k is copied to the 32-bit product k * 8 past the pointer, and
     * the pointer then moves by the 32-bit product of the length and 8.
     */
    method PutHandles(n: u32)
      requires Valid()
      modifies this
      ensures Valid() && at == old(at) + HandleBytes(n)
      ensures extent == Max(old(extent), old(at) + HandleExtent(n))
    {
      for k := 0 to n
        invariant at == old(at) && extent == Max(old(extent), at + HandleExtent(k))
      {
        extent := Max(extent, at + k * 8 % 0x1_0000_0000 + 8);
        ElementEnd(k);
      }
      at := at + n * 8 % 0x1_0000_0000;
    }
  }

  /** How far past the pointer the first n elements of an array of handles reach. */
  function HandleExtent(n: nat): nat { if n < 0x2000_0000 then 8 * n else 0x1_0000_0000 }

  lemma ElementEnd(k: u32)
    ensures HandleExtent(k + 1) == Max(HandleExtent(k), k * 8 % 0x1_0000_0000 + 8)
    ensures k < 0x2000_0000 ==> k * 8 % 0x1_0000_0000 == 8 * k
  {
  }

  /** No element of the array lies further out, and one that does not lies nowhere: the bound is attained. */
  lemma ExtentTight(n: u32, k: u32)
    requires k < n
    ensures k * 8 % 0x1_0000_0000 + 8 <= HandleExtent(n)
    ensures var last := if n < 0x2000_0000 then n - 1 else 0x1FFF_FFFF;
            last < n && last * 8 % 0x1_0000_0000 + 8 == HandleExtent(n)
  {
  }

  /** The pointer moves as far as the array reaches exactly below 2^29 handles, and never further. */
  lemma HandlesCovered(n: u32)
    ensures HandleBytes(n) <= HandleExtent(n)
    ensures HandleBytes(n) == HandleExtent(n) <==> n < 0x2000_0000
  {
    HandleBytesExact(n);
  }

  lemma NoHandles()
    ensures HandleBytes(0) == 0 && HandleExtent(0) == 0
  {
  }

  /** encode_to_stream_extension_struct, on the chain from node i on. */
  method EncodeChain(e: Encoder, listed: set<u32>, chain: Chain, i: nat)
    requires e.Valid() && i <= |chain|
    modifies e
    ensures e.Valid() && e.at == old(e.at) + ChainFrom(listed, 0, chain, i)
    ensures e.extent == Max(old(e.extent), e.at)
    decreases |chain| - i
  {
    var size := i < |chain| && Known(listed, 0, chain[i].sType);
    if !size && i < |chain| {
      EncodeChain(e, listed, chain, i + 1);
      return;
    }
    e.Put(4);
    if !size { return; }
    e.Put(4);
    e.Put(4);
    EncodeChain(e, listed, chain, i + 1);
    e.Put(chain[i].own);
  }

  // ---------------------------------------------------------------------- submissions

  /** How far encoding a submission reaches: to the end of each of its three arrays. */
  function SubmitExtent(listed: set<u32>, s: SubmitInfo): nat {
    var waits := 8 + ChainSize(listed, 0, s.next);
    var commands := waits + HandleBytes(s.waits) + 4 * s.waits + 4;
    var signals := commands + HandleBytes(s.commands) + 4;
    Max(Max(waits + HandleExtent(s.waits), commands + HandleExtent(s.commands)), signals + HandleExtent(s.signals))
  }

  /**
   * encode_to_stream_VkSubmitInfo.  The pointer moves by what the counter counted without feature
   * bits, however long the arrays are.
   */
  method EncodeSubmit(e: Encoder, listed: set<u32>, s: SubmitInfo)
    requires e.Valid()
    modifies e
    ensures e.Valid() && e.at == old(e.at) + SubmitSize(listed, 0, s)
    ensures e.extent == Max(old(e.extent), old(e.at) + SubmitExtent(listed, s))
  {
    hide ChainFrom, HandleBytes, HandleExtent;
    HandlesCovered(s.waits);
    HandlesCovered(s.commands);
    HandlesCovered(s.signals);
    e.Put(4);
    EncodeChain(e, listed, s.next, 0);
    EncodeHandles(e, s.waits);
    e.Put(s.waits * 4);
    EncodeHandles(e, s.commands);
    EncodeHandles(e, s.signals);
  }

  /** The length of an array of handles, and the array unless it is empty. */
  method EncodeHandles(e: Encoder, n: u32)
    requires e.Valid()
    modifies e
    ensures e.Valid() && e.at == old(e.at) + 4 + HandleBytes(n)
    ensures e.extent == Max(old(e.extent), old(e.at) + 4 + HandleExtent(n))
  {
    e.Put(4);
    if n != 0 { e.PutHandles(n); }
  }

  /**
   * The reserved bytes contain everything written exactly if the last array is below 2^29 entries
   * and whatever follows a longer earlier array makes up for what the pointer fell short of it.
   */
  lemma SubmitContained(listed: set<u32>, s: SubmitInfo)
    ensures var behindCommands := HandleBytes(s.commands) + 4 + HandleBytes(s.signals);
            var behindWaits := HandleBytes(s.waits) + 4 * s.waits + 4 + behindCommands;
            SubmitExtent(listed, s) <= SubmitSize(listed, 0, s) <==>
              && s.signals < 0x2000_0000
              && (s.commands < 0x2000_0000 || behindCommands >= 0x1_0000_0000)
              && (s.waits < 0x2000_0000 || behindWaits >= 0x1_0000_0000)
  {
    hide ChainSize;
    HandlesCovered(s.waits);
    HandlesCovered(s.commands);
    HandlesCovered(s.signals);
  }

  /** The shortest array that spills: twenty bytes are reserved, and all of 2^32 behind them written. */
  lemma SubmitSpills(listed: set<u32>)
    ensures var s := SubmitInfo([], 0, 0, 0x2000_0000);
            SubmitSize(listed, 0, s) == 20 && SubmitExtent(listed, s) == 20 + 0x1_0000_0000
  {
  }

  // ---------------------------------------------------------------------- descriptor writes

  /** What encoding moves by for one array of a write, if it is present. */
  function ArrayAdvance(w: DescriptorWrite, which: Selected): nat {
    match which
    case Images => if w.hasImages then 20 * w.count else 0
    case Buffers => if w.hasBuffers then 24 * w.count else 0
    case Views => if w.hasViews then HandleBytes(w.count) else 0
    case Nothing => 0
  }

  /** How far that array reaches. */
  function ArrayExtent(w: DescriptorWrite, which: Selected): nat {
    if which == Views && w.hasViews then HandleExtent(w.count) else ArrayAdvance(w, which)
  }

  /** encode_to_stream_VkWriteDescriptorSet: of the three arrays only the one its type selects. */
  method EncodeWrite(e: Encoder, listed: set<u32>, w: DescriptorWrite)
    requires e.Valid()
    modifies e
    ensures e.Valid() && e.at == old(e.at) + 52 + ChainSize(listed, 0, w.next) + ArrayAdvance(w, Selects(w.kind))
    ensures e.extent == Max(old(e.extent), old(e.at) + 52 + ChainSize(listed, 0, w.next) + ArrayExtent(w, Selects(w.kind)))
  {
    hide ChainFrom, HandleBytes, HandleExtent;
    NoHandles();
    HandlesCovered(w.count);
    e.Put(4);
    EncodeChain(e, listed, w.next, 0);
    e.Put(24);
    EncodeArrays(e, w);
  }

  /** The three pointers, each followed by its array if it is there and selected. */
  method EncodeArrays(e: Encoder, w: DescriptorWrite)
    requires e.Valid()
    modifies e
    ensures e.Valid() && e.at == old(e.at) + 24 + ArrayAdvance(w, Selects(w.kind))
    ensures e.extent == Max(old(e.extent), old(e.at) + 24 + ArrayExtent(w, Selects(w.kind)))
  {
    hide HandleBytes, HandleExtent;
    NoHandles();
    HandlesCovered(w.count);
    e.Put(8);
    if w.hasImages && (w.kind == 0 || w.kind == 1 || w.kind == 2 || w.kind == 3 || w.kind == 10) {
      EncodeArray(e, w.count, 20);
    }
    e.Put(8);
    if w.hasBuffers && (w.kind == 6 || w.kind == 8 || w.kind == 7 || w.kind == 9) {
      EncodeArray(e, w.count, 24);
    }
    e.Put(8);
    if w.hasViews && (w.kind == 4 || w.kind == 5) && w.count != 0 { e.PutHandles(w.count); }
  }

  /** Elements of the same size one after the other. */
  method EncodeArray(e: Encoder, n: u32, width: nat)
    requires e.Valid()
    modifies e
    ensures e.Valid() && e.at == old(e.at) + n * width && e.extent == Max(old(e.extent), e.at)
  {
    for i := 0 to n
      invariant e.Valid() && e.at == old(e.at) + i * width && e.extent == Max(old(e.extent), e.at)
    {
      e.Put(width);
    }
  }

  /**
   * Counted without the bit, as the encoder's callers do, a write of any length reserves what
   * encoding moves by plus every array its type does not select.
   */
  lemma WriteReserved(listed: set<u32>, w: DescriptorWrite)
    ensures WriteSize(listed, 0, w) == 52 + ChainSize(listed, 0, w.next) + ArrayAdvance(w, Selects(w.kind))
            + (if Selects(w.kind) == Images then 0 else ArrayAdvance(w, Images))
            + (if Selects(w.kind) == Buffers then 0 else ArrayAdvance(w, Buffers))
            + (if Selects(w.kind) == Views then 0 else ArrayAdvance(w, Views))
  {
  }

  /** Counted with the bit, it reserves exactly what encoding moves by. */
  lemma WriteExactWithBit(listed: set<u32>, bits: u32, w: DescriptorWrite)
    requires IgnoredHandles(bits) && !Float16Int8(bits)
    ensures WriteSize(listed, bits, w) == 52 + ChainSize(listed, 0, w.next) + ArrayAdvance(w, Selects(w.kind))
  {
    SameOracle(listed, bits, 0, w.next, 0);
  }

  /**
   * The reserved bytes contain everything written except for a selected array of 2^29 views or
   * more, and without the bit only if no unselected array was counted along with it.
   */
  lemma WriteContained(listed: set<u32>, bits: u32, w: DescriptorWrite)
    requires !Float16Int8(bits)
    ensures 52 + ChainSize(listed, 0, w.next) + ArrayExtent(w, Selects(w.kind)) <= WriteSize(listed, bits, w) <==>
              || w.count < 0x2000_0000
              || Selects(w.kind) != Views || !w.hasViews
              || (!IgnoredHandles(bits) && (w.hasImages || w.hasBuffers))
  {
    hide ChainSize;
    HandlesCovered(w.count);
    WriteReservedWith(listed, bits, w);
  }

  /** The same with the chain counted under any bits the size oracle does not look at. */
  lemma WriteReservedWith(listed: set<u32>, bits: u32, w: DescriptorWrite)
    requires !Float16Int8(bits)
    ensures WriteSize(listed, bits, w) == 52 + ChainSize(listed, 0, w.next) + ArrayAdvance(w, Selects(w.kind))
            + (if IgnoredHandles(bits) || Selects(w.kind) == Images then 0 else ArrayAdvance(w, Images))
            + (if IgnoredHandles(bits) || Selects(w.kind) == Buffers then 0 else ArrayAdvance(w, Buffers))
            + (if IgnoredHandles(bits) || Selects(w.kind) == Views then 0 else ArrayAdvance(w, Views))
  {
    SameOracle(listed, bits, 0, w.next, 0);
  }

  // ---------------------------------------------------------------------- graphics pipelines

  /** What encoding the first n stages moves by: the length of a name is a 32-bit number there. */
  function StagesAdvance(listed: set<u32>, stages: seq<ShaderStage>, n: nat): nat
    requires n <= |stages|
  {
    if n == 0 then 0
    else
      var s := stages[n - 1];
      StagesAdvance(listed, stages, n - 1) + StageSize(listed, 0, s.(nameLength := s.nameLength % 0x1_0000_0000))
  }

  /** What encoding a pipeline moves by: every state that is present. */
  function PipelineAdvance(listed: set<u32>, p: Pipeline): nat {
    116 + ChainSize(listed, 0, p.next) + StagesAdvance(listed, p.stages, |p.stages|)
    + VertexInputPart(listed, 0, p) + InputAssemblyPart(listed, 0, p) + TessellationPart(listed, 0, p)
    + RasterizationPart(listed, 0, p) + RasterizedPart(listed, 0, p) + DynamicPart(listed, 0, p)
  }

  predicate NamesFit(stages: seq<ShaderStage>, n: nat)
    requires n <= |stages|
  {
    forall i | 0 <= i < n :: stages[i].nameLength < 0x1_0000_0000
  }

  lemma {:induction false} StagesExactly(listed: set<u32>, stages: seq<ShaderStage>, n: nat)
    requires n <= |stages|
    ensures StagesAdvance(listed, stages, n) <= StagesSize(listed, 0, stages, n)
    ensures StagesAdvance(listed, stages, n) == StagesSize(listed, 0, stages, n) <==> NamesFit(stages, n)
  {
    hide ChainSize, SpecializationSize;
    if n > 0 { StagesExactly(listed, stages, n - 1); }
  }

  /** Counted without the bit, a pipeline reserves what encoding it moves by exactly if every name length fits. */
  lemma PipelineExactly(listed: set<u32>, p: Pipeline)
    ensures PipelineAdvance(listed, p) <= PipelineSize(listed, 0, p)
    ensures PipelineAdvance(listed, p) == PipelineSize(listed, 0, p) <==> NamesFit(p.stages, |p.stages|)
  {
    hide ChainSize, StagesSize, StagesAdvance, VertexInputPart, InputAssemblyPart, TessellationPart, RasterizationPart,
         RasterizedPart, DynamicPart;
    StagesExactly(listed, p.stages, |p.stages|);
  }
}
