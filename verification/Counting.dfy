/**
 * The serialized-size calculator: counters that walk Vulkan structures and add to an accumulator,
 * and what each of them adds.
 */
module Counting {
  import opened GuestTypes

  // ------------------------------------------------------------------ feature bits

  predicate IgnoredHandles(bits: u32) { (bits / 2) % 2 == 1 }

  predicate Float16Int8(bits: u32) { (bits / 4) % 2 == 1 }

  const FLOAT16_INT8_FEATURES: u32 := 1000082000

  // ---------------------------------------------------------------------- structures

  /** One structure of a pNext chain; own is what its fields take besides its type and its own pNext. */
  datatype Node = Node(sType: u32, own: nat)

  type Chain = seq<Node>

  datatype SubmitInfo = SubmitInfo(next: Chain, waits: u32, commands: u32, signals: u32)

  /** A descriptor write; the flags say which of its three arrays are present. */
  datatype DescriptorWrite = DescriptorWrite(
    next: Chain, kind: u32, count: u32, hasImages: bool, hasBuffers: bool, hasViews: bool)

  datatype Specialization = Specialization(entries: u32, dataSize: u64)

  datatype ShaderStage = ShaderStage(next: Chain, stage: u32, nameLength: nat, specialization: Option<Specialization>)

  datatype VertexInput = VertexInput(next: Chain, bindings: u32, attributes: u32)

  datatype Viewport = Viewport(next: Chain, viewports: u32, hasViewports: bool, scissors: u32, hasScissors: bool)

  datatype Rasterization = Rasterization(next: Chain, discard: bool)

  datatype Multisample = Multisample(next: Chain, samples: u32, hasMask: bool)

  datatype ColorBlend = ColorBlend(next: Chain, attachments: u32)

  datatype Dynamic = Dynamic(next: Chain, states: seq<u32>)

  datatype Pipeline = Pipeline(
    next: Chain, stages: seq<ShaderStage>,
    vertexInput: Option<VertexInput>, inputAssembly: Option<Chain>, tessellation: Option<Chain>,
    viewport: Option<Viewport>, rasterization: Option<Rasterization>, multisample: Option<Multisample>,
    depthStencil: Option<Chain>, colorBlend: Option<ColorBlend>, dynamic: Option<Dynamic>)

  /** An attachment reference is its chain and fixed fields. */
  datatype Subpass = Subpass(
    next: Chain, inputs: seq<Chain>, colors: seq<Chain>, resolves: Option<seq<Chain>>, depth: Option<Chain>,
    preserved: u32)

  datatype RenderPass = RenderPass(
    next: Chain, attachments: seq<Chain>, subpasses: seq<Subpass>, dependencies: seq<Chain>, masks: u32)

  // ---------------------------------------------------------------------- extension chains

  /** The size oracle: a listed type has a size, except one that also needs a feature bit. */
  predicate Known(listed: set<u32>, bits: u32, sType: u32) {
    sType in listed && (sType == FLOAT16_INT8_FEATURES ==> Float16Int8(bits))
  }

  /** What counting a chain from node i on adds. */
  function ChainFrom(listed: set<u32>, bits: u32, chain: Chain, i: nat): nat
    requires i <= |chain|
    decreases |chain| - i
  {
    if i == |chain| then 4
    else if !Known(listed, bits, chain[i].sType) then ChainFrom(listed, bits, chain, i + 1)
    else 4 + 4 + 4 + ChainFrom(listed, bits, chain, i + 1) + chain[i].own
  }

  function ChainSize(listed: set<u32>, bits: u32, chain: Chain): nat { ChainFrom(listed, bits, chain, 0) }

  /** The accumulator of the counters: a size_t that wraps; total is the sum it stands for. */
  class Counter {
    var value: u64
    ghost var total: nat

    ghost predicate Valid()
      reads this
    {
      value == total % 0x1_0000_0000_0000_0000
    }

    constructor (start: u64)
      ensures Valid() && total == start
    {
      value, total := start, start;
    }

    method Add(n: nat)
      requires Valid()
      modifies this
      ensures Valid() && total == old(total) + n
    {
      value := (value + n) % 0x1_0000_0000_0000_0000;
      total := total + n;
    }
  }

  /** count_extension_struct, on the chain from node i on. */
  method CountChain(c: Counter, listed: set<u32>, bits: u32, chain: Chain, i: nat)
    requires c.Valid() && i <= |chain|
    modifies c
    ensures c.Valid() && c.total == old(c.total) + ChainFrom(listed, bits, chain, i)
    decreases |chain| - i
  {
    var size := i < |chain| && Known(listed, bits, chain[i].sType);
    if !size && i < |chain| {
      CountChain(c, listed, bits, chain, i + 1);
      return;
    }
    c.Add(4);
    if !size { return; }
    c.Add(4);
    c.Add(4);
    CountChain(c, listed, bits, chain, i + 1);
    c.Add(chain[i].own);
  }

  /** The known nodes among the first n, each worth its header, type, chain marker and fields. */
  function KnownBytes(listed: set<u32>, bits: u32, chain: Chain, n: nat): nat
    requires n <= |chain|
  {
    if n == 0 then 0
    else KnownBytes(listed, bits, chain, n - 1) +
         if Known(listed, bits, chain[n - 1].sType) then 12 + chain[n - 1].own else 0
  }

  lemma {:induction false} ChainSplit(listed: set<u32>, bits: u32, chain: Chain, i: nat)
    requires i <= |chain|
    ensures ChainSize(listed, bits, chain) == KnownBytes(listed, bits, chain, i) + ChainFrom(listed, bits, chain, i)
  {
    if i > 0 { ChainSplit(listed, bits, chain, i - 1); }
  }

  /** Closed form: four bytes for the end of the chain and twelve plus its fields for each known node. */
  lemma ChainClosedForm(listed: set<u32>, bits: u32, chain: Chain)
    ensures ChainSize(listed, bits, chain) == 4 + KnownBytes(listed, bits, chain, |chain|)
  {
    ChainSplit(listed, bits, chain, |chain|);
  }

  /** The same sum over the multiset of nodes, one node taken out at a time. */
  lemma {:induction false} TakeOut(listed: set<u32>, bits: u32, chain: Chain, k: nat, n: nat)
    requires k < n <= |chain|
    ensures KnownBytes(listed, bits, chain, n)
         == KnownBytes(listed, bits, chain[..k] + chain[k + 1..], n - 1)
          + if Known(listed, bits, chain[k].sType) then 12 + chain[k].own else 0
  {
    var rest := chain[..k] + chain[k + 1..];
    if n - 1 == k {
      SamePrefix(listed, bits, chain, rest, k);
    } else {
      TakeOut(listed, bits, chain, k, n - 1);
      assert rest[n - 2] == chain[n - 1];
    }
  }

  lemma {:induction false} SamePrefix(listed: set<u32>, bits: u32, a: Chain, b: Chain, n: nat)
    requires n <= |a| && n <= |b| && forall i: nat | i < n :: a[i] == b[i]
    ensures KnownBytes(listed, bits, a, n) == KnownBytes(listed, bits, b, n)
  {
    if n > 0 { SamePrefix(listed, bits, a, b, n - 1); }
  }

  function Removed(chain: Chain, k: nat): Chain
    requires k < |chain|
  {
    chain[..k] + chain[k + 1..]
  }

  lemma RemoveOne(chain: Chain, k: nat)
    requires k < |chain|
    ensures multiset(Removed(chain, k)) == multiset(chain) - multiset{chain[k]}
    ensures |Removed(chain, k)| == |chain| - 1
  {
    assert chain == chain[..k] + [chain[k]] + chain[k + 1..];
  }

  lemma WithoutNode(listed: set<u32>, bits: u32, chain: Chain, k: nat)
    requires k < |chain|
    ensures ChainSize(listed, bits, chain) == ChainSize(listed, bits, Removed(chain, k))
          + if Known(listed, bits, chain[k].sType) then 12 + chain[k].own else 0
  {
    ChainClosedForm(listed, bits, chain);
    ChainClosedForm(listed, bits, Removed(chain, k));
    TakeOut(listed, bits, chain, k, |chain|);
  }

  /** A node anywhere in a chain changes its count exactly if the node is known. */
  lemma UnknownAnywhere(listed: set<u32>, bits: u32, chain: Chain, k: nat)
    requires k < |chain|
    ensures ChainSize(listed, bits, chain) == ChainSize(listed, bits, Removed(chain, k))
            <==> !Known(listed, bits, chain[k].sType)
  {
    WithoutNode(listed, bits, chain, k);
  }

  /** The order of a chain does not matter. */
  lemma {:induction false} PermutedChain(listed: set<u32>, bits: u32, a: Chain, b: Chain)
    requires multiset(a) == multiset(b)
    ensures ChainSize(listed, bits, a) == ChainSize(listed, bits, b)
    decreases |a|
  {
    hide Removed, Known;
    assert |multiset(a)| == |a| && |multiset(b)| == |b|;
    if |a| > 0 {
      assert a[0] in multiset(b);
      var k :| 0 <= k < |b| && b[k] == a[0];
      RemoveOne(a, 0);
      RemoveOne(b, k);
      PermutedChain(listed, bits, Removed(a, 0), Removed(b, k));
      WithoutNode(listed, bits, a, 0);
      WithoutNode(listed, bits, b, k);
    }
  }

  // ---------------------------------------------------------------------- shared pieces

  /** A structure that is its type, its chain and fields of fixed size. */
  function FixedSize(listed: set<u32>, bits: u32, next: Chain, fields: nat): nat {
    4 + ChainSize(listed, bits, next) + fields
  }

  method CountFixed(c: Counter, listed: set<u32>, bits: u32, next: Chain, fields: nat)
    requires c.Valid()
    modifies c
    ensures c.Valid() && c.total == old(c.total) + FixedSize(listed, bits, next, fields)
  {
    c.Add(4);
    CountChain(c, listed, bits, next, 0);
    c.Add(fields);
  }

  /** Adds the same fixed size for every element of an array. */
  method CountArray(c: Counter, n: u32, width: nat)
    requires c.Valid()
    modifies c
    ensures c.Valid() && c.total == old(c.total) + n * width
  {
    for i := 0 to n
      invariant c.Valid() && c.total == old(c.total) + i * width
    {
      c.Add(width);
    }
  }

  // ---------------------------------------------------------------------- arrays of handles

  /** count * 8 where both are 32-bit: how the counters size an array of handles. */
  function HandleBytes(n: u32): nat { n * 8 % 0x1_0000_0000 }

  /** The 32-bit product is the real size exactly below 2^29 handles. */
  lemma HandleBytesExact(n: u32)
    ensures HandleBytes(n) <= 8 * n
    ensures HandleBytes(n) == 8 * n <==> n < 0x2000_0000
  {
  }

  method CountHandles(c: Counter, n: u32)
    requires c.Valid()
    modifies c
    ensures c.Valid() && c.total == old(c.total) + HandleBytes(n)
  {
    if n != 0 { c.Add(n * 8 % 0x1_0000_0000); }
  }

  // ---------------------------------------------------------------------- submissions

  function SubmitSize(listed: set<u32>, bits: u32, s: SubmitInfo): nat {
    4 + ChainSize(listed, bits, s.next) + 4 + HandleBytes(s.waits) + 4 * s.waits
    + 4 + HandleBytes(s.commands) + 4 + HandleBytes(s.signals)
  }

  /** count_VkSubmitInfo. */
  method CountSubmit(c: Counter, listed: set<u32>, bits: u32, s: SubmitInfo)
    requires c.Valid()
    modifies c
    ensures c.Valid() && c.total == old(c.total) + SubmitSize(listed, bits, s)
  {
    CountFixed(c, listed, bits, s.next, 4);
    CountHandles(c, s.waits);
    c.Add(s.waits * 4);
    c.Add(4);
    CountHandles(c, s.commands);
    c.Add(4);
    CountHandles(c, s.signals);
  }

  // ---------------------------------------------------------------------- descriptor writes

  datatype Selected = Images | Buffers | Views | Nothing

  /** The one array a descriptor type refers to. */
  function Selects(kind: u32): Selected {
    if kind <= 3 || kind == 10 then Images
    else if kind == 4 || kind == 5 then Views
    else if 6 <= kind <= 9 then Buffers
    else Nothing
  }

  function WriteSize(listed: set<u32>, bits: u32, w: DescriptorWrite): nat {
    4 + ChainSize(listed, bits, w.next) + 8 + 4 + 4 + 4 + 4
    + 8 + (if w.hasImages && (!IgnoredHandles(bits) || Selects(w.kind) == Images) then 20 * w.count else 0)
    + 8 + (if w.hasBuffers && (!IgnoredHandles(bits) || Selects(w.kind) == Buffers) then 24 * w.count else 0)
    + 8 + (if w.hasViews && (!IgnoredHandles(bits) || Selects(w.kind) == Views) then HandleBytes(w.count) else 0)
  }

  /** count_VkWriteDescriptorSet. */
  method CountWrite(c: Counter, listed: set<u32>, bits: u32, w: DescriptorWrite)
    requires c.Valid()
    modifies c
    ensures c.Valid() && c.total == old(c.total) + WriteSize(listed, bits, w)
  {
    CountFixed(c, listed, bits, w.next, 24);
    c.Add(8);
    if w.hasImages {
      if !IgnoredHandles(bits) || w.kind == 0 || w.kind == 1 || w.kind == 2 || w.kind == 3 || w.kind == 10 {
        CountArray(c, w.count, 20);
      }
    }
    c.Add(8);
    if w.hasBuffers {
      if !IgnoredHandles(bits) || w.kind == 6 || w.kind == 8 || w.kind == 7 || w.kind == 9 {
        CountArray(c, w.count, 24);
      }
    }
    c.Add(8);
    if w.hasViews {
      if !IgnoredHandles(bits) || w.kind == 4 || w.kind == 5 {
        CountHandles(c, w.count);
      }
    }
  }

  /** With the feature bit, two writes that differ only in arrays their type does not select count the same. */
  lemma UnselectedIgnored(listed: set<u32>, bits: u32, w: DescriptorWrite, images: bool, buffers: bool, views: bool)
    requires IgnoredHandles(bits)
    requires (Selects(w.kind) == Images ==> images == w.hasImages)
          && (Selects(w.kind) == Buffers ==> buffers == w.hasBuffers)
          && (Selects(w.kind) == Views ==> views == w.hasViews)
    ensures WriteSize(listed, bits, w) ==
            WriteSize(listed, bits, w.(hasImages := images, hasBuffers := buffers, hasViews := views))
  {
  }

  /** Only one feature bit reaches the size oracle. */
  lemma {:induction false} SameOracle(listed: set<u32>, bits: u32, bits': u32, chain: Chain, i: nat)
    requires i <= |chain| && Float16Int8(bits) == Float16Int8(bits')
    ensures ChainFrom(listed, bits, chain, i) == ChainFrom(listed, bits', chain, i)
    decreases |chain| - i
  {
    if i < |chain| { SameOracle(listed, bits, bits', chain, i + 1); }
  }

  // ---------------------------------------------------------------------- graphics pipelines

  const RASTERIZER_DISCARD_ENABLE: u32 := 1000377001

  predicate HasTessellation(p: Pipeline) { exists s <- p.stages :: s.stage == 2 || s.stage == 4 }

  predicate HasRasterization(p: Pipeline) {
    || (p.rasterization.Some? && !p.rasterization.value.discard)
    || (p.dynamic.Some? && RASTERIZER_DISCARD_ENABLE in p.dynamic.value.states)
  }

  function SpecializationSize(s: Specialization): nat { 4 + 16 * s.entries + 8 + s.dataSize }

  function StageSize(listed: set<u32>, bits: u32, s: ShaderStage): nat {
    4 + ChainSize(listed, bits, s.next) + 4 + 4 + 8 + (4 + s.nameLength) + 8
    + match s.specialization case None => 0 case Some(x) => SpecializationSize(x)
  }

  function StagesSize(listed: set<u32>, bits: u32, stages: seq<ShaderStage>, n: nat): nat
    requires n <= |stages|
  {
    if n == 0 then 0 else StagesSize(listed, bits, stages, n - 1) + StageSize(listed, bits, stages[n - 1])
  }

  function VertexInputSize(listed: set<u32>, bits: u32, v: VertexInput): nat {
    4 + ChainSize(listed, bits, v.next) + 4 + 4 + 12 * v.bindings + 4 + 16 * v.attributes
  }

  function ViewportSize(listed: set<u32>, bits: u32, v: Viewport): nat {
    4 + ChainSize(listed, bits, v.next) + 4 + 4 + 8 + (if v.hasViewports then 24 * v.viewports else 0)
    + 4 + 8 + (if v.hasScissors then 16 * v.scissors else 0)
  }

  /** Words of a sample mask; the addition is 32-bit. */
  function MaskBytes(samples: u32): nat { ((samples + 31) % 0x1_0000_0000) / 32 * 4 }

  function MultisampleSize(listed: set<u32>, bits: u32, m: Multisample): nat {
    4 + ChainSize(listed, bits, m.next) + 4 + 4 + 4 + 4 + 8 + (if m.hasMask then MaskBytes(m.samples) else 0) + 4 + 4
  }

  function ColorBlendSize(listed: set<u32>, bits: u32, b: ColorBlend): nat {
    4 + ChainSize(listed, bits, b.next) + 4 + 4 + 4 + 4 + 32 * b.attachments + 16
  }

  function DynamicSize(listed: set<u32>, bits: u32, d: Dynamic): nat {
    4 + ChainSize(listed, bits, d.next) + 4 + 4 + 4 * |d.states|
  }

  // fixed fields of the states that have nothing else
  const INPUT_ASSEMBLY_FIELDS := 12
  const TESSELLATION_FIELDS := 8
  const RASTERIZATION_FIELDS := 44
  const DEPTH_STENCIL_FIELDS := 88

  function VertexInputPart(listed: set<u32>, bits: u32, p: Pipeline): nat {
    match p.vertexInput case None => 0 case Some(v) => VertexInputSize(listed, bits, v)
  }

  function InputAssemblyPart(listed: set<u32>, bits: u32, p: Pipeline): nat {
    match p.inputAssembly case None => 0 case Some(c) => FixedSize(listed, bits, c, INPUT_ASSEMBLY_FIELDS)
  }

  function TessellationPart(listed: set<u32>, bits: u32, p: Pipeline): nat {
    match p.tessellation case None => 0 case Some(c) => FixedSize(listed, bits, c, TESSELLATION_FIELDS)
  }

  function RasterizationPart(listed: set<u32>, bits: u32, p: Pipeline): nat {
    match p.rasterization case None => 0 case Some(r) => FixedSize(listed, bits, r.next, RASTERIZATION_FIELDS)
  }

  function DynamicPart(listed: set<u32>, bits: u32, p: Pipeline): nat {
    match p.dynamic case None => 0 case Some(d) => DynamicSize(listed, bits, d)
  }

  /** The states that only matter when something is rasterized. */
  function RasterizedPart(listed: set<u32>, bits: u32, p: Pipeline): nat {
    (match p.viewport case None => 0 case Some(v) => ViewportSize(listed, bits, v))
    + (match p.multisample case None => 0 case Some(m) => MultisampleSize(listed, bits, m))
    + (match p.depthStencil case None => 0 case Some(c) => FixedSize(listed, bits, c, DEPTH_STENCIL_FIELDS))
    + (match p.colorBlend case None => 0 case Some(b) => ColorBlendSize(listed, bits, b))
  }

  function PipelineSize(listed: set<u32>, bits: u32, p: Pipeline): nat {
    (if IgnoredHandles(bits) then 8 else 0)
    + 4 + ChainSize(listed, bits, p.next) + 4 + 4 + StagesSize(listed, bits, p.stages, |p.stages|)
    + 72 + VertexInputPart(listed, bits, p) + InputAssemblyPart(listed, bits, p)
    + (if !IgnoredHandles(bits) || HasTessellation(p) then TessellationPart(listed, bits, p) else 0)
    + RasterizationPart(listed, bits, p)
    + (if !IgnoredHandles(bits) || HasRasterization(p) then RasterizedPart(listed, bits, p) else 0)
    + DynamicPart(listed, bits, p)
    + 32
  }

  /** The counter follows these three pointers unless the feature bit lets it look first. */
  predicate Countable(bits: u32, p: Pipeline) {
    !IgnoredHandles(bits) ==> p.vertexInput.Some? && p.inputAssembly.Some? && p.rasterization.Some?
  }

  method CountStage(c: Counter, listed: set<u32>, bits: u32, s: ShaderStage)
    requires c.Valid()
    modifies c
    ensures c.Valid() && c.total == old(c.total) + StageSize(listed, bits, s)
  {
    hide ChainSize, ChainFrom;
    CountFixed(c, listed, bits, s.next, 16);
    c.Add(4 + s.nameLength);
    c.Add(8);
    if s.specialization.Some? {
      c.Add(4);
      CountArray(c, s.specialization.value.entries, 16);
      c.Add(8);
      c.Add(s.specialization.value.dataSize);
    }
  }

  method CountVertexInput(c: Counter, listed: set<u32>, bits: u32, v: VertexInput)
    requires c.Valid()
    modifies c
    ensures c.Valid() && c.total == old(c.total) + VertexInputSize(listed, bits, v)
  {
    hide ChainFrom;
    CountFixed(c, listed, bits, v.next, 8);
    CountArray(c, v.bindings, 12);
    c.Add(4);
    CountArray(c, v.attributes, 16);
  }

  method CountViewport(c: Counter, listed: set<u32>, bits: u32, v: Viewport)
    requires c.Valid()
    modifies c
    ensures c.Valid() && c.total == old(c.total) + ViewportSize(listed, bits, v)
  {
    hide ChainFrom;
    CountFixed(c, listed, bits, v.next, 16);
    if v.hasViewports { CountArray(c, v.viewports, 24); }
    c.Add(12);
    if v.hasScissors { CountArray(c, v.scissors, 16); }
  }

  method CountMultisample(c: Counter, listed: set<u32>, bits: u32, m: Multisample)
    requires c.Valid()
    modifies c
    ensures c.Valid() && c.total == old(c.total) + MultisampleSize(listed, bits, m)
  {
    hide ChainFrom;
    CountFixed(c, listed, bits, m.next, 24);
    if m.hasMask { c.Add(MaskBytes(m.samples)); }
    c.Add(8);
  }

  method CountColorBlend(c: Counter, listed: set<u32>, bits: u32, b: ColorBlend)
    requires c.Valid()
    modifies c
    ensures c.Valid() && c.total == old(c.total) + ColorBlendSize(listed, bits, b)
  {
    hide ChainFrom;
    CountFixed(c, listed, bits, b.next, 16);
    CountArray(c, b.attachments, 32);
    c.Add(16);
  }

  /** The states that are counted only if something is rasterized, and their four pointers. */
  method CountRasterized(c: Counter, listed: set<u32>, bits: u32, p: Pipeline, rasterized: bool)
    requires c.Valid()
    modifies c
    ensures c.Valid()
    ensures c.total == old(c.total) + 32 + if rasterized then RasterizedPart(listed, bits, p) else 0
  {
    hide ViewportSize, MultisampleSize, ColorBlendSize, FixedSize;
    c.Add(8);
    if p.viewport.Some? && rasterized { CountViewport(c, listed, bits, p.viewport.value); }
    c.Add(8);
    if p.multisample.Some? && rasterized { CountMultisample(c, listed, bits, p.multisample.value); }
    c.Add(8);
    if p.depthStencil.Some? && rasterized {
      CountFixed(c, listed, bits, p.depthStencil.value, DEPTH_STENCIL_FIELDS);
    }
    c.Add(8);
    if p.colorBlend.Some? && rasterized { CountColorBlend(c, listed, bits, p.colorBlend.value); }
  }

  /** The flag the counter computes by searching the stages. */
  method FindTessellation(stages: seq<ShaderStage>) returns (found: bool)
    ensures found == exists s <- stages :: s.stage == 2 || s.stage == 4
  {
    found := false;
    for i := 0 to |stages|
      invariant !found && forall j | 0 <= j < i :: stages[j].stage != 2 && stages[j].stage != 4
    {
      if stages[i].stage == 2 || stages[i].stage == 4 { return true; }
    }
  }

  /** count_VkGraphicsPipelineCreateInfo. */
  method CountPipeline(c: Counter, listed: set<u32>, bits: u32, p: Pipeline)
    requires c.Valid() && Countable(bits, p)
    modifies c
    ensures c.Valid() && c.total == old(c.total) + PipelineSize(listed, bits, p)
  {
    hide ChainSize, VertexInputPart, InputAssemblyPart, TessellationPart, RasterizationPart, RasterizedPart, StagesSize,
         DynamicPart;
    var rasterized, tessellated := true, true;
    if IgnoredHandles(bits) {
      rasterized := HasRasterization(p);
      c.Add(4);
      tessellated := FindTessellation(p.stages);
      c.Add(4);
    }
    CountFixed(c, listed, bits, p.next, 8);
    CountStages(c, listed, bits, p.stages);
    CountInputStates(c, listed, bits, p, tessellated);
    CountRasterized(c, listed, bits, p, rasterized);
    c.Add(8);
    CountDynamic(c, listed, bits, p);
    c.Add(32);
  }

  /** The states up to the viewport, and the rasterization state, with their pointers. */
  method CountInputStates(c: Counter, listed: set<u32>, bits: u32, p: Pipeline, tessellated: bool)
    requires c.Valid() && Countable(bits, p)
    modifies c
    ensures c.Valid()
    ensures c.total == old(c.total) + 32 + VertexInputPart(listed, bits, p) + InputAssemblyPart(listed, bits, p)
                       + (if tessellated then TessellationPart(listed, bits, p) else 0)
                       + RasterizationPart(listed, bits, p)
  {
    hide VertexInputSize, FixedSize;
    c.Add(8);
    if !IgnoredHandles(bits) || p.vertexInput.Some? { CountVertexInput(c, listed, bits, p.vertexInput.value); }
    c.Add(8);
    if !IgnoredHandles(bits) || p.inputAssembly.Some? {
      CountFixed(c, listed, bits, p.inputAssembly.value, INPUT_ASSEMBLY_FIELDS);
    }
    c.Add(8);
    if p.tessellation.Some? && tessellated {
      CountFixed(c, listed, bits, p.tessellation.value, TESSELLATION_FIELDS);
    }
    c.Add(8);
    if !IgnoredHandles(bits) || p.rasterization.Some? {
      CountFixed(c, listed, bits, p.rasterization.value.next, RASTERIZATION_FIELDS);
    }
  }

  method CountStages(c: Counter, listed: set<u32>, bits: u32, stages: seq<ShaderStage>)
    requires c.Valid()
    modifies c
    ensures c.Valid() && c.total == old(c.total) + StagesSize(listed, bits, stages, |stages|)
  {
    hide StageSize;
    for i := 0 to |stages|
      invariant c.Valid() && c.total == old(c.total) + StagesSize(listed, bits, stages, i)
    {
      CountStage(c, listed, bits, stages[i]);
    }
  }

  method CountDynamic(c: Counter, listed: set<u32>, bits: u32, p: Pipeline)
    requires c.Valid()
    modifies c
    ensures c.Valid() && c.total == old(c.total) + DynamicPart(listed, bits, p)
  {
    hide ChainFrom;
    if p.dynamic.Some? {
      CountFixed(c, listed, bits, p.dynamic.value.next, 8);
      c.Add(4 * |p.dynamic.value.states|);
    }
  }

  /** With the bit, a state made irrelevant may be anything, or absent, without changing the count. */
  lemma IrrelevantTessellation(listed: set<u32>, bits: u32, p: Pipeline, t: Option<Chain>)
    requires IgnoredHandles(bits) && !HasTessellation(p)
    ensures PipelineSize(listed, bits, p.(tessellation := t)) == PipelineSize(listed, bits, p)
  {
    hide RasterizedPart, VertexInputPart, InputAssemblyPart, RasterizationPart, DynamicPart;
    SameOtherParts(listed, bits, p, p.(tessellation := t));
  }

  lemma IrrelevantRasterized(listed: set<u32>, bits: u32, p: Pipeline, v: Option<Viewport>,
                             m: Option<Multisample>, d: Option<Chain>, b: Option<ColorBlend>)
    requires IgnoredHandles(bits) && !HasRasterization(p)
    ensures PipelineSize(listed, bits, p.(viewport := v, multisample := m, depthStencil := d, colorBlend := b))
            == PipelineSize(listed, bits, p)
  {
    hide RasterizedPart, VertexInputPart, InputAssemblyPart, RasterizationPart, DynamicPart, TessellationPart;
    SameOtherParts(listed, bits, p, p.(viewport := v, multisample := m, depthStencil := d, colorBlend := b));
  }

  predicate SameRasterized(p: Pipeline, q: Pipeline) {
    && q.viewport == p.viewport && q.multisample == p.multisample
    && q.depthStencil == p.depthStencil && q.colorBlend == p.colorBlend
  }

  /** The parts of a count that do not look at the states that can be irrelevant. */
  lemma SameOtherParts(listed: set<u32>, bits: u32, p: Pipeline, q: Pipeline)
    requires q.vertexInput == p.vertexInput && q.inputAssembly == p.inputAssembly && q.dynamic == p.dynamic
    requires q.rasterization == p.rasterization
    ensures VertexInputPart(listed, bits, q) == VertexInputPart(listed, bits, p)
    ensures InputAssemblyPart(listed, bits, q) == InputAssemblyPart(listed, bits, p)
    ensures RasterizationPart(listed, bits, q) == RasterizationPart(listed, bits, p)
    ensures DynamicPart(listed, bits, q) == DynamicPart(listed, bits, p)
    ensures q.tessellation == p.tessellation ==> TessellationPart(listed, bits, q) == TessellationPart(listed, bits, p)
    ensures SameRasterized(p, q) ==> RasterizedPart(listed, bits, q) == RasterizedPart(listed, bits, p)
  {
  }

  /** And only then: a tessellation state is left out of the count exactly if no stage tessellates. */
  lemma TessellationCountsExactly(listed: set<u32>, bits: u32, p: Pipeline)
    requires IgnoredHandles(bits) && p.tessellation.Some?
    ensures PipelineSize(listed, bits, p) == PipelineSize(listed, bits, p.(tessellation := None)) <==> !HasTessellation(p)
  {
    hide RasterizedPart, VertexInputPart, InputAssemblyPart, RasterizationPart, DynamicPart;
    SameOtherParts(listed, bits, p, p.(tessellation := None));
  }

  /** Likewise the four rasterization states, if any of them is there. */
  lemma RasterizedCountsExactly(listed: set<u32>, bits: u32, p: Pipeline)
    requires IgnoredHandles(bits)
    requires p.viewport.Some? || p.multisample.Some? || p.depthStencil.Some? || p.colorBlend.Some?
    ensures PipelineSize(listed, bits, p) ==
            PipelineSize(listed, bits, p.(viewport := None, multisample := None, depthStencil := None, colorBlend := None))
            <==> !HasRasterization(p)
  {
    hide VertexInputPart, InputAssemblyPart, RasterizationPart, DynamicPart, TessellationPart;
    SameOtherParts(listed, bits, p,
                   p.(viewport := None, multisample := None, depthStencil := None, colorBlend := None));
  }

  // ---------------------------------------------------------------------- render passes

  const REFERENCE_FIELDS := 12
  const ATTACHMENT_FIELDS := 36
  const DEPENDENCY_FIELDS := 32

  /** The first n of several structures that have fields of fixed size. */
  function FixedSizes(listed: set<u32>, bits: u32, chains: seq<Chain>, fields: nat, n: nat): nat
    requires n <= |chains|
  {
    if n == 0 then 0
    else FixedSizes(listed, bits, chains, fields, n - 1) + FixedSize(listed, bits, chains[n - 1], fields)
  }

  function AllFixed(listed: set<u32>, bits: u32, chains: seq<Chain>, fields: nat): nat {
    FixedSizes(listed, bits, chains, fields, |chains|)
  }

  function SubpassSize(listed: set<u32>, bits: u32, s: Subpass): nat {
    4 + ChainSize(listed, bits, s.next) + 16 + AllFixed(listed, bits, s.inputs, REFERENCE_FIELDS)
    + 4 + AllFixed(listed, bits, s.colors, REFERENCE_FIELDS)
    + 8 + (match s.resolves case None => 0 case Some(r) => AllFixed(listed, bits, r, REFERENCE_FIELDS))
    + 8 + (match s.depth case None => 0 case Some(d) => FixedSize(listed, bits, d, REFERENCE_FIELDS))
    + 4 + 4 * s.preserved
  }

  function SubpassesSize(listed: set<u32>, bits: u32, subpasses: seq<Subpass>, n: nat): nat
    requires n <= |subpasses|
  {
    if n == 0 then 0 else SubpassesSize(listed, bits, subpasses, n - 1) + SubpassSize(listed, bits, subpasses[n - 1])
  }

  function RenderPassSize(listed: set<u32>, bits: u32, r: RenderPass): nat {
    4 + ChainSize(listed, bits, r.next) + 4 + 4 + AllFixed(listed, bits, r.attachments, ATTACHMENT_FIELDS)
    + 4 + SubpassesSize(listed, bits, r.subpasses, |r.subpasses|)
    + 4 + AllFixed(listed, bits, r.dependencies, DEPENDENCY_FIELDS) + 4 + 4 * r.masks
  }

  /** The loops over attachments, references and dependencies. */
  method CountAll(c: Counter, listed: set<u32>, bits: u32, chains: seq<Chain>, fields: nat)
    requires c.Valid()
    modifies c
    ensures c.Valid() && c.total == old(c.total) + AllFixed(listed, bits, chains, fields)
  {
    hide FixedSize;
    for i := 0 to |chains|
      invariant c.Valid() && c.total == old(c.total) + FixedSizes(listed, bits, chains, fields, i)
    {
      CountFixed(c, listed, bits, chains[i], fields);
    }
  }

  /** Resolve attachments, when there are any, come one for each colour attachment. */
  predicate Paired(s: Subpass) { s.resolves.Some? ==> |s.resolves.value| == |s.colors| }

  /** count_VkSubpassDescription2. */
  method CountSubpass(c: Counter, listed: set<u32>, bits: u32, s: Subpass)
    requires c.Valid() && Paired(s)
    modifies c
    ensures c.Valid() && c.total == old(c.total) + SubpassSize(listed, bits, s)
  {
    hide AllFixed, ChainFrom;
    CountFixed(c, listed, bits, s.next, 16);
    CountAll(c, listed, bits, s.inputs, REFERENCE_FIELDS);
    c.Add(4);
    CountAll(c, listed, bits, s.colors, REFERENCE_FIELDS);
    c.Add(8);
    if s.resolves.Some? {
      assert s.resolves.value[..|s.colors|] == s.resolves.value;
      CountAll(c, listed, bits, s.resolves.value[..|s.colors|], REFERENCE_FIELDS);
    }
    c.Add(8);
    if s.depth.Some? { CountFixed(c, listed, bits, s.depth.value, REFERENCE_FIELDS); }
    c.Add(4 + 4 * s.preserved);
  }

  /** count_VkRenderPassCreateInfo2. */
  method CountRenderPass(c: Counter, listed: set<u32>, bits: u32, r: RenderPass)
    requires c.Valid() && forall s <- r.subpasses :: Paired(s)
    modifies c
    ensures c.Valid() && c.total == old(c.total) + RenderPassSize(listed, bits, r)
  {
    hide AllFixed, ChainFrom, SubpassSize;
    CountFixed(c, listed, bits, r.next, 8);
    CountAll(c, listed, bits, r.attachments, ATTACHMENT_FIELDS);
    c.Add(4);
    CountSubpasses(c, listed, bits, r.subpasses);
    c.Add(4);
    CountAll(c, listed, bits, r.dependencies, DEPENDENCY_FIELDS);
    c.Add(4 + 4 * r.masks);
  }

  method CountSubpasses(c: Counter, listed: set<u32>, bits: u32, subpasses: seq<Subpass>)
    requires c.Valid() && forall s <- subpasses :: Paired(s)
    modifies c
    ensures c.Valid() && c.total == old(c.total) + SubpassesSize(listed, bits, subpasses, |subpasses|)
  {
    hide SubpassSize;
    for i := 0 to |subpasses|
      invariant c.Valid() && c.total == old(c.total) + SubpassesSize(listed, bits, subpasses, i)
    {
      CountSubpass(c, listed, bits, subpasses[i]);
    }
  }
}
