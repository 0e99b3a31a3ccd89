/** The channel wiring of the segmentation UNet (src/model.py): which
    (in, out) channel pair every layer is built with, and how a tensor's
    channel count travels through `forward`, skip connections included.
    Only channel counts are modelled; a layer applied to a tensor whose
    channel count differs from the layer's input channels fails, as torch
    raises a RuntimeError there. */
module UNetWiring {
  import opened Wrappers

  /** nn.Conv2d(inC, outC, kernel, stride, padding). */
  datatype Conv = Conv(inC: int, outC: int, kernel: int, stride: int, padding: int)

  /** nn.ConvTranspose2d(inC, outC, kernel, stride, padding, outputPadding). */
  datatype ConvT = ConvT(inC: int, outC: int, kernel: int, stride: int, padding: int, outputPadding: int)

  /** A ResidualBlock: its projection (None stands for nn.Identity) and its
      list of convolutions. */
  datatype ResBlock = ResBlock(projection: Option<Conv>, block: seq<Conv>)

  /** The layers of a UNet. */
  datatype UNet = UNet(
    downBlocks: seq<ResBlock>,
    downsample: seq<Conv>,
    bottleneck: ResBlock,
    upsample: seq<ConvT>,
    upBlocks: seq<ResBlock>,
    outputLayer: Conv)

  // ---------------------------------------------------------------- building

  /** `ResidualBlock(in_channels, out_channels, kernel_size, convs)`. Python's
      `//` floors like Dafny's `/` for the positive divisor 2, and
      `range(convs - 1)` is empty when convs < 2. */
  function ResidualBlock(inC: int, outC: int, kernel: int, convs: int): (r: ResBlock)
    ensures r.projection.Some? <==> inC != outC
    ensures forall k :: 0 <= k < |r.block| ==> r.block[k].stride == 1
    ensures kernel % 2 == 1 ==> forall k, n :: 0 <= k < |r.block| ==> ConvOutSize(r.block[k], n) == n
  {
    var padding := kernel / 2;
    var extra := if convs - 1 > 0 then convs - 1 else 0;
    ResBlock(
      if inC != outC then Some(Conv(inC, outC, 1, 1, 0)) else None,
      [Conv(inC, outC, kernel, 1, padding)] + seq(extra, _ => Conv(outC, outC, kernel, 1, padding)))
  }

  /** `downsample(in_channels, out_channels, kernel_size, stride)`. */
  function Downsample(inC: int, outC: int, kernel: int, stride: int): (r: Conv)
    ensures r.inC == inC && r.outC == outC && r.stride == stride
    ensures kernel == 3 && stride == 2 ==> forall n :: ConvOutSize(r, n) == (n + 1) / 2
  {
    Conv(inC, outC, kernel, stride, kernel / 2)
  }

  /** `upsample(in_channels, out_channels, kernel_size, stride)`. */
  function Upsample(inC: int, outC: int, kernel: int, stride: int): (r: ConvT)
    ensures kernel % 2 == 1 ==> forall n :: ConvTOutSize(r, n) == n * stride
  {
    ConvT(inC, outC, kernel, stride, (kernel - 1) / 2, stride - 1)
  }

  /** The spatial size `nn.Conv2d` produces from size n (floor division,
      which Dafny's `/` is for a positive divisor). */
  function ConvOutSize(conv: Conv, n: int): int
    requires conv.stride > 0
  {
    (n + 2 * conv.padding - conv.kernel) / conv.stride + 1
  }

  /** The spatial size `nn.ConvTranspose2d` produces from size n. */
  function ConvTOutSize(conv: ConvT, n: int): int {
    (n - 1) * conv.stride - 2 * conv.padding + conv.kernel + conv.outputPadding
  }

  /** An up-sampling layer restores the size its down-sampling partner
      halved, so the skip connections of the UNet line up for even sizes. */
  lemma UpsampleInvertsDownsample(a: int, b: int, c: int, d: int, n: int)
    requires n % 2 == 0
    ensures ConvTOutSize(Upsample(a, b, 3, 2), ConvOutSize(Downsample(c, d, 3, 2), n)) == n
  {
  }

  /** The channel count each down level hands to the next level: the next
      filter count, and the bottleneck's after the last level
      (`[*filters[1:], bottleneck_filters]`). */
  function NextLevel(filters: seq<int>, bottleneck: int, i: nat): int
    requires i < |filters|
  {
    if i + 1 < |filters| then filters[i + 1] else bottleneck
  }

  /** `UNet.__init__`. With an empty filter list the comprehensions build
      empty layer lists and `filters[0]` then raises an IndexError: None. */
  function BuildUNet(inC: int, outC: int, filters: seq<int>, bottleneck: int, kernel: int, numResConvs: int): (r: Option<UNet>)
    ensures r.Some? <==> filters != []
    ensures r.Some? ==> |r.value.downBlocks| == |r.value.downsample| == |r.value.upsample| == |r.value.upBlocks| == |filters|
  {
    if filters == [] then None
    else
      var n := |filters|;
      Some(UNet(
        seq(n, i requires 0 <= i < n => ResidualBlock(if i == 0 then inC else filters[i], filters[i], kernel, numResConvs)),
        seq(n, i requires 0 <= i < n => Downsample(filters[i], NextLevel(filters, bottleneck, i), 3, 2)),
        ResidualBlock(bottleneck, bottleneck, 1, numResConvs),
        seq(n, i requires 0 <= i < n => Upsample(NextLevel(filters, bottleneck, i), filters[i], 3, 2)),
        seq(n, i requires 0 <= i < n => ResidualBlock(2 * filters[i], filters[i], 3, 2)),
        Conv(filters[0], outC, 1, 1, 0)))
  }

  // ---------------------------------------------------------------- wiring

  /** Input and output channels of a residual block's convolution chain. */
  function InOf(b: ResBlock): int
    requires |b.block| > 0
  {
    b.block[0].inC
  }

  function OutOf(b: ResBlock): int
    requires |b.block| > 0
  {
    b.block[|b.block| - 1].outC
  }

  /** Each convolution of the chain takes what the previous one produces. */
  predicate Chained(convs: seq<Conv>) {
    forall k :: 0 < k < |convs| ==> convs[k - 1].outC == convs[k].inC
  }

  /** A residual block whose chain is consistent and whose residual path
      produces exactly the channels of the chain. */
  predicate Wired(b: ResBlock) {
    && |b.block| > 0
    && Chained(b.block)
    && (b.projection.None? ==> InOf(b) == OutOf(b))
    && (b.projection.Some? ==> b.projection.value.inC == InOf(b) && b.projection.value.outC == OutOf(b))
  }

  /** The channel equalities that make every layer of `forward` accept what
      the previous one produces. */
  predicate WellWired(net: UNet) {
    && DownWired(net)
    && UpWired(net)
    && Wired(net.bottleneck)
    && InOf(net.bottleneck) == net.downsample[|net.downBlocks| - 1].outC
    && net.upsample[|net.downBlocks| - 1].inC == OutOf(net.bottleneck)
    && net.outputLayer.inC == OutOf(net.upBlocks[0])
  }

  /** The part of WellWired the down path relies on. */
  predicate DownWired(net: UNet) {
    var n := |net.downBlocks|;
    && n > 0
    && |net.downsample| == n
    && (forall i :: 0 <= i < n ==> Wired(net.downBlocks[i]))
    && (forall i :: 0 <= i < n ==> net.downsample[i].inC == OutOf(net.downBlocks[i]))
    && (forall i :: 0 < i < n ==> InOf(net.downBlocks[i]) == net.downsample[i - 1].outC)
  }

  /** The part of WellWired the up path relies on, besides the down blocks'
      outputs it takes as skips. */
  predicate UpWired(net: UNet) {
    var n := |net.downBlocks|;
    && n > 0
    && (forall i :: 0 <= i < n ==> Wired(net.downBlocks[i]))
    && |net.upsample| == n && |net.upBlocks| == n
    && (forall i :: 0 <= i < n ==> Wired(net.upBlocks[i]))
    && (forall i :: 0 <= i < n - 1 ==> net.upsample[i].inC == OutOf(net.upBlocks[i + 1]))
    && (forall i :: 0 <= i < n ==> InOf(net.upBlocks[i]) == net.upsample[i].outC + OutOf(net.downBlocks[i]))
  }

  function InChannels(net: UNet): int
    requires WellWired(net)
  {
    InOf(net.downBlocks[0])
  }

  function OutChannels(net: UNet): int {
    net.outputLayer.outC
  }

  // ---------------------------------------------------------------- applying layers

  /** A convolution applied to a tensor with c channels. */
  function ApplyConv(conv: Conv, c: int): Option<int> {
    if c == conv.inC then Some(conv.outC) else None
  }

  function ApplyConvT(conv: ConvT, c: int): Option<int> {
    if c == conv.inC then Some(conv.outC) else None
  }

  /** `a + b` of tensors with a and b channels: torch broadcasts a single
      channel against any count and otherwise needs equal counts. */
  function AddChannels(a: int, b: int): Option<int> {
    if a == b then Some(a) else if a == 1 then Some(b) else if b == 1 then Some(a) else None
  }

  /** A chain of convolutions applied in order to a tensor with c channels. */
  function ChainOut(convs: seq<Conv>, c: int): Option<int> {
    if convs == [] then Some(c)
    else match ChainOut(convs[..|convs| - 1], c)
      case None => None
      case Some(x) => ApplyConv(convs[|convs| - 1], x)
  }

  /** `ResidualBlock.forward` on a tensor with c channels: projection, chain,
      then the residual sum. */
  function BlockApply(b: ResBlock, c: int): (r: Option<int>)
    ensures r.Some? ==> ChainOut(b.block, c).Some?
    ensures r.Some? && b.projection.Some? ==> c == b.projection.value.inC
  {
    var residual := if b.projection.None? then Some(c) else ApplyConv(b.projection.value, c);
    match (residual, ChainOut(b.block, c))
    case (Some(r), Some(x)) => AddChannels(r, x)
    case _ => None
  }

  lemma {:induction false} ChainedOut(convs: seq<Conv>, c: int)
    requires |convs| > 0 && Chained(convs)
    ensures ChainOut(convs, c) == if c == convs[0].inC then Some(convs[|convs| - 1].outC) else None
  {
    if |convs| > 1 {
      var init := convs[..|convs| - 1];
      ChainedOut(init, c);
    }
  }

  /** A wired residual block accepts exactly its input channel count and
      produces its output channel count. */
  lemma WiredApply(b: ResBlock, c: int)
    requires Wired(b)
    ensures BlockApply(b, c) == if c == InOf(b) then Some(OutOf(b)) else None
  {
    ChainedOut(b.block, c);
  }

  /** `ResidualBlock(in, out, kernel_size, convs)` has a 1x1 projection iff
      in != out; its chain is one in -> out convolution followed by
      convs - 1 out -> out convolutions (none when convs < 2), all with
      stride 1 and padding kernel_size // 2; applied to a tensor it accepts
      exactly `in` channels and yields `out`. */
  lemma ResidualBlockShape(inC: int, outC: int, kernel: int, convs: int, c: int)
    ensures var b := ResidualBlock(inC, outC, kernel, convs);
      && Wired(b) && InOf(b) == inC && OutOf(b) == outC
      && (b.projection.Some? <==> inC != outC)
      && (b.projection.Some? ==> b.projection.value == Conv(inC, outC, 1, 1, 0))
      && |b.block| == (if convs >= 2 then convs else 1)
      && (forall k :: 0 <= k < |b.block| ==> b.block[k].kernel == kernel && b.block[k].stride == 1 && b.block[k].padding == kernel / 2)
      && (forall k :: 0 < k < |b.block| ==> b.block[k].inC == outC && b.block[k].outC == outC)
      && BlockApply(b, c) == if c == inC then Some(outC) else None
  {
    var b := ResidualBlock(inC, outC, kernel, convs);
    WiredApply(b, c);
  }

  /** The layer channels of `UNet.__init__`: down block 0 maps in_channels to
      filters[0] and down block i > 0 maps filters[i] to itself;
      downsample[i] and upsample[i] connect filters[i] with the next level
      (the bottleneck after the last), in opposite directions; up block i
      takes 2 * filters[i] (upsampled plus skip) to filters[i]; the
      bottleneck keeps bottleneck_filters and the output layer maps
      filters[0] to out_channels. The upsamplers use padding 1 and output
      padding 1. All four layer lists have one entry per filter. */
  predicate LayersMatch(net: UNet, inC: int, outC: int, filters: seq<int>, bottleneck: int) {
    var n := |filters|;
    && n > 0
    && |net.downBlocks| == n && |net.downsample| == n && |net.upsample| == n && |net.upBlocks| == n
    && (forall i :: 0 <= i < n ==> Wired(net.downBlocks[i]) && Wired(net.upBlocks[i]))
    && InOf(net.downBlocks[0]) == inC
    && (forall i :: 0 < i < n ==> InOf(net.downBlocks[i]) == filters[i])
    && (forall i :: 0 <= i < n ==> OutOf(net.downBlocks[i]) == filters[i])
    && (forall i :: 0 <= i < n ==> net.downsample[i].inC == filters[i] && net.downsample[i].outC == NextLevel(filters, bottleneck, i))
    && (forall i :: 0 <= i < n ==> net.upsample[i].inC == NextLevel(filters, bottleneck, i) && net.upsample[i].outC == filters[i])
    && (forall i :: 0 <= i < n ==> net.upsample[i].padding == 1 && net.upsample[i].outputPadding == 1)
    && (forall i :: 0 <= i < n ==> InOf(net.upBlocks[i]) == 2 * filters[i] && OutOf(net.upBlocks[i]) == filters[i])
    && Wired(net.bottleneck) && InOf(net.bottleneck) == bottleneck && OutOf(net.bottleneck) == bottleneck
    && net.outputLayer.inC == filters[0] && net.outputLayer.outC == outC
  }

  /** `UNet.__init__` builds its layers with the channels LayersMatch lists. */
  lemma {:induction false} LayerChannels(inC: int, outC: int, filters: seq<int>, bottleneck: int, kernel: int, numResConvs: int, net: UNet)
    requires BuildUNet(inC, outC, filters, bottleneck, kernel, numResConvs) == Some(net)
    ensures LayersMatch(net, inC, outC, filters, bottleneck)
  {
    var n := |filters|;
    forall i | 0 <= i < n
      ensures Wired(net.downBlocks[i]) && Wired(net.upBlocks[i])
      ensures InOf(net.downBlocks[i]) == (if i == 0 then inC else filters[i])
      ensures OutOf(net.downBlocks[i]) == filters[i]
      ensures InOf(net.upBlocks[i]) == 2 * filters[i] && OutOf(net.upBlocks[i]) == filters[i]
    {
      ResidualBlockShape(if i == 0 then inC else filters[i], filters[i], kernel, numResConvs, 0);
      ResidualBlockShape(2 * filters[i], filters[i], 3, 2, 0);
    }
    ResidualBlockShape(bottleneck, bottleneck, 1, numResConvs, 0);
  }

  /** Layers built with those channels chain: each downsample takes its down
      block's output, the next down block takes the downsample's output, each
      up block takes its upsample's output plus the skip from the down block
      of the same level. */
  lemma LayersMatchWellWired(net: UNet, inC: int, outC: int, filters: seq<int>, bottleneck: int)
    requires LayersMatch(net, inC, outC, filters, bottleneck)
    ensures WellWired(net) && InChannels(net) == inC && OutChannels(net) == outC
  {
    LayersMatchDown(net, inC, outC, filters, bottleneck);
    LayersMatchUp(net, inC, outC, filters, bottleneck);
  }

  /** The down half of LayersMatchWellWired: each downsample takes its down
      block's output and each next down block, or the bottleneck, takes the
      downsample's output. */
  lemma LayersMatchDown(net: UNet, inC: int, outC: int, filters: seq<int>, bottleneck: int)
    requires LayersMatch(net, inC, outC, filters, bottleneck)
    ensures DownWired(net) && Wired(net.bottleneck)
    ensures InOf(net.bottleneck) == net.downsample[|net.downBlocks| - 1].outC
  {
    var n := |filters|;
    forall i | 0 < i < n
      ensures InOf(net.downBlocks[i]) == net.downsample[i - 1].outC
    {
      assert NextLevel(filters, bottleneck, i - 1) == filters[i];
    }
  }

  /** The up half of LayersMatchWellWired: each upsample takes the output of
      the level above, and each up block the upsample's output plus its
      level's skip. */
  lemma LayersMatchUp(net: UNet, inC: int, outC: int, filters: seq<int>, bottleneck: int)
    requires LayersMatch(net, inC, outC, filters, bottleneck)
    ensures UpWired(net) && Wired(net.bottleneck)
    ensures net.upsample[|net.downBlocks| - 1].inC == OutOf(net.bottleneck)
  {
    var n := |filters|;
    forall i | 0 <= i < n - 1
      ensures net.upsample[i].inC == OutOf(net.upBlocks[i + 1])
    {
      assert NextLevel(filters, bottleneck, i) == filters[i + 1];
    }
  }

  /** Every UNet that `__init__` builds is wired consistently and maps
      in_channels to out_channels. */
  lemma BuildUNetWellWired(inC: int, outC: int, filters: seq<int>, bottleneck: int, kernel: int, numResConvs: int, net: UNet)
    requires BuildUNet(inC, outC, filters, bottleneck, kernel, numResConvs) == Some(net)
    ensures WellWired(net) && InChannels(net) == inC && OutChannels(net) == outC
  {
    LayerChannels(inC, outC, filters, bottleneck, kernel, numResConvs, net);
    LayersMatchWellWired(net, inC, outC, filters, bottleneck);
  }

  // ---------------------------------------------------------------- forward

  /** `ResidualBlock.forward`, on channel counts. */
  method ResidualForward(b: ResBlock, c: int) returns (r: Option<int>)
    ensures Wired(b) ==> r == if c == InOf(b) then Some(OutOf(b)) else None
    ensures r == BlockApply(b, c)
  {
    var residual := if b.projection.None? then Some(c) else ApplyConv(b.projection.value, c);
    if residual.None? {
      return None;
    }
    var x := c;
    for k := 0 to |b.block|
      invariant ChainOut(b.block[..k], c) == Some(x)
    {
      assert b.block[..k + 1][..k] == b.block[..k];
      var y := ApplyConv(b.block[k], x);
      if y.None? {
        ChainNoneStays(b.block, k + 1, c);
        return None;
      }
      x := y.value;
    }
    assert b.block[..|b.block|] == b.block;
    r := AddChannels(residual.value, x);
    if Wired(b) {
      WiredApply(b, c);
    }
  }

  /** Once a chain fails, every longer prefix fails too. */
  lemma {:induction false} ChainNoneStays(convs: seq<Conv>, k: nat, c: int)
    requires k <= |convs| && ChainOut(convs[..k], c) == None
    ensures ChainOut(convs, c) == None
    decreases |convs| - k
  {
    if k < |convs| {
      assert convs[..k + 1][..k] == convs[..k];
      ChainNoneStays(convs, k + 1, c);
    } else {
      assert convs[..k] == convs;
    }
  }

  /** `UNet.forward`, on channel counts: the down path pushes each down
      block's output on `x_skip`, the up path consumes `zip(upsample,
      up_blocks, x_skip)` in reverse, concatenating the matching skip. A
      well-wired network accepts exactly its input channel count and yields
      its output channel count. */
  method Forward(net: UNet, c: int) returns (r: Option<int>)
    ensures WellWired(net) ==> r == if c == InChannels(net) then Some(OutChannels(net)) else None
  {
    var x, skip := DownPath(net, c);
    if x.None? {
      return None;
    }
    var b := ResidualForward(net.bottleneck, x.value);
    if b.None? {
      return None;
    }
    var y := UpPath(net, b.value, skip);
    if y.None? {
      return None;
    }
    r := ApplyConv(net.outputLayer, y.value);
  }

  /** The down path of `forward`: each down block, its output pushed on
      `x_skip`, then its downsampling. A well-wired network accepts exactly
      its input channel count here, and pushes the down blocks' outputs in
      order. */
  method DownPath(net: UNet, c: int) returns (x: Option<int>, skip: seq<int>)
    ensures DownWired(net) ==> (x.Some? <==> c == InOf(net.downBlocks[0]))
    ensures DownWired(net) && x.Some? ==>
      && x.value == net.downsample[|net.downBlocks| - 1].outC
      && |skip| == |net.downBlocks|
      && forall j :: 0 <= j < |skip| ==> skip[j] == OutOf(net.downBlocks[j])
  {
    var cur := c;
    skip := [];
    var down := Min(|net.downBlocks|, |net.downsample|);
    for i := 0 to down
      invariant |skip| == i
      invariant DownWired(net) ==> down == |net.downBlocks|
      invariant DownWired(net) && i == 0 ==> cur == c
      invariant DownWired(net) && i > 0 ==> c == InOf(net.downBlocks[0]) && cur == net.downsample[i - 1].outC
      invariant DownWired(net) ==> forall j :: 0 <= j < i ==> skip[j] == OutOf(net.downBlocks[j])
    {
      var y := ResidualForward(net.downBlocks[i], cur);
      if y.None? {
        return None, skip;
      }
      skip := skip + [y.value];
      var z := ApplyConv(net.downsample[i], y.value);
      if z.None? {
        return None, skip;
      }
      cur := z.value;
    }
    x := Some(cur);
  }

  /** The up path of `forward`: `zip(upsample, up_blocks, x_skip)` walked
      in reverse, each upsampled tensor concatenated with its skip before
      its up block. Fed the bottleneck's output and the down blocks'
      outputs, a well-wired network ends at the first up block's output. */
  method UpPath(net: UNet, c: int, skip: seq<int>) returns (y: Option<int>)
    ensures WellWired(net) && c == OutOf(net.bottleneck) && |skip| == |net.downBlocks|
      && (forall j :: 0 <= j < |skip| ==> skip[j] == OutOf(net.downBlocks[j]))
      ==> y == Some(OutOf(net.upBlocks[0]))
  {
    var x := c;
    var up := Min(Min(|net.upsample|, |net.upBlocks|), |skip|);
    var i := up;
    ghost var fed := WellWired(net) && c == OutOf(net.bottleneck) && |skip| == |net.downBlocks|
      && (forall j :: 0 <= j < |skip| ==> skip[j] == OutOf(net.downBlocks[j]));
    while i > 0
      invariant 0 <= i <= up
      invariant fed ==> up == |net.downBlocks|
      invariant fed ==> x == if i == up then OutOf(net.bottleneck) else OutOf(net.upBlocks[i])
    {
      i := i - 1;
      var u := ApplyConvT(net.upsample[i], x);
      if u.None? {
        return None;
      }
      var z := ResidualForward(net.upBlocks[i], u.value + skip[i]);
      if z.None? {
        return None;
      }
      x := z.value;
    }
    y := Some(x);
  }
}
