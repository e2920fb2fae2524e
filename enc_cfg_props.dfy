/**
 * What the configuration merges promise: masked copy with nothing else
 * changed, accumulation of the change mask, atomic rollback on rejection,
 * the size and bitrate checks, and that the codec and split merges never
 * fail.
 */
module EncCfgProps {
  import opened MppBase
  import opened EncCfg

  /* ---------------- series of merges ---------------- */

  /** Folding a series of merges of one domain into one record, as repeated
      control commands do to the encoder's stored configuration. */
  function MergeAll<C>(proc: (C, C) -> Merge<C>, dst: C, srcs: seq<C>): C
    decreases |srcs|
  {
    if srcs == [] then dst else MergeAll(proc, proc(dst, srcs[0]).cfg, srcs[1..])
  }

  /** The union of the masks of the merges in the series that were accepted. */
  function AcceptedChanges<C>(proc: (C, C) -> Merge<C>, change: C -> Mask, dst: C, srcs: seq<C>): Mask
    decreases |srcs|
  {
    if srcs == [] then {}
    else
      var o := proc(dst, srcs[0]);
      var rest := AcceptedChanges(proc, change, o.cfg, srcs[1..]);
      if o.ret == MPP_OK then change(srcs[0]) + rest else rest
  }

  /** The union of the masks of every merge in the series. */
  function UnionAll<C>(change: C -> Mask, srcs: seq<C>): Mask
    decreases |srcs|
  {
    if srcs == [] then {} else change(srcs[0]) + UnionAll(change, srcs[1..])
  }

  /** When a merge never fails, every merge of a series is accepted. */
  lemma {:induction false} NeverFailingAcceptsAll<C(!new)>(
    proc: (C, C) -> Merge<C>, change: C -> Mask, dst: C, srcs: seq<C>)
    requires forall d, s :: proc(d, s).ret == MPP_OK
    ensures AcceptedChanges(proc, change, dst, srcs) == UnionAll(change, srcs)
    decreases |srcs|
  {
    if srcs != [] {
      NeverFailingAcceptsAll(proc, change, proc(dst, srcs[0]).cfg, srcs[1..]);
    }
  }

  /** A merge that ORs its mask in when it succeeds and leaves the mask alone
      when it fails. */
  ghost predicate MaskMerge<C(!new)>(proc: (C, C) -> Merge<C>, change: C -> Mask) {
    && (forall d, s :: proc(d, s).ret == MPP_OK ==> change(proc(d, s).cfg) == change(d) + change(s))
    && (forall d, s :: proc(d, s).ret != MPP_OK ==> change(proc(d, s).cfg) == change(d))
  }

  /** Over a series of such merges the accumulated mask is the initial mask
      ORed with the masks of exactly the accepted merges. */
  lemma {:induction false} ChangeAccumulates<C(!new)>(proc: (C, C) -> Merge<C>, change: C -> Mask, dst: C, srcs: seq<C>)
    requires MaskMerge(proc, change)
    ensures change(MergeAll(proc, dst, srcs)) == change(dst) + AcceptedChanges(proc, change, dst, srcs)
    decreases |srcs|
  {
    if srcs != [] {
      ChangeAccumulates(proc, change, proc(dst, srcs[0]).cfg, srcs[1..]);
    }
  }

  /* ---------------- picture preparation ---------------- */

  /** The unvalidated preparation merge is the masked copy. */
  lemma PrepAppliedIsMaskedCopy(dst: PrepCfg, src: PrepCfg)
    ensures PrepMaskedCopy(dst, src, PrepApplied(dst, src))
  {
    PrepAppliedGroups(dst, src);
    PrepAppliedInput(dst, src);
  }

  lemma PrepAppliedGroups(dst: PrepCfg, src: PrepCfg)
    ensures forall g ::
              PrepGroupFields(PrepApplied(dst, src), g) ==
                if Has(src.change, PrepGroupBit(g)) then PrepGroupFields(src, g) else PrepGroupFields(dst, g)
  {
    var r := PrepApplied(dst, src);
    forall g: PrepGroup
      ensures PrepGroupFields(r, g) ==
        if Has(src.change, PrepGroupBit(g)) then PrepGroupFields(src, g) else PrepGroupFields(dst, g)
    {
      match g
      case PrepFormat =>
      case PrepRotation =>
      case PrepMirroring =>
      case PrepDenoise =>
      case PrepSharpen =>
    }
  }

  lemma PrepAppliedInput(dst: PrepCfg, src: PrepCfg)
    ensures var r := PrepApplied(dst, src);
      if Has(src.change, PREP_CFG_CHANGE_INPUT) then
        && r.horStride == src.horStride && r.verStride == src.verStride
        && (if IsQuarterTurn(r.rotation) then r.width == src.height && r.height == src.width
            else r.width == src.width && r.height == src.height)
      else
        r.width == dst.width && r.height == dst.height
        && r.horStride == dst.horStride && r.verStride == dst.verStride
  {
  }

  /** The masked-copy relation leaves no field free: the groups, the INPUT
      fields and the mask together cover the whole record. */
  lemma PrepMaskedCopyUnique(dst: PrepCfg, src: PrepCfg, r1: PrepCfg, r2: PrepCfg)
    requires PrepMaskedCopy(dst, src, r1) && PrepMaskedCopy(dst, src, r2)
    ensures r1 == r2
  {
    assert PrepGroupFields(r1, PrepFormat) == PrepGroupFields(r2, PrepFormat);
    assert PrepGroupFields(r1, PrepRotation) == PrepGroupFields(r2, PrepRotation);
    assert PrepGroupFields(r1, PrepMirroring) == PrepGroupFields(r2, PrepMirroring);
    assert PrepGroupFields(r1, PrepDenoise) == PrepGroupFields(r2, PrepDenoise);
    assert PrepGroupFields(r1, PrepSharpen) == PrepGroupFields(r2, PrepSharpen);
  }

  /** h264e_proc_prep_cfg: an empty mask is a no-op, a rejection restores the
      record exactly (mask included) and returns MPP_ERR_VALUE, an acceptance
      is the masked copy and passes the size check. */
  lemma PrepMergeContract(dst: PrepCfg, src: PrepCfg)
    ensures var o := ProcPrep(dst, src);
      && (o.ret == MPP_OK || o.ret == MPP_ERR_VALUE)
      && (src.change == {} ==> o == Merge(dst, MPP_OK))
      && (o.ret == MPP_ERR_VALUE ==> o.cfg == dst && src.change != {})
      && (src.change != {} ==> (o.ret == MPP_OK <==> PrepSizeOk(PrepApplied(dst, src))))
      && (o.ret == MPP_OK && src.change != {} ==> PrepMaskedCopy(dst, src, o.cfg) && PrepSizeOk(o.cfg))
  {
    PrepAppliedIsMaskedCopy(dst, src);
  }

  /** With the INPUT bit set, the swap of the stored size under a quarter turn
      and the swapped check cancel: the change is accepted exactly when the
      source width and height fit the source strides, whatever the rotation. */
  lemma PrepInputAcceptance(dst: PrepCfg, src: PrepCfg)
    requires Has(src.change, PREP_CFG_CHANGE_INPUT)
    ensures ProcPrep(dst, src).ret == MPP_OK <==>
            src.width <= src.horStride && src.height <= src.verStride
  {
  }

  /** Without the INPUT bit the stored size is checked as it is, against the
      rotation in force after this call: turning a stored 1280x720 with
      strides 1280/720 by a quarter turn is rejected. */
  lemma PrepRotationWithoutInput(dst: PrepCfg, src: PrepCfg)
    requires src.change == {PREP_CFG_CHANGE_ROTATION} && src.rotation == ROT_90
    requires dst.width == 1280 && dst.height == 720 && dst.horStride == 1280 && dst.verStride == 720
    ensures ProcPrep(dst, src) == Merge(dst, MPP_ERR_VALUE)
  {
  }

  /** A quarter-turn INPUT change of 1280x720 with strides 720/1280 is
      rejected: the stored size becomes 720x1280 and the quarter-turn check
      compares the height 1280 with the horizontal stride 720. */
  lemma PrepQuarterTurnScenario(dst: PrepCfg)
    ensures var src := dst.(change := {PREP_CFG_CHANGE_INPUT, PREP_CFG_CHANGE_ROTATION},
                            rotation := ROT_90, width := 1280, height := 720,
                            horStride := 720, verStride := 1280);
            ProcPrep(dst, src) == Merge(dst, MPP_ERR_VALUE)
  {
    var src := dst.(change := {PREP_CFG_CHANGE_INPUT, PREP_CFG_CHANGE_ROTATION},
                    rotation := ROT_90, width := 1280, height := 720,
                    horStride := 720, verStride := 1280);
    PrepInputAcceptance(dst, src);
  }

  /** One preparation merge adds its mask to the accumulated mask exactly
      when it is accepted. */
  lemma PrepMergeChange(dst: PrepCfg, src: PrepCfg)
    ensures ProcPrep(dst, src).ret == MPP_OK ==> ProcPrep(dst, src).cfg.change == dst.change + src.change
    ensures ProcPrep(dst, src).ret != MPP_OK ==> ProcPrep(dst, src).cfg.change == dst.change
  {
  }

  function PrepChange(c: PrepCfg): Mask {
    c.change
  }

  /** After a series of preparation merges the accumulated mask holds the
      masks of exactly the accepted merges. */
  lemma PrepChangeAccumulates(dst: PrepCfg, srcs: seq<PrepCfg>)
    ensures MergeAll(ProcPrep, dst, srcs).change == dst.change + AcceptedChanges(ProcPrep, PrepChange, dst, srcs)
  {
    forall d: PrepCfg, s: PrepCfg
      ensures ProcPrep(d, s).ret == MPP_OK ==> ProcPrep(d, s).cfg.change == d.change + s.change
      ensures ProcPrep(d, s).ret != MPP_OK ==> ProcPrep(d, s).cfg.change == d.change
    {
      PrepMergeChange(d, s);
    }
    ChangeAccumulates(ProcPrep, PrepChange, dst, srcs);
  }

  /* ---------------- rate control ---------------- */

  lemma RcAppliedIsMaskedCopy(dst: RcCfg, src: RcCfg)
    ensures RcMaskedCopy(dst, src, RcApplied(dst, src))
  {
    var r := RcApplied(dst, src);
    forall g: RcGroup
      ensures RcGroupFields(r, g) ==
        if Has(src.change, RcGroupBit(g)) then RcGroupFields(src, g) else RcGroupFields(dst, g)
    {
      match g
      case RcMode =>
      case RcQuality =>
      case RcBps =>
      case RcFpsIn =>
      case RcFpsOut =>
      case RcGop =>
      case RcMaxReenc =>
    }
  }

  lemma RcMaskedCopyUnique(dst: RcCfg, src: RcCfg, r1: RcCfg, r2: RcCfg)
    requires RcMaskedCopy(dst, src, r1) && RcMaskedCopy(dst, src, r2)
    ensures r1 == r2
  {
    assert RcGroupFields(r1, RcMode) == RcGroupFields(r2, RcMode);
    assert RcGroupFields(r1, RcQuality) == RcGroupFields(r2, RcQuality);
    assert RcGroupFields(r1, RcBps) == RcGroupFields(r2, RcBps);
    assert RcGroupFields(r1, RcFpsIn) == RcGroupFields(r2, RcFpsIn);
    assert RcGroupFields(r1, RcFpsOut) == RcGroupFields(r2, RcFpsOut);
    assert RcGroupFields(r1, RcGop) == RcGroupFields(r2, RcGop);
    assert RcGroupFields(r1, RcMaxReenc) == RcGroupFields(r2, RcMaxReenc);
  }

  /** h264e_proc_rc_cfg: same shape as the preparation merge, with the mode,
      quality and bitrate checks applied to the whole merged record. */
  lemma RcMergeContract(dst: RcCfg, src: RcCfg)
    ensures var o := ProcRc(dst, src);
      && (o.ret == MPP_OK || o.ret == MPP_ERR_VALUE)
      && (src.change == {} ==> o == Merge(dst, MPP_OK))
      && (o.ret == MPP_ERR_VALUE ==> o.cfg == dst && src.change != {})
      && (src.change != {} ==> (o.ret == MPP_OK <==> RcAcceptable(RcApplied(dst, src))))
      && (o.ret == MPP_OK && src.change != {} ==> RcMaskedCopy(dst, src, o.cfg) && RcAcceptable(o.cfg))
  {
    RcAppliedIsMaskedCopy(dst, src);
  }

  /** Bitrates this call leaves alone are checked again: a GOP-only change
      onto a record whose stored target bitrate is out of range fails and
      leaves the record as it was. */
  lemma RcRechecksUnchangedBitrate(dst: RcCfg, src: RcCfg)
    requires src.change == {RC_CFG_CHANGE_GOP}
    requires dst.rcMode == RC_MODE_CBR && !BpsInRange(dst.bpsTarget)
    ensures ProcRc(dst, src) == Merge(dst, MPP_ERR_VALUE)
  {
  }

  /** The bitrate bounds are exclusive and binary: 1*SZ_1K and 100*SZ_1M are
      rejected, the values just inside them and the decimal 100000000 are
      accepted. */
  lemma BitrateBounds()
    ensures !BpsInRange(1024) && BpsInRange(1025)
    ensures BpsInRange(104_857_599) && !BpsInRange(104_857_600)
    ensures BpsInRange(1000 * 1000 * 100) && !BpsInRange(1000)
  {
  }

  /** Under FIXQP the bitrates are not checked at all. */
  lemma RcFixQpSkipsBitrate(c: RcCfg)
    requires c.rcMode == RC_MODE_FIXQP && 0 <= c.quality < RC_QUALITY_BUTT
    ensures RcAcceptable(c)
  {
  }

  function RcChange(c: RcCfg): Mask {
    c.change
  }

  /** After a series of rate-control merges the accumulated mask is the
      initial mask ORed with the masks of exactly the accepted merges;
      rejected ones leave no trace. */
  lemma RcChangeAccumulates(dst: RcCfg, srcs: seq<RcCfg>)
    ensures MergeAll(ProcRc, dst, srcs).change == dst.change + AcceptedChanges(ProcRc, RcChange, dst, srcs)
  {
    forall d: RcCfg, s: RcCfg
      ensures ProcRc(d, s).ret == MPP_OK ==> ProcRc(d, s).cfg.change == d.change + s.change
      ensures ProcRc(d, s).ret != MPP_OK ==> ProcRc(d, s).cfg.change == d.change
    {
      RcMergeChange(d, s);
    }
    ChangeAccumulates(ProcRc, RcChange, dst, srcs);
  }

  /** One rate-control merge adds its mask to the accumulated mask exactly
      when it is accepted. */
  lemma RcMergeChange(dst: RcCfg, src: RcCfg)
    ensures ProcRc(dst, src).ret == MPP_OK ==> ProcRc(dst, src).cfg.change == dst.change + src.change
    ensures ProcRc(dst, src).ret != MPP_OK ==> ProcRc(dst, src).cfg.change == dst.change
  {
  }

  /* ---------------- H.264 codec options ---------------- */

  lemma H264AppliedIsMaskedCopy(dst: H264Cfg, src: H264Cfg)
    ensures H264MaskedCopy(dst, src, H264Applied(dst, src))
  {
    var r := H264Applied(dst, src);
    forall g: H264Group
      ensures H264GroupFields(r, g) ==
        if Has(src.change, H264GroupBit(g)) then H264GroupFields(src, g) else H264GroupFields(dst, g)
    {
      match g
      case H264StreamType =>
      case H264Profile =>
      case H264Entropy =>
      case H264Trans8x8 =>
      case H264ConstIntra =>
      case H264ChromaQp =>
      case H264Deblocking =>
      case H264LongTerm =>
      case H264ScalingList =>
      case H264QpLimit =>
      case H264IntraRefresh =>
      case H264MaxLtr =>
      case H264MaxTid =>
      case H264AddPrefix =>
      case H264BaseLayerPid =>
      case H264Vui =>
    }
  }

  lemma H264MaskedCopyUnique(dst: H264Cfg, src: H264Cfg, r1: H264Cfg, r2: H264Cfg)
    requires H264MaskedCopy(dst, src, r1) && H264MaskedCopy(dst, src, r2)
    ensures r1 == r2
  {
    assert H264GroupFields(r1, H264StreamType) == H264GroupFields(r2, H264StreamType);
    assert H264GroupFields(r1, H264Profile) == H264GroupFields(r2, H264Profile);
    assert H264GroupFields(r1, H264Entropy) == H264GroupFields(r2, H264Entropy);
    assert H264GroupFields(r1, H264Trans8x8) == H264GroupFields(r2, H264Trans8x8);
    assert H264GroupFields(r1, H264ConstIntra) == H264GroupFields(r2, H264ConstIntra);
    assert H264GroupFields(r1, H264ChromaQp) == H264GroupFields(r2, H264ChromaQp);
    assert H264GroupFields(r1, H264Deblocking) == H264GroupFields(r2, H264Deblocking);
    assert H264GroupFields(r1, H264LongTerm) == H264GroupFields(r2, H264LongTerm);
    assert H264GroupFields(r1, H264ScalingList) == H264GroupFields(r2, H264ScalingList);
    assert H264GroupFields(r1, H264QpLimit) == H264GroupFields(r2, H264QpLimit);
    assert H264GroupFields(r1, H264IntraRefresh) == H264GroupFields(r2, H264IntraRefresh);
    assert H264GroupFields(r1, H264MaxLtr) == H264GroupFields(r2, H264MaxLtr);
    assert H264GroupFields(r1, H264MaxTid) == H264GroupFields(r2, H264MaxTid);
    assert H264GroupFields(r1, H264AddPrefix) == H264GroupFields(r2, H264AddPrefix);
    assert H264GroupFields(r1, H264BaseLayerPid) == H264GroupFields(r2, H264BaseLayerPid);
    assert H264GroupFields(r1, H264Vui) == H264GroupFields(r2, H264Vui);
  }

  /** h264e_proc_h264_cfg always returns MPP_OK and is the masked copy, even
      for an empty mask (which then changes nothing). */
  lemma H264MergeContract(dst: H264Cfg, src: H264Cfg)
    ensures var o := ProcH264(dst, src);
      && o.ret == MPP_OK
      && H264MaskedCopy(dst, src, o.cfg)
      && (src.change == {} ==> o.cfg == dst)
  {
    H264AppliedIsMaskedCopy(dst, src);
    if src.change == {} {
      H264MaskedCopyUnique(dst, src, ProcH264(dst, src).cfg, dst);
    }
  }

  function H264Change(c: H264Cfg): Mask {
    c.change
  }

  /** Codec merges never fail, so over a series every mask is accumulated. */
  lemma H264ChangeAccumulates(dst: H264Cfg, srcs: seq<H264Cfg>)
    ensures MergeAll(ProcH264, dst, srcs).change == dst.change + UnionAll(H264Change, srcs)
  {
    ChangeAccumulates(ProcH264, H264Change, dst, srcs);
    NeverFailingAcceptsAll(ProcH264, H264Change, dst, srcs);
  }

  /* ---------------- slice split ---------------- */

  /** h264e_proc_split_cfg always returns MPP_OK; the MODE bit copies both
      the mode and the argument, the ARG bit copies the argument. */
  lemma SplitMergeContract(dst: SplitCfg, src: SplitCfg)
    ensures var o := ProcSplit(dst, src);
      && o.ret == MPP_OK
      && o.cfg.change == dst.change + src.change
      && o.cfg.splitMode == (if Has(src.change, SPLIT_CFG_CHANGE_MODE) then src.splitMode else dst.splitMode)
      && o.cfg.splitArg ==
           (if Has(src.change, SPLIT_CFG_CHANGE_MODE) || Has(src.change, SPLIT_CFG_CHANGE_ARG)
            then src.splitArg else dst.splitArg)
  {
  }

  function SplitChange(c: SplitCfg): Mask {
    c.change
  }

  /** Split merges never fail either, so over a series every mask is
      accumulated. */
  lemma SplitChangeAccumulates(dst: SplitCfg, srcs: seq<SplitCfg>)
    ensures MergeAll(ProcSplit, dst, srcs).change == dst.change + UnionAll(SplitChange, srcs)
  {
    ChangeAccumulates(ProcSplit, SplitChange, dst, srcs);
    NeverFailingAcceptsAll(ProcSplit, SplitChange, dst, srcs);
  }
}
