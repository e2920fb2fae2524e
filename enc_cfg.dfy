/**
 * The four configuration domains the H.264 control layer merges
 * (picture preparation, rate control, H.264 codec options, slice split),
 * their change bits, and the merge-validate-rollback rule of each domain as
 * pure functions on the records.
 *
 * Each record carries a `change` mask; a merge copies the field groups whose
 * bit is set in the source mask, ORs the mask into the destination's mask,
 * validates (preparation and rate control only) and restores the whole
 * pre-call record when validation fails.
 *
 * The change-bit values and the enumeration bounds are defined in headers
 * outside this model; each change bit here is a distinct bit position
 * (the comment gives the mask value), which is all the proofs rely on.
 */
module EncCfg {
  import opened MppBase

  const SZ_1K: int := 1024
  const SZ_1M: int := 0x10_0000  // SZ_1K * SZ_1K

  /* ---------------- picture preparation (MppEncPrepCfg) ---------------- */

  const PREP_CFG_CHANGE_INPUT: nat := 0  // 0x1
  const PREP_CFG_CHANGE_FORMAT: nat := 2  // 0x4
  const PREP_CFG_CHANGE_ROTATION: nat := 4  // 0x10
  const PREP_CFG_CHANGE_MIRRORING: nat := 5  // 0x20
  const PREP_CFG_CHANGE_DENOISE: nat := 8  // 0x100
  const PREP_CFG_CHANGE_SHARPEN: nat := 9  // 0x200

  /** MppEncRotationCfg */
  const ROT_0: int := 0
  const ROT_90: int := 1
  const ROT_180: int := 2
  const ROT_270: int := 3

  predicate IsQuarterTurn(rotation: int) {
    rotation == ROT_90 || rotation == ROT_270
  }

  datatype PrepCfg = PrepCfg(
    change: Mask,
    width: int, height: int, horStride: int, verStride: int,
    format: int, color: int, range: int,
    rotation: int, mirroring: int, denoise: int, sharpen: int)

  /** The preparation merge before validation: each field group taken from
      the source when its bit is set, and the mask ORed in. The INPUT group
      stores the source size swapped when the rotation in force after this
      merge is a quarter turn. */
  function PrepApplied(dst: PrepCfg, src: PrepCfg): PrepCfg {
    var m := src.change;
    var format := Has(m, PREP_CFG_CHANGE_FORMAT);
    var input := Has(m, PREP_CFG_CHANGE_INPUT);
    var rotation := if Has(m, PREP_CFG_CHANGE_ROTATION) then src.rotation else dst.rotation;
    var swap := IsQuarterTurn(rotation);
    PrepCfg(
      change := dst.change + m,
      width := if !input then dst.width else if swap then src.height else src.width,
      height := if !input then dst.height else if swap then src.width else src.height,
      horStride := if input then src.horStride else dst.horStride,
      verStride := if input then src.verStride else dst.verStride,
      format := if format then src.format else dst.format,
      color := if format then src.color else dst.color,
      range := if format then src.range else dst.range,
      rotation := rotation,
      mirroring := if Has(m, PREP_CFG_CHANGE_MIRRORING) then src.mirroring else dst.mirroring,
      denoise := if Has(m, PREP_CFG_CHANGE_DENOISE) then src.denoise else dst.denoise,
      sharpen := if Has(m, PREP_CFG_CHANGE_SHARPEN) then src.sharpen else dst.sharpen)
  }

  /** The size check of the preparation merge: under a quarter turn the stored
      height is compared with the horizontal stride and the width with the
      vertical one. */
  predicate PrepSizeOk(c: PrepCfg) {
    if IsQuarterTurn(c.rotation)
    then !(c.height > c.horStride || c.width > c.verStride)
    else !(c.width > c.horStride || c.height > c.verStride)
  }

  /** Outcome of one merge: the destination record after the call and the
      status code returned. */
  datatype Merge<T> = Merge(cfg: T, ret: int)

  /** h264e_proc_prep_cfg: nothing happens for an empty mask; otherwise the
      merged record is kept if it passes the size check and the whole
      pre-call record is restored if it does not. */
  function ProcPrep(dst: PrepCfg, src: PrepCfg): (o: Merge<PrepCfg>)
    ensures o.ret == MPP_OK || o.ret == MPP_ERR_VALUE
    ensures o.ret == MPP_ERR_VALUE ==> o.cfg == dst
    ensures o.ret == MPP_OK ==> o.cfg.change == dst.change + src.change
    ensures o.ret == MPP_OK && src.change != {} ==> PrepSizeOk(o.cfg)
  {
    if src.change == {} then Merge(dst, MPP_OK)
    else
      var merged := PrepApplied(dst, src);
      if PrepSizeOk(merged) then Merge(merged, MPP_OK) else Merge(dst, MPP_ERR_VALUE)
  }

  /** The preparation field groups that are copied verbatim under their bit. */
  datatype PrepGroup = PrepFormat | PrepRotation | PrepMirroring | PrepDenoise | PrepSharpen

  function PrepGroupBit(g: PrepGroup): nat {
    match g
    case PrepFormat => PREP_CFG_CHANGE_FORMAT
    case PrepRotation => PREP_CFG_CHANGE_ROTATION
    case PrepMirroring => PREP_CFG_CHANGE_MIRRORING
    case PrepDenoise => PREP_CFG_CHANGE_DENOISE
    case PrepSharpen => PREP_CFG_CHANGE_SHARPEN
  }

  function PrepGroupFields(c: PrepCfg, g: PrepGroup): seq<int> {
    match g
    case PrepFormat => [c.format, c.color, c.range]
    case PrepRotation => [c.rotation]
    case PrepMirroring => [c.mirroring]
    case PrepDenoise => [c.denoise]
    case PrepSharpen => [c.sharpen]
  }

  /** `r` is `dst` with the groups selected by `src.change` taken from `src`:
      verbatim groups copied, the INPUT group copied with width and height
      exchanged under the quarter turn `r` ends up with, everything else kept,
      and the mask accumulated. */
  ghost predicate PrepMaskedCopy(dst: PrepCfg, src: PrepCfg, r: PrepCfg) {
    var m := src.change;
    && r.change == dst.change + m
    && (forall g :: PrepGroupFields(r, g) ==
          if Has(m, PrepGroupBit(g)) then PrepGroupFields(src, g) else PrepGroupFields(dst, g))
    && if Has(m, PREP_CFG_CHANGE_INPUT) then
         && r.horStride == src.horStride && r.verStride == src.verStride
         && (if IsQuarterTurn(r.rotation) then r.width == src.height && r.height == src.width
             else r.width == src.width && r.height == src.height)
       else
         r.width == dst.width && r.height == dst.height
         && r.horStride == dst.horStride && r.verStride == dst.verStride
  }

  /* ---------------- rate control (MppEncRcCfg) ---------------- */

  const RC_CFG_CHANGE_RC_MODE: nat := 0  // 0x1
  const RC_CFG_CHANGE_QUALITY: nat := 1  // 0x2
  const RC_CFG_CHANGE_BPS: nat := 2  // 0x4
  const RC_CFG_CHANGE_FPS_IN: nat := 5  // 0x20
  const RC_CFG_CHANGE_FPS_OUT: nat := 6  // 0x40
  const RC_CFG_CHANGE_GOP: nat := 8  // 0x100
  const RC_CFG_CHANGE_MAX_REENC: nat := 11  // 0x800

  /** MppEncRcMode: VBR, CBR, FIXQP, AVBR, then the BUTT bound. */
  const RC_MODE_VBR: int := 0
  const RC_MODE_CBR: int := 1
  const RC_MODE_FIXQP: int := 2
  const RC_MODE_BUTT: int := 4
  /** MppEncRcQuality: WORST .. BEST, CQP, AQ_ONLY, then the BUTT bound. */
  const RC_QUALITY_MEDIUM: int := 2
  const RC_QUALITY_BUTT: int := 7

  datatype RcCfg = RcCfg(
    change: Mask,
    rcMode: int, quality: int,
    bpsTarget: int, bpsMax: int, bpsMin: int,
    fpsInFlex: int, fpsInNum: int, fpsInDenorm: int,
    fpsOutFlex: int, fpsOutNum: int, fpsOutDenorm: int,
    gop: int, maxReencTimes: int)

  /** The copies of h264e_proc_rc_cfg: each group of `dst` whose bit is
      set in `src.change` is taken from `src`. */
  function RcCopied(dst: RcCfg, src: RcCfg): RcCfg {
    var m := src.change;
    var bps := Has(m, RC_CFG_CHANGE_BPS);
    var fpsIn := Has(m, RC_CFG_CHANGE_FPS_IN);
    var fpsOut := Has(m, RC_CFG_CHANGE_FPS_OUT);
    dst.(
      rcMode := if Has(m, RC_CFG_CHANGE_RC_MODE) then src.rcMode else dst.rcMode,
      quality := if Has(m, RC_CFG_CHANGE_QUALITY) then src.quality else dst.quality,
      bpsTarget := if bps then src.bpsTarget else dst.bpsTarget,
      bpsMax := if bps then src.bpsMax else dst.bpsMax,
      bpsMin := if bps then src.bpsMin else dst.bpsMin,
      fpsInFlex := if fpsIn then src.fpsInFlex else dst.fpsInFlex,
      fpsInNum := if fpsIn then src.fpsInNum else dst.fpsInNum,
      fpsInDenorm := if fpsIn then src.fpsInDenorm else dst.fpsInDenorm,
      fpsOutFlex := if fpsOut then src.fpsOutFlex else dst.fpsOutFlex,
      fpsOutNum := if fpsOut then src.fpsOutNum else dst.fpsOutNum,
      fpsOutDenorm := if fpsOut then src.fpsOutDenorm else dst.fpsOutDenorm,
      gop := if Has(m, RC_CFG_CHANGE_GOP) then src.gop else dst.gop,
      maxReencTimes := if Has(m, RC_CFG_CHANGE_MAX_REENC) then src.maxReencTimes else dst.maxReencTimes)
  }

  /** The rate-control record after the copies, with the caller's mask
      ORed in. */
  function RcApplied(dst: RcCfg, src: RcCfg): RcCfg {
    RcCopied(dst, src).(change := dst.change + src.change)
  }

  /** A bitrate the rate-control merge accepts: strictly between 1K and 100M. */
  predicate BpsInRange(bps: int) {
    !(bps >= 100 * SZ_1M || bps <= 1 * SZ_1K)
  }

  /** The checks of the rate-control merge, applied to the whole merged
      record (so bitrates this call did not change are re-checked). The
      mode and quality are enumerations without negative members, which
      compare as unsigned: a negative value counts as a huge one and fails
      the `>= BUTT` test. */
  predicate RcAcceptable(c: RcCfg) {
    && 0 <= c.rcMode < RC_MODE_BUTT
    && 0 <= c.quality < RC_QUALITY_BUTT
    && (c.rcMode != RC_MODE_FIXQP ==>
          BpsInRange(c.bpsTarget) && BpsInRange(c.bpsMax) && BpsInRange(c.bpsMin))
  }

  /** h264e_proc_rc_cfg */
  function ProcRc(dst: RcCfg, src: RcCfg): (o: Merge<RcCfg>)
    ensures o.ret == MPP_OK || o.ret == MPP_ERR_VALUE
    ensures o.ret == MPP_ERR_VALUE ==> o.cfg == dst
    ensures o.ret == MPP_OK ==> o.cfg.change == dst.change + src.change
    ensures o.ret == MPP_OK && src.change != {} ==> RcAcceptable(o.cfg)
  {
    if src.change == {} then Merge(dst, MPP_OK)
    else
      var merged := RcApplied(dst, src);
      if RcAcceptable(merged) then Merge(merged, MPP_OK) else Merge(dst, MPP_ERR_VALUE)
  }

  datatype RcGroup = RcMode | RcQuality | RcBps | RcFpsIn | RcFpsOut | RcGop | RcMaxReenc

  function RcGroupBit(g: RcGroup): nat {
    match g
    case RcMode => RC_CFG_CHANGE_RC_MODE
    case RcQuality => RC_CFG_CHANGE_QUALITY
    case RcBps => RC_CFG_CHANGE_BPS
    case RcFpsIn => RC_CFG_CHANGE_FPS_IN
    case RcFpsOut => RC_CFG_CHANGE_FPS_OUT
    case RcGop => RC_CFG_CHANGE_GOP
    case RcMaxReenc => RC_CFG_CHANGE_MAX_REENC
  }

  function RcGroupFields(c: RcCfg, g: RcGroup): seq<int> {
    match g
    case RcMode => [c.rcMode]
    case RcQuality => [c.quality]
    case RcBps => [c.bpsTarget, c.bpsMax, c.bpsMin]
    case RcFpsIn => [c.fpsInFlex, c.fpsInNum, c.fpsInDenorm]
    case RcFpsOut => [c.fpsOutFlex, c.fpsOutNum, c.fpsOutDenorm]
    case RcGop => [c.gop]
    case RcMaxReenc => [c.maxReencTimes]
  }

  ghost predicate RcMaskedCopy(dst: RcCfg, src: RcCfg, r: RcCfg) {
    && r.change == dst.change + src.change
    && forall g :: RcGroupFields(r, g) ==
         if Has(src.change, RcGroupBit(g)) then RcGroupFields(src, g) else RcGroupFields(dst, g)
  }

  /* ---------------- H.264 codec options (MppEncH264Cfg) ---------------- */

  const H264_CFG_STREAM_TYPE: nat := 0  // 0x1
  const H264_CFG_CHANGE_PROFILE: nat := 1  // 0x2
  const H264_CFG_CHANGE_ENTROPY: nat := 2  // 0x4
  const H264_CFG_CHANGE_TRANS_8x8: nat := 4  // 0x10
  const H264_CFG_CHANGE_CONST_INTRA: nat := 6  // 0x40
  const H264_CFG_CHANGE_CHROMA_QP: nat := 7  // 0x80
  const H264_CFG_CHANGE_DEBLOCKING: nat := 8  // 0x100
  const H264_CFG_CHANGE_LONG_TERM: nat := 9  // 0x200
  const H264_CFG_CHANGE_SCALING_LIST: nat := 10  // 0x400
  const H264_CFG_CHANGE_QP_LIMIT: nat := 16  // 0x10000
  const H264_CFG_CHANGE_INTRA_REFRESH: nat := 17  // 0x20000
  const H264_CFG_CHANGE_MAX_LTR: nat := 18  // 0x40000
  const H264_CFG_CHANGE_MAX_TID: nat := 19  // 0x80000
  const H264_CFG_CHANGE_ADD_PREFIX: nat := 20  // 0x100000
  const H264_CFG_CHANGE_BASE_LAYER_PID: nat := 21  // 0x200000
  const H264_CFG_CHANGE_VUI: nat := 28  // 0x10000000

  /** H264Profile / H264Level codes used by the defaults. */
  const H264_PROFILE_BASELINE: int := 66
  const H264_LEVEL_3_1: int := 31

  /** The VUI sub-record is copied as a whole and is abstracted to one value
      here, 0 standing for the zeroed sub-record. */
  datatype H264Cfg = H264Cfg(
    change: Mask,
    streamType: int,
    profile: int, level: int,
    entropyCodingMode: int, cabacInitIdc: int,
    transform8x8Mode: int,
    constrainedIntraPredMode: int,
    chromaCbQpOffset: int, chromaCrQpOffset: int,
    deblockDisable: int, deblockOffsetAlpha: int, deblockOffsetBeta: int,
    useLongterm: int,
    scalingListMode: int,
    qpInit: int, qpMax: int, qpMin: int, qpMaxStep: int,
    intraRefreshMode: int, intraRefreshArg: int,
    maxLtrFrames: int,
    maxTid: int,
    addPrefix: int,
    baseLayerPid: int,
    vui: int)

  /** The copies of h264e_proc_h264_cfg from the stream type to the
      long-term reference switch: each group of `dst` whose bit is set in
      `src.change` is taken from `src`. */
  function H264CodingTools(dst: H264Cfg, src: H264Cfg): H264Cfg {
    var m := src.change;
    var profile := Has(m, H264_CFG_CHANGE_PROFILE);
    var entropy := Has(m, H264_CFG_CHANGE_ENTROPY);
    var chroma := Has(m, H264_CFG_CHANGE_CHROMA_QP);
    var deblock := Has(m, H264_CFG_CHANGE_DEBLOCKING);
    dst.(
      streamType := if Has(m, H264_CFG_STREAM_TYPE) then src.streamType else dst.streamType,
      profile := if profile then src.profile else dst.profile,
      level := if profile then src.level else dst.level,
      entropyCodingMode := if entropy then src.entropyCodingMode else dst.entropyCodingMode,
      cabacInitIdc := if entropy then src.cabacInitIdc else dst.cabacInitIdc,
      transform8x8Mode := if Has(m, H264_CFG_CHANGE_TRANS_8x8) then src.transform8x8Mode else dst.transform8x8Mode,
      constrainedIntraPredMode :=
        if Has(m, H264_CFG_CHANGE_CONST_INTRA) then src.constrainedIntraPredMode else dst.constrainedIntraPredMode,
      chromaCbQpOffset := if chroma then src.chromaCbQpOffset else dst.chromaCbQpOffset,
      chromaCrQpOffset := if chroma then src.chromaCrQpOffset else dst.chromaCrQpOffset,
      deblockDisable := if deblock then src.deblockDisable else dst.deblockDisable,
      deblockOffsetAlpha := if deblock then src.deblockOffsetAlpha else dst.deblockOffsetAlpha,
      deblockOffsetBeta := if deblock then src.deblockOffsetBeta else dst.deblockOffsetBeta,
      useLongterm := if Has(m, H264_CFG_CHANGE_LONG_TERM) then src.useLongterm else dst.useLongterm)
  }

  /** The copies of h264e_proc_h264_cfg from the scaling-list mode to the
      VUI. */
  function H264Controls(dst: H264Cfg, src: H264Cfg): H264Cfg {
    var m := src.change;
    var qp := Has(m, H264_CFG_CHANGE_QP_LIMIT);
    var refresh := Has(m, H264_CFG_CHANGE_INTRA_REFRESH);
    dst.(
      scalingListMode := if Has(m, H264_CFG_CHANGE_SCALING_LIST) then src.scalingListMode else dst.scalingListMode,
      qpInit := if qp then src.qpInit else dst.qpInit,
      qpMax := if qp then src.qpMax else dst.qpMax,
      qpMin := if qp then src.qpMin else dst.qpMin,
      qpMaxStep := if qp then src.qpMaxStep else dst.qpMaxStep,
      intraRefreshMode := if refresh then src.intraRefreshMode else dst.intraRefreshMode,
      intraRefreshArg := if refresh then src.intraRefreshArg else dst.intraRefreshArg,
      maxLtrFrames := if Has(m, H264_CFG_CHANGE_MAX_LTR) then src.maxLtrFrames else dst.maxLtrFrames,
      maxTid := if Has(m, H264_CFG_CHANGE_MAX_TID) then src.maxTid else dst.maxTid,
      addPrefix := if Has(m, H264_CFG_CHANGE_ADD_PREFIX) then src.addPrefix else dst.addPrefix,
      baseLayerPid := if Has(m, H264_CFG_CHANGE_BASE_LAYER_PID) then src.baseLayerPid else dst.baseLayerPid,
      vui := if Has(m, H264_CFG_CHANGE_VUI) then src.vui else dst.vui)
  }

  /** The codec record after all sixteen conditional copies, with the
      caller's mask ORed in. */
  function H264Applied(dst: H264Cfg, src: H264Cfg): H264Cfg {
    H264Controls(H264CodingTools(dst, src), src).(change := dst.change + src.change)
  }

  /** h264e_proc_h264_cfg: no value checks, never fails. */
  function ProcH264(dst: H264Cfg, src: H264Cfg): (o: Merge<H264Cfg>)
    ensures o.ret == MPP_OK && o.cfg.change == dst.change + src.change
    ensures src.change == {} ==> o.cfg == dst
  {
    Merge(H264Applied(dst, src), MPP_OK)
  }

  datatype H264Group =
    | H264StreamType | H264Profile | H264Entropy | H264Trans8x8 | H264ConstIntra | H264ChromaQp
    | H264Deblocking | H264LongTerm | H264ScalingList | H264QpLimit | H264IntraRefresh
    | H264MaxLtr | H264MaxTid | H264AddPrefix | H264BaseLayerPid | H264Vui

  function H264GroupBit(g: H264Group): nat {
    match g
    case H264StreamType => H264_CFG_STREAM_TYPE
    case H264Profile => H264_CFG_CHANGE_PROFILE
    case H264Entropy => H264_CFG_CHANGE_ENTROPY
    case H264Trans8x8 => H264_CFG_CHANGE_TRANS_8x8
    case H264ConstIntra => H264_CFG_CHANGE_CONST_INTRA
    case H264ChromaQp => H264_CFG_CHANGE_CHROMA_QP
    case H264Deblocking => H264_CFG_CHANGE_DEBLOCKING
    case H264LongTerm => H264_CFG_CHANGE_LONG_TERM
    case H264ScalingList => H264_CFG_CHANGE_SCALING_LIST
    case H264QpLimit => H264_CFG_CHANGE_QP_LIMIT
    case H264IntraRefresh => H264_CFG_CHANGE_INTRA_REFRESH
    case H264MaxLtr => H264_CFG_CHANGE_MAX_LTR
    case H264MaxTid => H264_CFG_CHANGE_MAX_TID
    case H264AddPrefix => H264_CFG_CHANGE_ADD_PREFIX
    case H264BaseLayerPid => H264_CFG_CHANGE_BASE_LAYER_PID
    case H264Vui => H264_CFG_CHANGE_VUI
  }

  function H264GroupFields(c: H264Cfg, g: H264Group): seq<int> {
    match g
    case H264StreamType => [c.streamType]
    case H264Profile => [c.profile, c.level]
    case H264Entropy => [c.entropyCodingMode, c.cabacInitIdc]
    case H264Trans8x8 => [c.transform8x8Mode]
    case H264ConstIntra => [c.constrainedIntraPredMode]
    case H264ChromaQp => [c.chromaCbQpOffset, c.chromaCrQpOffset]
    case H264Deblocking => [c.deblockDisable, c.deblockOffsetAlpha, c.deblockOffsetBeta]
    case H264LongTerm => [c.useLongterm]
    case H264ScalingList => [c.scalingListMode]
    case H264QpLimit => [c.qpInit, c.qpMax, c.qpMin, c.qpMaxStep]
    case H264IntraRefresh => [c.intraRefreshMode, c.intraRefreshArg]
    case H264MaxLtr => [c.maxLtrFrames]
    case H264MaxTid => [c.maxTid]
    case H264AddPrefix => [c.addPrefix]
    case H264BaseLayerPid => [c.baseLayerPid]
    case H264Vui => [c.vui]
  }

  ghost predicate H264MaskedCopy(dst: H264Cfg, src: H264Cfg, r: H264Cfg) {
    && r.change == dst.change + src.change
    && forall g :: H264GroupFields(r, g) ==
         if Has(src.change, H264GroupBit(g)) then H264GroupFields(src, g) else H264GroupFields(dst, g)
  }

  /* ---------------- slice split (MppEncSliceSplit) ---------------- */

  const SPLIT_CFG_CHANGE_MODE: nat := 0  // 0x1
  const SPLIT_CFG_CHANGE_ARG: nat := 1  // 0x2

  datatype SplitCfg = SplitCfg(change: Mask, splitMode: int, splitArg: int)

  /** h264e_proc_split_cfg: no value checks, never fails. */
  function ProcSplit(dst: SplitCfg, src: SplitCfg): (o: Merge<SplitCfg>)
    ensures o.ret == MPP_OK && o.cfg.change == dst.change + src.change
    ensures src.change == {} ==> o.cfg == dst
  {
    var m := src.change;
    var mode := Has(m, SPLIT_CFG_CHANGE_MODE);
    Merge(SplitCfg(
            change := dst.change + m,
            splitMode := if mode then src.splitMode else dst.splitMode,
            splitArg := if mode || Has(m, SPLIT_CFG_CHANGE_ARG) then src.splitArg else dst.splitArg),
          MPP_OK)
  }
}
