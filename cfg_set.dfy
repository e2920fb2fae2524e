/**
 * The encoder's live configuration set (MppEncCfgSet, restricted to the four
 * domains the H.264 control layer merges) as an object whose domain records
 * the merge routines overwrite in place, and the defaults the encoder
 * installs when it is initialised.
 */
module CfgSetting {
  import opened MppBase
  import opened EncCfg

  /** MPP_FMT_YUV420SP */
  const MPP_FMT_YUV420SP: int := 0

  /** The four domain records of a configuration set, as one value. */
  datatype CfgValue = CfgValue(prep: PrepCfg, rc: RcCfg, h264: H264Cfg, split: SplitCfg)

  class CfgSet {
    var prep: PrepCfg
    var rc: RcCfg
    var h264: H264Cfg
    var split: SplitCfg

    constructor (v: CfgValue)
      ensures Value() == v
    {
      prep := v.prep;
      rc := v.rc;
      h264 := v.h264;
      split := v.split;
    }

    function Value(): CfgValue
      reads this
    {
      CfgValue(prep, rc, h264, split)
    }

    /** h264e_proc_prep_cfg on this set's preparation record: the masked
        groups are overwritten one by one, the mask is ORed in, the result
        is checked against the strides and the saved record is put back when
        the check fails. */
    method ProcPrepCfg(src: PrepCfg) returns (ret: int)
      modifies this`prep
      ensures prep == ProcPrep(old(prep), src).cfg
      ensures ret == ProcPrep(old(prep), src).ret
    {
      ret := MPP_OK;
      var change := src.change;
      if change != {} {
        var bak := prep;
        if Has(change, PREP_CFG_CHANGE_FORMAT) {
          prep := prep.(format := src.format, color := src.color, range := src.range);
        }
        if Has(change, PREP_CFG_CHANGE_ROTATION) {
          prep := prep.(rotation := src.rotation);
        }
        if Has(change, PREP_CFG_CHANGE_MIRRORING) {
          prep := prep.(mirroring := src.mirroring);
        }
        if Has(change, PREP_CFG_CHANGE_DENOISE) {
          prep := prep.(denoise := src.denoise);
        }
        if Has(change, PREP_CFG_CHANGE_SHARPEN) {
          prep := prep.(sharpen := src.sharpen);
        }
        if Has(change, PREP_CFG_CHANGE_INPUT) {
          if IsQuarterTurn(prep.rotation) {
            prep := prep.(width := src.height, height := src.width);
          } else {
            prep := prep.(width := src.width, height := src.height);
          }
          prep := prep.(horStride := src.horStride, verStride := src.verStride);
        }
        prep := prep.(change := prep.change + change);
        assert prep == PrepApplied(bak, src);
        if IsQuarterTurn(prep.rotation) {
          if prep.height > prep.horStride || prep.width > prep.verStride {
            ret := MPP_ERR_VALUE;
          }
        } else {
          if prep.width > prep.horStride || prep.height > prep.verStride {
            ret := MPP_ERR_VALUE;
          }
        }
        if ret != MPP_OK {
          prep := bak;
        }
      }
    }

    /** h264e_proc_rc_cfg on this set's rate-control record. */
    method ProcRcCfg(src: RcCfg) returns (ret: int)
      modifies this`rc
      ensures rc == ProcRc(old(rc), src).cfg
      ensures ret == ProcRc(old(rc), src).ret
    {
      ret := MPP_OK;
      var change := src.change;
      if change != {} {
        var bak := rc;
        CopyRcGroups(src);
        ret := CheckRc(rc);
        rc := rc.(change := rc.change + change);
        assert rc == RcApplied(bak, src);
        if ret != MPP_OK {
          rc := bak;
        }
      }
    }

    /** The copies of h264e_proc_rc_cfg. */
    method CopyRcGroups(src: RcCfg)
      modifies this`rc
      ensures rc == RcCopied(old(rc), src)
    {
      var change := src.change;
      if Has(change, RC_CFG_CHANGE_RC_MODE) {
        rc := rc.(rcMode := src.rcMode);
      }
      if Has(change, RC_CFG_CHANGE_QUALITY) {
        rc := rc.(quality := src.quality);
      }
      if Has(change, RC_CFG_CHANGE_BPS) {
        rc := rc.(bpsTarget := src.bpsTarget, bpsMax := src.bpsMax, bpsMin := src.bpsMin);
      }
      if Has(change, RC_CFG_CHANGE_FPS_IN) {
        rc := rc.(fpsInFlex := src.fpsInFlex, fpsInNum := src.fpsInNum, fpsInDenorm := src.fpsInDenorm);
      }
      if Has(change, RC_CFG_CHANGE_FPS_OUT) {
        rc := rc.(fpsOutFlex := src.fpsOutFlex, fpsOutNum := src.fpsOutNum, fpsOutDenorm := src.fpsOutDenorm);
      }
      if Has(change, RC_CFG_CHANGE_GOP) {
        rc := rc.(gop := src.gop);
      }
      if Has(change, RC_CFG_CHANGE_MAX_REENC) {
        rc := rc.(maxReencTimes := src.maxReencTimes);
      }
    }

    /** The value checks of h264e_proc_rc_cfg on a merged record. The mode
        and quality enumerations compare as unsigned, so a negative value
        is out of range. */
    method CheckRc(c: RcCfg) returns (ret: int)
      ensures ret == MPP_OK <==> RcAcceptable(c)
      ensures ret == MPP_OK || ret == MPP_ERR_VALUE
    {
      ret := MPP_OK;
      if c.rcMode < 0 || c.rcMode >= RC_MODE_BUTT {
        ret := MPP_ERR_VALUE;
      }
      if c.quality < 0 || c.quality >= RC_QUALITY_BUTT {
        ret := MPP_ERR_VALUE;
      }
      if c.rcMode != RC_MODE_FIXQP {
        if (c.bpsTarget >= 100 * SZ_1M || c.bpsTarget <= 1 * SZ_1K)
           || (c.bpsMax >= 100 * SZ_1M || c.bpsMax <= 1 * SZ_1K)
           || (c.bpsMin >= 100 * SZ_1M || c.bpsMin <= 1 * SZ_1K)
        {
          ret := MPP_ERR_VALUE;
        }
      }
    }

    /** h264e_proc_h264_cfg on this set's codec record: no checks. The
        sixteen conditional copies of the C routine are split, in their
        order, between the two helpers below. */
    method ProcH264Cfg(src: H264Cfg) returns (ret: int)
      modifies this`h264
      ensures h264 == ProcH264(old(h264), src).cfg
      ensures ret == ProcH264(old(h264), src).ret
    {
      ret := MPP_OK;
      var change := src.change;
      CopyCodingToolGroups(src);
      CopyControlGroups(src);
      h264 := h264.(change := h264.change + change);
    }

    /** The copies of h264e_proc_h264_cfg from the stream type to the
        long-term reference switch. */
    method CopyCodingToolGroups(src: H264Cfg)
      modifies this`h264
      ensures h264 == H264CodingTools(old(h264), src)
    {
      var change := src.change;
      if Has(change, H264_CFG_STREAM_TYPE) {
        h264 := h264.(streamType := src.streamType);
      }
      if Has(change, H264_CFG_CHANGE_PROFILE) {
        h264 := h264.(profile := src.profile, level := src.level);
      }
      if Has(change, H264_CFG_CHANGE_ENTROPY) {
        h264 := h264.(entropyCodingMode := src.entropyCodingMode, cabacInitIdc := src.cabacInitIdc);
      }
      if Has(change, H264_CFG_CHANGE_TRANS_8x8) {
        h264 := h264.(transform8x8Mode := src.transform8x8Mode);
      }
      if Has(change, H264_CFG_CHANGE_CONST_INTRA) {
        h264 := h264.(constrainedIntraPredMode := src.constrainedIntraPredMode);
      }
      if Has(change, H264_CFG_CHANGE_CHROMA_QP) {
        h264 := h264.(chromaCbQpOffset := src.chromaCbQpOffset, chromaCrQpOffset := src.chromaCrQpOffset);
      }
      if Has(change, H264_CFG_CHANGE_DEBLOCKING) {
        h264 := h264.(deblockDisable := src.deblockDisable, deblockOffsetAlpha := src.deblockOffsetAlpha,
                      deblockOffsetBeta := src.deblockOffsetBeta);
      }
      if Has(change, H264_CFG_CHANGE_LONG_TERM) {
        h264 := h264.(useLongterm := src.useLongterm);
      }
    }

    /** The copies of h264e_proc_h264_cfg from the scaling-list mode to the
        VUI. */
    method CopyControlGroups(src: H264Cfg)
      modifies this`h264
      ensures h264 == H264Controls(old(h264), src)
    {
      var change := src.change;
      if Has(change, H264_CFG_CHANGE_SCALING_LIST) {
        h264 := h264.(scalingListMode := src.scalingListMode);
      }
      if Has(change, H264_CFG_CHANGE_QP_LIMIT) {
        h264 := h264.(qpInit := src.qpInit, qpMax := src.qpMax, qpMin := src.qpMin, qpMaxStep := src.qpMaxStep);
      }
      if Has(change, H264_CFG_CHANGE_INTRA_REFRESH) {
        h264 := h264.(intraRefreshMode := src.intraRefreshMode, intraRefreshArg := src.intraRefreshArg);
      }
      if Has(change, H264_CFG_CHANGE_MAX_LTR) {
        h264 := h264.(maxLtrFrames := src.maxLtrFrames);
      }
      if Has(change, H264_CFG_CHANGE_MAX_TID) {
        h264 := h264.(maxTid := src.maxTid);
      }
      if Has(change, H264_CFG_CHANGE_ADD_PREFIX) {
        h264 := h264.(addPrefix := src.addPrefix);
      }
      if Has(change, H264_CFG_CHANGE_BASE_LAYER_PID) {
        h264 := h264.(baseLayerPid := src.baseLayerPid);
      }
      if Has(change, H264_CFG_CHANGE_VUI) {
        h264 := h264.(vui := src.vui);
      }
    }

    /** h264e_proc_split_cfg on this set's slice-split record: no checks. */
    method ProcSplitCfg(src: SplitCfg) returns (ret: int)
      modifies this`split
      ensures split == ProcSplit(old(split), src).cfg
      ensures ret == ProcSplit(old(split), src).ret
    {
      ret := MPP_OK;
      var change := src.change;
      if Has(change, SPLIT_CFG_CHANGE_MODE) {
        split := split.(splitMode := src.splitMode, splitArg := src.splitArg);
      }
      if Has(change, SPLIT_CFG_CHANGE_ARG) {
        split := split.(splitArg := src.splitArg);
      }
      split := split.(change := split.change + change);
    }

    /** init_h264e_cfg_set: the codec record is zeroed and given the baseline
        profile and QP defaults, the preparation record is set to 1280x720
        YUV420SP (colour, range and sharpen are not touched), the rate-control
        record to CBR at 2 Mbps with 30 fps and a 60-frame GOP; the slice
        split is left alone. */
    method InitDefaults()
      modifies this
      ensures prep == DefaultPrep(old(prep))
      ensures rc == DEFAULT_RC
      ensures h264 == DEFAULT_H264
      ensures split == old(split)
    {
      h264 := H264Cfg({}, 0, 0, 0, 0, 0, 0, 0, 0, 0, 0, 0, 0, 0, 0, 0, 0, 0, 0, 0, 0, 0, 0, 0, 0, 0);
      h264 := h264.(profile := H264_PROFILE_BASELINE, level := H264_LEVEL_3_1);
      h264 := h264.(qpInit := 26, qpMax := 48, qpMin := 8, qpMaxStep := 8);

      prep := prep.(change := {}, width := 1280, height := 720, horStride := 1280, verStride := 720);
      prep := prep.(format := MPP_FMT_YUV420SP, rotation := ROT_0, mirroring := 0, denoise := 0);

      rc := rc.(change := {}, rcMode := RC_MODE_CBR, quality := RC_QUALITY_MEDIUM);
      // 2 Mbps, the maximum at 5/4 and the minimum at 3/4 of it
      rc := rc.(bpsTarget := 2_000_000, bpsMax := 2_500_000, bpsMin := 1_500_000);
      rc := rc.(fpsInFlex := 0, fpsInNum := 30, fpsInDenorm := 1);
      rc := rc.(fpsOutFlex := 0, fpsOutNum := 30, fpsOutDenorm := 1);
      rc := rc.(gop := 60, maxReencTimes := 1);
    }
  }

  /** The default preparation record; the fields the initialiser does not set
      keep their previous values. */
  function DefaultPrep(p: PrepCfg): PrepCfg {
    p.(change := {}, width := 1280, height := 720, horStride := 1280, verStride := 720,
       format := MPP_FMT_YUV420SP, rotation := ROT_0, mirroring := 0, denoise := 0)
  }

  const DEFAULT_RC: RcCfg := RcCfg(
    change := {}, rcMode := RC_MODE_CBR, quality := RC_QUALITY_MEDIUM,
    bpsTarget := 2_000_000, bpsMax := 2_500_000, bpsMin := 1_500_000,
    fpsInFlex := 0, fpsInNum := 30, fpsInDenorm := 1,
    fpsOutFlex := 0, fpsOutNum := 30, fpsOutDenorm := 1,
    gop := 60, maxReencTimes := 1)

  const DEFAULT_H264: H264Cfg := H264Cfg(
    change := {}, streamType := 0, profile := H264_PROFILE_BASELINE, level := H264_LEVEL_3_1,
    entropyCodingMode := 0, cabacInitIdc := 0, transform8x8Mode := 0, constrainedIntraPredMode := 0,
    chromaCbQpOffset := 0, chromaCrQpOffset := 0,
    deblockDisable := 0, deblockOffsetAlpha := 0, deblockOffsetBeta := 0,
    useLongterm := 0, scalingListMode := 0,
    qpInit := 26, qpMax := 48, qpMin := 8, qpMaxStep := 8,
    intraRefreshMode := 0, intraRefreshArg := 0, maxLtrFrames := 0, maxTid := 0,
    addPrefix := 0, baseLayerPid := 0, vui := 0)

  /** The defaults pass both validations: the default picture fits its
      strides and the default rate control is in range, with no pending
      change. */
  lemma DefaultsAreValid(p: PrepCfg)
    ensures PrepSizeOk(DefaultPrep(p)) && DefaultPrep(p).change == {}
    ensures RcAcceptable(DEFAULT_RC) && DEFAULT_RC.change == {}
    ensures DEFAULT_RC.bpsMin < DEFAULT_RC.bpsTarget < DEFAULT_RC.bpsMax
  {
  }

  /** Starting from the defaults, a bitrate-only change to 4/5/3 Mbps is
      accepted and leaves the GOP and mode alone, while a bitrate-only change
      whose minimum is 1K is rejected and the defaults stay. */
  lemma DefaultBitrateUpdate(src: RcCfg)
    requires src.change == {RC_CFG_CHANGE_BPS}
    ensures src.bpsTarget == 4_000_000 && src.bpsMax == 5_000_000 && src.bpsMin == 3_000_000 ==>
      ProcRc(DEFAULT_RC, src) == Merge(DEFAULT_RC.(change := {RC_CFG_CHANGE_BPS}, bpsTarget := 4_000_000,
                                                   bpsMax := 5_000_000, bpsMin := 3_000_000), MPP_OK)
    ensures src.bpsMin == SZ_1K ==> ProcRc(DEFAULT_RC, src) == Merge(DEFAULT_RC, MPP_ERR_VALUE)
  {
    assert DEFAULT_RC.change + src.change == {RC_CFG_CHANGE_BPS};
  }
}
