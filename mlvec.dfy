/**
 * MLVEC, the multi-layer video encoding control of the H.264 encoder: a
 * context holding a static configuration (long-term reference budget,
 * temporal layer count, prefix NAL switch) and a dynamic, per-frame one
 * (long-term reference to mark, long-term reference to use, forced QP,
 * base layer priority). Setters merge caller records by mask; at the start
 * of a frame the pending long-term reference directives are turned into
 * force flags on the reference manager's per-frame record and consumed; the
 * rate-control setup projects the forced QP; the end of a frame resets the
 * single-shot directives.
 *
 * The caller's records are values here: a call returns the record as the C
 * code leaves it, and `None` stands for a NULL pointer.
 */
module Mlvec {
  import opened MppBase

  /* Change bits of the static configuration. */
  const MLVEC_CHANGE_LTR_FRAMES: nat := 0  // 0x00000001
  const MLVEC_CHANGE_MAX_TEMPORAL_LAYER_COUNT: nat := 1  // 0x00000002
  const MLVEC_CHANGE_ADD_PREFIX_NAL: nat := 2  // 0x00000004

  /* Change bits of the dynamic configuration. */
  const MLVEC_CHANGE_MARK_LTR: nat := 16  // 0x00010000
  const MLVEC_CHANGE_USE_LTR: nat := 17  // 0x00020000
  const MLVEC_CHANGE_FRAME_QP: nat := 18  // 0x00040000
  const MLVEC_CHANGE_BASE_LAYER_PID: nat := 19  // 0x00080000

  /* Force flags of the reference manager's per-frame record, the rate
     control's forced-QP flag and the "reference the long-term index" mode. */
  const ENC_FORCE_LT_REF_IDX: nat := 2  // 0x4
  const ENC_FORCE_REF_MODE: nat := 4  // 0x10
  const ENC_RC_FORCE_QP: nat := 0  // 0x1
  const REF_TO_LT_REF_IDX: int := 5

  /** H264eMlvecStaticCfg */
  datatype StaticCfg = StaticCfg(change: Mask, addPrefix: int, ltrFrames: int, maxTemporalLayerCount: int)

  /** H264eMlvecDynamicCfg */
  datatype DynamicCfg = DynamicCfg(
    change: Mask,
    maxTemporalLayerCount: int,
    markLtr: int,
    useLtr: int,
    frameQp: int,
    baseLayerPid: int)

  /** The members of MppEncRefFrmUsrCfg that frame start writes. */
  datatype RefFrmUsrCfg = RefFrmUsrCfg(forceFlag: Mask, forceLtIdx: int, forceRefMode: int, forceRefArg: int)

  /** EncRcForceCfg */
  datatype RcForceCfg = RcForceCfg(forceFlag: Mask, forceQp: int)

  /** The whole context (H264eMlvecCtxImpl) as one value. */
  datatype MlvecState = MlvecState(
    staticCfg: StaticCfg,
    dynamicCfg: DynamicCfg,
    staticCfgOld: StaticCfg,
    dynamicCfgOld: DynamicCfg,
    enabled: int,
    maxLtrIdx: int,
    curLtrIdx: int)

  const ZERO_STATIC: StaticCfg := StaticCfg({}, 0, 0, 0)
  const ZERO_DYNAMIC: DynamicCfg := DynamicCfg({}, 0, 0, 0, 0, 0)

  /** A context with every byte zero. */
  const ZERO_STATE: MlvecState := MlvecState(ZERO_STATIC, ZERO_DYNAMIC, ZERO_STATIC, ZERO_DYNAMIC, 0, 0, 0)

  /* ---------------- the specification on values ---------------- */

  /** reset_dynamic_cfg: the mask is cleared and the single-shot directives
      are set inactive; the forced QP and the layer count are kept. */
  function ResetDynamic(d: DynamicCfg): (r: DynamicCfg)
    ensures r.change == {} && r.markLtr == -1 && r.useLtr == -1 && r.baseLayerPid == -1
    ensures r.frameQp == d.frameQp && r.maxTemporalLayerCount == d.maxTemporalLayerCount
  {
    d.(change := {}, markLtr := -1, useLtr := -1, baseLayerPid := -1)
  }

  /** The context mlvec_init hands out. */
  function InitialState(): MlvecState {
    ZERO_STATE.(dynamicCfg := ResetDynamic(ZERO_DYNAMIC.(frameQp := -1)))
  }

  /** The static fields of `dst` whose bit is set in `cfg.change` taken from
      `cfg`, and the mask replaced by the caller's. */
  function StaticMerged(dst: StaticCfg, cfg: StaticCfg): StaticCfg {
    var m := cfg.change;
    StaticCfg(
      change := m,
      addPrefix := if Has(m, MLVEC_CHANGE_ADD_PREFIX_NAL) then cfg.addPrefix else dst.addPrefix,
      ltrFrames := if Has(m, MLVEC_CHANGE_LTR_FRAMES) then cfg.ltrFrames else dst.ltrFrames,
      maxTemporalLayerCount :=
        if Has(m, MLVEC_CHANGE_MAX_TEMPORAL_LAYER_COUNT) then cfg.maxTemporalLayerCount
        else dst.maxTemporalLayerCount)
  }

  /** The dynamic fields of `dst` whose bit is set in `cfg.change` taken from
      `cfg`, and the mask ORed in. */
  function DynamicMerged(dst: DynamicCfg, cfg: DynamicCfg): DynamicCfg {
    var m := cfg.change;
    DynamicCfg(
      change := dst.change + m,
      maxTemporalLayerCount := dst.maxTemporalLayerCount,
      markLtr := if Has(m, MLVEC_CHANGE_MARK_LTR) then cfg.markLtr else dst.markLtr,
      useLtr := if Has(m, MLVEC_CHANGE_USE_LTR) then cfg.useLtr else dst.useLtr,
      frameQp := if Has(m, MLVEC_CHANGE_FRAME_QP) then cfg.frameQp else dst.frameQp,
      baseLayerPid := if Has(m, MLVEC_CHANGE_BASE_LAYER_PID) then cfg.baseLayerPid else dst.baseLayerPid)
  }

  /** mlvec_set_static_config on a context: a NULL record zeroes it. */
  function SetStatic(s: MlvecState, cfg: Option<StaticCfg>): (r: MlvecState)
    ensures cfg.None? ==> r.dynamicCfg.frameQp == 0 && r.dynamicCfg.markLtr == 0 && r.staticCfg.change == {}
    ensures cfg.Some? ==> r.staticCfg.change == cfg.value.change && r.(staticCfg := s.staticCfg) == s
  {
    match cfg
    case None => ZERO_STATE
    case Some(c) => s.(staticCfg := StaticMerged(s.staticCfg, c))
  }

  /** mlvec_set_dynamic_config on a context: a NULL record zeroes it. */
  function SetDynamic(s: MlvecState, cfg: Option<DynamicCfg>): (r: MlvecState)
    ensures cfg.None? ==> r.dynamicCfg.frameQp == 0 && r.dynamicCfg.useLtr == 0 && r.staticCfg.change == {}
    ensures cfg.Some? ==>
              r.dynamicCfg.change == s.dynamicCfg.change + cfg.value.change && r.(dynamicCfg := s.dynamicCfg) == s
  {
    match cfg
    case None => ZERO_STATE
    case Some(c) => s.(dynamicCfg := DynamicMerged(s.dynamicCfg, c))
  }

  /** A caller's record after a setter has taken it: its mask is cleared. */
  function Consumed<T>(cfg: Option<T>, clear: T -> T): Option<T> {
    match cfg
    case None => None
    case Some(c) => Some(clear(c))
  }

  function ClearStatic(c: StaticCfg): StaticCfg { c.(change := {}) }
  function ClearDynamic(c: DynamicCfg): DynamicCfg { c.(change := {}) }

  /** The context after mlvec_frame_start: temporal layers switch the prefix
      NAL on, and each pending long-term reference directive is consumed. */
  function FrameStartState(s: MlvecState): (r: MlvecState)
    ensures r.dynamicCfg.markLtr < 0 && r.dynamicCfg.useLtr < 0
    ensures r.dynamicCfg.frameQp == s.dynamicCfg.frameQp && r.dynamicCfg.change == s.dynamicCfg.change
    ensures s.staticCfg.maxTemporalLayerCount != 0 ==> r.staticCfg.addPrefix == 1
    ensures r.staticCfg.(addPrefix := s.staticCfg.addPrefix) == s.staticCfg
  {
    var st := s.staticCfg;
    var dy := s.dynamicCfg;
    s.(staticCfg := if st.maxTemporalLayerCount != 0 then st.(addPrefix := 1) else st,
       dynamicCfg := dy.(markLtr := if dy.markLtr >= 0 then -1 else dy.markLtr,
                         useLtr := if dy.useLtr >= 0 then -1 else dy.useLtr))
  }

  /** The reference manager's per-frame record after mlvec_frame_start: a
      pending mark sets the long-term index to mark, a pending use sets the
      reference mode to that long-term index; other flags are kept. */
  function FrameStartUsr(s: MlvecState, u: RefFrmUsrCfg): (r: RefFrmUsrCfg)
    ensures u.forceFlag <= r.forceFlag
    ensures r.forceFlag - u.forceFlag <= {ENC_FORCE_LT_REF_IDX, ENC_FORCE_REF_MODE}
    ensures s.dynamicCfg.markLtr < 0 && s.dynamicCfg.useLtr < 0 ==> r == u
  {
    var dy := s.dynamicCfg;
    var marked :=
      if dy.markLtr >= 0 then u.(forceFlag := u.forceFlag + {ENC_FORCE_LT_REF_IDX}, forceLtIdx := dy.markLtr)
      else u;
    if dy.useLtr >= 0 then
      marked.(forceFlag := marked.forceFlag + {ENC_FORCE_REF_MODE},
              forceRefMode := REF_TO_LT_REF_IDX, forceRefArg := dy.useLtr)
    else marked
  }

  /** The rate-control force record mlvec_rc_setup writes. */
  function RcForce(s: MlvecState): (r: RcForceCfg)
    ensures ENC_RC_FORCE_QP in r.forceFlag <==> s.dynamicCfg.frameQp >= 0
    ensures r.forceFlag <= {ENC_RC_FORCE_QP}
    ensures r.forceQp >= 0 <==> s.dynamicCfg.frameQp >= 0
  {
    if s.dynamicCfg.frameQp >= 0 then RcForceCfg({ENC_RC_FORCE_QP}, s.dynamicCfg.frameQp)
    else RcForceCfg({}, -1)
  }

  /** The context after mlvec_frame_end. */
  function FrameEndState(s: MlvecState): (r: MlvecState)
    ensures r.staticCfg == s.staticCfg && r.dynamicCfg.frameQp == s.dynamicCfg.frameQp
    ensures r.dynamicCfg.change == {} && r.dynamicCfg.markLtr < 0 && r.dynamicCfg.useLtr < 0
  {
    s.(dynamicCfg := ResetDynamic(s.dynamicCfg))
  }

  /* ---------------- properties ---------------- */

  /** A fresh context has the QP, both long-term directives and the base
      layer priority inactive, no pending change and everything else zero:
      its first frame is neither forced nor given a QP. */
  lemma InitialSentinels(u: RefFrmUsrCfg)
    ensures var d := InitialState().dynamicCfg;
            d.frameQp == -1 && d.markLtr == -1 && d.useLtr == -1 && d.baseLayerPid == -1
            && d.change == {} && d.maxTemporalLayerCount == 0
    ensures InitialState().(dynamicCfg := ZERO_DYNAMIC) == ZERO_STATE
    ensures FrameStartUsr(InitialState(), u) == u
    ensures RcForce(InitialState()) == RcForceCfg({}, -1)
  {
  }

  /** The static setter copies exactly the selected fields and replaces the
      mask rather than accumulating it: two calls leave only the second
      caller's mask. */
  lemma StaticSetterReplacesMask(s: MlvecState, a: StaticCfg, b: StaticCfg)
    ensures SetStatic(SetStatic(s, Some(a)), Some(b)).staticCfg.change == b.change
    ensures SetStatic(s, Some(a)).(staticCfg := s.staticCfg) == s
    ensures var r := SetStatic(s, Some(a)).staticCfg;
            && (r.ltrFrames == if Has(a.change, MLVEC_CHANGE_LTR_FRAMES) then a.ltrFrames else s.staticCfg.ltrFrames)
            && (r.maxTemporalLayerCount ==
                if Has(a.change, MLVEC_CHANGE_MAX_TEMPORAL_LAYER_COUNT) then a.maxTemporalLayerCount
                else s.staticCfg.maxTemporalLayerCount)
            && (r.addPrefix == if Has(a.change, MLVEC_CHANGE_ADD_PREFIX_NAL) then a.addPrefix else s.staticCfg.addPrefix)
  {
  }

  /** The dynamic setter copies exactly the selected fields and accumulates
      the mask; the accumulated mask only disappears at the end of the
      frame. */
  lemma DynamicSetterAccumulatesMask(s: MlvecState, a: DynamicCfg, b: DynamicCfg)
    ensures SetDynamic(SetDynamic(s, Some(a)), Some(b)).dynamicCfg.change == s.dynamicCfg.change + a.change + b.change
    ensures SetDynamic(s, Some(a)).(dynamicCfg := s.dynamicCfg) == s
    ensures FrameEndState(SetDynamic(s, Some(a))).dynamicCfg.change == {}
    ensures var r := SetDynamic(s, Some(a)).dynamicCfg;
            && (r.markLtr == if Has(a.change, MLVEC_CHANGE_MARK_LTR) then a.markLtr else s.dynamicCfg.markLtr)
            && (r.useLtr == if Has(a.change, MLVEC_CHANGE_USE_LTR) then a.useLtr else s.dynamicCfg.useLtr)
            && (r.frameQp == if Has(a.change, MLVEC_CHANGE_FRAME_QP) then a.frameQp else s.dynamicCfg.frameQp)
            && (r.baseLayerPid ==
                if Has(a.change, MLVEC_CHANGE_BASE_LAYER_PID) then a.baseLayerPid else s.dynamicCfg.baseLayerPid)
  {
    assert s.dynamicCfg.change + a.change + b.change == (s.dynamicCfg.change + a.change) + b.change;
  }

  /** Frame start consumes what it acts on: afterwards no directive is
      pending, the record carries exactly the flags of the directives that
      were pending on top of its own, and a second frame start before any
      setter changes neither the record nor the context. */
  lemma FrameStartConsumesDirectives(s: MlvecState, u: RefFrmUsrCfg)
    ensures FrameStartState(s).dynamicCfg.markLtr < 0 && FrameStartState(s).dynamicCfg.useLtr < 0
    ensures FrameStartUsr(s, u).forceFlag ==
              u.forceFlag
              + (if s.dynamicCfg.markLtr >= 0 then {ENC_FORCE_LT_REF_IDX} else {})
              + (if s.dynamicCfg.useLtr >= 0 then {ENC_FORCE_REF_MODE} else {})
    ensures s.dynamicCfg.markLtr >= 0 ==> FrameStartUsr(s, u).forceLtIdx == s.dynamicCfg.markLtr
    ensures s.dynamicCfg.useLtr >= 0 ==>
              FrameStartUsr(s, u).forceRefMode == REF_TO_LT_REF_IDX
              && FrameStartUsr(s, u).forceRefArg == s.dynamicCfg.useLtr
    ensures FrameStartUsr(FrameStartState(s), u) == u
    ensures FrameStartState(FrameStartState(s)) == FrameStartState(s)
    ensures FrameStartState(s).dynamicCfg.frameQp == s.dynamicCfg.frameQp
  {
    var m := if s.dynamicCfg.markLtr >= 0 then {ENC_FORCE_LT_REF_IDX} else {};
    var k := if s.dynamicCfg.useLtr >= 0 then {ENC_FORCE_REF_MODE} else {};
    assert FrameStartUsr(s, u).forceFlag == u.forceFlag + m + k;
  }

  /** With temporal layers configured, frame start forces the prefix NAL on
      even when it was never asked for. */
  lemma TemporalLayersForcePrefix(s: MlvecState, count: int)
    requires count != 0
    ensures var c := StaticCfg({MLVEC_CHANGE_MAX_TEMPORAL_LAYER_COUNT}, 0, 0, count);
            FrameStartState(SetStatic(s, Some(c))).staticCfg.addPrefix == 1
  {
  }

  /** A NULL record given to either setter zeroes the whole context, so the
      directives read 0 rather than inactive: the next frame marks and uses
      long-term index 0 and is coded at QP 0. */
  lemma NullConfigDisables(s: MlvecState, u: RefFrmUsrCfg)
    ensures SetStatic(s, None) == ZERO_STATE && SetDynamic(s, None) == ZERO_STATE
    ensures FrameStartUsr(ZERO_STATE, u) ==
              u.(forceFlag := u.forceFlag + {ENC_FORCE_LT_REF_IDX, ENC_FORCE_REF_MODE},
                 forceLtIdx := 0, forceRefMode := REF_TO_LT_REF_IDX, forceRefArg := 0)
    ensures RcForce(ZERO_STATE) == RcForceCfg({ENC_RC_FORCE_QP}, 0)
  {
    assert u.forceFlag + {ENC_FORCE_LT_REF_IDX} + {ENC_FORCE_REF_MODE}
        == u.forceFlag + {ENC_FORCE_LT_REF_IDX, ENC_FORCE_REF_MODE};
  }

  /** Frame end keeps the forced QP and the static configuration, so the
      QP forced in one frame is forced again in the next. */
  lemma FrameEndKeepsQp(s: MlvecState)
    ensures FrameEndState(s).dynamicCfg.frameQp == s.dynamicCfg.frameQp
    ensures FrameEndState(s).staticCfg == s.staticCfg
    ensures RcForce(FrameEndState(s)) == RcForce(s)
  {
  }

  /* ---------------- a run of frames ---------------- */

  /** What one frame hands to the reference manager and the rate control. */
  datatype FrameOut = FrameOut(usr: RefFrmUsrCfg, rc: RcForceCfg)

  /** Frames run without setter calls in between: frame start on the
      reference manager's record of that frame, rate-control setup, frame
      end. */
  function RunFrames(s: MlvecState, usrs: seq<RefFrmUsrCfg>): (outs: seq<FrameOut>)
    ensures |outs| == |usrs|
    ensures usrs != [] ==> outs[0].usr == FrameStartUsr(s, usrs[0])
    decreases |usrs|
  {
    if usrs == [] then []
    else
      var started := FrameStartState(s);
      [FrameOut(FrameStartUsr(s, usrs[0]), RcForce(started))] + RunFrames(FrameEndState(started), usrs[1..])
  }

  /** A forced QP stays forced on every frame of the run: nothing but a
      setter clears it. */
  lemma {:induction false} ForcedQpPersists(s: MlvecState, usrs: seq<RefFrmUsrCfg>)
    requires s.dynamicCfg.frameQp >= 0
    ensures forall i :: 0 <= i < |usrs| ==>
              RunFrames(s, usrs)[i].rc == RcForceCfg({ENC_RC_FORCE_QP}, s.dynamicCfg.frameQp)
    decreases |usrs|
  {
    if usrs != [] {
      var next := FrameEndState(FrameStartState(s));
      ForcedQpPersists(next, usrs[1..]);
      assert RunFrames(s, usrs) == [RunFrames(s, usrs)[0]] + RunFrames(next, usrs[1..]);
    }
  }

  /** Without a pending directive no frame of the run is forced. */
  lemma {:induction false} NoDirectiveNoForce(s: MlvecState, usrs: seq<RefFrmUsrCfg>)
    requires s.dynamicCfg.markLtr < 0 && s.dynamicCfg.useLtr < 0
    ensures forall i :: 0 <= i < |usrs| ==> RunFrames(s, usrs)[i].usr == usrs[i]
    decreases |usrs|
  {
    if usrs != [] {
      var next := FrameEndState(FrameStartState(s));
      NoDirectiveNoForce(next, usrs[1..]);
      assert RunFrames(s, usrs) == [RunFrames(s, usrs)[0]] + RunFrames(next, usrs[1..]);
    }
  }

  /** The long-term reference directives set before a run act on its first
      frame only. */
  lemma DirectivesActOnce(s: MlvecState, usrs: seq<RefFrmUsrCfg>)
    requires usrs != []
    ensures RunFrames(s, usrs)[0].usr == FrameStartUsr(s, usrs[0])
    ensures forall i :: 1 <= i < |usrs| ==> RunFrames(s, usrs)[i].usr == usrs[i]
  {
    var next := FrameEndState(FrameStartState(s));
    NoDirectiveNoForce(next, usrs[1..]);
    assert RunFrames(s, usrs) == [RunFrames(s, usrs)[0]] + RunFrames(next, usrs[1..]);
  }

  /* ---------------- the context object and the entry points ---------------- */

  /** H264eMlvecCtxImpl */
  class MlvecCtx {
    var staticCfg: StaticCfg
    var dynamicCfg: DynamicCfg
    var staticCfgOld: StaticCfg
    var dynamicCfgOld: DynamicCfg
    var enabled: int
    var maxLtrIdx: int
    var curLtrIdx: int

    function State(): MlvecState
      reads this
    {
      MlvecState(staticCfg, dynamicCfg, staticCfgOld, dynamicCfgOld, enabled, maxLtrIdx, curLtrIdx)
    }

    /** A zero-filled allocation (mpp_calloc). */
    constructor ()
      ensures State() == ZERO_STATE
    {
      staticCfg := ZERO_STATIC;
      dynamicCfg := ZERO_DYNAMIC;
      staticCfgOld := ZERO_STATIC;
      dynamicCfgOld := ZERO_DYNAMIC;
      enabled := 0;
      maxLtrIdx := 0;
      curLtrIdx := 0;
    }

    /** memset of the whole context to zero. */
    method Clear()
      modifies this
      ensures State() == ZERO_STATE
    {
      staticCfg := ZERO_STATIC;
      dynamicCfg := ZERO_DYNAMIC;
      staticCfgOld := ZERO_STATIC;
      dynamicCfgOld := ZERO_DYNAMIC;
      enabled := 0;
      maxLtrIdx := 0;
      curLtrIdx := 0;
    }

    /** reset_dynamic_cfg on this context's dynamic configuration. */
    method ResetDynamicCfg()
      modifies this`dynamicCfg
      ensures dynamicCfg == ResetDynamic(old(dynamicCfg))
    {
      dynamicCfg := dynamicCfg.(change := {});
      dynamicCfg := dynamicCfg.(markLtr := -1);
      dynamicCfg := dynamicCfg.(useLtr := -1);
      dynamicCfg := dynamicCfg.(baseLayerPid := -1);
    }
  }

  /** The caller's handle variable that mlvec_init fills in. */
  class MlvecHandle {
    var ctx: MlvecCtx?

    constructor ()
      ensures ctx == null
    {
      ctx := null;
    }
  }

  /** mlvec_init: a NULL handle pointer is refused; otherwise the handle
      receives a new context in its initial state. */
  method MlvecInit(handle: MlvecHandle?) returns (ret: int)
    modifies handle
    ensures handle == null ==> ret == MPP_ERR_NULL_PTR
    ensures handle != null ==>
              && ret == MPP_OK && handle.ctx != null && fresh(handle.ctx)
              && handle.ctx.State() == InitialState()
  {
    if handle == null {
      return MPP_ERR_NULL_PTR;
    }
    var p := new MlvecCtx();
    p.dynamicCfg := p.dynamicCfg.(frameQp := -1);
    p.ResetDynamicCfg();
    handle.ctx := p;
    ret := MPP_OK;
  }

  /** mlvec_set_static_config */
  method SetStaticConfig(ctx: MlvecCtx?, cfg: Option<StaticCfg>) returns (ret: int, cfgAfter: Option<StaticCfg>)
    modifies ctx
    ensures ctx == null ==> ret == MPP_ERR_NULL_PTR && cfgAfter == cfg
    ensures ctx != null ==>
              && ret == MPP_OK
              && ctx.State() == SetStatic(old(ctx.State()), cfg)
              && cfgAfter == Consumed(cfg, ClearStatic)
  {
    if ctx == null {
      return MPP_ERR_NULL_PTR, cfg;
    }
    ret := MPP_OK;
    match cfg
    case None =>
      ctx.Clear();
      cfgAfter := None;
    case Some(c) =>
      var change := c.change;
      if Has(change, MLVEC_CHANGE_LTR_FRAMES) {
        ctx.staticCfg := ctx.staticCfg.(ltrFrames := c.ltrFrames);
      }
      if Has(change, MLVEC_CHANGE_MAX_TEMPORAL_LAYER_COUNT) {
        ctx.staticCfg := ctx.staticCfg.(maxTemporalLayerCount := c.maxTemporalLayerCount);
      }
      if Has(change, MLVEC_CHANGE_ADD_PREFIX_NAL) {
        ctx.staticCfg := ctx.staticCfg.(addPrefix := c.addPrefix);
      }
      ctx.staticCfg := ctx.staticCfg.(change := change);
      cfgAfter := Some(c.(change := {}));
  }

  /** mlvec_set_dynamic_config */
  method SetDynamicConfig(ctx: MlvecCtx?, cfg: Option<DynamicCfg>) returns (ret: int, cfgAfter: Option<DynamicCfg>)
    modifies ctx
    ensures ctx == null ==> ret == MPP_ERR_NULL_PTR && cfgAfter == cfg
    ensures ctx != null ==>
              && ret == MPP_OK
              && ctx.State() == SetDynamic(old(ctx.State()), cfg)
              && cfgAfter == Consumed(cfg, ClearDynamic)
  {
    if ctx == null {
      return MPP_ERR_NULL_PTR, cfg;
    }
    ret := MPP_OK;
    match cfg
    case None =>
      ctx.Clear();
      cfgAfter := None;
    case Some(c) =>
      var change := c.change;
      if Has(change, MLVEC_CHANGE_MARK_LTR) {
        ctx.dynamicCfg := ctx.dynamicCfg.(markLtr := c.markLtr);
      }
      if Has(change, MLVEC_CHANGE_USE_LTR) {
        ctx.dynamicCfg := ctx.dynamicCfg.(useLtr := c.useLtr);
      }
      if Has(change, MLVEC_CHANGE_FRAME_QP) {
        ctx.dynamicCfg := ctx.dynamicCfg.(frameQp := c.frameQp);
      }
      if Has(change, MLVEC_CHANGE_BASE_LAYER_PID) {
        ctx.dynamicCfg := ctx.dynamicCfg.(baseLayerPid := c.baseLayerPid);
      }
      ctx.dynamicCfg := ctx.dynamicCfg.(change := ctx.dynamicCfg.change + change);
      cfgAfter := Some(c.(change := {}));
  }

  /** mlvec_frame_start: a NULL context or record is refused and nothing
      changes. */
  method FrameStart(ctx: MlvecCtx?, usr: Option<RefFrmUsrCfg>) returns (ret: int, usrAfter: Option<RefFrmUsrCfg>)
    modifies ctx
    ensures ctx == null || usr.None? ==>
              ret == MPP_ERR_NULL_PTR && usrAfter == usr && (ctx != null ==> ctx.State() == old(ctx.State()))
    ensures ctx != null && usr.Some? ==>
              && ret == MPP_OK
              && ctx.State() == FrameStartState(old(ctx.State()))
              && usrAfter == Some(FrameStartUsr(old(ctx.State()), usr.value))
  {
    if ctx == null || usr.None? {
      return MPP_ERR_NULL_PTR, usr;
    }
    var u := usr.value;
    if ctx.staticCfg.maxTemporalLayerCount != 0 {
      ctx.staticCfg := ctx.staticCfg.(addPrefix := 1);
    }
    if ctx.dynamicCfg.markLtr >= 0 {
      u := u.(forceFlag := u.forceFlag + {ENC_FORCE_LT_REF_IDX});
      u := u.(forceLtIdx := ctx.dynamicCfg.markLtr);
      ctx.dynamicCfg := ctx.dynamicCfg.(markLtr := -1);
    }
    if ctx.dynamicCfg.useLtr >= 0 {
      u := u.(forceFlag := u.forceFlag + {ENC_FORCE_REF_MODE});
      u := u.(forceRefMode := REF_TO_LT_REF_IDX);
      u := u.(forceRefArg := ctx.dynamicCfg.useLtr);
      ctx.dynamicCfg := ctx.dynamicCfg.(useLtr := -1);
    }
    return MPP_OK, Some(u);
  }

  /** mlvec_rc_setup: reads the context and overwrites the whole force
      record, so it may be called any number of times with the same
      result. */
  method RcSetup(ctx: MlvecCtx?, cfg: Option<RcForceCfg>) returns (ret: int, cfgAfter: Option<RcForceCfg>)
    ensures ctx == null || cfg.None? ==> ret == MPP_ERR_NULL_PTR && cfgAfter == cfg
    ensures ctx != null && cfg.Some? ==>
              && ret == MPP_OK
              && cfgAfter == Some(RcForce(ctx.State()))
              && (ctx.dynamicCfg.frameQp >= 0 <==> ENC_RC_FORCE_QP in cfgAfter.value.forceFlag)
              && (ctx.dynamicCfg.frameQp >= 0 ==> cfgAfter.value.forceQp == ctx.dynamicCfg.frameQp)
              && (ctx.dynamicCfg.frameQp < 0 ==> cfgAfter.value == RcForceCfg({}, -1))
  {
    if ctx == null || cfg.None? {
      return MPP_ERR_NULL_PTR, cfg;
    }
    var c := cfg.value;
    if ctx.dynamicCfg.frameQp >= 0 {
      c := c.(forceFlag := {ENC_RC_FORCE_QP});
      c := c.(forceQp := ctx.dynamicCfg.frameQp);
    } else {
      c := c.(forceFlag := {});
      c := c.(forceQp := -1);
    }
    return MPP_OK, Some(c);
  }

  /** mlvec_frame_end */
  method FrameEnd(ctx: MlvecCtx?) returns (ret: int)
    modifies ctx
    ensures ctx == null ==> ret == MPP_ERR_NULL_PTR
    ensures ctx != null ==> ret == MPP_OK && ctx.State() == FrameEndState(old(ctx.State()))
  {
    if ctx == null {
      return MPP_ERR_NULL_PTR;
    }
    ctx.ResetDynamicCfg();
    ret := MPP_OK;
  }
}
