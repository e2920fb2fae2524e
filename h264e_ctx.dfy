/**
 * The H.264 encoder control context (H264eCtx) and the entry points of the
 * control API that work on it: initialisation, the configuration command
 * dispatcher, the frame-usage update that follows the DPB step, and the
 * per-frame syntax assembly with the optional scalable-coding prefix NAL.
 *
 * The DPB, slice and prefix-NAL collaborators are not part of this model:
 * what the code reads back from them after each call is passed in as a
 * parameter (a value, or a function for the prefix writer).
 */
module H264eApi {
  import opened MppBase
  import opened EncCfg
  import opened CfgSetting

  /* ---------------- syntax descriptors ---------------- */

  /** H264eSyntaxType */
  datatype SynType = SynCfg | SynSps | SynPps | SynSlice | SynFrame | SynRc

  /** H264E_SYN_BUTT: capacity of the descriptor list, one slot per kind. */
  const H264E_SYN_BUTT: nat := 6

  /** The member of the context (or the configuration set) that the `p`
      pointer of a descriptor designates. */
  datatype SynTarget = CfgSetData | SpsData | PpsData | SliceData | FrmsData | RcSynData

  /** H264eSyntaxDesc */
  datatype SyntaxDesc = SyntaxDesc(synType: SynType, target: SynTarget)

  /** The descriptor list handed to the hardware layer for every frame. */
  const FRAME_SYNTAX: seq<SyntaxDesc> := [
    SyntaxDesc(SynCfg, CfgSetData),
    SyntaxDesc(SynSps, SpsData),
    SyntaxDesc(SynPps, PpsData),
    SyntaxDesc(SynSlice, SliceData),
    SyntaxDesc(SynFrame, FrmsData),
    SyntaxDesc(SynRc, RcSynData)]

  /** The structure each kind of descriptor is meant to point at. */
  function TargetOf(t: SynType): SynTarget {
    match t
    case SynCfg => CfgSetData
    case SynSps => SpsData
    case SynPps => PpsData
    case SynSlice => SliceData
    case SynFrame => FrmsData
    case SynRc => RcSynData
  }

  /** The position of each kind of syntax in the per-frame list. */
  function SlotOf(t: SynType): nat {
    match t
    case SynCfg => 0
    case SynSps => 1
    case SynPps => 2
    case SynSlice => 3
    case SynFrame => 4
    case SynRc => 5
  }

  /** The per-frame list fills the list to capacity, holds every kind of
      syntax exactly once, and points every descriptor at the structure of
      its own kind. */
  lemma FrameSyntaxIsComplete()
    ensures |FRAME_SYNTAX| == H264E_SYN_BUTT
    ensures forall t: SynType :: SlotOf(t) < |FRAME_SYNTAX| && FRAME_SYNTAX[SlotOf(t)] == SyntaxDesc(t, TargetOf(t))
    ensures forall i, j :: 0 <= i < j < |FRAME_SYNTAX| ==> FRAME_SYNTAX[i].synType != FRAME_SYNTAX[j].synType
  {
    forall t: SynType
      ensures SlotOf(t) < |FRAME_SYNTAX| && FRAME_SYNTAX[SlotOf(t)] == SyntaxDesc(t, TargetOf(t))
    {
    }
  }

  /* ---------------- values read back from the collaborators ---------------- */

  /** The two members of H264eSlice that this layer reads. */
  datatype SliceInfo = SliceInfo(idrFlag: int, nalReferenceIdc: int)

  /** EncFrmStatus: the temporal id is the only bit-field read here; the
      others are copied as one word. */
  datatype FrmStatus = FrmStatus(temporalId: int, otherBits: int)

  /** The members of H264eDpbFrm that this layer reads. */
  datatype DpbFrm = DpbFrm(seqIdx: int, slotIdx: int, onUsed: int)

  /** What h264e_proc_dpb reads back from its collaborators: the current and
      (possibly absent) reference frame and the frame slots after
      h264e_dpb_proc, the slice state after h264e_slice_update, and the
      status of the current frame after h264e_dpb_check. */
  datatype DpbStep = DpbStep(
    curr: DpbFrm,
    refr: Option<DpbFrm>,
    frames: seq<DpbFrm>,
    slice: SliceInfo,
    checkedStatus: FrmStatus)

  /** The slot recorded as the reference: that of the reference frame, or
      the current frame's own slot when there is none. */
  function RefrSlot(curr: DpbFrm, refr: Option<DpbFrm>): int {
    match refr
    case Some(r) => r.slotIdx
    case None => curr.slotIdx
  }

  /* ---------------- prefix NAL ---------------- */

  /** H264ePrefixNal */
  datatype PrefixNal = PrefixNal(
    idrFlag: int,
    nalRefIdc: int,
    priorityId: int,
    noInterLayerPredFlag: int,
    dependencyId: int,
    qualityId: int,
    temporalId: int,
    useRefBasePicFlag: int,
    discardableFlag: int,
    outputFlag: int)

  /** The prefix parameters h264e_proc_hal fills in for a frame. */
  function PrefixFor(slice: SliceInfo, baseLayerPid: int, temporalId: int): PrefixNal {
    PrefixNal(
      idrFlag := slice.idrFlag,
      nalRefIdc := slice.nalReferenceIdc,
      priorityId := baseLayerPid + temporalId,
      noInterLayerPredFlag := 1,
      dependencyId := 0,
      qualityId := 0,
      temporalId := temporalId,
      useRefBasePicFlag := 0,
      discardableFlag := 0,
      outputFlag := 1)
  }

  /** A prefix NAL is written when it is asked for or when temporal layers
      are in use. */
  predicate PrefixEnabled(h: H264Cfg) {
    h.addPrefix != 0 || h.maxTid != 0
  }

  /** The free bytes behind the written part of a packet whose write position
      lies `offset` bytes after its start. */
  function SpareBytes(size: int, length: int, offset: int): int {
    size - (length + offset)
  }

  /** A prefix writer that stays within the spare bytes it is given leaves
      the packet inside its buffer. */
  lemma PrefixFitsPacket(size: int, length: int, offset: int, bits: int)
    requires 0 <= bits <= 8 * SpareBytes(size, length, offset)
    ensures 0 <= BitsToBytes(bits)
    ensures offset + length + BitsToBytes(bits) <= size
  {
  }

  /** The H.264 options after the temporal-layer reconciliation: the
      reference manager's maximum temporal id replaces the configured one. */
  function Reconciled(h: H264Cfg, cpbMaxStTid: int): (r: H264Cfg)
    ensures r.maxTid == cpbMaxStTid
    ensures r.(maxTid := h.maxTid) == h
  {
    h.(maxTid := cpbMaxStTid)
  }

  /** Temporal layers reported by the reference manager switch the prefix
      NAL on even when it was not asked for, and a configuration that asks
      for neither has it off; reconciling twice changes nothing. */
  lemma ReconciledPrefix(h: H264Cfg, cpbMaxStTid: int)
    ensures PrefixEnabled(Reconciled(h, cpbMaxStTid)) <==> h.addPrefix != 0 || cpbMaxStTid != 0
    ensures Reconciled(Reconciled(h, cpbMaxStTid), cpbMaxStTid) == Reconciled(h, cpbMaxStTid)
  {
  }

  /* ---------------- the aggregate configuration command ---------------- */

  /** A domain record's change mask cleared, as MPP_ENC_SET_CFG leaves the
      source records. */
  function Cleared(v: CfgValue): (r: CfgValue)
    ensures r.prep.change == {} && r.rc.change == {} && r.h264.change == {} && r.split.change == {}
    ensures r.prep.(change := v.prep.change) == v.prep && r.rc.(change := v.rc.change) == v.rc
    ensures r.h264.(change := v.h264.change) == v.h264 && r.split.(change := v.split.change) == v.split
  {
    CfgValue(v.prep.(change := {}), v.rc.(change := {}), v.h264.(change := {}), v.split.(change := {}))
  }

  /** MPP_ENC_SET_CFG on configuration values: every domain whose source
      mask is non-empty goes through its merge, in the order prep, rc, H.264,
      split, and the status codes are combined with `|=`. */
  function ApplyCfgSet(dst: CfgValue, src: CfgValue): (o: Merge<CfgValue>)
    ensures o.ret == MPP_OK || o.ret == MPP_ERR_VALUE
    ensures o.cfg.h264.change == dst.h264.change + src.h264.change
    ensures o.cfg.split.change == dst.split.change + src.split.change
    ensures o.cfg.prep.change == dst.prep.change || o.cfg.prep.change == dst.prep.change + src.prep.change
    ensures o.cfg.rc.change == dst.rc.change || o.cfg.rc.change == dst.rc.change + src.rc.change
  {
    var p := ProcPrep(dst.prep, src.prep);
    var r := ProcRc(dst.rc, src.rc);
    var h := ProcH264(dst.h264, src.h264);
    var s := ProcSplit(dst.split, src.split);
    var ret0 := MPP_OK;
    var ret1 := if src.prep.change != {} then RetOr(ret0, p.ret) else ret0;
    var ret2 := if src.rc.change != {} then RetOr(ret1, r.ret) else ret1;
    var ret3 := if src.h264.change != {} then RetOr(ret2, h.ret) else ret2;
    var ret4 := if src.split.change != {} then RetOr(ret3, s.ret) else ret3;
    Merge(
      CfgValue(
        if src.prep.change != {} then p.cfg else dst.prep,
        if src.rc.change != {} then r.cfg else dst.rc,
        if src.h264.change != {} then h.cfg else dst.h264,
        if src.split.change != {} then s.cfg else dst.split),
      ret4)
  }

  /** The status of MPP_ENC_SET_CFG: MPP_ERR_VALUE exactly when the
      preparation or the rate-control update was present and rejected,
      MPP_OK otherwise; a rejected domain does not hold back the others. */
  lemma ApplyCfgSetStatus(dst: CfgValue, src: CfgValue)
    ensures var prepBad := src.prep.change != {} && !PrepSizeOk(PrepApplied(dst.prep, src.prep));
            var rcBad := src.rc.change != {} && !RcAcceptable(RcApplied(dst.rc, src.rc));
            ApplyCfgSet(dst, src).ret == if prepBad || rcBad then MPP_ERR_VALUE else MPP_OK
    ensures src.h264.change != {} ==> ApplyCfgSet(dst, src).cfg.h264 == H264Applied(dst.h264, src.h264)
    ensures src.split.change != {} ==> ApplyCfgSet(dst, src).cfg.split == ProcSplit(dst.split, src.split).cfg
  {
    var p := ProcPrep(dst.prep, src.prep);
    var r := ProcRc(dst.rc, src.rc);
    var ret1 := if src.prep.change != {} then RetOr(MPP_OK, p.ret) else MPP_OK;
    RetOrOfMergeCodes(MPP_OK, p.ret);
    assert ret1 == MPP_OK || ret1 == MPP_ERR_VALUE;
    RetOrOfMergeCodes(ret1, r.ret);
    var ret2 := if src.rc.change != {} then RetOr(ret1, r.ret) else ret1;
    RetOrOfMergeCodes(ret2, MPP_OK);
  }

  /** Skipping the domains whose mask is empty gives the same configuration
      as running every merge: a merge with an empty mask changes nothing and
      succeeds. */
  lemma ApplyCfgSetSkipsOnlyNoOps(dst: CfgValue, src: CfgValue)
    ensures ApplyCfgSet(dst, src).cfg == CfgValue(
              ProcPrep(dst.prep, src.prep).cfg, ProcRc(dst.rc, src.rc).cfg,
              ProcH264(dst.h264, src.h264).cfg, ProcSplit(dst.split, src.split).cfg)
  {
    if src.h264.change == {} {
      assert H264Applied(dst.h264, src.h264) == dst.h264;
    }
    if src.split.change == {} {
      assert ProcSplit(dst.split, src.split).cfg == dst.split;
    }
  }

  /* ---------------- the task handed to the hardware layer ---------------- */

  /** The output packet of a frame: its allocated size, the offset of its
      write position from the start of its buffer (`pos - data`), and the
      number of bytes written from that position. */
  class Packet {
    var size: int
    var offset: int
    var length: int

    constructor (size: int, offset: int, length: int)
      ensures this.size == size && this.offset == offset && this.length == length
    {
      this.size := size;
      this.offset := offset;
      this.length := length;
    }
  }

  /** The members of HalEncTask (and of its rate-control task, whose frame
      status is kept here as `frm`) that this layer reads or writes. */
  class HalEncTask {
    var valid: int
    var synData: array?<SyntaxDesc>
    var synNumber: int
    var isIntra: int
    var length: int
    var frm: FrmStatus
    const packet: Packet

    constructor (packet: Packet, frm: FrmStatus, length: int)
      ensures this.packet == packet && this.frm == frm && this.length == length
      ensures valid == 0 && synData == null && synNumber == 0 && isIntra == 0
    {
      this.packet := packet;
      this.frm := frm;
      this.length := length;
      valid := 0;
      synData := null;
      synNumber := 0;
      isIntra := 0;
    }
  }

  /** The commands h264e_proc_cfg receives, with their parameter. */
  datatype Command =
    | SetCfg(src: CfgSet)
    | SetPrepCfg(prep: PrepCfg)
    | SetRcCfg(rc: RcCfg)
    | SetCodecCfg(h264: H264Cfg)
    | SetSeiCfg
    | SetSplit(split: SplitCfg)
    | OtherCmd(code: int)

  /* ---------------- the context ---------------- */

  class H264eCtx {
    /** The configuration set shared with the encoder front end. */
    const cfg: CfgSet
    var idrRequest: int
    var hdrSize: int
    var slice: SliceInfo
    /** H264eFrmInfo: the frame-usage record handed over as FRAME syntax. */
    var seqIdx: int
    var currIdx: int
    var refrIdx: int
    const usage: array<int>
    var prefix: PrefixNal
    var synNum: int
    const syntax: array<SyntaxDesc>

    ghost predicate Valid()
      reads this
    {
      syntax.Length == H264E_SYN_BUTT && 0 <= synNum <= H264E_SYN_BUTT
    }

    /** h264e_init: the header buffer is 1 KiB, no IDR is pending and the
        shared configuration set receives the encoder defaults. The context
        memory itself starts zeroed. `slots` is the number of DPB slots the
        frame-usage record covers. */
    constructor (c: CfgSet, slots: nat)
      modifies c
      ensures Valid() && synNum == 0
      ensures cfg == c && idrRequest == 0 && hdrSize == SZ_1K
      ensures fresh(usage) && usage.Length == slots && fresh(syntax)
      ensures c.prep == DefaultPrep(old(c.prep)) && c.rc == DEFAULT_RC && c.h264 == DEFAULT_H264
      ensures c.split == old(c.split)
    {
      cfg := c;
      idrRequest := 0;
      hdrSize := SZ_1K;
      slice := SliceInfo(0, 0);
      seqIdx, currIdx, refrIdx := 0, 0, 0;
      usage := new int[slots](_ => 0);
      prefix := PrefixNal(0, 0, 0, 0, 0, 0, 0, 0, 0, 0);
      synNum := 0;
      syntax := new SyntaxDesc[H264E_SYN_BUTT](_ => SyntaxDesc(SynCfg, CfgSetData));
      new;
      c.InitDefaults();
    }

    /** h264e_add_syntax: the descriptor goes into the next free slot. The
        caller must not append past the capacity. */
    method AddSyntax(t: SynType, p: SynTarget)
      requires Valid() && synNum < H264E_SYN_BUTT
      modifies this`synNum, syntax
      ensures Valid() && synNum == old(synNum) + 1
      ensures syntax[..] == old(syntax[..])[old(synNum) := SyntaxDesc(t, p)]
    {
      syntax[synNum] := SyntaxDesc(t, p);
      synNum := synNum + 1;
    }

    /** h264e_proc_cfg */
    method ProcCfg(cmd: Command) returns (ret: int)
      requires cmd.SetCfg? ==> cmd.src != cfg
      modifies cfg, if cmd.SetCfg? then {cmd.src} else {}
      ensures cmd.SetCfg? ==>
                && cfg.Value() == ApplyCfgSet(old(cfg.Value()), old(cmd.src.Value())).cfg
                && ret == ApplyCfgSet(old(cfg.Value()), old(cmd.src.Value())).ret
                && cmd.src.Value() == Cleared(old(cmd.src.Value()))
      ensures cmd.SetPrepCfg? ==>
                && cfg.Value() == old(cfg.Value()).(prep := ProcPrep(old(cfg.prep), cmd.prep).cfg)
                && ret == ProcPrep(old(cfg.prep), cmd.prep).ret
      ensures cmd.SetRcCfg? ==>
                && cfg.Value() == old(cfg.Value()).(rc := ProcRc(old(cfg.rc), cmd.rc).cfg)
                && ret == ProcRc(old(cfg.rc), cmd.rc).ret
      ensures cmd.SetCodecCfg? ==>
                && cfg.Value() == old(cfg.Value()).(h264 := ProcH264(old(cfg.h264), cmd.h264).cfg)
                && ret == MPP_OK
      ensures cmd.SetSplit? ==>
                && cfg.Value() == old(cfg.Value()).(split := ProcSplit(old(cfg.split), cmd.split).cfg)
                && ret == MPP_OK
      ensures cmd.SetSeiCfg? ==> cfg.Value() == old(cfg.Value()) && ret == MPP_OK
      ensures cmd.OtherCmd? ==> cfg.Value() == old(cfg.Value()) && ret == MPP_NOK
    {
      match cmd
      case SetCfg(src) =>
        ret := ProcSetCfg(src);
      case SetPrepCfg(prep) =>
        ret := cfg.ProcPrepCfg(prep);
      case SetRcCfg(rc) =>
        ret := cfg.ProcRcCfg(rc);
      case SetCodecCfg(h264) =>
        ret := cfg.ProcH264Cfg(h264);
      case SetSeiCfg =>
        ret := MPP_OK;
      case SetSplit(split) =>
        ret := cfg.ProcSplitCfg(split);
      case OtherCmd(_) =>
        ret := MPP_NOK;
    }

    /** The MPP_ENC_SET_CFG branch of h264e_proc_cfg: each source domain
        with a non-empty mask is merged and then has its mask cleared,
        whether or not the merge succeeded. */
    method ProcSetCfg(src: CfgSet) returns (ret: int)
      requires src != cfg
      modifies cfg, src
      ensures cfg.Value() == ApplyCfgSet(old(cfg.Value()), old(src.Value())).cfg
      ensures ret == ApplyCfgSet(old(cfg.Value()), old(src.Value())).ret
      ensures src.Value() == Cleared(old(src.Value()))
    {
      ret := MPP_OK;
      if src.prep.change != {} {
        var r := cfg.ProcPrepCfg(src.prep);
        ret := RetOr(ret, r);
        src.prep := src.prep.(change := {});
      }
      if src.rc.change != {} {
        var r := cfg.ProcRcCfg(src.rc);
        ret := RetOr(ret, r);
        src.rc := src.rc.(change := {});
      }
      if src.h264.change != {} {
        var r := cfg.ProcH264Cfg(src.h264);
        ret := RetOr(ret, r);
        src.h264 := src.h264.(change := {});
      }
      if src.split.change != {} {
        var r := cfg.ProcSplitCfg(src.split);
        ret := RetOr(ret, r);
        src.split := src.split.(change := {});
      }
    }

    /** The frame-usage part of h264e_proc_dpb, run on what the DPB and
        slice collaborators leave behind: the current frame's sequence and
        slot index, the reference slot, every slot's in-use flag, and the
        checked status of the current frame handed back in the task. The
        DPB must have at least as many slots as the usage record. */
    method ProcDpb(task: HalEncTask, step: DpbStep) returns (ret: int)
      requires usage.Length <= |step.frames|
      modifies this`slice, this`seqIdx, this`currIdx, this`refrIdx, usage, task`frm
      ensures slice == step.slice
      ensures seqIdx == step.curr.seqIdx && currIdx == step.curr.slotIdx
      ensures refrIdx == RefrSlot(step.curr, step.refr)
      ensures forall i :: 0 <= i < usage.Length ==> usage[i] == step.frames[i].onUsed
      ensures task.frm == step.checkedStatus
      ensures ret == MPP_OK
    {
      var curr := step.curr;
      var refr := step.refr;
      slice := step.slice;
      seqIdx := curr.seqIdx;
      currIdx := curr.slotIdx;
      refrIdx := if refr.Some? then refr.value.slotIdx else curr.slotIdx;
      var i := 0;
      while i < usage.Length
        modifies usage
        invariant 0 <= i <= usage.Length
        invariant forall k :: 0 <= k < i ==> usage[k] == step.frames[k].onUsed
      {
        usage[i] := step.frames[i].onUsed;
        i := i + 1;
      }
      task.frm := step.checkedStatus;
      ret := MPP_OK;
    }

    /** h264e_proc_hal: the descriptor list is rebuilt from empty in its
        fixed order and handed to the task; the configured maximum temporal
        id is replaced by the reference manager's `cpbMaxStTid`; when the
        prefix NAL is enabled afterwards, its parameters are filled in from
        the slice state and the frame's temporal id, `writePrefix` is given
        the spare bytes of the packet, and the packet and the task both grow
        by the whole bytes of the bit count it returns. */
    method ProcHal(task: HalEncTask, cpbMaxStTid: int, writePrefix: (PrefixNal, int) -> int) returns (ret: int)
      requires Valid()
      modifies this`synNum, this`prefix, syntax, cfg`h264, task, task.packet
      ensures Valid()
      ensures synNum == H264E_SYN_BUTT && syntax[..] == FRAME_SYNTAX
      ensures task.valid == 1 && task.synData == syntax && task.synNumber == H264E_SYN_BUTT
      ensures task.isIntra == slice.idrFlag
      ensures cfg.h264 == Reconciled(old(cfg.h264), cpbMaxStTid)
      ensures task.frm == old(task.frm)
      ensures task.packet.size == old(task.packet.size) && task.packet.offset == old(task.packet.offset)
      ensures PrefixEnabled(cfg.h264) ==>
                var bytes := BitsToBytes(writePrefix(prefix, SpareBytes(old(task.packet.size),
                                         old(task.packet.length), old(task.packet.offset))));
                && prefix == PrefixFor(slice, cfg.h264.baseLayerPid, task.frm.temporalId)
                && task.packet.length == old(task.packet.length) + bytes
                && task.length == old(task.length) + bytes
      ensures !PrefixEnabled(cfg.h264) ==>
                && prefix == old(prefix)
                && task.packet.length == old(task.packet.length)
                && task.length == old(task.length)
      ensures ret == MPP_OK
    {
      RebuildSyntax();

      task.valid := 1;
      task.synData := syntax;
      task.synNumber := synNum;
      task.isIntra := slice.idrFlag;

      var cfgMaxTid := cfg.h264.maxTid;
      if cpbMaxStTid != cfgMaxTid {
        cfg.h264 := cfg.h264.(maxTid := cpbMaxStTid);
      }

      if cfg.h264.addPrefix != 0 || cfg.h264.maxTid != 0 {
        AppendPrefix(task, writePrefix);
      }
      ret := MPP_OK;
    }

    /** The descriptor list of one frame, rebuilt from empty. */
    method RebuildSyntax()
      requires Valid()
      modifies this`synNum, syntax
      ensures Valid() && synNum == H264E_SYN_BUTT && syntax[..] == FRAME_SYNTAX
    {
      synNum := 0;
      AddSyntax(SynCfg, CfgSetData);
      AddSyntax(SynSps, SpsData);
      AddSyntax(SynPps, PpsData);
      AddSyntax(SynSlice, SliceData);
      AddSyntax(SynFrame, FrmsData);
      AddSyntax(SynRc, RcSynData);
      assert syntax[..] == FRAME_SYNTAX;
    }

    /** The prefix NAL branch of h264e_proc_hal: the prefix parameters are
        derived, the writer gets the spare bytes behind the packet's data,
        and packet and task grow by the whole bytes it wrote. */
    method AppendPrefix(task: HalEncTask, writePrefix: (PrefixNal, int) -> int)
      modifies this`prefix, task`length, task.packet`length
      ensures prefix == PrefixFor(slice, cfg.h264.baseLayerPid, task.frm.temporalId)
      ensures var bytes := BitsToBytes(writePrefix(prefix, SpareBytes(task.packet.size,
                                       old(task.packet.length), task.packet.offset)));
              && task.packet.length == old(task.packet.length) + bytes
              && task.length == old(task.length) + bytes
    {
      var pkt := task.packet;
      var length := pkt.length;
      var size := pkt.size;
      size := size - (length + pkt.offset);
      prefix := PrefixFor(slice, cfg.h264.baseLayerPid, task.frm.temporalId);
      var prefixBit := writePrefix(prefix, size);
      prefixBit := BitsToBytes(prefixBit);
      pkt.length := length + prefixBit;
      task.length := task.length + prefixBit;
    }
  }
}
