# H.264 encoder control layer and MLVEC, modelled in Dafny

This project models the control layer of the Rockchip MPP H.264 encoder.
That layer sits between the encoder front end and the hardware abstraction layer. It covers:

- **Configuration merges.** Four routines merge a caller's partial configuration
  (picture preparation, rate control, H.264 options, slice split) into the live
  configuration set. Each merge copies only the field groups named by the caller's
  change mask and ORs that mask into the live one. The preparation and rate-control
  merges validate the merged record and restore the whole previous record when the
  check fails.
- **Dispatch.** A command dispatcher routes the control commands to these merges. It
  combines their status codes with `|=` and clears the caller's masks for the
  aggregate command.
- **Per frame.** A frame-usage record is filled in after the DPB step. The
  hardware-facing descriptor list is rebuilt for every frame. The configured maximum
  temporal id is reconciled with the reference manager's. When scalable coding is on,
  a prefix NAL is appended to the coded packet and the packet and task lengths grow
  by its byte count.
- **MLVEC.** MLVEC is the multi-layer control. Its context holds a static
  configuration and a per-frame dynamic one. At frame start, pending long-term
  reference directives become force flags on the reference manager's per-frame record
  and are consumed exactly once. Rate-control setup projects a forced QP. Frame end
  resets the single-shot directives but keeps the forced QP.

Files:

- `mpp_base.dfy` (module `MppBase`):
  - status codes and `Option`;
  - C's `|=` on RK_S32 status codes, through 32-bit patterns;
  - C's truncating `/ 8`;
  - change masks, modelled as the set of the positions of their set bits.
- `enc_cfg.dfy` (module `EncCfg`): the four configuration records and their merges, as
  pure functions.
- `enc_cfg_props.dfy` (module `EncCfgProps`): what the merges guarantee, including
  what a series of merges does to the accumulated mask.
- `cfg_set.dfy` (module `CfgSetting`):
  - the live configuration set as a class whose records the merge methods overwrite
    in place;
  - the defaults installed at initialisation.
- `h264e_ctx.dfy` (module `H264eApi`): the encoder context as a class, with the
  command dispatcher, `h264e_add_syntax`, the frame-usage step and the HAL step.
- `mlvec.dfy` (module `Mlvec`):
  - the MLVEC context as a class;
  - the API functions that take a possibly-NULL context;
  - the state machine on values;
  - its properties over a run of frames.

Each method is proved against a pure function of the old state and its arguments.
The properties are lemmas about those functions.

Notes on what the code does:

- **Bitrate bounds.** The bounds are `1 * SZ_1K` and `100 * SZ_1M`, both excluded,
  so 1024 and 104857600 are rejected, 1000 is rejected and 100000000 is accepted
  (`EncCfgProps.BitrateBounds`).
- **Mode and quality checks.** The rate-control mode and quality are enumerations
  without negative members, so `>= BUTT` compares them as unsigned. A negative value
  is rejected.
- **Quarter turn with an INPUT change.** Under a quarter turn, the INPUT branch
  stores the size swapped and the check compares it swapped, so the two cancel. A
  rotated INPUT change is accepted exactly when the source width and height fit the
  source strides (`EncCfgProps.PrepInputAcceptance`). A quarter-turn INPUT change of
  1280x720 with strides 720/1280 is rejected (`EncCfgProps.PrepQuarterTurnScenario`).
- **Static setter mask.** `mlvec_set_static_config` assigns the caller's mask to the
  static mask; it does not accumulate it (`Mlvec.StaticSetterReplacesMask`).
- **Source masks.** Only the aggregate `MPP_ENC_SET_CFG` command clears the caller's
  masks, and it does so whether or not the merge succeeded. The single-domain
  commands leave them alone.
- **Forced QP at frame end.** `reset_dynamic_cfg` does not touch `frame_qp`, so a
  forced QP stays forced on every later frame until a setter changes it
  (`Mlvec.ForcedQpPersists`).

## Model

| member | source | states |
|---|---|---|
| MppBase.RetOrOfMergeCodes | mpp/codec/enc/h264/h264e_api_v2.c:435-450 | On the two codes a merge returns, `ret \|= r` gives MPP_ERR_VALUE if either is MPP_ERR_VALUE and MPP_OK otherwise (proved on the 32-bit patterns). |
| MppBase.BitsToBytes | mpp/codec/enc/h264/h264e_api_v2.c:619 | C's `bits /= 8` truncates toward zero. For a non-negative count, eight times the result is at most the bit count and more than the bit count minus 8. |
| EncCfg.ProcPrep | mpp/codec/enc/h264/h264e_api_v2.c:201-268 | The prep merge on values returns OK or MPP_ERR_VALUE. A rejection leaves the record exactly as it was. An acceptance ORs the caller's mask in, and a non-empty accepted change passes the size check. |
| EncCfg.ProcRc | mpp/codec/enc/h264/h264e_api_v2.c:270-342 | The rc merge on values returns OK or MPP_ERR_VALUE. A rejection leaves the record exactly as it was. An acceptance ORs the caller's mask in, and a non-empty accepted change passes the mode, quality and bitrate checks. |
| EncCfg.ProcH264 | mpp/codec/enc/h264/h264e_api_v2.c:344-402 | The codec merge on values always returns OK and ORs the caller's mask in; an empty mask changes nothing. |
| EncCfg.ProcSplit | mpp/codec/enc/h264/h264e_api_v2.c:404-420 | The split merge on values always returns OK and ORs the caller's mask in; an empty mask changes nothing. |
| EncCfgProps.ChangeAccumulates | mpp/codec/enc/h264/h264e_api_v2.c:240-259 | For any merge that ORs its mask in on success and leaves it alone on failure, the mask after a series of merges is the initial mask plus the masks of exactly the accepted merges (induction). |
| EncCfgProps.PrepAppliedIsMaskedCopy | mpp/codec/enc/h264/h264e_api_v2.c:210-240 | The unvalidated prep merge: every verbatim group is taken from the source iff its bit is set; INPUT stores the size (swapped under the final quarter turn) and the strides; the mask is ORed in. |
| EncCfgProps.PrepAppliedGroups | mpp/codec/enc/h264/h264e_api_v2.c:210-226 | The format (format, color, range), rotation, mirroring, denoise and sharpen groups are copied iff their bit is set. |
| EncCfgProps.PrepAppliedInput | mpp/codec/enc/h264/h264e_api_v2.c:228-238 | With INPUT the strides come from the source and width/height are exchanged exactly when the rotation in force after the call is 90 or 270; without INPUT all four size fields are kept. |
| EncCfgProps.PrepMaskedCopyUnique | mpp/codec/enc/h264/h264e_api_v2.c:210-240 | The masked-copy relation determines every field of the result, so "only the selected groups change" leaves nothing unspecified. |
| EncCfgProps.PrepMergeContract | mpp/codec/enc/h264/h264e_api_v2.c:201-268 | Returns OK or MPP_ERR_VALUE. An empty mask is a no-op. A rejection restores the record exactly, mask included. The call succeeds iff the merged record passes the rotation-aware size check, and on success the result is the masked copy and passes that check. |
| EncCfgProps.PrepInputAcceptance | mpp/codec/enc/h264/h264e_api_v2.c:228-255 | With the INPUT bit set, the merge is accepted iff source width ≤ hor_stride and source height ≤ ver_stride, whatever the rotation. |
| EncCfgProps.PrepRotationWithoutInput | mpp/codec/enc/h264/h264e_api_v2.c:216-255 | A rotation-only change to 90 on a stored 1280x720 with strides 1280/720 is checked against the new rotation and rolled back with MPP_ERR_VALUE. |
| EncCfgProps.PrepQuarterTurnScenario | mpp/codec/enc/h264/h264e_api_v2.c:228-255 | A 90° INPUT change of 1280x720 with strides 720/1280 is rejected and the record stays as it was. |
| EncCfgProps.PrepMergeChange | mpp/codec/enc/h264/h264e_api_v2.c:240-259 | One prep merge adds its mask to the stored mask iff it is accepted; a rejection leaves the stored mask unchanged. |
| EncCfgProps.PrepChangeAccumulates | mpp/codec/enc/h264/h264e_api_v2.c:201-268 | After any series of prep merges, the stored mask is the initial mask plus the masks of exactly the accepted merges. |
| EncCfgProps.RcAppliedIsMaskedCopy | mpp/codec/enc/h264/h264e_api_v2.c:278-306 | The unvalidated rc merge copies the mode, quality, bitrate triple, input fps triple, output fps triple, GOP and max re-encode groups iff their bit is set, and ORs the mask. |
| EncCfgProps.RcMaskedCopyUnique | mpp/codec/enc/h264/h264e_api_v2.c:278-306 | The rc masked-copy relation determines every field of the result. |
| EncCfgProps.RcMergeContract | mpp/codec/enc/h264/h264e_api_v2.c:270-342 | Returns OK or MPP_ERR_VALUE. An empty mask leaves the record untouched and returns OK. A rejection restores the record exactly. The call succeeds iff the merged record has 0 ≤ mode < BUTT, 0 ≤ quality < BUTT (unsigned enumeration compare) and, unless FIXQP, all three bitrates in range; on success the result is the masked copy. |
| EncCfgProps.RcRechecksUnchangedBitrate | mpp/codec/enc/h264/h264e_api_v2.c:309-333 | A GOP-only change onto a CBR record whose stored target bitrate is out of range is rejected and rolled back: unchanged bitrates are re-checked. |
| EncCfgProps.BitrateBounds | mpp/codec/enc/h264/h264e_api_v2.c:320-322 | The bitrate bounds are exclusive at 1024 and 104857600; 1025, 104857599 and 100000000 are accepted, 1000 is rejected. |
| EncCfgProps.RcFixQpSkipsBitrate | mpp/codec/enc/h264/h264e_api_v2.c:319-327 | Under FIXQP with a valid quality, any bitrates are accepted. |
| EncCfgProps.RcMergeChange | mpp/codec/enc/h264/h264e_api_v2.c:329-333 | One rc merge adds its mask to the stored mask iff it is accepted. |
| EncCfgProps.RcChangeAccumulates | mpp/codec/enc/h264/h264e_api_v2.c:270-342 | After any series of rc merges, the stored mask is the initial mask plus the masks of exactly the accepted merges. |
| EncCfgProps.H264AppliedIsMaskedCopy | mpp/codec/enc/h264/h264e_api_v2.c:350-400 | Each of the sixteen H.264 groups is taken from the source iff its bit is set, and the mask is ORed in. |
| EncCfgProps.H264MaskedCopyUnique | mpp/codec/enc/h264/h264e_api_v2.c:350-400 | The H.264 masked-copy relation determines every field of the result. |
| EncCfgProps.H264MergeContract | mpp/codec/enc/h264/h264e_api_v2.c:344-402 | The codec merge always returns MPP_OK, performs no checks, is the masked copy, and with an empty mask changes nothing. |
| EncCfgProps.NeverFailingAcceptsAll | mpp/codec/enc/h264/h264e_api_v2.c:344-420 | For a merge that always returns MPP_OK, the accepted masks of a series are the union of all its masks (induction). |
| EncCfgProps.H264ChangeAccumulates | mpp/codec/enc/h264/h264e_api_v2.c:400 | Since codec merges never fail, after a series the stored mask is the initial mask plus the union of every merge's mask. |
| EncCfgProps.SplitMergeContract | mpp/codec/enc/h264/h264e_api_v2.c:404-420 | The split merge always returns MPP_OK. MODE copies both mode and argument, ARG copies the argument, and the mask is ORed in. |
| CfgSetting.CfgSet.ProcPrepCfg | mpp/codec/enc/h264/h264e_api_v2.c:201-268 | The in-place prep merge (snapshot, conditional copies, OR, check, restore) leaves exactly the record and status of the pure prep merge, and touches no other domain. |
| CfgSetting.CfgSet.ProcRcCfg | mpp/codec/enc/h264/h264e_api_v2.c:270-342 | The in-place rc merge leaves exactly the record and status of the pure rc merge, and touches no other domain. |
| CfgSetting.CfgSet.CopyRcGroups | mpp/codec/enc/h264/h264e_api_v2.c:278-306 | Mode, quality, bitrate triple, input and output fps triples, GOP and max re-encode are each replaced iff selected; all other fields stay. |
| CfgSetting.CfgSet.CheckRc | mpp/codec/enc/h264/h264e_api_v2.c:309-327 | Returns MPP_OK exactly when the record is acceptable (mode and quality inside their enumerations, bitrates in range unless FIXQP), MPP_ERR_VALUE otherwise. |
| CfgSetting.CfgSet.ProcH264Cfg | mpp/codec/enc/h264/h264e_api_v2.c:344-402 | The in-place codec merge leaves exactly the masked copy with the mask ORed, and returns MPP_OK. |
| CfgSetting.CfgSet.CopyCodingToolGroups | mpp/codec/enc/h264/h264e_api_v2.c:350-374 | Stream type, profile/level, entropy, 8x8 transform, constrained intra, chroma QP offsets, deblocking and long-term groups are each replaced iff selected; all other fields stay. |
| CfgSetting.CfgSet.CopyControlGroups | mpp/codec/enc/h264/h264e_api_v2.c:376-398 | Scaling list, QP limits, intra refresh, max LTR, max tid, add prefix, base layer pid and VUI are each replaced iff selected; all other fields stay. |
| EncCfgProps.SplitChangeAccumulates | mpp/codec/enc/h264/h264e_api_v2.c:417 | Since split merges never fail, after a series the stored mask is the initial mask plus the union of every merge's mask. |
| CfgSetting.CfgSet.ProcSplitCfg | mpp/codec/enc/h264/h264e_api_v2.c:404-420 | The in-place split merge equals the pure split merge and returns MPP_OK. |
| CfgSetting.CfgSet.InitDefaults | mpp/codec/enc/h264/h264e_api_v2.c:87-143 | Installs the default records: the codec record zeroed with baseline profile, level 3.1 and QP 26/48/8/8; 1280x720 YUV420SP prep (colour, range and sharpen kept); CBR 2 Mbps ±25 %, 30/1 fps, GOP 60; split untouched. |
| CfgSetting.DefaultsAreValid | mpp/codec/enc/h264/h264e_api_v2.c:112-142 | The defaults pass the prep size check and the rc checks, have empty masks, and min < target < max bitrate. |
| CfgSetting.DefaultBitrateUpdate | mpp/codec/enc/h264/h264e_api_v2.c:284-333 | From the defaults, a bitrate-only change to 4/5/3 Mbps is accepted and changes only the bitrates and the mask, while one whose minimum is 1K is rejected and the defaults stay. |
| H264eApi.FrameSyntaxIsComplete | mpp/codec/enc/h264/h264e_api_v2.c:567-573 | The per-frame descriptor list fills the capacity H264E_SYN_BUTT. Each syntax kind appears exactly once, at its fixed position, and points at its own structure. |
| H264eApi.PrefixFitsPacket | mpp/codec/enc/h264/h264e_api_v2.c:599-621 | If the writer uses at most the spare bytes `size - length - (pos - data)` it was given, the grown packet still ends inside its buffer. |
| H264eApi.Reconciled | mpp/codec/enc/h264/h264e_api_v2.c:582-591 | After reconciliation, max_tid equals the reference manager's max_st_tid and every other option is unchanged. |
| H264eApi.ReconciledPrefix | mpp/codec/enc/h264/h264e_api_v2.c:582-594 | The prefix is enabled after reconciliation iff add_prefix is set or the reference manager reports temporal layers; reconciling twice equals reconciling once. |
| H264eApi.Cleared | mpp/codec/enc/h264/h264e_api_v2.c:435-450 | The aggregate command leaves all four source masks empty and every other source field as it was. |
| H264eApi.ApplyCfgSet | mpp/codec/enc/h264/h264e_api_v2.c:431-451 | The aggregate command on values returns OK or MPP_ERR_VALUE. The codec and split masks always take the caller's bits. The prep and rc masks either take them or stay as they were. |
| H264eApi.ApplyCfgSetStatus | mpp/codec/enc/h264/h264e_api_v2.c:430-451 | The aggregate command returns MPP_ERR_VALUE iff a present prep or rc change was rejected, MPP_OK otherwise; present codec and split changes are applied regardless of a failing domain. |
| H264eApi.ApplyCfgSetSkipsOnlyNoOps | mpp/codec/enc/h264/h264e_api_v2.c:435-450 | Skipping the domains whose mask is empty gives the same configuration as running all four merges. |
| H264eApi.H264eCtx.constructor | mpp/codec/enc/h264/h264e_api_v2.c:152-184 | Initialisation shares the given configuration set, sets hdr_size to SZ_1K and idr_request to 0, starts with an empty descriptor list, and installs the defaults. |
| H264eApi.H264eCtx.AddSyntax | mpp/codec/enc/h264/h264e_api_v2.c:145-150 | Writes the descriptor into the next free slot, leaves the other slots unchanged, and increments syn_num without passing the capacity. |
| H264eApi.H264eCtx.ProcCfg | mpp/codec/enc/h264/h264e_api_v2.c:422-476 | SET_CFG applies the aggregate merge and clears the source masks. PREP/RC/CODEC/SPLIT change only their own domain with that merge's result and leave the source alone. SEI changes nothing and returns OK. Any other command changes nothing and returns MPP_NOK. |
| H264eApi.H264eCtx.ProcSetCfg | mpp/codec/enc/h264/h264e_api_v2.c:431-451 | Merges each domain with a non-empty source mask, ORs the codes, and clears each processed source mask whether or not its merge failed. |
| H264eApi.H264eCtx.ProcDpb | mpp/codec/enc/h264/h264e_api_v2.c:520-558 | seq_idx and curr_idx come from the current frame. refr_idx is the reference's slot, or the current slot when there is no reference. usage[i] equals the i-th DPB slot's on_used for every i. The task's frame status is the current frame's status after the DPB check. Returns OK. |
| H264eApi.H264eCtx.ProcHal | mpp/codec/enc/h264/h264e_api_v2.c:560-628 | The list holds exactly CFG, SPS, PPS, SLICE, FRAME, RC with count 6. The task is valid, points at the list, and is intra iff the slice is IDR. max_tid equals the cpb max_st_tid. When the prefix is enabled, its fields are derived (priority_id = base_layer_pid + temporal_id), the writer gets the spare bytes, and the packet and task lengths both grow by bits/8; otherwise both lengths are unchanged. |
| H264eApi.H264eCtx.RebuildSyntax | mpp/codec/enc/h264/h264e_api_v2.c:567-573 | Starting from an empty list, the six appends leave exactly the per-frame descriptor list at full capacity. |
| H264eApi.H264eCtx.AppendPrefix | mpp/codec/enc/h264/h264e_api_v2.c:594-622 | The prefix parameters come from the slice and the frame's temporal id. The writer receives the bytes between the end of the data and the end of the buffer. The packet and task lengths grow by the same whole-byte count. |
| Mlvec.ResetDynamic | mpp/codec/enc/h264/h264e_mlvec.c:39-46 | Resetting clears the mask and sets mark_ltr, use_ltr and base_layer_pid to -1, keeping frame_qp. |
| Mlvec.SetStatic | mpp/codec/enc/h264/h264e_mlvec.c:85-101 | A NULL record zeroes the context (QP and LTR directives read 0). Otherwise only the static configuration changes and its mask becomes the caller's. |
| Mlvec.SetDynamic | mpp/codec/enc/h264/h264e_mlvec.c:117-136 | A NULL record zeroes the context. Otherwise only the dynamic configuration changes and the caller's mask is ORed into it. |
| Mlvec.FrameStartState | mpp/codec/enc/h264/h264e_mlvec.c:153-169 | After frame start neither LTR directive is pending. QP and mask are kept. A non-zero layer count switches add_prefix on. No other static field changes. |
| Mlvec.FrameStartUsr | mpp/codec/enc/h264/h264e_mlvec.c:156-168 | The reference record keeps every flag it had and gains at most the LTR-index and ref-mode flags. With no directive pending it is unchanged. |
| Mlvec.RcForce | mpp/codec/enc/h264/h264e_mlvec.c:185-191 | The force-QP flag is set, and the forced QP is non-negative, exactly when frame_qp ≥ 0. No other flag is ever set. |
| Mlvec.FrameEndState | mpp/codec/enc/h264/h264e_mlvec.c:196-207 | Frame end keeps the static configuration and frame_qp, empties the dynamic mask and leaves no LTR directive pending. |
| Mlvec.InitialSentinels | mpp/codec/enc/h264/h264e_mlvec.c:48-67 | A new context has frame_qp, mark_ltr, use_ltr and base_layer_pid at -1, an empty mask and everything else zero. Its first frame is neither forced nor given a QP. |
| Mlvec.StaticSetterReplacesMask | mpp/codec/enc/h264/h264e_mlvec.c:89-101 | The static setter copies exactly the selected fields among ltr_frames, max_temporal_layer_count and add_prefix, touches nothing else, and replaces the mask: two calls leave only the second mask. |
| Mlvec.DynamicSetterAccumulatesMask | mpp/codec/enc/h264/h264e_mlvec.c:121-136 | The dynamic setter copies exactly the selected fields among mark_ltr, use_ltr, frame_qp and base_layer_pid and ORs the masks of successive calls; frame end clears the mask. |
| Mlvec.FrameStartConsumesDirectives | mpp/codec/enc/h264/h264e_mlvec.c:153-169 | Afterwards no directive is pending. The record gains exactly the flags of the directives that were pending, on top of its own, with the LTR index and the ref mode/arg set. A second frame start adds nothing and changes nothing. frame_qp is kept. |
| Mlvec.TemporalLayersForcePrefix | mpp/codec/enc/h264/h264e_mlvec.c:153-154 | After setting a non-zero temporal layer count, frame start turns add_prefix on. |
| Mlvec.NullConfigDisables | mpp/codec/enc/h264/h264e_mlvec.c:85-119 | A NULL record given to either setter zeroes the context, so the next frame marks and uses LTR index 0 and is forced to QP 0. |
| Mlvec.FrameEndKeepsQp | mpp/codec/enc/h264/h264e_mlvec.c:196-207 | Frame end keeps frame_qp and the static configuration, so the rc force output is unchanged by it. |
| Mlvec.RunFrames | mpp/codec/enc/h264/h264e_mlvec.c:142-207 | A run of frames yields one output per frame, and the first frame's reference record is frame start's result. |
| Mlvec.ForcedQpPersists | mpp/codec/enc/h264/h264e_mlvec.c:185-191 | With a forced QP set, every frame of a run is forced to that QP (induction over the run). |
| Mlvec.NoDirectiveNoForce | mpp/codec/enc/h264/h264e_mlvec.c:156-168 | With no pending directive, no frame of a run has its reference record changed (induction). |
| Mlvec.DirectivesActOnce | mpp/codec/enc/h264/h264e_mlvec.c:156-168 | LTR directives set before a run act on its first frame only. |
| Mlvec.MlvecCtx.ResetDynamicCfg | mpp/codec/enc/h264/h264e_mlvec.c:39-46 | The in-place reset leaves the dynamic configuration equal to its reset value. |
| Mlvec.MlvecCtx.Clear | mpp/codec/enc/h264/h264e_mlvec.c:87 | The memset leaves every field of the context zero. |
| Mlvec.MlvecInit | mpp/codec/enc/h264/h264e_mlvec.c:48-67 | A NULL handle pointer gives MPP_ERR_NULL_PTR. Otherwise the handle receives a fresh context in the initial state and the call returns OK. |
| Mlvec.SetStaticConfig | mpp/codec/enc/h264/h264e_mlvec.c:75-105 | A NULL context gives MPP_ERR_NULL_PTR with nothing changed. Otherwise the context becomes the static-setter result (zeroed for a NULL record) and the caller's record has its mask cleared. |
| Mlvec.SetDynamicConfig | mpp/codec/enc/h264/h264e_mlvec.c:107-140 | A NULL context gives MPP_ERR_NULL_PTR with nothing changed. Otherwise the context becomes the dynamic-setter result and the caller's record has its mask cleared. |
| Mlvec.FrameStart | mpp/codec/enc/h264/h264e_mlvec.c:142-172 | A NULL context or record gives MPP_ERR_NULL_PTR with no state changed. Otherwise the context and the record become the frame-start results. |
| Mlvec.RcSetup | mpp/codec/enc/h264/h264e_mlvec.c:174-194 | Reads only. NULL gives MPP_ERR_NULL_PTR. Otherwise the record is {FORCE_QP, frame_qp} when frame_qp ≥ 0 and {0, -1} otherwise, so repeated calls give the same output. |
| Mlvec.FrameEnd | mpp/codec/enc/h264/h264e_mlvec.c:196-208 | A NULL context gives MPP_ERR_NULL_PTR. Otherwise only the dynamic configuration is reset. |

## Left out

- Memory management is not modelled: `h264e_deinit`, `mlvec_deinit`, the allocations, `mpp_assert`, and the MPP_ERR_NOMEM path of `mlvec_init`. The H.264 context starts zeroed, as its allocator leaves it.
- Logging and the `h264e_debug` environment variable are left out: they have no effect on state.
- The `mpp_assert(change)` in the prep merge is a debug assertion. The modelled merge handles an empty mask as the code does.
- `h264e_gen_hdr`, `h264e_start`, `h264e_add_sei` and the `api_h264e` table are not modelled:
  - `h264e_gen_hdr` only calls SPS/PPS builders and packet serialisation, which are not part of this model;
  - `h264e_start` does nothing;
  - `h264e_add_sei` only forwards to the SEI writer;
  - `api_h264e` is a table of function pointers.
- The DPB, slice and reference-manager collaborators are not part of this model: `h264e_dpb_proc`, `h264e_dpb_check`, `h264e_slice_update`, `h264e_slice_write_prefix_nal_unit_svc` and `mpp_enc_ref_cfg_get_cpb_info`.
  - What the code reads back from them becomes a parameter: `DpbStep`, `cpbMaxStTid`, and the writer function.
  - The SPS, PPS, both DPB copies, the reorder/marking state and the rc syntax are therefore not modelled.
- The prefix NAL's bytes are not modelled, only the lengths. Packet pointers are integers: the write position is an offset from the buffer start.
- `H264eApi.H264eCtx.ProcHal`: does not state the bytes the writer puts into the packet, because that encoding belongs to the slice writer.
- RK_S32 overflow is not modelled: packet/task lengths and `priority_id` are computed on unbounded integers.
- Change masks are sets of bit positions. The headers that define these values are not part of this model, so the following are chosen, not taken from the code:
  - the positions of `MPP_ENC_*_CFG_CHANGE_*`, `ENC_FORCE_LT_REF_IDX`, `ENC_FORCE_REF_MODE` and `ENC_RC_FORCE_QP`;
  - the values of `REF_TO_LT_REF_IDX`, the rotation, rc-mode and quality enumerations, and their BUTT bounds;
  - `H264E_SYN_BUTT`, taken as 6, the number of kinds handed over per frame.
    `H264eApi.FrameSyntaxIsComplete`'s claim that the frame's list fills the array exactly depends on this value.

  The MLVEC bits are the real ones.
- The numeric values of `H264eSyntaxType` are not modelled; the order of the per-frame list is.
- Configuration fields that no modelled routine reads or writes are not in the records. The VUI sub-record is one value, copied as a whole.
- Aliasing between the caller's and the encoder's configuration set is not modelled: `ProcCfg` requires them to be different objects.
- MLVEC's caller records are passed by value and returned as the code leaves them. `task->rc_task->frm` is a field of the task.
- The order frame start, rc setup, frame end used by `Mlvec.RunFrames` is how the encoder drives MLVEC each frame. That caller is not part of this model.
