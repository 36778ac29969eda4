/** The SOF mixer-control handlers for volume, switch and enum controls: each keeps a per-channel
    cache of the value last exchanged with the DSP, and every handler runs inside the same
    runtime-PM gate. The IPC transport is external: a GET's reply is a parameter that becomes the
    new cache contents, and the results of the siggen stream IPCs are parameters. */
module SofControl {
  import opened Common
  import opened SofDevice
  import opened Volume

  /** Size of `struct sof_abi_hdr`: magic, type, size, abi and reserved words. */
  const ABI_HDR_SIZE: nat := 32

  /** `struct snd_sof_control` together with the `struct sof_ipc_ctrl_data` it caches. */
  class SofControl {
    const sdev: SofDev
    /** scontrol->comp_id: the DSP component the control belongs to. */
    const compId: int
    /** scontrol->cmd: the SOF_CTRL_CMD_* of a bytes control. */
    const cmd: u32
    /** scontrol->num_channels: an `unsigned int`. */
    const numChannels: u32
    /** scontrol->volume_table: sm->max + 1 entries from topology, sm->max being an `int`. */
    const volumeTable: seq<u32>
    /** scontrol->vfe_link_name: the virtual front end a siggen control drives. */
    const vfeLinkName: string
    /** be->max: the largest blob, header included, topology allows. */
    const bytesMax: nat
    /** cdata->chanv[]: the channel value cache. */
    const chanv: array<ChanValue>
    /** cdata->data: the blob cache, a `struct sof_abi_hdr` followed by its payload. */
    const data: array<byte>

    ghost predicate Valid()
      reads this
    {
      && chanv.Length == numChannels && ABI_HDR_SIZE <= data.Length && bytesMax <= data.Length
      && |volumeTable| <= 0x8000_0000
    }

    constructor (sdev: SofDev, compId: int, cmd: u32, numChannels: u32, volumeTable: seq<u32>,
                 vfeLinkName: string, bytesMax: nat, dataSize: nat)
      requires ABI_HDR_SIZE <= dataSize && bytesMax <= dataSize && |volumeTable| <= 0x8000_0000
      ensures Valid() && fresh(chanv) && fresh(data)
      ensures this.sdev == sdev && this.compId == compId && this.cmd == cmd
      ensures this.numChannels == numChannels && this.volumeTable == volumeTable
      ensures this.vfeLinkName == vfeLinkName && this.bytesMax == bytesMax && data.Length == dataSize
    {
      this.sdev, this.compId, this.cmd, this.numChannels := sdev, compId, cmd, numChannels;
      this.volumeTable, this.vfeLinkName, this.bytesMax := volumeTable, vfeLinkName, bytesMax;
      chanv := new ChanValue[numChannels](_ => ChanValue(0, 0));
      data := new byte[dataSize](_ => 0);
    }
  }

  // ---------------------------------------------------------------------------------------------
  // The runtime-PM gate shared by every handler.

  /** pm_runtime_get_sync, and on a failed resume the balancing pm_runtime_put_noidle. */
  method PmEnter(sdev: SofDev, resume: int) returns (ret: int)
    modifies sdev`usage
    ensures ret == resume
    ensures sdev.usage == old(sdev.usage) + (if resume < 0 then 0 else 1)
  {
    ret := sdev.PmGetSync(resume);
    if ret < 0 {
      sdev.PmPutNoIdle();
    }
  }

  /** pm_runtime_mark_last_busy then pm_runtime_put_autosuspend, whose error is only logged. */
  method PmLeave(sdev: SofDev, autosuspend: int)
    modifies sdev`usage, sdev`busyMarks, sdev`idleRequests
    ensures sdev.usage == old(sdev.usage) - 1
    ensures sdev.busyMarks == old(sdev.busyMarks) + 1 && sdev.idleRequests == old(sdev.idleRequests) + 1
  {
    sdev.PmMarkLastBusy();
    var err := sdev.PmPutAutosuspend(autosuspend);
  }

  /** The gate leaves the usage count where it was on every path, and schedules one idle
      (after marking the device busy) exactly when the resume succeeded. */
  twostate predicate PmBalanced(sdev: SofDev, resume: int)
    reads sdev
  {
    && sdev.usage == old(sdev.usage)
    && sdev.busyMarks == old(sdev.busyMarks) + (if resume < 0 then 0 else 1)
    && sdev.idleRequests == old(sdev.idleRequests) + (if resume < 0 then 0 else 1)
  }

  // ---------------------------------------------------------------------------------------------
  // Widget lookup and the siggen pipeline.

  /** The type of the first widget of the list that sits on component compId, if any. */
  function FirstWidgetType(widgets: seq<Widget>, compId: int): Option<WidgetType>
  {
    if |widgets| == 0 then None
    else if widgets[0].compId == compId then Some(widgets[0].id)
    else FirstWidgetType(widgets[1..], compId)
  }

  /** The lookup finds the earliest widget on the component, and finds none exactly when no
      widget of the list is on it. */
  lemma {:induction false} FirstWidgetTypeFinds(widgets: seq<Widget>, compId: int)
    ensures FirstWidgetType(widgets, compId).Some? ==>
      exists k :: 0 <= k < |widgets| && widgets[k].compId == compId && widgets[k].id == FirstWidgetType(widgets, compId).value
                  && forall j :: 0 <= j < k ==> widgets[j].compId != compId
    ensures FirstWidgetType(widgets, compId).None? <==> forall j :: 0 <= j < |widgets| ==> widgets[j].compId != compId
    decreases |widgets|
  {
    if |widgets| > 0 && widgets[0].compId != compId {
      var rest := widgets[1..];
      FirstWidgetTypeFinds(rest, compId);
      if FirstWidgetType(rest, compId).Some? {
        var k :| 0 <= k < |rest| && rest[k].compId == compId && rest[k].id == FirstWidgetType(rest, compId).value
                 && forall j :: 0 <= j < k ==> rest[j].compId != compId;
        assert widgets[k + 1] == rest[k];
        assert forall j :: 1 <= j < k + 1 ==> widgets[j] == rest[j - 1];
      } else {
        assert forall j :: 1 <= j < |widgets| ==> widgets[j] == rest[j - 1];
      }
    }
  }

  /** get_widget_type: walks sdev->widget_list for the control's component; None stands for the
      -EINVAL of a standalone control. */
  method GetWidgetType(widgets: seq<Widget>, compId: int) returns (r: Option<WidgetType>)
    ensures r == FirstWidgetType(widgets, compId)
  {
    var k := 0;
    while k < |widgets|
      invariant 0 <= k <= |widgets|
      invariant FirstWidgetType(widgets[k..], compId) == FirstWidgetType(widgets, compId)
    {
      if widgets[k].compId == compId {
        return Some(widgets[k].id);
      }
      assert widgets[k..][1..] == widgets[k + 1..];
      k := k + 1;
    }
    return None;
  }

  /** The cpu and codec DAI state a virtual front end's status touches. */
  datatype DaiState = DaiState(playbackActive: int, captureActive: int, active: int)

  /** One `struct snd_soc_pcm_runtime` of the card: its DAI link and its two DAIs. */
  datatype Rtd = Rtd(linkName: string, dpcmPlayback: bool, dpcmCapture: bool, cpuDai: DaiState, codecDai: DaiState)

  /** `struct snd_soc_card`: its runtime list. */
  class Card {
    var rtds: seq<Rtd>

    constructor (rtds: seq<Rtd>)
      ensures this.rtds == rtds
    {
      this.rtds := rtds;
    }
  }

  /** One runtime after set_vfe_active_status(status) matched its link: the stream directions
      the link carries take status on both DAIs, and the cpu DAI's active count moves by one. */
  function VfeUpdated(r: Rtd, status: int): Rtd
  {
    var cpu := r.cpuDai;
    var codec := r.codecDai;
    var cpu1 := if r.dpcmPlayback then cpu.(playbackActive := status) else cpu;
    var codec1 := if r.dpcmPlayback then codec.(playbackActive := status) else codec;
    var cpu2 := if r.dpcmCapture then cpu1.(captureActive := status) else cpu1;
    var codec2 := if r.dpcmCapture then codec1.(captureActive := status) else codec1;
    var cpu3 := cpu2.(active := if status != 0 then cpu2.active + 1 else cpu2.active - 1);
    r.(cpuDai := cpu3, codecDai := codec2)
  }

  /** set_vfe_active_status: every runtime whose link name is the control's virtual front end is
      updated; the others, and the order of the list, are untouched. */
  method SetVfeActiveStatus(ctl: SofControl, card: Card, status: int) returns (ret: int)
    modifies card
    ensures ret == 0
    ensures |card.rtds| == |old(card.rtds)|
    ensures forall k :: 0 <= k < |card.rtds| ==> (
      card.rtds[k] == if old(card.rtds[k]).linkName == ctl.vfeLinkName then VfeUpdated(old(card.rtds[k]), status) else old(card.rtds[k]))
  {
    var k := 0;
    while k < |card.rtds|
      invariant 0 <= k <= |card.rtds| && |card.rtds| == |old(card.rtds)|
      invariant forall j :: 0 <= j < k ==>
        card.rtds[j] == if old(card.rtds[j]).linkName == ctl.vfeLinkName then VfeUpdated(old(card.rtds[j]), status) else old(card.rtds[j])
      invariant forall j :: k <= j < |card.rtds| ==> card.rtds[j] == old(card.rtds[j])
    {
      if card.rtds[k].linkName == ctl.vfeLinkName {
        card.rtds := card.rtds[k := VfeUpdated(card.rtds[k], status)];
      }
      k := k + 1;
    }
    ret := 0;
  }

  /** Switching a virtual front end on and then off restores its cpu DAI's active count, leaves
      its codec DAI's count alone, and leaves every direction the link carries inactive. */
  lemma VfeOnOff(r: Rtd)
    ensures VfeUpdated(VfeUpdated(r, 1), 0).cpuDai.active == r.cpuDai.active
    ensures VfeUpdated(VfeUpdated(r, 1), 0).codecDai.active == r.codecDai.active
    ensures VfeUpdated(r, 1).cpuDai.active == r.cpuDai.active + 1
    ensures r.dpcmPlayback ==> VfeUpdated(VfeUpdated(r, 1), 0).cpuDai.playbackActive == 0
    ensures r.dpcmPlayback ==> VfeUpdated(VfeUpdated(r, 1), 0).codecDai.playbackActive == 0
    ensures !r.dpcmPlayback ==> VfeUpdated(VfeUpdated(r, 1), 0).cpuDai.playbackActive == r.cpuDai.playbackActive
    ensures r.dpcmCapture ==> VfeUpdated(VfeUpdated(r, 1), 0).cpuDai.captureActive == 0
    ensures r.dpcmCapture ==> VfeUpdated(VfeUpdated(r, 1), 0).codecDai.captureActive == 0
    ensures !r.dpcmCapture ==> VfeUpdated(VfeUpdated(r, 1), 0).cpuDai.captureActive == r.cpuDai.captureActive
    ensures VfeUpdated(VfeUpdated(r, 1), 0).linkName == r.linkName
  {
  }

  /** The IPCs siggen_pipeline_trigger sends for new_state: PCM_FREE to stop; to start, the PCM
      params and, unless they failed, TRIG_START. */
  function SiggenMessages(compId: int, channels: nat, newState: int, paramsResult: int): (r: seq<Ipc>)
    ensures newState == 0 ==> r == [StreamTrigger(compId, PcmFree)]
    ensures newState != 0 ==> |r| >= 1 && r[0] == StreamPcmParams(compId, channels)
    ensures newState != 0 ==> (|r| == 2 <==> paramsResult >= 0)
    ensures TrigStart in (set m | m in r && m.StreamTrigger? :: m.stream) <==> newState != 0 && paramsResult >= 0
  {
    if newState == 0 then [StreamTrigger(compId, PcmFree)]
    else if paramsResult < 0 then [StreamPcmParams(compId, channels)]
    else [StreamPcmParams(compId, channels), StreamTrigger(compId, TrigStart)]
  }

  /** siggen_pipeline_trigger: marks the virtual front end inactive or active, then sends the
      stream IPCs; a failed params IPC is returned and skips the start trigger. */
  method SiggenPipelineTrigger(ctl: SofControl, card: Card, newState: int, paramsResult: int, triggerResult: int)
    returns (ret: int)
    modifies card, ctl.sdev`ipcLog
    ensures ctl.sdev.ipcLog == old(ctl.sdev.ipcLog) + SiggenMessages(ctl.compId, ctl.numChannels, newState, paramsResult)
    ensures ret == if newState != 0 && paramsResult < 0 then paramsResult else triggerResult
    ensures |card.rtds| == |old(card.rtds)|
    ensures forall k :: 0 <= k < |card.rtds| ==> (
      card.rtds[k] == if old(card.rtds[k]).linkName == ctl.vfeLinkName
                      then VfeUpdated(old(card.rtds[k]), if newState == 0 then 0 else 1) else old(card.rtds[k]))
  {
    if newState == 0 {
      var _ := SetVfeActiveStatus(ctl, card, 0);
      ctl.sdev.SendIpc(StreamTrigger(ctl.compId, PcmFree));
      ret := triggerResult;
    } else {
      var _ := SetVfeActiveStatus(ctl, card, 1);
      ctl.sdev.SendIpc(StreamPcmParams(ctl.compId, ctl.numChannels));
      ret := paramsResult;
      if ret < 0 {
        return;
      }
      ctl.sdev.SendIpc(StreamTrigger(ctl.compId, TrigStart));
      ret := triggerResult;
    }
  }

  // ---------------------------------------------------------------------------------------------
  // Value handlers.

  /** The cache after a put of UI values: channel i carries index i and the value f gives. */
  ghost predicate CacheHolds(c: seq<ChanValue>, n: u32, f: int -> u32)
  {
    |c| == n && forall i :: 0 <= i < n ==> c[i] == ChanValue(i, f(i))
  }

  /** snd_sof_volume_get: GET the channel values, then report each as the UI step
      ipc_to_mixer finds for it in the volume table; returns 0 once resumed. */
  method VolumeGet(ctl: SofControl, pm: PmOutcome, reply: seq<ChanValue>, ucontrol: seq<int>)
    returns (ret: int, out: seq<int>)
    requires ctl.Valid() && |reply| == ctl.numChannels && ctl.numChannels <= |ucontrol|
    modifies ctl.sdev, ctl.chanv
    ensures PmBalanced(ctl.sdev, pm.resume)
    ensures pm.resume < 0 ==> (ret == pm.resume && out == ucontrol
      && ctl.sdev.ipcLog == old(ctl.sdev.ipcLog) && ctl.chanv[..] == old(ctl.chanv[..]))
    ensures pm.resume >= 0 ==> (ret == 0 && ctl.sdev.ipcLog == old(ctl.sdev.ipcLog) + [CompGetValue(CmdVolume)]
      && ctl.chanv[..] == reply && |out| == |ucontrol|
      && (forall i :: ctl.numChannels <= i < |out| ==> out[i] == ucontrol[i])
      && (forall i :: 0 <= i < ctl.numChannels ==>
            if |ctl.volumeTable| == 0 then out[i] == 0xFFFF_FFFF
            else FirstAtLeast(ctl.volumeTable, reply[i].value, out[i])))
  {
    out := ucontrol;
    ret := PmEnter(ctl.sdev, pm.resume);
    if ret < 0 {
      return;
    }
    ctl.sdev.SendIpc(CompGetValue(CmdVolume));
    forall k | 0 <= k < ctl.chanv.Length {
      ctl.chanv[k] := reply[k];
    }
    var i := 0;
    while i < ctl.numChannels
      modifies {}
      invariant 0 <= i <= ctl.numChannels && |out| == |ucontrol|
      invariant forall j :: i <= j < |out| ==> out[j] == ucontrol[j]
      invariant forall j :: 0 <= j < i ==>
        if |ctl.volumeTable| == 0 then out[j] == 0xFFFF_FFFF
        else FirstAtLeast(ctl.volumeTable, reply[j].value, out[j])
    {
      var step := IpcToMixer(ctl.chanv[i].value, ctl.volumeTable);
      out := out[i := ToU32(step)];
      i := i + 1;
    }
    PmLeave(ctl.sdev, pm.autosuspend);
    ret := 0;
  }

  /** snd_sof_volume_put: quantise every channel's UI step through the volume table, then SET
      the values with no change check; returns 0 once resumed. */
  method VolumePut(ctl: SofControl, pm: PmOutcome, ucontrol: seq<int>) returns (ret: int)
    requires ctl.Valid() && |ctl.volumeTable| >= 1 && ctl.numChannels <= |ucontrol|
    modifies ctl.sdev, ctl.chanv
    ensures PmBalanced(ctl.sdev, pm.resume)
    ensures pm.resume < 0 ==> (ret == pm.resume
      && ctl.sdev.ipcLog == old(ctl.sdev.ipcLog) && ctl.chanv[..] == old(ctl.chanv[..]))
    ensures pm.resume >= 0 ==> (ret == 0
      && CacheHolds(ctl.chanv[..], ctl.numChannels, i => if 0 <= i < |ucontrol| then MixerToIpc(ToU32(ucontrol[i]), ctl.volumeTable) else 0)
      && ctl.sdev.ipcLog == old(ctl.sdev.ipcLog) + [CompSetValue(CmdVolume, ctl.chanv[..])])
  {
    ret := PmEnter(ctl.sdev, pm.resume);
    if ret < 0 {
      return;
    }
    var i := 0;
    while i < ctl.numChannels
      modifies ctl.chanv
      invariant 0 <= i <= ctl.numChannels
      invariant forall j :: 0 <= j < i ==> ctl.chanv[j] == ChanValue(j, MixerToIpc(ToU32(ucontrol[j]), ctl.volumeTable))
    {
      ctl.chanv[i] := ChanValue(i, MixerToIpc(ToU32(ucontrol[i]), ctl.volumeTable));
      i := i + 1;
    }
    ctl.sdev.SendIpc(CompSetValue(CmdVolume, ctl.chanv[..]));
    PmLeave(ctl.sdev, pm.autosuspend);
    ret := 0;
  }

  /** When the DSP answers a volume GET with the values last SET, a put followed by a get reports,
      for every channel, a step no higher than the one put that quantises to the same device value. */
  method VolumePutThenGet(ctl: SofControl, ucontrol: seq<int>) returns (out: seq<int>)
    requires ctl.Valid() && |ctl.volumeTable| >= 1 && NonDecreasing(ctl.volumeTable)
    requires ctl.numChannels <= |ucontrol|
    modifies ctl.sdev, ctl.chanv
    ensures |out| == |ucontrol|
    ensures forall i :: 0 <= i < ctl.numChannels ==> (
      0 <= out[i] < |ctl.volumeTable| && out[i] <= ToU32(ucontrol[i])
      && ctl.volumeTable[out[i]] == MixerToIpc(ToU32(ucontrol[i]), ctl.volumeTable))
  {
    var _ := VolumePut(ctl, PmOutcome(0, 0), ucontrol);
    var sent := ctl.chanv[..];
    var _, got := VolumeGet(ctl, PmOutcome(0, 0), sent, ucontrol);
    out := got;
    forall i | 0 <= i < ctl.numChannels
      ensures 0 <= out[i] < |ctl.volumeTable| && out[i] <= ToU32(ucontrol[i])
      && ctl.volumeTable[out[i]] == MixerToIpc(ToU32(ucontrol[i]), ctl.volumeTable)
    {
      assert sent[i].value == MixerToIpc(ToU32(ucontrol[i]), ctl.volumeTable);
      QuantizationIdempotent(ToU32(ucontrol[i]), ctl.volumeTable, out[i]);
    }
  }

  /** GET the channel values and report them unchanged (the switch and enum get handlers). */
  method ValuesGet(ctl: SofControl, kind: CtrlCmd, pm: PmOutcome, reply: seq<ChanValue>, ucontrol: seq<int>)
    returns (ret: int, out: seq<int>)
    requires ctl.Valid() && |reply| == ctl.numChannels && ctl.numChannels <= |ucontrol|
    modifies ctl.sdev, ctl.chanv
    ensures PmBalanced(ctl.sdev, pm.resume)
    ensures pm.resume < 0 ==> (ret == pm.resume && out == ucontrol
      && ctl.sdev.ipcLog == old(ctl.sdev.ipcLog) && ctl.chanv[..] == old(ctl.chanv[..]))
    ensures pm.resume >= 0 ==> (ret == 0 && ctl.sdev.ipcLog == old(ctl.sdev.ipcLog) + [CompGetValue(kind)]
      && ctl.chanv[..] == reply && |out| == |ucontrol|
      && (forall i :: 0 <= i < ctl.numChannels ==> out[i] == reply[i].value)
      && (forall i :: ctl.numChannels <= i < |out| ==> out[i] == ucontrol[i]))
  {
    out := ucontrol;
    ret := PmEnter(ctl.sdev, pm.resume);
    if ret < 0 {
      return;
    }
    ctl.sdev.SendIpc(CompGetValue(kind));
    forall k | 0 <= k < ctl.chanv.Length {
      ctl.chanv[k] := reply[k];
    }
    var i := 0;
    while i < ctl.numChannels
      modifies {}
      invariant 0 <= i <= ctl.numChannels && |out| == |ucontrol|
      invariant forall j :: 0 <= j < i ==> out[j] == reply[j].value
      invariant forall j :: i <= j < |out| ==> out[j] == ucontrol[j]
    {
      out := out[i := ctl.chanv[i].value];
      i := i + 1;
    }
    PmLeave(ctl.sdev, pm.autosuspend);
    ret := 0;
  }

  /** snd_sof_switch_get. */
  method SwitchGet(ctl: SofControl, pm: PmOutcome, reply: seq<ChanValue>, ucontrol: seq<int>)
    returns (ret: int, out: seq<int>)
    requires ctl.Valid() && |reply| == ctl.numChannels && ctl.numChannels <= |ucontrol|
    modifies ctl.sdev, ctl.chanv
    ensures PmBalanced(ctl.sdev, pm.resume)
    ensures pm.resume < 0 ==> (ret == pm.resume && out == ucontrol
      && ctl.sdev.ipcLog == old(ctl.sdev.ipcLog) && ctl.chanv[..] == old(ctl.chanv[..]))
    ensures pm.resume >= 0 ==> (ret == 0 && ctl.sdev.ipcLog == old(ctl.sdev.ipcLog) + [CompGetValue(CmdSwitch)]
      && ctl.chanv[..] == reply && |out| == |ucontrol|
      && (forall i :: 0 <= i < ctl.numChannels ==> out[i] == reply[i].value)
      && (forall i :: ctl.numChannels <= i < |out| ==> out[i] == ucontrol[i]))
  {
    ret, out := ValuesGet(ctl, CmdSwitch, pm, reply, ucontrol);
  }

  /** snd_sof_enum_get. */
  method EnumGet(ctl: SofControl, pm: PmOutcome, reply: seq<ChanValue>, items: seq<int>)
    returns (ret: int, out: seq<int>)
    requires ctl.Valid() && |reply| == ctl.numChannels && ctl.numChannels <= |items|
    modifies ctl.sdev, ctl.chanv
    ensures PmBalanced(ctl.sdev, pm.resume)
    ensures pm.resume < 0 ==> (ret == pm.resume && out == items
      && ctl.sdev.ipcLog == old(ctl.sdev.ipcLog) && ctl.chanv[..] == old(ctl.chanv[..]))
    ensures pm.resume >= 0 ==> (ret == 0 && ctl.sdev.ipcLog == old(ctl.sdev.ipcLog) + [CompGetValue(CmdEnum)]
      && ctl.chanv[..] == reply && |out| == |items|
      && (forall i :: 0 <= i < ctl.numChannels ==> out[i] == reply[i].value)
      && (forall i :: ctl.numChannels <= i < |out| ==> out[i] == items[i]))
  {
    ret, out := ValuesGet(ctl, CmdEnum, pm, reply, items);
  }

  /** snd_sof_enum_put: every channel takes its item, then one SET with no change check. */
  method EnumPut(ctl: SofControl, pm: PmOutcome, items: seq<u32>) returns (ret: int)
    requires ctl.Valid() && ctl.numChannels <= |items|
    modifies ctl.sdev, ctl.chanv
    ensures PmBalanced(ctl.sdev, pm.resume)
    ensures pm.resume < 0 ==> (ret == pm.resume
      && ctl.sdev.ipcLog == old(ctl.sdev.ipcLog) && ctl.chanv[..] == old(ctl.chanv[..]))
    ensures pm.resume >= 0 ==> (ret == 0
      && CacheHolds(ctl.chanv[..], ctl.numChannels, i => if 0 <= i < |items| then items[i] else 0)
      && ctl.sdev.ipcLog == old(ctl.sdev.ipcLog) + [CompSetValue(CmdEnum, ctl.chanv[..])])
  {
    ret := PmEnter(ctl.sdev, pm.resume);
    if ret < 0 {
      return;
    }
    var i := 0;
    while i < ctl.numChannels
      modifies ctl.chanv
      invariant 0 <= i <= ctl.numChannels
      invariant forall j :: 0 <= j < i ==> ctl.chanv[j] == ChanValue(j, items[j])
    {
      ctl.chanv[i] := ChanValue(i, items[i]);
      i := i + 1;
    }
    ctl.sdev.SendIpc(CompSetValue(CmdEnum, ctl.chanv[..]));
    PmLeave(ctl.sdev, pm.autosuspend);
    ret := 0;
  }

  /** A UI value as the switch handler holds it: truncated to an `int`, stored as a `u32`. */
  function SwitchValue(v: int): (r: u32)
    ensures r == ToU32(v)
  {
    ToU32OfToInt32(v);
    ToU32(ToInt32(v))
  }

  /** Whether a pga switch put changes anything: some channel's value differs from its cache. */
  ghost predicate PerChannelChanged(ucontrol: seq<int>, cache: seq<ChanValue>, n: nat)
    requires n <= |ucontrol| && n <= |cache|
  {
    exists i :: 0 <= i < n && SwitchValue(ucontrol[i]) != cache[i].value
  }

  /** Whether a siggen or routing switch put changes anything: only value[0] against chanv[0]. */
  ghost predicate FirstChanged(ucontrol: seq<int>, cache: seq<ChanValue>, n: nat)
    requires n <= |ucontrol| && n <= |cache|
  {
    n > 0 && SwitchValue(ucontrol[0]) != cache[0].value
  }

  /** The pga loop of snd_sof_switch_put: every channel takes its own value. */
  method SwitchPerChannel(ctl: SofControl, ucontrol: seq<int>) returns (changed: bool)
    requires ctl.Valid() && ctl.numChannels <= |ucontrol|
    modifies ctl.chanv
    ensures changed <==> PerChannelChanged(ucontrol, old(ctl.chanv[..]), ctl.numChannels)
    ensures CacheHolds(ctl.chanv[..], ctl.numChannels, i => if 0 <= i < |ucontrol| then SwitchValue(ucontrol[i]) else 0)
  {
    changed := false;
    var i := 0;
    while i < ctl.numChannels
      modifies ctl.chanv
      invariant 0 <= i <= ctl.numChannels
      invariant forall j :: 0 <= j < i ==> ctl.chanv[j] == ChanValue(j, SwitchValue(ucontrol[j]))
      invariant forall j :: i <= j < ctl.numChannels ==> ctl.chanv[j] == old(ctl.chanv[j])
      invariant changed <==> exists j :: 0 <= j < i && SwitchValue(ucontrol[j]) != old(ctl.chanv[j]).value
    {
      var newState := ToInt32(ucontrol[i]);
      var oldState := ToInt32(ctl.chanv[i].value);
      ToInt32Agrees(ucontrol[i], ctl.chanv[i].value);
      if newState != oldState {
        changed := true;
      }
      ctl.chanv[i] := ChanValue(i, ToU32(newState));
      i := i + 1;
    }
  }

  /** The siggen and default loop of snd_sof_switch_put: every channel takes value[0], and each
      pass compares value[0] with the cache's channel 0. */
  method SwitchFromFirst(ctl: SofControl, ucontrol: seq<int>) returns (changed: bool)
    requires ctl.Valid() && ctl.numChannels <= |ucontrol|
    modifies ctl.chanv
    ensures changed <==> FirstChanged(ucontrol, old(ctl.chanv[..]), ctl.numChannels)
    ensures CacheHolds(ctl.chanv[..], ctl.numChannels, i => if 0 < |ucontrol| then SwitchValue(ucontrol[0]) else 0)
  {
    changed := false;
    var i := 0;
    while i < ctl.numChannels
      modifies ctl.chanv
      invariant 0 <= i <= ctl.numChannels
      invariant forall j :: 0 <= j < i ==> ctl.chanv[j] == ChanValue(j, SwitchValue(ucontrol[0]))
      invariant forall j :: i <= j < ctl.numChannels ==> ctl.chanv[j] == old(ctl.chanv[j])
      invariant changed <==> i > 0 && SwitchValue(ucontrol[0]) != old(ctl.chanv[0]).value
    {
      var newState := ToInt32(ucontrol[0]);
      var oldState := ToInt32(ctl.chanv[0].value);
      ToInt32Agrees(ucontrol[0], ctl.chanv[0].value);
      if newState != oldState {
        changed := true;
      }
      ctl.chanv[i] := ChanValue(i, ToU32(newState));
      i := i + 1;
    }
  }

  /** What snd_sof_switch_put does once resumed, by the widget type of the control's component. */
  ghost predicate SwitchChanged(kind: Option<WidgetType>, ucontrol: seq<int>, cache: seq<ChanValue>, n: nat)
    requires n <= |ucontrol| && n <= |cache|
  {
    if kind == Some(Pga) then PerChannelChanged(ucontrol, cache, n) else FirstChanged(ucontrol, cache, n)
  }

  /** snd_sof_switch_put: the cache is updated on every path; one SET is sent exactly when the
      cache changed; a changed siggen control also runs its pipeline trigger with value[0]
      truncated to an `int`, whose failure is not returned. Returns 0 once resumed. */
  method SwitchPut(ctl: SofControl, card: Card, pm: PmOutcome, ucontrol: seq<int>, paramsResult: int, triggerResult: int)
    returns (ret: int)
    requires ctl.Valid() && ctl.numChannels <= |ucontrol|
    modifies ctl.sdev, ctl.chanv, card
    ensures PmBalanced(ctl.sdev, pm.resume)
    ensures pm.resume < 0 ==> (ret == pm.resume
      && ctl.sdev.ipcLog == old(ctl.sdev.ipcLog) && ctl.chanv[..] == old(ctl.chanv[..]) && card.rtds == old(card.rtds))
    ensures pm.resume >= 0 ==> (ret == 0
      && var kind := FirstWidgetType(ctl.sdev.widgets, ctl.compId);
      CacheHolds(ctl.chanv[..], ctl.numChannels,
           i => if kind == Some(Pga) then (if 0 <= i < |ucontrol| then SwitchValue(ucontrol[i]) else 0)
                else if 0 < |ucontrol| then SwitchValue(ucontrol[0]) else 0)
      && var changed := SwitchChanged(kind, ucontrol, old(ctl.chanv[..]), ctl.numChannels);
         var setMsg := if changed then [CompSetValue(CmdSwitch, ctl.chanv[..])] else [];
         if changed && kind == Some(Siggen) then
           && ctl.sdev.ipcLog == old(ctl.sdev.ipcLog) + setMsg + SiggenMessages(ctl.compId, ctl.numChannels, ToInt32(ucontrol[0]), paramsResult)
           && |card.rtds| == |old(card.rtds)|
           && forall k :: 0 <= k < |card.rtds| ==>
                card.rtds[k] == if old(card.rtds[k]).linkName == ctl.vfeLinkName
                                then VfeUpdated(old(card.rtds[k]), if ToInt32(ucontrol[0]) == 0 then 0 else 1) else old(card.rtds[k])
         else
           ctl.sdev.ipcLog == old(ctl.sdev.ipcLog) + setMsg && card.rtds == old(card.rtds))
  {
    ret := PmEnter(ctl.sdev, pm.resume);
    if ret < 0 {
      return;
    }
    var kind := GetWidgetType(ctl.sdev.widgets, ctl.compId);
    var changed: bool;
    if kind == Some(Pga) {
      changed := SwitchPerChannel(ctl, ucontrol);
      if changed {
        ctl.sdev.SendIpc(CompSetValue(CmdSwitch, ctl.chanv[..]));
      }
    } else if kind == Some(Siggen) {
      changed := SwitchFromFirst(ctl, ucontrol);
      if changed {
        ctl.sdev.SendIpc(CompSetValue(CmdSwitch, ctl.chanv[..]));
        var _ := SiggenPipelineTrigger(ctl, card, ToInt32(ucontrol[0]), paramsResult, triggerResult);
      }
    } else {
      changed := SwitchFromFirst(ctl, ucontrol);
      if changed {
        ctl.sdev.SendIpc(CompSetValue(CmdSwitch, ctl.chanv[..]));
      }
    }
    PmLeave(ctl.sdev, pm.autosuspend);
    ret := 0;
  }

  /** Writing a switch twice with the same values sends no second SET: the second put finds
      nothing changed, whatever the widget type. */
  lemma {:induction false} SwitchPutIdempotent(kind: Option<WidgetType>, ucontrol: seq<int>, n: u32, c: seq<ChanValue>)
    requires n <= |ucontrol| && |c| == n
    requires kind == Some(Pga) ==> forall i :: 0 <= i < n ==> c[i] == ChanValue(i, SwitchValue(ucontrol[i]))
    requires kind != Some(Pga) ==> forall i :: 0 <= i < n ==> c[i] == ChanValue(i, SwitchValue(ucontrol[0]))
    ensures !SwitchChanged(kind, ucontrol, c, n)
  {
    if kind == Some(Pga) {
      forall i | 0 <= i < n ensures SwitchValue(ucontrol[i]) == c[i].value {
        assert c[i] == ChanValue(i, SwitchValue(ucontrol[i]));
      }
    } else if n > 0 {
      assert c[0] == ChanValue(0, SwitchValue(ucontrol[0]));
    }
  }
}
