/** The parts of `struct snd_sof_dev` the control and mailbox paths touch: the runtime-PM usage
    count and its bookkeeping, the stream of IPC messages sent to the DSP, and the mapped bars.
    The PM core and the IPC transport are external: their outcomes are parameters. */
module SofDevice {
  import opened Common

  /** One `struct sof_ipc_ctrl_value_chan` of the control cache. */
  datatype ChanValue = ChanValue(channel: u32, value: u32)

  /** SOF_CTRL_CMD_VOLUME, SOF_CTRL_CMD_SWITCH, SOF_CTRL_CMD_ENUM. */
  datatype CtrlCmd = CmdVolume | CmdSwitch | CmdEnum

  /** The stream triggers the siggen path sends (SOF_IPC_STREAM_TRIG_START, SOF_IPC_STREAM_PCM_FREE). */
  datatype StreamCmd = TrigStart | PcmFree

  /** The DAPM widget types the switch handler tells apart (enum snd_soc_dapm_type). */
  datatype WidgetType = Pga | Siggen | OtherWidget(code: nat)

  /** One `struct snd_sof_widget` of the device's widget list. */
  datatype Widget = Widget(compId: int, id: WidgetType)

  /** An IPC as it leaves the host, with the cache contents it carries. */
  datatype Ipc =
    | CompSetValue(ctrl: CtrlCmd, chanv: seq<ChanValue>)
    | CompGetValue(ctrl: CtrlCmd)
    | CompSetData(cmd: u32, blob: seq<byte>)
    | CompGetData(cmd: u32, blob: seq<byte>)
    | StreamPcmParams(compId: int, channels: nat)
    | StreamTrigger(compId: int, stream: StreamCmd)

  /** What the PM core answers: the result of pm_runtime_get_sync (negative on a failed
      resume, 0 or 1 otherwise) and the result of pm_runtime_put_autosuspend. */
  datatype PmOutcome = PmOutcome(resume: int, autosuspend: int)

  class SofDev {
    /** Runtime-PM usage count of the device. */
    var usage: int
    /** Number of pm_runtime_mark_last_busy calls. */
    var busyMarks: nat
    /** Number of pm_runtime_put_autosuspend calls: each schedules one idle opportunity. */
    var idleRequests: nat
    /** Every IPC sent to the DSP, oldest first. */
    var ipcLog: seq<Ipc>
    /** sdev->bar[]: the mapped PCI/ACPI bars. */
    const bars: seq<array<byte>>
    /** sdev->mailbox_bar: the bar holding the IPC mailbox. */
    const mailboxBar: nat
    /** sdev->widget_list, in list order. */
    const widgets: seq<Widget>

    ghost predicate Valid()
      reads this
    {
      mailboxBar < |bars|
    }

    constructor (bars: seq<array<byte>>, mailboxBar: nat, widgets: seq<Widget>)
      requires mailboxBar < |bars|
      ensures Valid()
      ensures this.bars == bars && this.mailboxBar == mailboxBar && this.widgets == widgets
      ensures usage == 0 && busyMarks == 0 && idleRequests == 0 && ipcLog == []
    {
      this.bars := bars;
      this.mailboxBar := mailboxBar;
      this.widgets := widgets;
      usage, busyMarks, idleRequests, ipcLog := 0, 0, 0, [];
    }

    /** pm_runtime_get_sync: takes a usage reference, then resumes; the reference is held
        even when the resume fails. */
    method PmGetSync(outcome: int) returns (ret: int)
      modifies this`usage
      ensures usage == old(usage) + 1 && ret == outcome
    {
      usage := usage + 1;
      ret := outcome;
    }

    /** pm_runtime_put_noidle: drops a usage reference without any idle check. */
    method PmPutNoIdle()
      modifies this`usage
      ensures usage == old(usage) - 1
    {
      usage := usage - 1;
    }

    /** pm_runtime_mark_last_busy. */
    method PmMarkLastBusy()
      modifies this`busyMarks
      ensures busyMarks == old(busyMarks) + 1
    {
      busyMarks := busyMarks + 1;
    }

    /** pm_runtime_put_autosuspend: drops a usage reference and schedules a deferred idle. */
    method PmPutAutosuspend(outcome: int) returns (err: int)
      modifies this`usage, this`idleRequests
      ensures usage == old(usage) - 1 && idleRequests == old(idleRequests) + 1
      ensures err == outcome
    {
      usage := usage - 1;
      idleRequests := idleRequests + 1;
      err := outcome;
    }

    /** The transport: the message is sent; its reply is handled by the caller. */
    method SendIpc(m: Ipc)
      modifies this`ipcLog
      ensures ipcLog == old(ipcLog) + [m]
    {
      ipcLog := ipcLog + [m];
    }
  }
}
