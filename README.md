# SOF control path, block I/O, SoundWire bus type and TAS2562 parameter selection

This project is a Dafny model of four pieces of the Linux sound stack. For each piece it proves
what the code promises.

- **SOF mixer and bytes controls** (`sound/soc/sof/control.c`).
  - Volume, switch and enum handlers keep a per-channel cache of the values exchanged with the DSP.
  - The bytes and bytes_ext handlers keep a blob cache that starts with a `struct sof_abi_hdr`.
  - Every handler runs inside the same runtime-PM gate.
  - Volume values are quantised through the control's volume table (`mixer_to_ipc`, `ipc_to_mixer`).
  - A switch on a signal-generator widget also drives that widget's pipeline and its virtual front end.
- **SOF block and mailbox I/O** (`sound/soc/sof/utils.c`).
  - Word-wise block writes, with a masked read-modify-write of the trailing 1-3 bytes.
  - Byte-copy block reads and mailbox accesses.
  - Selection of a DAI's current hardware configuration.
- **SoundWire bus type** (`drivers/soundwire/bus_type.c`).
  - Slave/driver matching through a sentinel-terminated id table.
  - Master/driver matching by name prefix.
  - The MODALIAS strings.
  - What a Slave probe updates.
  - Driver registration.
- **TAS2562 codec** (`sound/soc/codecs/tas2562.c`).
  - Table-driven selection of register codes for sample rate, sample format, slot width, bias level and DAI format.
  - The selection is followed by ordered `update_bits` calls, stopping at the first failure where the code stops.

Layout:

- `common.dfy`: bytes, C integer widths and their truncations, errno values, little-endian words.
- `sof_device.dfy`: the device, with its runtime-PM counters, its log of IPC messages and its bars.
- `volume.dfy`: the volume table codec.
- `sof_control.dfy`: the control object, widget lookup, the siggen pipeline and the value handlers.
- `sof_bytes.dfy`: the bytes handlers.
- `sof_utils.dfy`: block, mailbox and DAI configuration.
- `sdw_bus.dfy`: the SoundWire bus type.
- `tas2562.dfy`: the TAS2562 codec.

The following are parameters of the model:

- The result of every call into code outside it: `pm_runtime_get_sync`, `pm_runtime_put_autosuspend`, the DSP's reply to a GET IPC, the results of the siggen stream IPCs, `dev_pm_domain_attach`, the drivers' own probe and remove callbacks, `driver_register`, and what the register map answers to each `update_bits` call.
- The writable extent of a user buffer.

Stateful code is modelled as classes with `modifies` clauses; for example, a handler updates the control's caches in place. Selection logic is modelled as functions. Each method is tied to a specification function or states its whole new state, and the lemmas beside it give the meaning.

## Model

| member | source | states |
|---|---|---|
| Volume.MixerToIpc | sound/soc/sof/control.c:157-163 | the device value of a UI step is always an entry of the volume table |
| Volume.MixerToIpcClamps | sound/soc/sof/control.c:159-160 | every step at or past the last index maps to the last entry |
| Volume.MixerToIpcMonotone | sound/soc/sof/control.c:157-163 | on a non-decreasing table, quantisation is monotone and stays between the first and last entries |
| Volume.IpcToMixer | sound/soc/sof/control.c:165-175 | the scan returns the least index whose entry reaches the value, the last index when none does, and -1 for an empty table |
| Volume.FirstAtLeastUnique | sound/soc/sof/control.c:165-175 | that description names exactly one index, so the scan's result is determined by its inputs |
| Volume.QuantizationIdempotent | sound/soc/sof/control.c:157-175 | on a non-decreasing table, mapping a quantised value back gives an index at or below the step that holds the same device value |
| Volume.IpcToMixerAdjoint | sound/soc/sof/control.c:157-175 | for a reachable device value, a step quantises to at least that value exactly when the step is at least the index `ipc_to_mixer` returns |
| Volume.ExampleTable | sound/soc/sof/control.c:157-175 | worked example on the table [0, 10, 10, 50, 100] |
| SofControl.PmEnter | sound/soc/sof/control.c:188-195 | the resume result is returned; the usage count rises by one only when the resume succeeded, because `put_noidle` balances a failed one |
| SofControl.PmLeave | sound/soc/sof/control.c:210-215 | the device is marked busy, one autosuspend is requested and the usage count drops by one; the autosuspend result is not returned |
| SofControl.FirstWidgetTypeFinds | sound/soc/sof/control.c:17-29 | the lookup yields the type of the earliest widget on the control's component; it yields none exactly when no widget is on it |
| SofControl.GetWidgetType | sound/soc/sof/control.c:17-29 | the early-exit list walk computes that lookup |
| SofControl.SetVfeActiveStatus | sound/soc/sof/control.c:84-114 | every runtime whose link is the control's front end gets its stream states set and its cpu DAI's active count stepped; all other runtimes and the list order are unchanged; the result is 0 |
| SofControl.VfeOnOff | sound/soc/sof/control.c:93-111 | switching a front end on and then off restores the cpu DAI's active count and leaves each direction the link carries inactive |
| SofControl.SiggenMessages | sound/soc/sof/control.c:121-155 | state 0 sends only PCM_FREE; any other state sends the PCM params and then, only if they succeeded, TRIG_START; START is sent exactly when the state is non-zero and the params succeeded |
| SofControl.SiggenPipelineTrigger | sound/soc/sof/control.c:121-155 | it sends those messages, marks the front end active or inactive, and returns a params failure, or else the trigger result |
| SofControl.VolumeGet | sound/soc/sof/control.c:177-217 | PM gate; a failed resume returns its error with no IPC and no cache change; otherwise one GET, the cache takes the reply, each channel reports `ipc_to_mixer` of its value, and the result is 0 |
| SofControl.VolumePut | sound/soc/sof/control.c:219-261 | PM gate; once resumed, every channel i becomes (i, `mixer_to_ipc` of its step) and exactly one SET is sent, with no change check |
| SofControl.VolumePutThenGet | sound/soc/sof/control.c:177-261 | when the DSP echoes the values, a put then a get reports for each channel a step no higher than the one put, holding the same device value |
| SofControl.ValuesGet | sound/soc/sof/control.c:263-301 | PM gate; once resumed, one GET, the cache takes the reply, and each channel reports its cached value unchanged |
| SofControl.SwitchGet | sound/soc/sof/control.c:263-301 | switch get: as ValuesGet, with the SWITCH command |
| SofControl.EnumGet | sound/soc/sof/control.c:427-465 | enum get: as ValuesGet, with the ENUM command |
| SofControl.EnumPut | sound/soc/sof/control.c:467-507 | PM gate; once resumed, every channel i becomes (i, item i) and exactly one SET is sent, with no change check |
| SofControl.SwitchValue | sound/soc/sof/control.c:336-341 | storing a UI value truncated to `int` into the `u32` cache keeps its low 32 bits |
| SofControl.SwitchPerChannel | sound/soc/sof/control.c:335-342 | pga loop: every channel takes its own value; "changed" holds exactly when some channel differed from the cache |
| SofControl.SwitchFromFirst | sound/soc/sof/control.c:360-404 | siggen and default loops: every channel takes value[0]; "changed" holds exactly when value[0] differed from cached channel 0 |
| SofControl.SwitchPut | sound/soc/sof/control.c:303-425 | PM gate; once resumed it dispatches on the first matching widget's type and always updates the cache; one SET is sent exactly when the cache changed; a changed siggen control also runs its pipeline trigger (front end and stream IPCs); the result is always 0 |
| SofControl.SwitchPutIdempotent | sound/soc/sof/control.c:335-415 | putting the same values again finds nothing changed, so no second SET is sent, whatever the widget type |
| SofBytes.BytesGet | sound/soc/sof/control.c:509-564 | a `be->max` above the 512-byte value array is -EINVAL before resume; once resumed, one GET and the cache takes the reply; a declared size that does not fit `be->max` is -EINVAL and nothing is copied out; otherwise exactly header plus payload is copied out and the resume result returned |
| SofBytes.BytesPut | sound/soc/sof/control.c:566-618 | the size is taken from the cached header, and an oversized `be->max` or size is -EINVAL before resume with the cache untouched; once resumed, exactly that many bytes overwrite the cache and one SET carries the new blob |
| SofBytes.BytesPutThenGet | sound/soc/sof/control.c:509-618 | a put, then a get that the DSP answers with the blob sent, returns exactly the header and payload put |
| SofBytes.UserCopy | sound/soc/sof/control.c:640-658 | `copy_from_user` of n bytes: a copy inside the readable extent is exactly those user bytes; each byte past the readable end reads as 0 |
| SofBytes.BytesExtPut | sound/soc/sof/control.c:620-703 | checks in this order, all before resume: header fault (-EFAULT); length over `be->max`, then wrong numid (-EINVAL, cache untouched); copy of `length` bytes into the cache (fault -EFAULT); bad magic, incompatible ABI, declared size over `be->max` (-EINVAL). Once resumed, one SET of the blob, and the resume result is returned |
| SofBytes.StampedFields | sound/soc/sof/control.c:737-738 | stamping sets exactly the magic and ABI words and keeps the type, the declared size and the payload |
| SofBytes.StampHeader | sound/soc/sof/control.c:737-738 | the cached blob becomes its stamped form |
| SofBytes.ExtGetCopyOut | sound/soc/sof/control.c:748-766 | as written: -EINVAL, with nothing written, when the truncated data_size exceeds `be->max`; any TLV header written carries cmd and data_size taken as `u32`; on success exactly data_size blob bytes follow it, all within the writable extent |
| SofBytes.BytesExtGet | sound/soc/sof/control.c:705-776 | PM gate; once resumed, the header is stamped before the GET, the cache takes the reply, the copy-out follows, and a copy-out error overrides the GET result |
| SofBytes.ExtGetIgnoresUserSize | sound/soc/sof/control.c:734-766 | a caller announcing only 8 bytes receives a 32-byte blob after the header |
| SofBytes.ExtGetTruncatedSizePasses | sound/soc/sof/control.c:748-751 | a declared size of 0x7FFF_FFF0 passes the `be->max` check and writes a TLV length of 0x8000_0010 |
| SofBytes.ExtGetCopyOutChecked | sound/soc/sof/control.c:730-766 | corrected copy-out: never writes past the announced buffer, sends exactly the declared blob, and never reports a length above `be->max`; it succeeds exactly when the blob fits all three bounds |
| SofBytes.ExtGetCheckedAgrees | sound/soc/sof/control.c:748-766 | for a declared size that is a positive `int` and an announced buffer that is large enough, the corrected copy-out equals the one as written |
| SofUtils.SplicedFraming | sound/soc/sof/utils.c:74-101 | after a splice, the written range holds the source bytes and every other byte is unchanged |
| SofUtils.IoWrite32 | sound/soc/sof/utils.c:24-27 | a 32-bit store puts the word's four little-endian bytes at the address and changes nothing else |
| SofUtils.IoRead32 | sound/soc/sof/utils.c:30-33 | a 32-bit load assembles the four bytes at the address, the low byte first |
| SofUtils.AffectedMaskIsShift | sound/soc/sof/utils.c:90 | the mask of n = 1..3 bytes equals `(1 << 8n) - 1` |
| SofUtils.MergeBytes | sound/soc/sof/utils.c:96-99 | the masked merge takes the low n bytes from the source word and keeps the rest from the prior word |
| SofUtils.IoWrite32Copy | sound/soc/sof/utils.c:86-87 | `__iowrite32_copy` issues `count` stores in address order and fills exactly `4*count` bytes from the source |
| SofUtils.PatchTail | sound/soc/sof/utils.c:89-101 | the read-modify-write replaces only the trailing n bytes and keeps the other 4-n bytes of the word |
| SofUtils.BlockWrite | sound/soc/sof/utils.c:74-102 | the bar becomes the old bar with the source spliced in at `offset`; there are exactly size/4 word stores, plus one read and one write of the next word exactly when size%4 is not 0; nothing is read when size%4 is 0 |
| SofUtils.BlockRead | sound/soc/sof/utils.c:105-111 | exactly `size` bytes are read from the bar at `offset`, and the bar is unchanged |
| SofUtils.BlockWriteThenRead | sound/soc/sof/utils.c:74-111 | a block read after a block write of the same range returns the source, and no byte outside the range has changed |
| SofUtils.MailboxWrite | sound/soc/sof/utils.c:52-58 | the mailbox bar becomes the old bar with the message spliced in at `offset` |
| SofUtils.MailboxRead | sound/soc/sof/utils.c:61-67 | exactly `bytes` bytes are read from the mailbox bar at `offset` |
| SofUtils.MailboxWriteThenRead | sound/soc/sof/utils.c:52-67 | a mailbox read after a mailbox write of the same window returns the message |
| SofUtils.ApplyHwConfig | sound/soc/sof/utils.c:136-144 | exactly the eight listed SSP clock and slot fields come from the hardware config; the other fields are kept |
| SofUtils.DaiSetCurHwConfig | sound/soc/sof/utils.c:114-146 | a non-SSP config or an index outside the hardware configs is -EINVAL with nothing changed; otherwise the index is recorded, the format and eight SSP fields are copied, and the result is 0 |
| SdwBus.MatchFromFinds | drivers/soundwire/bus_type.c:22-31 | the scan finds the first entry before the zero-mfg_id sentinel that matches both ids; it finds none exactly when no entry before the sentinel matches |
| SdwBus.SentinelCutsOff | drivers/soundwire/bus_type.c:24 | entries after the sentinel are never examined: tables that agree up to the sentinel give the same answer |
| SdwBus.GetDeviceId | drivers/soundwire/bus_type.c:19-32 | the table walk computes that lookup, and a NULL table gives none |
| SdwBus.StrncmpIsPrefix | drivers/soundwire/bus_type.c:55-56 | for C strings, `strncmp(a, b, strlen(a)) == 0` exactly when a is a prefix of b |
| SdwBus.BusMatch | drivers/soundwire/bus_type.c:34-59 | a Slave never matches a driver without an id table; an empty master name matches every driver |
| SdwBus.BusMatchMeans | drivers/soundwire/bus_type.c:34-59 | a Slave matches exactly the drivers whose table has its id before the sentinel; a Master matches exactly the drivers whose name starts with the master name |
| SdwBus.HexValue | drivers/soundwire/bus_type.c:66 | an upper-case hex digit's value is the position of that digit in the %X alphabet |
| SdwBus.Hex4 | drivers/soundwire/bus_type.c:66 | `%04X` of a 16-bit id is four characters |
| SdwBus.Hex4RoundTrip | drivers/soundwire/bus_type.c:66 | the four digits read back as the id printed |
| SdwBus.Snprintf | drivers/soundwire/bus_type.c:66-75 | `snprintf` returns the full length and leaves a prefix of the text, cut to size-1 characters |
| SdwBus.SlaveModalias | drivers/soundwire/bus_type.c:61-68 | `snprintf` reports 15 characters; a buffer of at least 16 bytes holds the whole text, and a smaller one holds a prefix of it |
| SdwBus.MasterModalias | drivers/soundwire/bus_type.c:70-77 | `snprintf` reports the name's length plus 5; a buffer with room for the terminator holds "sdw:" + name + "\n", and a smaller one holds a prefix of it |
| SdwBus.SlaveModaliasDecodes | drivers/soundwire/bus_type.c:61-83 | the Slave MODALIAS is "sdw:m" + 4 hex digits + "p" + 4 hex digits + "\n"; it has 15 characters, fits the 32-byte buffer, and both ids read back from it |
| SdwBus.SlaveModaliasInjective | drivers/soundwire/bus_type.c:61-68 | distinct Slave ids give distinct MODALIAS strings |
| SdwBus.MasterModaliasTruncates | drivers/soundwire/bus_type.c:70-83 | the Master MODALIAS is "sdw:" + name + "\n"; it is complete for names of up to 26 characters and otherwise cut to 31 characters |
| SdwBus.SettleTimeouts | drivers/soundwire/bus_type.c:146-150 | after a probe, a Slave timeout of 0 becomes 300 and any other value is kept and the bus timeout is the larger of the two, so it never decreases |
| SdwBus.SettleTimeoutsIdempotent | drivers/soundwire/bus_type.c:146-150 | settling already settled timeouts changes nothing |
| SdwBus.SettleAll | drivers/soundwire/bus_type.c:149-150 | after several probes, the bus timeout is the maximum of its start value and every settled Slave timeout |
| SdwBus.DrvProbe | drivers/soundwire/bus_type.c:109-156 | with no matching id, -ENODEV and nothing changes; otherwise the Slave takes the driver's ops; an attach failure is returned; a probe failure detaches again and is returned with `probed` unchanged; on success `read_prop` may refresh the timeout, the timeouts are settled, and the Slave is probed and completed |
| SdwBus.DrvRemove | drivers/soundwire/bus_type.c:158-170 | the result is the driver's remove result (0 without one) and the device is detached |
| SdwBus.MasterDrvProbe | drivers/soundwire/bus_type.c:221-243 | an attach failure is returned; a probe failure detaches and is returned; on success the device stays attached |
| SdwBus.MasterDrvRemove | drivers/soundwire/bus_type.c:245-257 | the result is the remove result (0 without one) and the device is detached |
| SdwBus.Register | drivers/soundwire/bus_type.c:188-208 | the driver is put on the bus first; without probe the result is -EINVAL and nothing else is set; otherwise the owner and probe wrapper are set, remove and shutdown are set only when supplied, and `driver_register`'s result is returned |
| SdwBus.RegisterDriver | drivers/soundwire/bus_type.c:188-208 | the same, with the Slave wrappers |
| SdwBus.RegisterMasterDriver | drivers/soundwire/bus_type.c:275-296 | the same, with the Master wrappers |
| Tas2562.BiasMode | sound/soc/codecs/tas2562.c:45-67 | ON selects ACTIVE, STANDBY and PREPARE select MUTE, OFF selects SHUTDOWN; nothing is selected exactly for levels outside the enum |
| Tas2562.SetBiasLevel | sound/soc/codecs/tas2562.c:39-70 | a known level gives one MODE update and the result 0; any other level is -EINVAL with no write |
| Tas2562.RateCodes | sound/soc/codecs/tas2562.c:77-138 | exactly the 14 listed rates are accepted; the ramp is RAMPRATE_44_1 exactly for the 44.1 kHz family and 0 exactly for the 48 kHz family |
| Tas2562.RatePairsShareBand | sound/soc/codecs/tas2562.c:78-133 | each 44.1 kHz rate and its 48 kHz partner share one sample-rate code |
| Tas2562.RateCodesInjective | sound/soc/codecs/tas2562.c:78-133 | no two supported rates are written with the same pair of codes |
| Tas2562.SamplerateEffect | sound/soc/codecs/tas2562.c:72-146 | an unsupported rate is -EINVAL with no write; otherwise exactly two TDM_CFG0 updates, the ramp and then the sample rate, and the result 0 |
| Tas2562.SetSamplerate | sound/soc/codecs/tas2562.c:72-146 | it issues exactly those writes and returns that result |
| Tas2562.SlotWidthChoice | sound/soc/codecs/tas2562.c:156-182 | 0 keeps the width; 16, 24 and 32 select the matching RXLEN; every other width is rejected |
| Tas2562.TdmSlotEffect | sound/soc/codecs/tas2562.c:148-188 | any width other than 0, 16, 24 or 32 is -EINVAL with no write; 0 is 0 with no write; 16, 24 and 32 write the matching RXLEN and return the write's negative result, or else 0 |
| Tas2562.SetDaiTdmSlot | sound/soc/codecs/tas2562.c:148-188 | it issues exactly those writes and returns that result |
| Tas2562.BitwidthChoice | sound/soc/codecs/tas2562.c:194-220 | exactly S16_LE, S24_LE and S32_LE are accepted |
| Tas2562.BitwidthMatchesFormat | sound/soc/codecs/tas2562.c:194-220 | the RX word length is the format's sample width, and the voltage-sense slot sits one container (2 or 4 bytes) after the current-sense slot |
| Tas2562.BitwidthEffect | sound/soc/codecs/tas2562.c:190-237 | an unsupported format is -EINVAL with no write; otherwise RXWLEN, then CFG5 = VSNS_EN, with the v-sense slot, then CFG6 = ISNS_EN, with the i-sense slot, stopping at the first negative CFG5/CFG6 result |
| Tas2562.SetBitwidth | sound/soc/codecs/tas2562.c:190-237 | it issues exactly those writes and returns that result; `v_sense_slot` becomes `i_sense_slot + 2` or `+ 4`, and is unchanged for an unsupported format |
| Tas2562.HwParamsEffect | sound/soc/codecs/tas2562.c:239-258 | the bitwidth writes come first; the result is 0 exactly when the bitwidth succeeded and the rate is supported; an unsupported format is -EINVAL with no write |
| Tas2562.HwParamsBitwidthFirst | sound/soc/codecs/tas2562.c:247-257 | an unsupported format fails hw_params with no write, whatever the rate; when the bitwidth writes succeed, the rate alone decides the result; a failed bitwidth step (bad format or failed CFG5/CFG6 update) is the whole effect |
| Tas2562.HwParams | sound/soc/codecs/tas2562.c:239-258 | a bitwidth error is returned before the rate is looked at; otherwise the sample-rate writes follow and their result is returned |
| Tas2562.EdgeChoice | sound/soc/codecs/tas2562.c:267-277 | NB_NF selects edge 0 and IB_NF selects RX_FALLING; every other inversion is rejected |
| Tas2562.OffsetChoice | sound/soc/codecs/tas2562.c:287-301 | I2S, DSP_A and DSP_B select offset BIT(1) and LEFT_J selects 0; every other format is unsupported |
| Tas2562.DaiFmtAsWritten | sound/soc/codecs/tas2562.c:260-311 | as written: a bad inversion is -EINVAL before any write; the edge update comes first and a failure there is returned; once it succeeds, the RX offset is always written (0 for an unknown format) and its result decides the return value |
| Tas2562.DaiFmtAcceptsRightJustified | sound/soc/codecs/tas2562.c:296-305 | NB_NF with RIGHT_J is accepted with result 0 and offset 0 written |
| Tas2562.DaiFmtChecked | sound/soc/codecs/tas2562.c:287-311 | corrected: success exactly for a supported inversion and format with both writes succeeding; an unknown format is -EINVAL with no offset write |
| Tas2562.DaiFmtCheckedAgrees | sound/soc/codecs/tas2562.c:287-311 | the corrected routine and the code as written differ only for unsupported frame formats |
| Tas2562.SetDaiFmt | sound/soc/codecs/tas2562.c:260-311 | it issues the as-written writes and returns the as-written result |
| Tas2562.Mute | sound/soc/codecs/tas2562.c:313-320 | one MODE update, MUTE when muting and 0 otherwise; its result is returned |

## Left out

- Logging (`dev_err`, `dev_info`, `pr_err`): it has no effect on state or results.
- Runtime-PM internals and the autosuspend timer. The PM core is an abstract usage counter whose resume and autosuspend results are parameters; timer scheduling cannot be observed.
- The IPC transport (`snd_sof_ipc_set_get_comp_data`, `sof_ipc_tx_message`). An IPC is a logged message; a GET's reply is a parameter that becomes the new cache contents.
- `sof_dai_load_hw_config`: it only sends such an IPC.
- `siggen_pcm_params` and `siggen_trigger`: they appear only as the messages they send, with their results as parameters.
- `snd_soc_dpcm_runtime_update`: a call into the ASoC core.
- DAPM card access beyond the link-name match of `set_vfe_active_status`.
- SofControl.VolumePut: a volume table with no entries is excluded by a precondition, because `mixer_to_ipc` would then read entry -1 (Volume.MixerToIpc has the same precondition).
- SofControl.SetVfeActiveStatus: runtimes are values, so a DAI shared by two runtimes on the front end is not modelled as being updated twice.
- `copy_from_user` / `copy_to_user`. A user buffer is its readable bytes, or its writable extent.
  - A faulting `copy_from_user` copies the readable bytes and zero-fills the rest, as the kernel does.
  - A faulting `copy_to_user` is modelled as writing nothing: the part written before the fault is not captured.
- The definitions of `SOF_ABI_MAGIC`, `SOF_ABI_VERSION` and `SOF_ABI_VERSION_INCOMPATIBLE`, and the TAS2562 register constants. These headers are not part of this model, so the ABI rules are a parameter and the register constants are opaque symbols.
- The header layout `magic@0, type@4, size@8, abi@12`, 32 bytes in all. It is assumed to be that of `struct sof_abi_hdr`.
- The `MMIO` wrappers. A bar is a byte array; 64-bit accesses (`sof_io_read64`, `sof_io_write64`) are not used by the core and are not modelled.
- The read past the end of the source buffer in `sof_block_write` (utils.c:99). The bytes it reads are masked out, so they are taken as 0.
- SofUtils.DaiSetCurHwConfig: the null-`dai` branch (utils.c:119-120) dereferences `dai` in its error print, so `dai` is taken as non-null. A missing `dai_config` with a valid index is excluded by a precondition, because the source dereferences it.
- SdwBus.GetDeviceId: a table without a sentinel is scanned only to its end, where the C code would read past it.
- SdwBus.DrvProbe: `dev_pm_domain_attach` and `read_prop` appear only as results; `complete()` is a flag.
- `sdw_drv_shutdown`, `sdw_master_drv_shutdown` and the unregister functions: they only forward to a callback or to the driver core.
- `add_uevent_var` in `sdw_uevent` is a call into the driver core.
- The TAS2562 probe, GPIO, regulator, regmap cache, runtime suspend/resume and device-tree parsing: these are I/O and foreign calls.
- Tas2562.InvBits and Tas2562.FormatBits: they take the DAI format fields arithmetically (`fmt / 0x100 % 0x10 * 0x100` and `fmt % 0x10`). On a 32-bit `unsigned int` this is the same as the masks.
- Concurrency: everything is single-threaded.

`snd_sof_bytes_ext_put` copies `header.length` bytes into the cache before it checks the magic, the ABI version and the declared size, so a rejected blob still replaces the cached bytes. SofBytes.BytesExtPut states this cache change on those error paths.

## Findings

| source | as written | input that shows it | evidently intended | confidence | as-written member | corrected member |
|---|---|---|---|---|---|---|
| sound/soc/sof/control.c:734-766 | `size -= sizeof(struct snd_ctl_tlv)` is computed and never used, so the copy-out ignores the size of the user buffer | the caller announces 8 bytes; the blob is 32 bytes of header declaring an empty payload; `be->max` is 64. The header and all 32 bytes are written, 32 bytes past the buffer (SofBytes.ExtGetIgnoresUserSize) | reject a blob that does not fit the announced buffer, with -ENOSPC, before writing anything | not executed | SofBytes.ExtGetIgnoresUserSize | SofBytes.ExtGetCopyOutChecked |
| sound/soc/sof/control.c:748-751 | `data_size` is an `int`, so a corrupt declared size near 2^31 wraps negative and passes the `data_size > be->max` check | declared size 0x7FFF_FFF0 with `be->max` 64 gives data_size < 0; a TLV length of 0x8000_0010 is written and the result is -EFAULT instead of -EINVAL (SofBytes.ExtGetTruncatedSizePasses) | compare the untruncated size with `be->max` and return -EINVAL | not executed | SofBytes.ExtGetTruncatedSizePasses | SofBytes.ExtGetCopyOutChecked |
| sound/soc/codecs/tas2562.c:296-307 | the -EINVAL of an unknown frame format is overwritten by the result of the next `update_bits` | fmt = NB_NF with RIGHT_J, and a register map answering 0: offset 0 is written and the result is 0 (Tas2562.DaiFmtAcceptsRightJustified) | return -EINVAL for an unsupported frame format without writing the offset | not executed | Tas2562.DaiFmtAcceptsRightJustified | Tas2562.DaiFmtChecked |
