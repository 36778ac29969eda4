/** The SoundWire bus type: matching Slave devices to drivers through a sentinel-terminated id
    table, matching Master devices by name prefix, the MODALIAS strings announced in uevents,
    the bookkeeping of a Slave probe, and driver registration. The driver core, the PM-domain
    layer and the drivers' own callbacks are external: their results are parameters. */
module SdwBus {
  import opened Common

  /** struct sdw_slave_id, as far as matching goes. */
  datatype SlaveId = SlaveId(mfgId: u16, partId: u16)

  /** One entry of a driver's `struct sdw_device_id` table; an entry with mfg_id 0 ends it. */
  datatype DeviceId = DeviceId(mfgId: u16, partId: u16)

  predicate IdMatches(e: DeviceId, slave: SlaveId)
  {
    e.mfgId == slave.mfgId && e.partId == slave.partId
  }

  // ---------------------------------------------------------------------------------------------
  // sdw_get_device_id

  /** Every entry before k is a live entry (not the sentinel). */
  ghost predicate LiveBefore(table: seq<DeviceId>, k: nat)
    requires k <= |table|
  {
    forall j :: 0 <= j < k ==> table[j].mfgId != 0
  }

  /** The index of the first live entry, at or after `from`, that matches the slave. */
  function MatchFrom(table: seq<DeviceId>, slave: SlaveId, from: nat): (r: Option<nat>)
    requires from <= |table|
    decreases |table| - from
  {
    if from == |table| || table[from].mfgId == 0 then None
    else if IdMatches(table[from], slave) then Some(from)
    else MatchFrom(table, slave, from + 1)
  }

  /** sdw_get_device_id on values: the index of the matching entry, None for a NULL table. */
  function DeviceIdOf(table: Option<seq<DeviceId>>, slave: SlaveId): Option<nat>
  {
    if table.None? then None else MatchFrom(table.value, slave, 0)
  }

  /** The scan from `from` finds the first matching entry before the sentinel, and only it. */
  lemma {:induction false} MatchFromFinds(table: seq<DeviceId>, slave: SlaveId, from: nat)
    requires from <= |table| && LiveBefore(table, from)
    ensures MatchFrom(table, slave, from).Some? ==> (
      var k := MatchFrom(table, slave, from).value;
      && from <= k < |table| && LiveBefore(table, k + 1) && IdMatches(table[k], slave)
      && forall j :: from <= j < k ==> !IdMatches(table[j], slave))
    ensures MatchFrom(table, slave, from).None? <==>
      forall k :: from <= k < |table| && LiveBefore(table, k + 1) ==> !IdMatches(table[k], slave)
    decreases |table| - from
  {
    if from < |table| && table[from].mfgId != 0 {
      assert LiveBefore(table, from + 1);
      MatchFromFinds(table, slave, from + 1);
      if MatchFrom(table, slave, from).None? {
        forall k | from <= k < |table| && LiveBefore(table, k + 1)
          ensures !IdMatches(table[k], slave)
        {
        }
      }
    } else if from < |table| {
      assert table[from].mfgId == 0;
    }
  }

  /** Entries at or after the first sentinel are never examined: two tables that agree up to
      and including it give the same answer. */
  lemma {:induction false} SentinelCutsOff(t1: seq<DeviceId>, t2: seq<DeviceId>, slave: SlaveId, s: nat, from: nat)
    requires s < |t1| && s < |t2| && t1[..s + 1] == t2[..s + 1] && t1[s].mfgId == 0
    requires from <= s
    ensures MatchFrom(t1, slave, from) == MatchFrom(t2, slave, from)
    decreases s - from
  {
    assert t1[from] == t1[..s + 1][from] && t2[from] == t2[..s + 1][from];
    if from < s {
      SentinelCutsOff(t1, t2, slave, s, from + 1);
    }
  }

  /** sdw_get_device_id: the pointer walk over the id table, stopping at the sentinel. */
  method GetDeviceId(table: Option<seq<DeviceId>>, slave: SlaveId) returns (r: Option<nat>)
    ensures r == DeviceIdOf(table, slave)
  {
    if table.None? {
      return None;
    }
    var t := table.value;
    var i := 0;
    while i < |t| && t[i].mfgId != 0
      invariant 0 <= i <= |t|
      invariant MatchFrom(t, slave, i) == MatchFrom(t, slave, 0)
    {
      if IdMatches(t[i], slave) {
        return Some(i);
      }
      i := i + 1;
    }
    return None;
  }

  // ---------------------------------------------------------------------------------------------
  // sdw_bus_match

  /** The byte strncmp reads at position i of a C string held without its terminator. */
  function CharAt(s: string, i: nat): char
  {
    if i < |s| then s[i] else '\0'
  }

  /** A C string: no embedded NUL. */
  predicate CString(s: string)
  {
    forall i :: 0 <= i < |s| ==> s[i] != '\0'
  }

  /** strncmp(a, b, n) == 0, compared from position i on: stops at the first difference, at a
      shared terminator, or after n characters. */
  function StrncmpEqFrom(a: string, b: string, n: nat, i: nat): bool
    decreases n - i
  {
    if i >= n then true
    else if CharAt(a, i) != CharAt(b, i) then false
    else if CharAt(a, i) == '\0' then true
    else StrncmpEqFrom(a, b, n, i + 1)
  }

  /** Comparing strlen(a) characters of C strings from position i succeeds exactly when b
      carries a's characters from i on. */
  lemma {:induction false} StrncmpPrefixFrom(a: string, b: string, i: nat)
    requires CString(a) && CString(b) && i <= |a| && i <= |b|
    ensures StrncmpEqFrom(a, b, |a|, i) <==> (|a| <= |b| && a[i..] == b[i..|a|])
    decreases |a| - i
  {
    if i < |a| && i == |b| {
      assert CharAt(b, i) == '\0' != CharAt(a, i);
    } else if i < |a| {
      StrncmpPrefixFrom(a, b, i + 1);
      if |a| <= |b| && a[i..] == b[i..|a|] {
        assert a[i] == a[i..][0] && b[i] == b[i..|a|][0];
        assert a[i + 1..] == a[i..][1..] && b[i + 1..|a|] == b[i..|a|][1..];
      }
      if StrncmpEqFrom(a, b, |a|, i) {
        assert CharAt(a, i) == CharAt(b, i) && CharAt(a, i) != '\0';
        assert i < |b|;
        assert a[i..] == [a[i]] + a[i + 1..] && b[i..|a|] == [b[i]] + b[i + 1..|a|];
      }
    }
  }

  /** strncmp(master_name, driver name, strlen(master_name)) == 0 exactly when the master name
      is a prefix of the driver name. */
  lemma StrncmpIsPrefix(a: string, b: string)
    requires CString(a) && CString(b)
    ensures StrncmpEqFrom(a, b, |a|, 0) <==> a <= b
  {
    StrncmpPrefixFrom(a, b, 0);
    assert a[0..] == a;
    if |a| <= |b| {
      assert b[0..|a|] == b[..|a|];
    }
  }

  /** A device on the bus: a Slave with its id, or the Master device with its name. */
  datatype Device = SlaveDevice(id: SlaveId) | MasterDevice(masterName: string)

  /** The driver as the match sees it: its id table (Slave drivers) and driver.name. */
  datatype DriverView = DriverView(idTable: Option<seq<DeviceId>>, name: string)

  /** sdw_bus_match. A Slave never matches a driver without an id table, and an empty master
      name (strncmp over 0 characters) matches every driver; BusMatchMeans gives the full
      characterisation. */
  function BusMatch(dev: Device, drv: DriverView): (r: bool)
    ensures dev.SlaveDevice? && drv.idTable.None? ==> !r
    ensures dev.MasterDevice? && dev.masterName == "" ==> r
  {
    match dev
    case SlaveDevice(id) => DeviceIdOf(drv.idTable, id).Some?
    case MasterDevice(name) => StrncmpEqFrom(name, drv.name, |name|, 0)
  }

  /** A Slave matches exactly the drivers whose table holds its id before the sentinel; a
      Master matches exactly the drivers whose name starts with the master name. */
  lemma BusMatchMeans(dev: Device, drv: DriverView)
    requires dev.MasterDevice? ==> CString(dev.masterName) && CString(drv.name)
    ensures dev.SlaveDevice? ==> (BusMatch(dev, drv) <==> (drv.idTable.Some?
      && exists k :: 0 <= k < |drv.idTable.value| && LiveBefore(drv.idTable.value, k + 1)
                    && IdMatches(drv.idTable.value[k], dev.id)))
    ensures dev.MasterDevice? ==> (BusMatch(dev, drv) <==> dev.masterName <= drv.name)
  {
    if dev.SlaveDevice? && drv.idTable.Some? {
      var t := drv.idTable.value;
      MatchFromFinds(t, dev.id, 0);
      if BusMatch(dev, drv) {
        var k := MatchFrom(t, dev.id, 0).value;
        assert 0 <= k < |t| && LiveBefore(t, k + 1) && IdMatches(t[k], dev.id);
      }
    }
    if dev.MasterDevice? {
      StrncmpIsPrefix(dev.masterName, drv.name);
    }
  }

  // ---------------------------------------------------------------------------------------------
  // MODALIAS

  /** sizeof(modalias) in sdw_uevent. */
  const MODALIAS_SIZE: nat := 32

  const HEX_DIGITS: string := "0123456789ABCDEF"

  /** The value of an upper-case hex digit, or None. */
  function HexValue(c: char): (r: Option<nat>)
    ensures r.Some? ==> r.value < 16 && HEX_DIGITS[r.value] == c
  {
    if '0' <= c <= '9' then Some(c as int - '0' as int)
    else if 'A' <= c <= 'F' then Some(c as int - 'A' as int + 10)
    else None
  }

  /** printf's %04X of a 16-bit value: exactly four upper-case hex digits, most significant first. */
  function Hex4(x: u16): (r: string)
    ensures |r| == 4
  {
    var x1 := x / 16;
    var x2 := x1 / 16;
    [HEX_DIGITS[x2 / 16], HEX_DIGITS[x2 % 16], HEX_DIGITS[x1 % 16], HEX_DIGITS[x % 16]]
  }

  /** Reading four hex digits back. */
  function ParseHex4(s: string): Option<u16>
  {
    if |s| != 4 then None
    else
      var d0, d1, d2, d3 := HexValue(s[0]), HexValue(s[1]), HexValue(s[2]), HexValue(s[3]);
      if d0.None? || d1.None? || d2.None? || d3.None? then None
      else Some(d0.value * 4096 + d1.value * 256 + d2.value * 16 + d3.value)
  }

  lemma HexValueOfDigit(d: nat)
    requires d < 16
    ensures HexValue(HEX_DIGITS[d]) == Some(d)
  {
  }

  /** %04X loses nothing: the four digits read back as the value printed. */
  lemma Hex4RoundTrip(x: u16)
    ensures ParseHex4(Hex4(x)) == Some(x)
  {
    var x1 := x / 16;
    var x2 := x1 / 16;
    HexValueOfDigit(x2 / 16);
    HexValueOfDigit(x2 % 16);
    HexValueOfDigit(x1 % 16);
    HexValueOfDigit(x % 16);
    assert x == x1 * 16 + x % 16 && x1 == x2 * 16 + x1 % 16 && x2 == (x2 / 16) * 16 + x2 % 16;
  }

  /** What snprintf(buf, size, ...) leaves in the buffer (without the terminator) and returns,
      for the fully formatted text `full`. */
  datatype Printed = Printed(buf: string, ret: nat)

  function Snprintf(size: nat, full: string): (r: Printed)
    ensures r.ret == |full|
    ensures r.buf <= full
    ensures size >= 1 ==> |r.buf| == if |full| < size then |full| else size - 1
    ensures size == 0 ==> r.buf == []
  {
    if size == 0 then Printed([], |full|)
    else if |full| < size then Printed(full, |full|)
    else Printed(full[..size - 1], |full|)
  }

  /** The text sdw_slave_modalias formats. */
  function SlaveModaliasText(id: SlaveId): string
  {
    "sdw:m" + Hex4(id.mfgId) + "p" + Hex4(id.partId) + "\n"
  }

  /** sdw_slave_modalias into a buffer of `size` bytes: the text is always 15 characters, and a
      buffer of 16 bytes or more holds all of it. */
  function SlaveModalias(id: SlaveId, size: nat): (r: Printed)
    ensures |SlaveModaliasText(id)| == 15 && r.ret == 15
    ensures size >= 16 ==> r.buf == SlaveModaliasText(id)
    ensures r.buf <= SlaveModaliasText(id)
  {
    Snprintf(size, SlaveModaliasText(id))
  }

  /** sdw_master_modalias into a buffer of `size` bytes: the return value counts the whole text,
      name plus five characters, whatever the buffer holds. */
  function MasterModalias(masterName: string, size: nat): (r: Printed)
    ensures r.ret == |masterName| + 5
    ensures size > |masterName| + 5 ==> r.buf == "sdw:" + masterName + "\n"
    ensures r.buf <= "sdw:" + masterName + "\n"
  {
    Snprintf(size, "sdw:" + masterName + "\n")
  }

  /** The Slave MODALIAS always fits the 32-byte uevent buffer, and the mfg_id and part_id can
      be read back from fixed positions: distinct ids give distinct aliases. */
  lemma SlaveModaliasDecodes(id: SlaveId)
    ensures var p := SlaveModalias(id, MODALIAS_SIZE);
      && p.buf == SlaveModaliasText(id) && |p.buf| == 15 && p.ret == 15
      && p.buf[..5] == "sdw:m" && p.buf[9] == 'p' && p.buf[14] == '\n'
      && ParseHex4(p.buf[5..9]) == Some(id.mfgId) && ParseHex4(p.buf[10..14]) == Some(id.partId)
  {
    var t := SlaveModaliasText(id);
    assert t[5..9] == Hex4(id.mfgId);
    assert t[10..14] == Hex4(id.partId);
    Hex4RoundTrip(id.mfgId);
    Hex4RoundTrip(id.partId);
  }

  lemma SlaveModaliasInjective(a: SlaveId, b: SlaveId)
    requires SlaveModalias(a, MODALIAS_SIZE).buf == SlaveModalias(b, MODALIAS_SIZE).buf
    ensures a == b
  {
    SlaveModaliasDecodes(a);
    SlaveModaliasDecodes(b);
  }

  /** The Master MODALIAS in the 32-byte uevent buffer is "sdw:" + name + "\n" cut to 31
      characters: complete for names of up to 26 characters, a prefix of length 31 otherwise. */
  lemma MasterModaliasTruncates(name: string)
    ensures var p := MasterModalias(name, MODALIAS_SIZE);
      && p.ret == |name| + 5
      && (|name| <= 26 ==> p.buf == "sdw:" + name + "\n")
      && (|name| > 26 ==> |p.buf| == 31 && p.buf == "sdw:" + name[..27])
  {
    var full := "sdw:" + name + "\n";
    if |name| > 26 {
      assert full[..31] == "sdw:" + name[..27];
    }
  }

  // ---------------------------------------------------------------------------------------------
  // sdw_drv_probe

  /** The DisCo worst-case ClockStopTimeout, in ms, used when the Slave declares none. */
  const DEFAULT_CLK_STOP_TIMEOUT: u32 := 300

  /** The timeouts after a successful probe, for the bus's and the Slave's values before:
      (bus, slave). */
  function SettleTimeouts(bus: u32, slave: u32): (r: (u32, u32))
    ensures r.1 != 0 && (slave != 0 ==> r.1 == slave)
    ensures slave == 0 ==> r.1 == DEFAULT_CLK_STOP_TIMEOUT
    ensures r.0 >= bus && r.0 >= r.1 && (r.0 == bus || r.0 == r.1)
  {
    var s := if slave == 0 then DEFAULT_CLK_STOP_TIMEOUT else slave;
    (if bus >= s then bus else s, s)
  }

  /** Probing again leaves the timeouts where they were. */
  lemma SettleTimeoutsIdempotent(bus: u32, slave: u32)
    ensures var r := SettleTimeouts(bus, slave); SettleTimeouts(r.0, r.1) == r
  {
  }

  /** The bus timeout after several Slaves probed, in order, is the largest of the settled
      Slave timeouts and the initial bus timeout. */
  function SettleAll(bus: u32, slaves: seq<u32>): (r: u32)
    decreases |slaves|
    ensures r >= bus
    ensures forall i :: 0 <= i < |slaves| ==> r >= SettleTimeouts(0, slaves[i]).1
    ensures r == bus || exists i :: 0 <= i < |slaves| && r == SettleTimeouts(0, slaves[i]).1
  {
    if |slaves| == 0 then bus
    else
      var b := SettleTimeouts(bus, slaves[0]).0;
      var rest := SettleAll(b, slaves[1..]);
      assert forall i :: 1 <= i < |slaves| ==> slaves[1..][i - 1] == slaves[i];
      rest
  }

  /** The callbacks a Slave driver provides (struct sdw_slave_ops), as far as probe uses them. */
  datatype SlaveOps = SlaveOps(hasReadProp: bool)

  /** struct sdw_driver: id table, callbacks, and the `struct sdw_slave_ops` it brings. */
  datatype SdwDriver = SdwDriver(name: string, idTable: Option<seq<DeviceId>>, ops: Option<SlaveOps>,
                                 hasProbe: bool, hasRemove: bool, hasShutdown: bool)

  /** The results of the calls sdw_drv_probe makes into code outside the bus: dev_pm_domain_attach,
      drv->probe, and the clk_stop_timeout read_prop leaves in the Slave's properties. */
  datatype ProbeOutcome = ProbeOutcome(attach: int, probe: int, readPropTimeout: u32)

  class SdwBusState {
    /** bus->clk_stop_timeout. */
    var clkStopTimeout: u32

    constructor (clkStopTimeout: u32)
      ensures this.clkStopTimeout == clkStopTimeout
    {
      this.clkStopTimeout := clkStopTimeout;
    }
  }

  class SdwSlave {
    const id: SlaveId
    const bus: SdwBusState
    /** slave->ops. */
    var ops: Option<SlaveOps>
    /** slave->prop.clk_stop_timeout. */
    var clkStopTimeout: u32
    /** slave->probed. */
    var probed: bool
    /** slave->probe_complete has been completed. */
    var probeComplete: bool
    /** The device is attached to its PM domain. */
    var pmAttached: bool

    constructor (id: SlaveId, bus: SdwBusState, clkStopTimeout: u32)
      ensures this.id == id && this.bus == bus && this.clkStopTimeout == clkStopTimeout
      ensures ops.None? && !probed && !probeComplete && !pmAttached
    {
      this.id := id;
      this.bus := bus;
      this.clkStopTimeout := clkStopTimeout;
      ops := None;
      probed := false;
      probeComplete := false;
      pmAttached := false;
    }
  }

  /** sdw_drv_probe for a driver registered with a probe callback. Without a matching id it is
      -ENODEV and nothing changes; the Slave takes the driver's ops; a failed PM-domain attach is
      returned; a failed driver probe detaches again and is returned, the Slave still not probed.
      On success read_prop (when present) refreshes the timeout, the timeouts are settled, and
      the Slave is probed. */
  method DrvProbe(slave: SdwSlave, drv: SdwDriver, outcome: ProbeOutcome) returns (ret: int)
    requires drv.hasProbe
    modifies slave, slave.bus
    ensures DeviceIdOf(drv.idTable, slave.id).None? ==> (ret == ENODEV
      && unchanged(slave) && unchanged(slave.bus))
    ensures DeviceIdOf(drv.idTable, slave.id).Some? ==> (
      && slave.ops == drv.ops
      && if outcome.attach != 0 then
           ret == outcome.attach && slave.pmAttached == old(slave.pmAttached)
           && slave.probed == old(slave.probed) && slave.probeComplete == old(slave.probeComplete)
           && slave.clkStopTimeout == old(slave.clkStopTimeout) && unchanged(slave.bus)
         else if outcome.probe != 0 then
           ret == outcome.probe && !slave.pmAttached
           && slave.probed == old(slave.probed) && slave.probeComplete == old(slave.probeComplete)
           && slave.clkStopTimeout == old(slave.clkStopTimeout) && unchanged(slave.bus)
         else
           var prop := if drv.ops.Some? && drv.ops.value.hasReadProp then outcome.readPropTimeout
                       else old(slave.clkStopTimeout);
           && ret == 0 && slave.pmAttached && slave.probed && slave.probeComplete
           && (slave.bus.clkStopTimeout, slave.clkStopTimeout) == SettleTimeouts(old(slave.bus.clkStopTimeout), prop))
  {
    var id := GetDeviceId(drv.idTable, slave.id);
    if id.None? {
      return ENODEV;
    }
    slave.ops := drv.ops;
    if outcome.attach != 0 {
      return outcome.attach;
    }
    slave.pmAttached := true;
    if outcome.probe != 0 {
      slave.pmAttached := false;
      return outcome.probe;
    }
    if slave.ops.Some? && slave.ops.value.hasReadProp {
      slave.clkStopTimeout := outcome.readPropTimeout;
    }
    if slave.clkStopTimeout == 0 {
      slave.clkStopTimeout := DEFAULT_CLK_STOP_TIMEOUT;
    }
    var bus := slave.bus;
    bus.clkStopTimeout := if bus.clkStopTimeout >= slave.clkStopTimeout then bus.clkStopTimeout else slave.clkStopTimeout;
    slave.probed := true;
    slave.probeComplete := true;
    ret := 0;
  }

  /** sdw_drv_remove: the driver's remove result (0 without one); the device leaves its PM domain. */
  method DrvRemove(slave: SdwSlave, drv: SdwDriver, removeResult: int) returns (ret: int)
    modifies slave`pmAttached
    ensures ret == (if drv.hasRemove then removeResult else 0) && !slave.pmAttached
  {
    ret := 0;
    if drv.hasRemove {
      ret := removeResult;
    }
    slave.pmAttached := false;
  }

  /** struct sdw_master_device, as far as probing goes. */
  class SdwMasterDevice {
    const masterName: string
    var pmAttached: bool

    constructor (masterName: string)
      ensures this.masterName == masterName && !pmAttached
    {
      this.masterName := masterName;
      pmAttached := false;
    }
  }

  /** sdw_master_drv_probe: attach to the PM domain, run the driver's probe, detach again when it
      fails; the first failure is returned. */
  method MasterDrvProbe(md: SdwMasterDevice, attachResult: int, probeResult: int) returns (ret: int)
    modifies md
    ensures attachResult != 0 ==> ret == attachResult && md.pmAttached == old(md.pmAttached)
    ensures attachResult == 0 ==> ret == probeResult && md.pmAttached == (probeResult == 0)
  {
    if attachResult != 0 {
      return attachResult;
    }
    md.pmAttached := true;
    if probeResult != 0 {
      md.pmAttached := false;
      return probeResult;
    }
    ret := 0;
  }

  /** sdw_master_drv_remove. */
  method MasterDrvRemove(md: SdwMasterDevice, hasRemove: bool, removeResult: int) returns (ret: int)
    modifies md
    ensures ret == (if hasRemove then removeResult else 0) && !md.pmAttached
  {
    ret := if hasRemove then removeResult else 0;
    md.pmAttached := false;
  }

  // ---------------------------------------------------------------------------------------------
  // driver registration

  /** The bus-level callbacks the register functions install. */
  datatype BusCallback =
    | SlaveProbe | SlaveRemove | SlaveShutdown
    | MasterProbe | MasterRemove | MasterShutdown

  /** The embedded `struct device_driver`. */
  class DeviceDriver {
    var onSdwBus: bool
    var owner: Option<nat>
    var probe: Option<BusCallback>
    var remove: Option<BusCallback>
    var shutdown: Option<BusCallback>

    constructor ()
      ensures !onSdwBus && owner.None? && probe.None? && remove.None? && shutdown.None?
    {
      onSdwBus := false;
      owner, probe, remove, shutdown := None, None, None, None;
    }
  }

  /** __sdw_register_driver and __sdw_register_master_driver differ only in the wrappers they
      install: the driver is put on the bus first; without a probe callback it is -EINVAL and
      nothing else is set; otherwise owner and the probe wrapper are set, the remove and
      shutdown wrappers only when the driver has those callbacks, and driver_register's result
      is returned. */
  method Register(drv: DeviceDriver, hasProbe: bool, hasRemove: bool, hasShutdown: bool, owner: nat,
                  wrappers: (BusCallback, BusCallback, BusCallback), registerResult: int) returns (ret: int)
    modifies drv
    ensures drv.onSdwBus
    ensures !hasProbe ==> (ret == EINVAL && drv.owner == old(drv.owner) && drv.probe == old(drv.probe)
      && drv.remove == old(drv.remove) && drv.shutdown == old(drv.shutdown))
    ensures hasProbe ==> (ret == registerResult && drv.owner == Some(owner) && drv.probe == Some(wrappers.0)
      && drv.remove == (if hasRemove then Some(wrappers.1) else old(drv.remove))
      && drv.shutdown == (if hasShutdown then Some(wrappers.2) else old(drv.shutdown)))
  {
    drv.onSdwBus := true;
    if !hasProbe {
      return EINVAL;
    }
    drv.owner := Some(owner);
    drv.probe := Some(wrappers.0);
    if hasRemove {
      drv.remove := Some(wrappers.1);
    }
    if hasShutdown {
      drv.shutdown := Some(wrappers.2);
    }
    ret := registerResult;
  }

  /** __sdw_register_driver. */
  method RegisterDriver(d: DeviceDriver, drv: SdwDriver, owner: nat, registerResult: int) returns (ret: int)
    modifies d
    ensures d.onSdwBus
    ensures !drv.hasProbe ==> (ret == EINVAL && d.owner == old(d.owner) && d.probe == old(d.probe)
      && d.remove == old(d.remove) && d.shutdown == old(d.shutdown))
    ensures drv.hasProbe ==> (ret == registerResult && d.owner == Some(owner) && d.probe == Some(SlaveProbe)
      && d.remove == (if drv.hasRemove then Some(SlaveRemove) else old(d.remove))
      && d.shutdown == (if drv.hasShutdown then Some(SlaveShutdown) else old(d.shutdown)))
  {
    ret := Register(d, drv.hasProbe, drv.hasRemove, drv.hasShutdown, owner,
                    (SlaveProbe, SlaveRemove, SlaveShutdown), registerResult);
  }

  /** __sdw_register_master_driver. */
  method RegisterMasterDriver(d: DeviceDriver, hasProbe: bool, hasRemove: bool, hasShutdown: bool,
                              owner: nat, registerResult: int) returns (ret: int)
    modifies d
    ensures d.onSdwBus
    ensures !hasProbe ==> (ret == EINVAL && d.owner == old(d.owner) && d.probe == old(d.probe)
      && d.remove == old(d.remove) && d.shutdown == old(d.shutdown))
    ensures hasProbe ==> (ret == registerResult && d.owner == Some(owner) && d.probe == Some(MasterProbe)
      && d.remove == (if hasRemove then Some(MasterRemove) else old(d.remove))
      && d.shutdown == (if hasShutdown then Some(MasterShutdown) else old(d.shutdown)))
  {
    ret := Register(d, hasProbe, hasRemove, hasShutdown, owner,
                    (MasterProbe, MasterRemove, MasterShutdown), registerResult);
  }
}
