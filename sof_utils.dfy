/** Mailbox and block I/O on the DSP's mapped bars, and the selection of a DAI's current
    hardware configuration. A bar is a byte array; 32-bit MMIO accesses are little-endian. */
module SofUtils {
  import opened Common
  import opened SofDevice

  /** One 32-bit MMIO access, in the order the block engine issues them. */
  datatype MmioOp = Read32(addr: nat) | Write32(addr: nat, value: bv32)

  /** The bytes of d with d[off..off+|src|] replaced by src. */
  function Spliced(d: seq<byte>, off: nat, src: seq<byte>): (r: seq<byte>)
    requires off + |src| <= |d|
    ensures |r| == |d|
  {
    d[..off] + src + d[off + |src|..]
  }

  /** A splice puts src exactly at off and keeps every other byte. */
  lemma SplicedFraming(d: seq<byte>, off: nat, src: seq<byte>)
    requires off + |src| <= |d|
    ensures Spliced(d, off, src)[off..off + |src|] == src
    ensures forall j :: 0 <= j < |d| && !(off <= j < off + |src|) ==> Spliced(d, off, src)[j] == d[j]
  {
    var r := Spliced(d, off, src);
    assert r[off..off + |src|] == src by {
      forall k | 0 <= k < |src| ensures r[off + k] == src[k] { }
    }
  }

  /** writel / iowrite32: a 32-bit little-endian store into a bar. */
  method IoWrite32(dest: array<byte>, addr: nat, w: bv32)
    requires addr + 4 <= dest.Length
    modifies dest
    ensures forall j :: 0 <= j < dest.Length ==>
      dest[j] == if addr <= j < addr + 4 then ByteOf(w, j - addr) else old(dest[j])
  {
    dest[addr] := ByteOf(w, 0);
    dest[addr + 1] := ByteOf(w, 1);
    dest[addr + 2] := ByteOf(w, 2);
    dest[addr + 3] := ByteOf(w, 3);
  }

  /** readl / ioread32: a 32-bit little-endian load from a bar. */
  method IoRead32(src: array<byte>, addr: nat) returns (w: bv32)
    requires addr + 4 <= src.Length
    ensures w == WordOf(src[addr], src[addr + 1], src[addr + 2], src[addr + 3])
    ensures forall k :: 0 <= k < 4 ==> ByteOf(w, k) == src[addr + k]
  {
    w := WordOf(src[addr], src[addr + 1], src[addr + 2], src[addr + 3]);
    ByteOfWordOf(src[addr], src[addr + 1], src[addr + 2], src[addr + 3]);
  }

  /** The byte at index i of the caller's buffer; the 32-bit load of the trailing bytes reads
      past the end of src, and those bytes are masked off, so they are taken as 0 here. */
  function SrcByte(src: seq<byte>, i: nat): byte
  {
    if i < |src| then src[i] else 0
  }

  /** affected_mask: the low n bytes of a word, for the n = 1..3 trailing bytes. */
  function AffectedMask(n: nat): bv32
    requires 1 <= n <= 3
  {
    if n == 1 then 0xFF else if n == 2 then 0xFFFF else 0xFF_FFFF
  }

  /** The mask is the one the driver computes as (1 << (8 * n)) - 1: the shift never overflows. */
  lemma AffectedMaskIsShift(n: nat)
    requires 1 <= n <= 3
    ensures AffectedMask(n) == ((1 as bv32) << (8 * n)) - 1
  {
  }

  /** tmp &= ~affected_mask; tmp |= source_word & affected_mask. */
  function MaskMerge(prior: bv32, s: bv32, mask: bv32): bv32
  {
    (prior & !mask) | (s & mask)
  }

  /** The read-modify-write merge under the mask of n bytes: byte k of the result comes from
      s when k < n and from prior otherwise. */
  lemma MergeBytes(prior: bv32, s: bv32, mask: bv32, n: nat)
    requires 1 <= n <= 3 && mask == AffectedMask(n)
    ensures ByteOf(MaskMerge(prior, s, mask), 0) == ByteOf(s, 0)
    ensures ByteOf(MaskMerge(prior, s, mask), 1) == if 1 < n then ByteOf(s, 1) else ByteOf(prior, 1)
    ensures ByteOf(MaskMerge(prior, s, mask), 2) == if 2 < n then ByteOf(s, 2) else ByteOf(prior, 2)
    ensures ByteOf(MaskMerge(prior, s, mask), 3) == ByteOf(prior, 3)
  {
  }

  /** Size rounded up to whole words: the extent the block engine may touch. */
  function RoundUp4(size: nat): nat
  {
    (size + 3) / 4 * 4
  }

  /** __iowrite32_copy(dest, src, count): count whole-word stores, in address order. */
  method IoWrite32Copy(dest: array<byte>, offset: nat, src: seq<byte>, count: nat) returns (trace: seq<MmioOp>)
    requires offset + 4 * count <= dest.Length && 4 * count <= |src|
    modifies dest
    ensures |trace| == count
    ensures forall i :: 0 <= i < count ==> trace[i] == Write32(offset + 4 * i, LeWord(src, 4 * i))
    ensures forall j :: 0 <= j < dest.Length ==>
      dest[j] == if offset <= j < offset + 4 * count then src[j - offset] else old(dest[j])
  {
    trace := [];
    var k := 0;
    while k < count
      invariant 0 <= k <= count
      invariant |trace| == k
      invariant forall i :: 0 <= i < k ==> trace[i] == Write32(offset + 4 * i, LeWord(src, 4 * i))
      invariant forall j :: 0 <= j < dest.Length ==>
        dest[j] == if offset <= j < offset + 4 * k then src[j - offset] else old(dest[j])
    {
      var w := LeWord(src, 4 * k);
      ByteOfWordOf(src[4 * k], src[4 * k + 1], src[4 * k + 2], src[4 * k + 3]);
      IoWrite32(dest, offset + 4 * k, w);
      trace := trace + [Write32(offset + 4 * k, w)];
      k := k + 1;
    }
  }

  /** The trailing-bytes step of sof_block_write: read the word at addr, keep its high bytes,
      take its low n bytes from the (over-read) source word at src[from..], write it back. */
  method PatchTail(dest: array<byte>, addr: nat, src: seq<byte>, from: nat, n: nat) returns (tmp: bv32)
    requires 1 <= n <= 3 && from + n == |src|
    requires addr + 4 <= dest.Length
    modifies dest
    ensures forall j :: 0 <= j < dest.Length ==>
      dest[j] == if addr <= j < addr + n then src[from + (j - addr)] else old(dest[j])
  {
    var prior := IoRead32(dest, addr);
    var s := WordOf(SrcByte(src, from), SrcByte(src, from + 1), SrcByte(src, from + 2), SrcByte(src, from + 3));
    ByteOfWordOf(SrcByte(src, from), SrcByte(src, from + 1), SrcByte(src, from + 2), SrcByte(src, from + 3));
    var mask := AffectedMask(n);
    tmp := MaskMerge(prior, s, mask);
    MergeBytes(prior, s, mask, n);
    IoWrite32(dest, addr, tmp);
  }

  /** sof_block_write: m = size/4 whole-word stores, then, when n = size%4 is not zero, one
      read-modify-write of the word after them that replaces only its low n bytes. */
  method BlockWrite(sdev: SofDev, bar: nat, offset: nat, src: seq<byte>) returns (trace: seq<MmioOp>)
    requires bar < |sdev.bars|
    requires offset + RoundUp4(|src|) <= sdev.bars[bar].Length
    modifies sdev.bars[bar]
    ensures sdev.bars[bar][..] == Spliced(old(sdev.bars[bar][..]), offset, src)
    ensures |trace| == |src| / 4 + (if |src| % 4 == 0 then 0 else 2)
    ensures forall k :: 0 <= k < |src| / 4 ==> trace[k] == Write32(offset + 4 * k, LeWord(src, 4 * k))
    ensures |src| % 4 != 0 ==>
      trace[|src| / 4] == Read32(offset + 4 * (|src| / 4)) &&
      trace[|src| / 4 + 1].Write32? && trace[|src| / 4 + 1].addr == offset + 4 * (|src| / 4)
    ensures |src| % 4 == 0 ==> forall op :: op in trace ==> op.Write32?
  {
    var dest := sdev.bars[bar];
    var m := |src| / 4;
    var n := |src| % 4;
    trace := IoWrite32Copy(dest, offset, src, m);
    if n != 0 {
      var tmp := PatchTail(dest, offset + 4 * m, src, 4 * m, n);
      trace := trace + [Read32(offset + 4 * m), Write32(offset + 4 * m, tmp)];
    }
    assert dest[..] == Spliced(old(dest[..]), offset, src);
  }

  /** sof_block_read: a byte copy of size bytes out of the bar; the bar is not changed. */
  method BlockRead(sdev: SofDev, bar: nat, offset: nat, size: nat) returns (dest: seq<byte>)
    requires bar < |sdev.bars|
    requires offset + size <= sdev.bars[bar].Length
    ensures |dest| == size
    ensures forall k :: 0 <= k < size ==> dest[k] == sdev.bars[bar][offset + k]
  {
    dest := sdev.bars[bar][offset..offset + size];
  }

  /** A block write followed by a block read of the same range returns the source bytes, and
      no byte of the bar outside that range has changed. */
  method BlockWriteThenRead(sdev: SofDev, bar: nat, offset: nat, src: seq<byte>) returns (back: seq<byte>)
    requires bar < |sdev.bars|
    requires offset + RoundUp4(|src|) <= sdev.bars[bar].Length
    modifies sdev.bars[bar]
    ensures back == src
    ensures forall j :: 0 <= j < sdev.bars[bar].Length && !(offset <= j < offset + |src|) ==>
      sdev.bars[bar][j] == old(sdev.bars[bar][j])
  {
    var trace := BlockWrite(sdev, bar, offset, src);
    SplicedFraming(old(sdev.bars[bar][..]), offset, src);
    back := BlockRead(sdev, bar, offset, |src|);
  }

  /** sof_mailbox_write: memcpy_toio of the message at `offset` in the mailbox bar. */
  method MailboxWrite(sdev: SofDev, offset: nat, message: seq<byte>)
    requires sdev.Valid()
    requires offset + |message| <= sdev.bars[sdev.mailboxBar].Length
    modifies sdev.bars[sdev.mailboxBar]
    ensures sdev.bars[sdev.mailboxBar][..] == Spliced(old(sdev.bars[sdev.mailboxBar][..]), offset, message)
  {
    var dest := sdev.bars[sdev.mailboxBar];
    forall j | offset <= j < offset + |message| {
      dest[j] := message[j - offset];
    }
    assert dest[..] == Spliced(old(dest[..]), offset, message);
  }

  /** sof_mailbox_read: memcpy_fromio of `bytes` bytes at `offset` in the mailbox bar. */
  method MailboxRead(sdev: SofDev, offset: nat, bytes: nat) returns (message: seq<byte>)
    requires sdev.Valid()
    requires offset + bytes <= sdev.bars[sdev.mailboxBar].Length
    ensures |message| == bytes
    ensures forall k :: 0 <= k < bytes ==> message[k] == sdev.bars[sdev.mailboxBar][offset + k]
  {
    message := sdev.bars[sdev.mailboxBar][offset..offset + bytes];
  }

  /** A mailbox write followed by a read of the same window returns the message. */
  method MailboxWriteThenRead(sdev: SofDev, offset: nat, message: seq<byte>) returns (back: seq<byte>)
    requires sdev.Valid()
    requires offset + |message| <= sdev.bars[sdev.mailboxBar].Length
    modifies sdev.bars[sdev.mailboxBar]
    ensures back == message
  {
    MailboxWrite(sdev, offset, message);
    SplicedFraming(old(sdev.bars[sdev.mailboxBar][..]), offset, message);
    back := MailboxRead(sdev, offset, |message|);
  }

  /** SOF_DAI_INTEL_SSP and the other DAI types. */
  datatype DaiType = DaiSsp | DaiOther(code: nat)

  /** The SSP part of `struct sof_ipc_dai_config`; the last three fields are not copied. */
  datatype SspParams = SspParams(
    mclkRate: u32, bclkRate: u32, fsyncRate: u32, tdmSlots: u32, tdmSlotWidth: u32,
    mclkDirection: u32, rxSlots: u32, txSlots: u32,
    sampleValidBits: u32, mclkId: u32, quirks: u32)

  /** One `struct snd_sof_hw_config` from topology. */
  datatype HwConfig = HwConfig(
    format: u32, mclkRate: u32, bclkRate: u32, fsyncRate: u32, tdmSlots: u32,
    tdmSlotWidth: u32, mclkDirection: u32, rxSlots: u32, txSlots: u32)

  /** `struct sof_ipc_dai_config`. */
  class DaiConfig {
    var daiType: DaiType
    var format: u32
    var ssp: SspParams

    constructor (daiType: DaiType, format: u32, ssp: SspParams)
      ensures this.daiType == daiType && this.format == format && this.ssp == ssp
    {
      this.daiType, this.format, this.ssp := daiType, format, ssp;
    }
  }

  /** `struct snd_sof_dai`: its hardware configurations, the chosen one, and its IPC config. */
  class SofDai {
    var curHwConfig: int
    const hwConfigs: seq<HwConfig>
    const config: DaiConfig?

    constructor (hwConfigs: seq<HwConfig>, config: DaiConfig?)
      ensures this.hwConfigs == hwConfigs && this.config == config && curHwConfig == 0
    {
      this.hwConfigs, this.config := hwConfigs, config;
      curHwConfig := 0;
    }
  }

  /** The SSP parameters after hardware configuration hw is selected: exactly the eight
      clock and slot fields come from hw, the rest stay. */
  function ApplyHwConfig(ssp: SspParams, hw: HwConfig): (r: SspParams)
    ensures r.sampleValidBits == ssp.sampleValidBits && r.mclkId == ssp.mclkId && r.quirks == ssp.quirks
    ensures r.mclkRate == hw.mclkRate && r.bclkRate == hw.bclkRate && r.fsyncRate == hw.fsyncRate
    ensures r.tdmSlots == hw.tdmSlots && r.tdmSlotWidth == hw.tdmSlotWidth
    ensures r.mclkDirection == hw.mclkDirection && r.rxSlots == hw.rxSlots && r.txSlots == hw.txSlots
  {
    ssp.(mclkRate := hw.mclkRate, bclkRate := hw.bclkRate, fsyncRate := hw.fsyncRate,
         tdmSlots := hw.tdmSlots, tdmSlotWidth := hw.tdmSlotWidth, mclkDirection := hw.mclkDirection,
         rxSlots := hw.rxSlots, txSlots := hw.txSlots)
  }

  /** sof_dai_set_cur_hw_config: rejects a non-SSP DAI and an index outside the hardware
      configurations with -EINVAL and no change; otherwise records the index and copies the
      nine listed fields of that configuration into the DAI's IPC config. The source
      dereferences a missing IPC config once the index is valid, so that case is excluded. */
  method DaiSetCurHwConfig(dai: SofDai, i: int) returns (ret: int)
    requires dai.config == null ==> !(0 <= i < |dai.hwConfigs|)
    modifies dai, dai.config
    ensures var rejected := (dai.config != null && old(dai.config.daiType) != DaiSsp) || !(0 <= i < |dai.hwConfigs|);
      if rejected then
        ret == EINVAL && unchanged(dai) && (dai.config != null ==> unchanged(dai.config))
      else
        && ret == 0 && dai.curHwConfig == i
        && dai.config.daiType == old(dai.config.daiType)
        && dai.config.format == dai.hwConfigs[i].format
        && dai.config.ssp == ApplyHwConfig(old(dai.config.ssp), dai.hwConfigs[i])
  {
    if dai.config != null && dai.config.daiType != DaiSsp {
      return EINVAL;
    }
    if i < 0 || i >= |dai.hwConfigs| {
      return EINVAL;
    }
    dai.curHwConfig := i;
    var hw := dai.hwConfigs[i];
    var config := dai.config;
    config.format := hw.format;
    config.ssp := ApplyHwConfig(config.ssp, hw);
    ret := 0;
  }
}
