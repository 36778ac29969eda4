/** The SOF bytes and bytes_ext control handlers: a blob cache holding a `struct sof_abi_hdr`
    (magic at 0, type at 4, payload size at 8, ABI version at 12, 32 bytes in all) followed by its
    payload. bytes_get/bytes_put exchange the blob through the 512-byte ALSA value array;
    bytes_ext_get/bytes_ext_put exchange it with user space behind a `struct snd_ctl_tlv`
    header (numid, length). */
module SofBytes {
  import opened Common
  import opened SofDevice
  import opened SofControl

  /** sizeof(ucontrol->value.bytes.data). */
  const UCONTROL_BYTES: nat := 512

  /** sizeof(struct snd_ctl_tlv). */
  const TLV_HDR_SIZE: nat := 8

  /** SOF_ABI_MAGIC, SOF_ABI_VERSION and SOF_ABI_VERSION_INCOMPATIBLE, whose definitions are
      not part of this model. */
  datatype AbiRules = AbiRules(magic: bv32, version: bv32, incompatible: (bv32, bv32) -> bool)

  /** data->magic, data->size and data->abi of the blob's header. */
  function HdrMagic(blob: seq<byte>): bv32
    requires ABI_HDR_SIZE <= |blob|
  {
    LeWord(blob, 0)
  }

  function HdrSize(blob: seq<byte>): u32
    requires ABI_HDR_SIZE <= |blob|
  {
    LeU32(blob, 8)
  }

  function HdrAbi(blob: seq<byte>): bv32
    requires ABI_HDR_SIZE <= |blob|
  {
    LeWord(blob, 12)
  }

  /** The PM gate and the IPC stream are left exactly as they were: the handler returned before
      resuming. */
  twostate predicate PmUntouched(sdev: SofDev)
    reads sdev
  {
    && sdev.usage == old(sdev.usage) && sdev.busyMarks == old(sdev.busyMarks)
    && sdev.idleRequests == old(sdev.idleRequests) && sdev.ipcLog == old(sdev.ipcLog)
  }

  // ---------------------------------------------------------------------------------------------
  // bytes_get / bytes_put

  /** snd_sof_bytes_get: rejects a be->max larger than the value array before resuming; once
      resumed, GETs the blob, and copies header and payload out unless the declared size does not
      fit be->max. Returns the resume result, or -EINVAL. */
  method BytesGet(ctl: SofControl, pm: PmOutcome, reply: seq<byte>, ucontrol: seq<byte>)
    returns (ret: int, out: seq<byte>)
    requires ctl.Valid() && |reply| == ctl.data.Length && |ucontrol| == UCONTROL_BYTES
    modifies ctl.sdev, ctl.data
    ensures ctl.bytesMax > UCONTROL_BYTES ==> (ret == EINVAL && out == ucontrol
      && PmUntouched(ctl.sdev) && ctl.data[..] == old(ctl.data[..]))
    ensures ctl.bytesMax <= UCONTROL_BYTES ==> PmBalanced(ctl.sdev, pm.resume)
    ensures ctl.bytesMax <= UCONTROL_BYTES && pm.resume < 0 ==> (ret == pm.resume && out == ucontrol
      && ctl.sdev.ipcLog == old(ctl.sdev.ipcLog) && ctl.data[..] == old(ctl.data[..]))
    ensures ctl.bytesMax <= UCONTROL_BYTES && pm.resume >= 0 ==> (
      && ctl.sdev.ipcLog == old(ctl.sdev.ipcLog) + [CompGetData(ctl.cmd, old(ctl.data[..]))]
      && ctl.data[..] == reply
      && var size := HdrSize(reply) + ABI_HDR_SIZE;
         if size > ctl.bytesMax then ret == EINVAL && out == ucontrol
         else ret == pm.resume && out == CopyPrefix(ucontrol, reply, size))
  {
    out := ucontrol;
    if ctl.bytesMax > UCONTROL_BYTES {
      ret := EINVAL;
      return;
    }
    ret := PmEnter(ctl.sdev, pm.resume);
    if ret < 0 {
      return;
    }
    ctl.sdev.SendIpc(CompGetData(ctl.cmd, ctl.data[..]));
    forall k | 0 <= k < ctl.data.Length {
      ctl.data[k] := reply[k];
    }
    var size := HdrSize(ctl.data[..]) + ABI_HDR_SIZE;
    if size > ctl.bytesMax {
      ret := EINVAL;
    } else {
      out := CopyPrefix(out, ctl.data[..], size);
    }
    PmLeave(ctl.sdev, pm.autosuspend);
  }

  /** snd_sof_bytes_put: the copy length is the size declared by the blob already in the cache;
      a be->max larger than the value array, or a cached size that does not fit be->max, is
      rejected before resuming. Once resumed, that many bytes of the value array overwrite the
      cache and the blob is SET. Returns the resume result, or -EINVAL. */
  method BytesPut(ctl: SofControl, pm: PmOutcome, ucontrol: seq<byte>) returns (ret: int)
    requires ctl.Valid() && |ucontrol| == UCONTROL_BYTES
    modifies ctl.sdev, ctl.data
    ensures var size := HdrSize(old(ctl.data[..])) + ABI_HDR_SIZE;
      if ctl.bytesMax > UCONTROL_BYTES || size > ctl.bytesMax then
        ret == EINVAL && PmUntouched(ctl.sdev) && ctl.data[..] == old(ctl.data[..])
      else
        && PmBalanced(ctl.sdev, pm.resume)
        && ret == pm.resume
        && (pm.resume < 0 ==> ctl.sdev.ipcLog == old(ctl.sdev.ipcLog) && ctl.data[..] == old(ctl.data[..]))
        && (pm.resume >= 0 ==>
              && ctl.data[..] == CopyPrefix(old(ctl.data[..]), ucontrol, size)
              && ctl.sdev.ipcLog == old(ctl.sdev.ipcLog) + [CompSetData(ctl.cmd, ctl.data[..])])
  {
    var size := HdrSize(ctl.data[..]) + ABI_HDR_SIZE;
    if ctl.bytesMax > UCONTROL_BYTES {
      return EINVAL;
    }
    if size > ctl.bytesMax {
      return EINVAL;
    }
    ret := PmEnter(ctl.sdev, pm.resume);
    if ret < 0 {
      return;
    }
    forall k | 0 <= k < size {
      ctl.data[k] := ucontrol[k];
    }
    assert ctl.data[..] == CopyPrefix(old(ctl.data[..]), ucontrol, size);
    ctl.sdev.SendIpc(CompSetData(ctl.cmd, ctl.data[..]));
    PmLeave(ctl.sdev, pm.autosuspend);
  }

  /** A put of a blob declaring the same payload size as the cached one, followed by a get the
      DSP answers with the blob it was sent, hands back exactly the header and payload put. */
  method BytesPutThenGet(ctl: SofControl, ucontrol: seq<byte>) returns (out: seq<byte>)
    requires ctl.Valid() && |ucontrol| == UCONTROL_BYTES && ctl.bytesMax <= UCONTROL_BYTES
    requires HdrSize(ctl.data[..]) + ABI_HDR_SIZE <= ctl.bytesMax
    requires HdrSize(ucontrol) == HdrSize(ctl.data[..])
    modifies ctl.sdev, ctl.data
    ensures |out| == UCONTROL_BYTES
    ensures out[..HdrSize(ucontrol) + ABI_HDR_SIZE] == ucontrol[..HdrSize(ucontrol) + ABI_HDR_SIZE]
  {
    var size := HdrSize(ucontrol) + ABI_HDR_SIZE;
    var _ := BytesPut(ctl, PmOutcome(0, 0), ucontrol);
    var sent := ctl.data[..];
    assert sent[..ABI_HDR_SIZE] == ucontrol[..ABI_HDR_SIZE];
    assert HdrSize(sent) == HdrSize(ucontrol);
    var _, got := BytesGet(ctl, PmOutcome(0, 0), sent, ucontrol);
    out := got;
    assert out[..size] == ucontrol[..size];
  }

  // ---------------------------------------------------------------------------------------------
  // bytes_ext_put

  /** copy_from_user of n bytes at offset off of a user buffer of which only `user` is
      readable: the bytes past the readable end are zero-filled, as the kernel does on a fault. */
  function UserCopy(user: seq<byte>, off: nat, n: nat): (r: seq<byte>)
    ensures |r| == n
    ensures off + n <= |user| ==> r == user[off..off + n]
    ensures forall i :: 0 <= i < n && off + i < |user| ==> r[i] == user[off + i]
    ensures forall i :: 0 <= i < n && |user| <= off + i ==> r[i] == 0
  {
    if off + n <= |user| then user[off..off + n]
    else if |user| <= off then seq(n, _ => 0)
    else user[off..] + seq(off + n - |user|, _ => 0)
  }

  /** snd_sof_bytes_ext_put. In this order: a fault on the TLV header is -EFAULT; a length over
      be->max, then a numid other than the control's cmd, are -EINVAL; then `length` bytes are
      copied into the cache (a fault here is -EFAULT); then a wrong magic, an incompatible ABI
      version, and a declared size that does not fit be->max, are -EINVAL. All of these return
      before resuming. Once resumed the blob is SET and the resume result returned. */
  method BytesExtPut(ctl: SofControl, pm: PmOutcome, abi: AbiRules, user: seq<byte>) returns (ret: int)
    requires ctl.Valid()
    modifies ctl.sdev, ctl.data
    ensures |user| < TLV_HDR_SIZE ==> (ret == EFAULT && PmUntouched(ctl.sdev) && ctl.data[..] == old(ctl.data[..]))
    ensures |user| >= TLV_HDR_SIZE ==> (
      var numid, length := LeU32(user, 0), LeU32(user, 4);
      if length > ctl.bytesMax || numid != ctl.cmd then
        ret == EINVAL && PmUntouched(ctl.sdev) && ctl.data[..] == old(ctl.data[..])
      else
        && ctl.data[..] == CopyPrefix(old(ctl.data[..]), UserCopy(user, TLV_HDR_SIZE, length), length)
        && var blob := ctl.data[..];
           if TLV_HDR_SIZE + length > |user| then ret == EFAULT && PmUntouched(ctl.sdev)
           else if HdrMagic(blob) != abi.magic || abi.incompatible(abi.version, HdrAbi(blob))
                   || HdrSize(blob) + ABI_HDR_SIZE > ctl.bytesMax then
             ret == EINVAL && PmUntouched(ctl.sdev)
           else
             && PmBalanced(ctl.sdev, pm.resume) && ret == pm.resume
             && ctl.sdev.ipcLog == old(ctl.sdev.ipcLog) + (if pm.resume < 0 then [] else [CompSetData(ctl.cmd, blob)]))
  {
    if |user| < TLV_HDR_SIZE {
      return EFAULT;
    }
    var numid, length := LeU32(user, 0), LeU32(user, 4);
    if length > ctl.bytesMax {
      return EINVAL;
    }
    if numid != ctl.cmd {
      return EINVAL;
    }
    var copied := UserCopy(user, TLV_HDR_SIZE, length);
    forall k | 0 <= k < length {
      ctl.data[k] := copied[k];
    }
    assert ctl.data[..] == CopyPrefix(old(ctl.data[..]), copied, length);
    if TLV_HDR_SIZE + length > |user| {
      return EFAULT;
    }
    if HdrMagic(ctl.data[..]) != abi.magic {
      return EINVAL;
    }
    if abi.incompatible(abi.version, HdrAbi(ctl.data[..])) {
      return EINVAL;
    }
    if HdrSize(ctl.data[..]) + ABI_HDR_SIZE > ctl.bytesMax {
      return EINVAL;
    }
    ret := PmEnter(ctl.sdev, pm.resume);
    if ret < 0 {
      return;
    }
    ctl.sdev.SendIpc(CompSetData(ctl.cmd, ctl.data[..]));
    PmLeave(ctl.sdev, pm.autosuspend);
  }

  // ---------------------------------------------------------------------------------------------
  // bytes_ext_get

  /** The blob with its header's magic and ABI version stamped in. */
  function Stamped(blob: seq<byte>, abi: AbiRules): (r: seq<byte>)
    requires ABI_HDR_SIZE <= |blob|
  {
    LeBytes(abi.magic) + blob[4..12] + LeBytes(abi.version) + blob[16..]
  }

  /** Stamping sets exactly the magic and ABI words: the type, the declared size and the payload
      are kept. */
  lemma StampedFields(blob: seq<byte>, abi: AbiRules)
    requires ABI_HDR_SIZE <= |blob|
    ensures |Stamped(blob, abi)| == |blob|
    ensures HdrMagic(Stamped(blob, abi)) == abi.magic && HdrAbi(Stamped(blob, abi)) == abi.version
    ensures forall k :: 4 <= k < 12 || 16 <= k < |blob| ==> Stamped(blob, abi)[k] == blob[k]
    ensures HdrSize(Stamped(blob, abi)) == HdrSize(blob)
  {
    var r := Stamped(blob, abi);
    assert r[0..4] == LeBytes(abi.magic);
    assert r[12..16] == LeBytes(abi.version);
    assert forall k :: 4 <= k < 12 ==> r[k] == blob[k];
  }

  /** cdata->data->magic = SOF_ABI_MAGIC; cdata->data->abi = SOF_ABI_VERSION. */
  method StampHeader(data: array<byte>, abi: AbiRules)
    requires ABI_HDR_SIZE <= data.Length
    modifies data
    ensures data[..] == Stamped(old(data[..]), abi)
  {
    var stamped := Stamped(data[..], abi);
    forall k | 0 <= k < data.Length {
      data[k] := stamped[k];
    }
  }

  /** The `struct snd_ctl_tlv` header as user space reads it. */
  datatype TlvHeader = TlvHeader(numid: u32, length: u32)

  /** What bytes_ext_get leaves in the user buffer and the error it reports, if any. */
  datatype ExtGetOut = ExtGetOut(err: Option<int>, header: Option<TlvHeader>, payload: seq<byte>)

  /** The copy-out of snd_sof_bytes_ext_get as written, after the GET, for the blob the DSP
      answered and a user buffer of which userCap bytes are writable: data_size is the declared
      size plus the header, truncated to an `int`; it is checked against be->max and becomes the
      TLV length. The size of the user buffer the caller announced plays no part. */
  function ExtGetCopyOut(cmd: u32, max: nat, blob: seq<byte>, userCap: nat): (r: ExtGetOut)
    requires ABI_HDR_SIZE <= |blob| && max <= |blob|
    ensures r.err.None? ==> (r.header.Some? && r.header.value.numid == cmd
      && |r.payload| == r.header.value.length <= max && r.payload == blob[..|r.payload|]
      && TLV_HDR_SIZE + |r.payload| <= userCap)
    ensures r.err.Some? ==> r.err.value in {EINVAL, EFAULT} && r.payload == []
    ensures r.err == Some(EINVAL) <==> ToInt32(HdrSize(blob) + ABI_HDR_SIZE) > max
    ensures r.err == Some(EINVAL) ==> r.header.None?
    ensures r.header.Some? ==> r.header.value.length == ToU32(ToInt32(HdrSize(blob) + ABI_HDR_SIZE))
    ensures r.err.None? ==> |r.payload| == ToInt32(HdrSize(blob) + ABI_HDR_SIZE)
  {
    var dataSize := ToInt32(HdrSize(blob) + ABI_HDR_SIZE);
    if dataSize > max then ExtGetOut(Some(EINVAL), None, [])
    else if userCap < TLV_HDR_SIZE then ExtGetOut(Some(EFAULT), None, [])
    else
      var header := TlvHeader(cmd, ToU32(dataSize));
      if dataSize < 0 || TLV_HDR_SIZE + dataSize > userCap then ExtGetOut(Some(EFAULT), Some(header), [])
      else ExtGetOut(None, Some(header), blob[..dataSize])
  }

  /** A 32-byte blob whose header declares the given payload size, all other bytes zero. */
  function BlobDeclaring(size: bv32): (r: seq<byte>)
    ensures |r| == ABI_HDR_SIZE && HdrSize(r) == size as int
  {
    var w := LeBytes(size);
    var r := [0, 0, 0, 0, 0, 0, 0, 0] + w + seq(20, _ => 0);
    assert r[8..12] == w;
    r
  }

  /** The user buffer size is never consulted: a caller announcing room for the TLV header only
      (8 bytes) gets the 32-byte blob written past it, as long as the memory there is writable. */
  lemma ExtGetIgnoresUserSize()
    ensures var r := ExtGetCopyOut(0, 64, BlobDeclaring(0) + seq(32, _ => 0), 100);
      r.err.None? && TLV_HDR_SIZE + |r.payload| > 8
  {
    var blob := BlobDeclaring(0) + seq(32, _ => 0);
    assert blob[..ABI_HDR_SIZE] == BlobDeclaring(0);
    assert HdrSize(blob) == HdrSize(BlobDeclaring(0));
  }

  /** Truncating data_size to an `int` lets a corrupt declared size pass the be->max check: a
      declared size of 0x7FFF_FFF0 makes data_size negative, and the TLV header then written to
      user space carries a length far above be->max. */
  lemma ExtGetTruncatedSizePasses()
    ensures var r := ExtGetCopyOut(0, 64, BlobDeclaring(0x7FFF_FFF0) + seq(32, _ => 0), 100);
      r.err == Some(EFAULT) && r.header == Some(TlvHeader(0, 0x8000_0010))
  {
    var blob := BlobDeclaring(0x7FFF_FFF0) + seq(32, _ => 0);
    assert blob[..ABI_HDR_SIZE] == BlobDeclaring(0x7FFF_FFF0);
    assert HdrSize(blob) == HdrSize(BlobDeclaring(0x7FFF_FFF0));
    assert ToInt32(0x8000_0010) == 0x8000_0010 - U32_LIMIT;
    assert ToU32(0x8000_0010 - U32_LIMIT) == 0x8000_0010;
  }

  /** The copy-out as evidently intended: data_size is computed without truncation, and a blob
      that does not fit the announced user buffer behind the TLV header is -ENOSPC before
      anything is written. It never writes past the announced buffer, writes exactly the
      declared blob, and never reports a TLV length above be->max. */
  function ExtGetCopyOutChecked(cmd: u32, max: nat, blob: seq<byte>, userSize: u32, userCap: nat): (r: ExtGetOut)
    requires ABI_HDR_SIZE <= |blob| && max <= |blob|
    ensures r.header.Some? ==> (r.header.value.numid == cmd
      && r.header.value.length == HdrSize(blob) + ABI_HDR_SIZE <= max
      && TLV_HDR_SIZE + r.header.value.length <= userSize)
    ensures r.err.None? <==> (HdrSize(blob) + ABI_HDR_SIZE <= max
      && TLV_HDR_SIZE + HdrSize(blob) + ABI_HDR_SIZE <= userSize
      && TLV_HDR_SIZE + HdrSize(blob) + ABI_HDR_SIZE <= userCap)
    ensures r.err.None? ==> r.header.Some? && r.payload == blob[..HdrSize(blob) + ABI_HDR_SIZE]
    ensures r.err.Some? ==> r.payload == []
  {
    var dataSize := HdrSize(blob) + ABI_HDR_SIZE;
    if dataSize > max then ExtGetOut(Some(EINVAL), None, [])
    else if userSize < TLV_HDR_SIZE || dataSize > userSize - TLV_HDR_SIZE then ExtGetOut(Some(ENOSPC), None, [])
    else if userCap < TLV_HDR_SIZE then ExtGetOut(Some(EFAULT), None, [])
    else
      var header := TlvHeader(cmd, dataSize);
      if TLV_HDR_SIZE + dataSize > userCap then ExtGetOut(Some(EFAULT), Some(header), [])
      else ExtGetOut(None, Some(header), blob[..dataSize])
  }

  /** Where the declared size is a positive `int` and the announced buffer is large enough,
      the corrected copy-out leaves user space with exactly what the code as written does. */
  lemma ExtGetCheckedAgrees(cmd: u32, max: nat, blob: seq<byte>, userSize: u32, userCap: nat)
    requires ABI_HDR_SIZE <= |blob| && max <= |blob|
    requires HdrSize(blob) + ABI_HDR_SIZE < 0x8000_0000
    requires HdrSize(blob) + ABI_HDR_SIZE <= max ==> TLV_HDR_SIZE + HdrSize(blob) + ABI_HDR_SIZE <= userSize
    ensures ExtGetCopyOutChecked(cmd, max, blob, userSize, userCap) == ExtGetCopyOut(cmd, max, blob, userCap)
  {
  }

  /** snd_sof_bytes_ext_get: once resumed, stamps the cached header with SOF_ABI_MAGIC and
      SOF_ABI_VERSION, GETs the blob, and copies it out behind a TLV header. Returns the copy-out
      error, or else the result of the GET. */
  method BytesExtGet(ctl: SofControl, pm: PmOutcome, abi: AbiRules, size: u32, userCap: nat,
                     reply: seq<byte>, ipcResult: int)
    returns (ret: int, out: ExtGetOut)
    requires ctl.Valid() && |reply| == ctl.data.Length
    modifies ctl.sdev, ctl.data
    ensures PmBalanced(ctl.sdev, pm.resume)
    ensures pm.resume < 0 ==> (ret == pm.resume && out == ExtGetOut(None, None, [])
      && ctl.sdev.ipcLog == old(ctl.sdev.ipcLog) && ctl.data[..] == old(ctl.data[..]))
    ensures pm.resume >= 0 ==> (
      && ctl.sdev.ipcLog == old(ctl.sdev.ipcLog) + [CompGetData(ctl.cmd, Stamped(old(ctl.data[..]), abi))]
      && ctl.data[..] == reply
      && out == ExtGetCopyOut(ctl.cmd, ctl.bytesMax, reply, userCap)
      && ret == if out.err.Some? then out.err.value else ipcResult)
  {
    out := ExtGetOut(None, None, []);
    ret := PmEnter(ctl.sdev, pm.resume);
    if ret < 0 {
      return;
    }
    // Mirrors the dead store `size -= sizeof(struct snd_ctl_tlv)`: the value is never read again.
    var remaining := ToU32(size - TLV_HDR_SIZE);
    StampHeader(ctl.data, abi);
    ctl.sdev.SendIpc(CompGetData(ctl.cmd, ctl.data[..]));
    ret := ipcResult;
    forall k | 0 <= k < ctl.data.Length {
      ctl.data[k] := reply[k];
    }
    out := ExtGetCopyOut(ctl.cmd, ctl.bytesMax, ctl.data[..], userCap);
    if out.err.Some? {
      ret := out.err.value;
    }
    PmLeave(ctl.sdev, pm.autosuspend);
  }
}
