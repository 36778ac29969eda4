/** The parameter selection of the TAS2562 amplifier codec: each DAI and component callback
    picks register codes from a fixed table and issues `snd_soc_component_update_bits` calls in a
    fixed order. The register addresses, masks and codes come from a header that is not part of
    this model and are kept as opaque symbols; what the register map answers for each update is
    a parameter of the component. */
module Tas2562 {
  import opened Common

  /** The field codes of the TDM_CFG0 sample-rate field, one per 44.1/48 kHz pair. */
  datatype SampBand = Band7350_8k | Band14_7_16k | Band22_05_24k | Band29_4_32k
                    | Band44_1_48k | Band88_2_96k | Band176_4_192k

  /** The TAS2562_* register and field constants, kept opaque. */
  datatype Const =
    | PwrCtrl | ModeMask | ModeActive | ModeMute | ModeShutdown
    | TdmCfg0 | RampRateMask | SampRateMask | RampRate44_1 | SampRate(band: SampBand)
    | TdmCfg1 | RxEdgeMask | RxFalling | RxOffsetMask
    | TdmCfg2 | RxLenMask | RxLen(bits: nat) | RxWLenMask | RxWLen(bits: nat)
    | TdmCfg5 | VsnsEn | VsnsSlotMask
    | TdmCfg6 | IsnsEn | IsnsSlotMask

  /** A mask or value operand: a plain number, a constant, or the OR of two operands. */
  datatype Val = Num(n: int) | K(c: Const) | Or(a: Val, b: Val)

  /** One snd_soc_component_update_bits(component, reg, mask, value) call. */
  datatype Update = Update(reg: Const, mask: Val, value: Val)

  /** The writes a callback issues and the value it returns. */
  datatype Effect = Effect(writes: seq<Update>, ret: int)

  class Component {
    /** Every update_bits call made, oldest first. */
    var log: seq<Update>
    /** What the register map answers to the n-th update_bits call (negative on failure). */
    const answer: nat -> int

    constructor (answer: nat -> int)
      ensures log == [] && this.answer == answer
    {
      log := [];
      this.answer := answer;
    }

    /** snd_soc_component_update_bits. */
    method UpdateBits(reg: Const, mask: Val, value: Val) returns (ret: int)
      modifies this`log
      ensures log == old(log) + [Update(reg, mask, value)]
      ensures ret == answer(|old(log)|)
    {
      ret := answer(|log|);
      log := log + [Update(reg, mask, value)];
    }
  }

  /** struct tas2562_data: the component and the two sense slots. */
  class Tas2562Data {
    const component: Component
    var vSenseSlot: int
    /** ti,imon-slot-no, read at probe time. */
    const iSenseSlot: int

    constructor (component: Component, iSenseSlot: int)
      ensures this.component == component && this.iSenseSlot == iSenseSlot && vSenseSlot == 0
    {
      this.component := component;
      this.iSenseSlot := iSenseSlot;
      vSenseSlot := 0;
    }
  }

  // ---------------------------------------------------------------------------------------------
  // tas2562_set_bias_level

  /** enum snd_soc_bias_level. */
  const BIAS_OFF: int := 0
  const BIAS_STANDBY: int := 1
  const BIAS_PREPARE: int := 2
  const BIAS_ON: int := 3

  /** The MODE field for a bias level, None for a level outside the enum. */
  function BiasMode(level: int): (r: Option<Const>)
    ensures r == Some(ModeActive) <==> level == BIAS_ON
    ensures r == Some(ModeMute) <==> level == BIAS_STANDBY || level == BIAS_PREPARE
    ensures r == Some(ModeShutdown) <==> level == BIAS_OFF
    ensures r.None? <==> !(BIAS_OFF <= level <= BIAS_ON)
  {
    if level == BIAS_ON then Some(ModeActive)
    else if level == BIAS_STANDBY || level == BIAS_PREPARE then Some(ModeMute)
    else if level == BIAS_OFF then Some(ModeShutdown)
    else None
  }

  /** tas2562_set_bias_level: one MODE update for a known level (its result ignored), 0;
      -EINVAL and no write otherwise. */
  method SetBiasLevel(c: Component, level: int) returns (ret: int)
    modifies c
    ensures BiasMode(level).None? ==> ret == EINVAL && c.log == old(c.log)
    ensures BiasMode(level).Some? ==>
      ret == 0 && c.log == old(c.log) + [Update(PwrCtrl, K(ModeMask), K(BiasMode(level).value))]
  {
    var mode := BiasMode(level);
    if mode.None? {
      return EINVAL;
    }
    var _ := c.UpdateBits(PwrCtrl, K(ModeMask), K(mode.value));
    ret := 0;
  }

  // ---------------------------------------------------------------------------------------------
  // tas2562_set_samplerate

  /** The rates of the 44.1 kHz family and their 48 kHz partners, pair by pair, and the
      sample-rate code each pair shares. */
  const RATES_44_1: seq<int> := [7350, 14700, 22050, 29400, 44100, 88200, 176400]
  const RATES_48: seq<int> := [8000, 16000, 24000, 32000, 48000, 96000, 192000]
  const BANDS: seq<SampBand> := [Band7350_8k, Band14_7_16k, Band22_05_24k, Band29_4_32k,
                                 Band44_1_48k, Band88_2_96k, Band176_4_192k]

  /** The (ramp rate, sample-rate code) pair of a sample rate, None for an unsupported rate. */
  function RateCodes(rate: int): (r: Option<(Val, SampBand)>)
    ensures r.Some? <==> rate in RATES_44_1 || rate in RATES_48
    ensures r.Some? ==> (r.value.0 == K(RampRate44_1) <==> rate in RATES_44_1)
    ensures r.Some? ==> (r.value.0 == Num(0) <==> rate in RATES_48)
  {
    match rate
    case 7350 => Some((K(RampRate44_1), Band7350_8k))
    case 8000 => Some((Num(0), Band7350_8k))
    case 14700 => Some((K(RampRate44_1), Band14_7_16k))
    case 16000 => Some((Num(0), Band14_7_16k))
    case 22050 => Some((K(RampRate44_1), Band22_05_24k))
    case 24000 => Some((Num(0), Band22_05_24k))
    case 29400 => Some((K(RampRate44_1), Band29_4_32k))
    case 32000 => Some((Num(0), Band29_4_32k))
    case 44100 => Some((K(RampRate44_1), Band44_1_48k))
    case 48000 => Some((Num(0), Band44_1_48k))
    case 88200 => Some((K(RampRate44_1), Band88_2_96k))
    case 96000 => Some((Num(0), Band88_2_96k))
    case 176400 => Some((K(RampRate44_1), Band176_4_192k))
    case 192000 => Some((Num(0), Band176_4_192k))
    case _ => None
  }

  /** Each 44.1 kHz rate and its 48 kHz partner share one sample-rate code, and differ only in
      the ramp rate. */
  lemma RatePairsShareBand(i: nat)
    requires i < 7
    ensures RateCodes(RATES_44_1[i]) == Some((K(RampRate44_1), BANDS[i]))
    ensures RateCodes(RATES_48[i]) == Some((Num(0), BANDS[i]))
  {
  }

  /** The codes written tell the rate apart: no two supported rates share both codes. */
  lemma RateCodesInjective(a: int, b: int)
    requires RateCodes(a).Some? && RateCodes(a) == RateCodes(b)
    ensures a == b
  {
  }

  /** tas2562_set_samplerate as a value: -EINVAL and no write for an unsupported rate; else the
      ramp rate, then the sample-rate code, into TDM_CFG0 (results ignored), and 0. */
  function SamplerateEffect(rate: int): (e: Effect)
    ensures RateCodes(rate).None? <==> e == Effect([], EINVAL)
    ensures RateCodes(rate).Some? ==> (
      && e.ret == 0 && |e.writes| == 2
      && e.writes[0] == Update(TdmCfg0, K(RampRateMask), RateCodes(rate).value.0)
      && e.writes[1] == Update(TdmCfg0, K(SampRateMask), K(SampRate(RateCodes(rate).value.1))))
  {
    match RateCodes(rate)
    case None => Effect([], EINVAL)
    case Some((ramp, band)) =>
      Effect([Update(TdmCfg0, K(RampRateMask), ramp), Update(TdmCfg0, K(SampRateMask), K(SampRate(band)))], 0)
  }

  method SetSamplerate(t: Tas2562Data, rate: int) returns (ret: int)
    modifies t.component
    ensures t.component.log == old(t.component.log) + SamplerateEffect(rate).writes
    ensures ret == SamplerateEffect(rate).ret
  {
    var codes := RateCodes(rate);
    if codes.None? {
      return EINVAL;
    }
    var (ramp, band) := codes.value;
    var _ := t.component.UpdateBits(TdmCfg0, K(RampRateMask), ramp);
    var _ := t.component.UpdateBits(TdmCfg0, K(SampRateMask), K(SampRate(band)));
    ret := 0;
  }

  // ---------------------------------------------------------------------------------------------
  // tas2562_set_dai_tdm_slot

  datatype SlotChoice = KeepWidth | SetRxLen(len: Const) | BadWidth

  /** The RX slot length for a slot width: 0 keeps the current one. */
  function SlotWidthChoice(width: int): (r: SlotChoice)
    ensures r == KeepWidth <==> width == 0
    ensures r.SetRxLen? <==> width == 16 || width == 24 || width == 32
    ensures r.SetRxLen? ==> r.len == RxLen(width)
  {
    match width
    case 16 => SetRxLen(RxLen(16))
    case 24 => SetRxLen(RxLen(24))
    case 32 => SetRxLen(RxLen(32))
    case 0 => KeepWidth
    case _ => BadWidth
  }

  /** tas2562_set_dai_tdm_slot for a register map answering `r` to the RXLEN update. */
  function TdmSlotEffect(width: int, r: int): (e: Effect)
    ensures e.ret == 0 || e.ret == EINVAL || (e.ret == r < 0)
    ensures e.ret == EINVAL && r != EINVAL ==> SlotWidthChoice(width) == BadWidth
    ensures |e.writes| <= 1 && (|e.writes| == 1 <==> SlotWidthChoice(width).SetRxLen?)
    ensures SlotWidthChoice(width) == BadWidth ==> e == Effect([], EINVAL)
    ensures width == 0 ==> e == Effect([], 0)
    ensures SlotWidthChoice(width).SetRxLen? ==>
      e == Effect([Update(TdmCfg2, K(RxLenMask), K(RxLen(width)))], if r < 0 then r else 0)
  {
    match SlotWidthChoice(width)
    case KeepWidth => Effect([], 0)
    case BadWidth => Effect([], EINVAL)
    case SetRxLen(len) => Effect([Update(TdmCfg2, K(RxLenMask), K(len))], if r < 0 then r else 0)
  }

  /** tas2562_set_dai_tdm_slot: the masks and slot count are not used. */
  method SetDaiTdmSlot(c: Component, txMask: u32, rxMask: u32, slots: int, width: int) returns (ret: int)
    modifies c
    ensures c.log == old(c.log) + TdmSlotEffect(width, c.answer(|old(c.log)|)).writes
    ensures ret == TdmSlotEffect(width, c.answer(|old(c.log)|)).ret
  {
    ret := 0;
    var choice := SlotWidthChoice(width);
    match choice {
      case SetRxLen(len) =>
        ret := c.UpdateBits(TdmCfg2, K(RxLenMask), K(len));
      case KeepWidth =>
      case BadWidth =>
        ret := EINVAL;
    }
    if ret < 0 {
      return ret;
    }
    return 0;
  }

  // ---------------------------------------------------------------------------------------------
  // tas2562_set_bitwidth and tas2562_hw_params

  /** snd_pcm_format_t values of the formats the DAI supports. */
  const FORMAT_S16_LE: int := 2
  const FORMAT_S24_LE: int := 6
  const FORMAT_S32_LE: int := 10

  /** The sample width and the width of the container each supported format occupies in a
      TDM slot, in bits, as ALSA's format table gives them. */
  function FormatWidths(format: int): Option<(nat, nat)>
  {
    if format == FORMAT_S16_LE then Some((16, 16))
    else if format == FORMAT_S24_LE then Some((24, 32))
    else if format == FORMAT_S32_LE then Some((32, 32))
    else None
  }

  /** The RX word length code and the distance of the voltage-sense slot from the current-sense
      slot, for a sample format. */
  function BitwidthChoice(format: int): (r: Option<(Const, nat)>)
    ensures r.Some? <==> format == FORMAT_S16_LE || format == FORMAT_S24_LE || format == FORMAT_S32_LE
  {
    if format == FORMAT_S16_LE then Some((RxWLen(16), 2))
    else if format == FORMAT_S24_LE then Some((RxWLen(24), 4))
    else if format == FORMAT_S32_LE then Some((RxWLen(32), 4))
    else None
  }

  /** The word length written is the format's sample width, and the voltage-sense slot sits one
      sample container (in bytes) after the current-sense slot. */
  lemma BitwidthMatchesFormat(format: int)
    ensures BitwidthChoice(format).Some? <==> FormatWidths(format).Some?
    ensures BitwidthChoice(format).Some? ==> (
      && BitwidthChoice(format).value.0 == RxWLen(FormatWidths(format).value.0)
      && BitwidthChoice(format).value.1 * 8 == FormatWidths(format).value.1)
  {
  }

  /** tas2562_set_bitwidth as a value, for a register map answering answer(n + k) to the k-th
      update from now: RXWLEN (result ignored), then the voltage-sense slot, then the
      current-sense slot, stopping at the first negative result. */
  function BitwidthEffect(format: int, iSense: int, answer: nat -> int, n: nat): (e: Effect)
    ensures BitwidthChoice(format).None? <==> e == Effect([], EINVAL)
    ensures BitwidthChoice(format).Some? ==> (
      && 2 <= |e.writes| <= 3
      && e.writes[0] == Update(TdmCfg2, K(RxWLenMask), K(BitwidthChoice(format).value.0))
      && e.writes[1] == Update(TdmCfg5, Or(K(VsnsEn), K(VsnsSlotMask)),
                               Or(K(VsnsEn), Num(iSense + BitwidthChoice(format).value.1)))
      && (answer(n + 1) < 0 ==> |e.writes| == 2 && e.ret == answer(n + 1))
      && (answer(n + 1) >= 0 ==> (
            && |e.writes| == 3
            && e.writes[2] == Update(TdmCfg6, Or(K(IsnsEn), K(IsnsSlotMask)), Or(K(IsnsEn), Num(iSense)))
            && e.ret == if answer(n + 2) < 0 then answer(n + 2) else 0)))
  {
    match BitwidthChoice(format)
    case None => Effect([], EINVAL)
    case Some((len, offset)) =>
      var w0 := Update(TdmCfg2, K(RxWLenMask), K(len));
      var w1 := Update(TdmCfg5, Or(K(VsnsEn), K(VsnsSlotMask)), Or(K(VsnsEn), Num(iSense + offset)));
      var w2 := Update(TdmCfg6, Or(K(IsnsEn), K(IsnsSlotMask)), Or(K(IsnsEn), Num(iSense)));
      if answer(n + 1) < 0 then Effect([w0, w1], answer(n + 1))
      else Effect([w0, w1, w2], if answer(n + 2) < 0 then answer(n + 2) else 0)
  }

  method SetBitwidth(t: Tas2562Data, format: int) returns (ret: int)
    modifies t, t.component
    ensures t.component.log == old(t.component.log) + BitwidthEffect(format, t.iSenseSlot, t.component.answer, |old(t.component.log)|).writes
    ensures ret == BitwidthEffect(format, t.iSenseSlot, t.component.answer, |old(t.component.log)|).ret
    ensures t.vSenseSlot == if BitwidthChoice(format).None? then old(t.vSenseSlot)
                            else t.iSenseSlot + BitwidthChoice(format).value.1
  {
    var choice := BitwidthChoice(format);
    if choice.None? {
      return EINVAL;
    }
    var (len, offset) := choice.value;
    var _ := t.component.UpdateBits(TdmCfg2, K(RxWLenMask), K(len));
    t.vSenseSlot := t.iSenseSlot + offset;
    ret := t.component.UpdateBits(TdmCfg5, Or(K(VsnsEn), K(VsnsSlotMask)), Or(K(VsnsEn), Num(t.vSenseSlot)));
    if ret < 0 {
      return;
    }
    ret := t.component.UpdateBits(TdmCfg6, Or(K(IsnsEn), K(IsnsSlotMask)), Or(K(IsnsEn), Num(t.iSenseSlot)));
    if ret < 0 {
      return;
    }
    ret := 0;
  }

  /** tas2562_hw_params as a value: any non-zero bitwidth result is returned before the sample
      rate is looked at; otherwise the sample-rate writes follow and their result is returned. */
  function HwParamsEffect(format: int, rate: int, iSense: int, answer: nat -> int, n: nat): (e: Effect)
    ensures BitwidthEffect(format, iSense, answer, n).writes <= e.writes
    ensures e.ret == 0 <==> BitwidthEffect(format, iSense, answer, n).ret == 0 && RateCodes(rate).Some?
    ensures BitwidthChoice(format).None? ==> e == Effect([], EINVAL)
  {
    var bw := BitwidthEffect(format, iSense, answer, n);
    if bw.ret != 0 then bw
    else
      var sr := SamplerateEffect(rate);
      Effect(bw.writes + sr.writes, sr.ret)
  }

  /** An unsupported format fails hw_params without a single write, whatever the rate; a
      supported format whose updates all succeed leaves the result to the rate alone. */
  lemma HwParamsBitwidthFirst(format: int, rate: int, iSense: int, answer: nat -> int, n: nat)
    ensures BitwidthChoice(format).None? ==> HwParamsEffect(format, rate, iSense, answer, n) == Effect([], EINVAL)
    ensures BitwidthChoice(format).Some? && answer(n + 1) >= 0 && answer(n + 2) >= 0 ==> (
      && HwParamsEffect(format, rate, iSense, answer, n).ret == (if RateCodes(rate).Some? then 0 else EINVAL)
      && |HwParamsEffect(format, rate, iSense, answer, n).writes| == (if RateCodes(rate).Some? then 5 else 3))
    ensures BitwidthEffect(format, iSense, answer, n).ret != 0 ==>
      HwParamsEffect(format, rate, iSense, answer, n) == BitwidthEffect(format, iSense, answer, n)
  {
  }

  method HwParams(t: Tas2562Data, format: int, rate: int) returns (ret: int)
    modifies t, t.component
    ensures t.component.log == old(t.component.log) + HwParamsEffect(format, rate, t.iSenseSlot, t.component.answer, |old(t.component.log)|).writes
    ensures ret == HwParamsEffect(format, rate, t.iSenseSlot, t.component.answer, |old(t.component.log)|).ret
  {
    ret := SetBitwidth(t, format);
    if ret != 0 {
      return;
    }
    ret := SetSamplerate(t, rate);
  }

  // ---------------------------------------------------------------------------------------------
  // tas2562_set_dai_fmt

  /** The fields of a DAI format word (SND_SOC_DAIFMT_*). */
  const DAIFMT_I2S: int := 1
  const DAIFMT_RIGHT_J: int := 2
  const DAIFMT_LEFT_J: int := 3
  const DAIFMT_DSP_A: int := 4
  const DAIFMT_DSP_B: int := 5
  const DAIFMT_NB_NF: int := 0
  const DAIFMT_NB_IF: int := 0x200
  const DAIFMT_IB_NF: int := 0x300
  const DAIFMT_IB_IF: int := 0x400

  /** fmt & SND_SOC_DAIFMT_INV_MASK (0x0f00). */
  function InvBits(fmt: u32): int
  {
    fmt / 0x100 % 0x10 * 0x100
  }

  /** fmt & SND_SOC_DAIFMT_FORMAT_MASK (0x000f). */
  function FormatBits(fmt: u32): int
  {
    fmt % 0x10
  }

  /** The RX edge value for the clock inversion, None for an unsupported one. */
  function EdgeChoice(fmt: u32): (r: Option<Val>)
    ensures r == Some(Num(0)) <==> InvBits(fmt) == DAIFMT_NB_NF
    ensures r == Some(K(RxFalling)) <==> InvBits(fmt) == DAIFMT_IB_NF
    ensures r.None? <==> InvBits(fmt) != DAIFMT_NB_NF && InvBits(fmt) != DAIFMT_IB_NF
  {
    if InvBits(fmt) == DAIFMT_NB_NF then Some(Num(0))
    else if InvBits(fmt) == DAIFMT_IB_NF then Some(K(RxFalling))
    else None
  }

  /** The RX start-slot offset for the frame format, None for an unsupported one. */
  function OffsetChoice(fmt: u32): (r: Option<Val>)
    ensures r == Some(Num(2)) <==> FormatBits(fmt) in {DAIFMT_I2S, DAIFMT_DSP_A, DAIFMT_DSP_B}
    ensures r == Some(Num(0)) <==> FormatBits(fmt) == DAIFMT_LEFT_J
    ensures r.None? <==> FormatBits(fmt) !in {DAIFMT_I2S, DAIFMT_DSP_A, DAIFMT_DSP_B, DAIFMT_LEFT_J}
  {
    var f := FormatBits(fmt);
    if f == DAIFMT_I2S || f == DAIFMT_DSP_A || f == DAIFMT_DSP_B then Some(Num(2))
    else if f == DAIFMT_LEFT_J then Some(Num(0))
    else None
  }

  /** tas2562_set_dai_fmt as written: for an unknown frame format the -EINVAL is recorded, the
      offset 0 is still written, and the -EINVAL is then replaced by that write's result. */
  function DaiFmtAsWritten(fmt: u32, answer: nat -> int, n: nat): (e: Effect)
    ensures EdgeChoice(fmt).None? <==> e == Effect([], EINVAL)
    ensures EdgeChoice(fmt).Some? && answer(n) >= 0 ==> |e.writes| == 2 && e.ret == (if answer(n + 1) < 0 then answer(n + 1) else 0)
    ensures EdgeChoice(fmt).Some? ==> |e.writes| >= 1 && e.writes[0] == Update(TdmCfg1, K(RxEdgeMask), EdgeChoice(fmt).value)
    ensures EdgeChoice(fmt).Some? && answer(n) < 0 ==> e == Effect([Update(TdmCfg1, K(RxEdgeMask), EdgeChoice(fmt).value)], answer(n))
    ensures EdgeChoice(fmt).Some? && answer(n) >= 0 && OffsetChoice(fmt).Some? ==>
      e.writes[1] == Update(TdmCfg1, K(RxOffsetMask), OffsetChoice(fmt).value)
    ensures EdgeChoice(fmt).Some? && answer(n) >= 0 && OffsetChoice(fmt).None? ==>
      e.writes[1] == Update(TdmCfg1, K(RxOffsetMask), Num(0))
  {
    match EdgeChoice(fmt)
    case None => Effect([], EINVAL)
    case Some(edge) =>
      var w0 := Update(TdmCfg1, K(RxEdgeMask), edge);
      if answer(n) < 0 then Effect([w0], answer(n))
      else
        var slot := if OffsetChoice(fmt).Some? then OffsetChoice(fmt).value else Num(0);
        var w1 := Update(TdmCfg1, K(RxOffsetMask), slot);
        Effect([w0, w1], if answer(n + 1) < 0 then answer(n + 1) else 0)
  }

  /** A format word with normal clocks and the right-justified frame format, which the driver does
      not support, is accepted with offset 0 when the register map answers 0. */
  lemma DaiFmtAcceptsRightJustified()
    ensures DaiFmtAsWritten((DAIFMT_NB_NF + DAIFMT_RIGHT_J) as u32, _ => 0, 0)
         == Effect([Update(TdmCfg1, K(RxEdgeMask), Num(0)), Update(TdmCfg1, K(RxOffsetMask), Num(0))], 0)
    ensures OffsetChoice((DAIFMT_NB_NF + DAIFMT_RIGHT_J) as u32).None?
  {
  }

  /** tas2562_set_dai_fmt as evidently intended: an unknown frame format is -EINVAL, with no
      offset written. It succeeds only for a supported inversion and frame format, and then
      exactly when both updates succeed. */
  function DaiFmtChecked(fmt: u32, answer: nat -> int, n: nat): (e: Effect)
    ensures e.ret == 0 <==> EdgeChoice(fmt).Some? && OffsetChoice(fmt).Some? && answer(n) >= 0 && answer(n + 1) >= 0
    ensures EdgeChoice(fmt).Some? && answer(n) >= 0 && OffsetChoice(fmt).None? ==> e == Effect([Update(TdmCfg1, K(RxEdgeMask), EdgeChoice(fmt).value)], EINVAL)
  {
    match EdgeChoice(fmt)
    case None => Effect([], EINVAL)
    case Some(edge) =>
      var w0 := Update(TdmCfg1, K(RxEdgeMask), edge);
      if answer(n) < 0 then Effect([w0], answer(n))
      else if OffsetChoice(fmt).None? then Effect([w0], EINVAL)
      else
        var w1 := Update(TdmCfg1, K(RxOffsetMask), OffsetChoice(fmt).value);
        Effect([w0, w1], if answer(n + 1) < 0 then answer(n + 1) else 0)
  }

  /** The corrected routine differs from the code as written only for an unsupported frame
      format: there the code as written reports the offset write's result instead of -EINVAL. */
  lemma DaiFmtCheckedAgrees(fmt: u32, answer: nat -> int, n: nat)
    ensures OffsetChoice(fmt).Some? ==> DaiFmtChecked(fmt, answer, n) == DaiFmtAsWritten(fmt, answer, n)
    ensures EdgeChoice(fmt).Some? && answer(n) >= 0 && answer(n + 1) >= 0 && OffsetChoice(fmt).None? ==>
      DaiFmtAsWritten(fmt, answer, n).ret == 0 && DaiFmtChecked(fmt, answer, n).ret == EINVAL
  {
  }

  method SetDaiFmt(c: Component, fmt: u32) returns (ret: int)
    modifies c
    ensures c.log == old(c.log) + DaiFmtAsWritten(fmt, c.answer, |old(c.log)|).writes
    ensures ret == DaiFmtAsWritten(fmt, c.answer, |old(c.log)|).ret
  {
    var edge := EdgeChoice(fmt);
    if edge.None? {
      return EINVAL;
    }
    ret := c.UpdateBits(TdmCfg1, K(RxEdgeMask), edge.value);
    if ret < 0 {
      return;
    }
    var slot := Num(0);
    var offset := OffsetChoice(fmt);
    if offset.Some? {
      slot := offset.value;
    } else {
      ret := EINVAL;
    }
    ret := c.UpdateBits(TdmCfg1, K(RxOffsetMask), slot);
    if ret < 0 {
      return;
    }
    ret := 0;
  }

  // ---------------------------------------------------------------------------------------------
  // tas2562_mute

  /** tas2562_mute: MUTE into the MODE field when muting, 0 when not; the update's result is
      returned. */
  method Mute(c: Component, mute: int) returns (ret: int)
    modifies c
    ensures c.log == old(c.log) + [Update(PwrCtrl, K(ModeMask), if mute != 0 then K(ModeMute) else Num(0))]
    ensures ret == c.answer(|old(c.log)|)
  {
    ret := c.UpdateBits(PwrCtrl, K(ModeMask), if mute != 0 then K(ModeMute) else Num(0));
  }
}
