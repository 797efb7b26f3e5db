/**
 The rules on what a dialect puts in its memory frames: tags, clarifier, the bytes
 whose meaning differs between families, and the frame's own length.
 */
module FrameRules {
  import opened Results
  import opened Wire

  /** The value that names no form or policy is `Undeclared`, the omitted one `Unset`. */
  datatype MtForm = MtFormUnset | MtShort | MtCombined | MtShortNoDisplay | MtFormUndeclared

  datatype MtReads = MtReadsUnset | MtReadsReadable | MtReadsMemoryPms | MtReadsUndeclared

  datatype P11Policy = P11Unset | P11Fixed | P11TagDisplay | P11Undeclared

  datatype P5Policy = P5Unset | P5TxClar | P5Fixed | P5Undeclared

  datatype ToneStates = TonesUnset | TonesCtcss | TonesCtcssAndDcs | TonesSix | TonesUndeclared

  datatype P9Policy = P9Unset | P9Fixed00 | P9ToneIndex | P9ToneIndexReadOnly | P9Undeclared

  datatype MtPolicy = MtPolicy(
    tagMaxBytes: Int64,
    readSlots: MtReads,
    form: MtForm,
    clearTagByte: Byte,
    padByte: Byte,
    tagFill: Byte,
    p11: P11Policy)

  datatype FrameConfig = FrameConfig(
    mt: MtPolicy,
    clarifierStepHz: Int64,
    clarifierMaxAbsHz: Int64,
    mwWriteKind: Byte,
    p5: P5Policy,
    tones: ToneStates,
    memoryFrameLen: Byte,
    memoryFreqDigits: Byte,
    p9: P9Policy)

  const MAX_MT_TAG_BYTES: int := 64
  const CLAR_FIELD_MAX_HZ: int := 9999

  /** V9 */
  predicate ValidMt(p: MtPolicy) {
    && 1 <= p.tagMaxBytes <= MAX_MT_TAG_BYTES
    && (p.readSlots == MtReadsReadable || p.readSlots == MtReadsMemoryPms)
    && match p.form
       case MtShort =>
         && ValidWireByte(p.clearTagByte) && (p.padByte == 0 || ValidWireByte(p.padByte))
         && p.tagFill == 0 && p.p11 == P11Unset
       case MtCombined =>
         && p.clearTagByte == 0 && p.padByte == 0 && ValidWireByte(p.tagFill)
         && (p.p11 == P11Fixed || p.p11 == P11TagDisplay)
       case MtShortNoDisplay =>
         p.clearTagByte == 0 && p.padByte == 0 && ValidWireByte(p.tagFill) && p.p11 == P11Unset
       case _ => false
  }

  /** V10 */
  predicate ValidClarifier(f: FrameConfig) {
    && 1 <= f.clarifierStepHz <= CLAR_FIELD_MAX_HZ && 0 <= f.clarifierMaxAbsHz <= CLAR_FIELD_MAX_HZ
    && f.clarifierMaxAbsHz % f.clarifierStepHz == 0
  }

  /** V11: every documented kind but '4', the placeholder a builder never writes. */
  predicate ValidWriteKind(b: Byte) {
    ZERO <= b <= ZERO + 3 || b == ZERO + 5
  }

  /** V14 */
  predicate ValidP5(p: P5Policy) {
    p == P5TxClar || p == P5Fixed
  }

  /** V16 */
  predicate ValidTones(t: ToneStates) {
    t == TonesCtcss || t == TonesCtcssAndDcs || t == TonesSix
  }

  /** The offset of the terminator, field by field from the command name, and one more. */
  function MemoryFrameLenFor(freqDigits: Byte, slotDigits: int): int {
    var freq := 2 + slotDigits;
    var clarSign := freq + freqDigits;
    var clarMag := clarSign + 1;
    var rxClar := clarMag + 4;
    var txClar := rxClar + 1;
    var mode := txClar + 1;
    var kind := mode + 1;
    var ctcss := kind + 1;
    var p9 := ctcss + 1;
    var shift := p9 + 2;
    var term := shift + 1;
    term + 1
  }

  /** V17 */
  predicate ValidShape(f: FrameConfig, slotDigits: int) {
    && f.memoryFrameLen != 0 && f.memoryFreqDigits != 0
    && f.memoryFrameLen == MemoryFrameLenFor(f.memoryFreqDigits, slotDigits)
  }

  /** V18 */
  predicate ValidP9(p: P9Policy) {
    p == P9Fixed00 || p == P9ToneIndex || p == P9ToneIndexReadOnly
  }

  // ---- what the rules mean

  /** The bytes of an MT frame that a policy declares. */
  datatype MtByte = ClearTag | Pad | Fill | P11

  function Declared(p: MtPolicy): set<MtByte> {
    (if p.clearTagByte != 0 then {ClearTag} else {}) + (if p.padByte != 0 then {Pad} else {})
    + (if p.tagFill != 0 then {Fill} else {}) + (if p.p11 != P11Unset then {P11} else {})
  }

  /** What a form writes in any case, and what it may write besides. */
  function Written(form: MtForm): Option<(set<MtByte>, set<MtByte>)> {
    match form
    case MtShort => Some(({ClearTag}, {Pad}))
    case MtCombined => Some(({Fill, P11}, {}))
    case MtShortNoDisplay => Some(({Fill}, {}))
    case _ => None
  }

  predicate Printable(p: MtPolicy) {
    && forall b | b in [p.clearTagByte, p.padByte, p.tagFill] && b != 0 :: ValidWireByte(b)
  }

  /** V9 asks of a policy that it declares what its form writes, and no byte that it does not. */
  lemma MtDeclaresWhatIsWritten(p: MtPolicy)
    ensures ValidMt(p) <==>
              && 0 < p.tagMaxBytes <= 64 && p.readSlots in {MtReadsReadable, MtReadsMemoryPms}
              && Written(p.form).Some? && Printable(p) && p.p11 != P11Undeclared
              && Written(p.form).value.0 <= Declared(p) <= Written(p.form).value.0 + Written(p.form).value.1
  {
    var bytes := [p.clearTagByte, p.padByte, p.tagFill];
    assert bytes[0] in bytes && bytes[1] in bytes && bytes[2] in bytes;
    var d := Declared(p);
    assert ClearTag in d <==> p.clearTagByte != 0;
    assert Pad in d <==> p.padByte != 0;
    assert Fill in d <==> p.tagFill != 0;
    assert P11 in d <==> p.p11 != P11Unset;
  }

  /** V10: the clarifier's reach is a whole number of its steps, and prints in four digits. */
  lemma ClarifierReachesItsBound(f: FrameConfig)
    ensures ValidClarifier(f) <==>
              && 0 < f.clarifierStepHz < Pow10(4) && f.clarifierMaxAbsHz < Pow10(4)
              && exists k: nat :: f.clarifierMaxAbsHz == Times(k, f.clarifierStepHz)
  {
    assert Pow10(4) == 10000;
    if f.clarifierStepHz > 0 {
      DivisibleExactly(f.clarifierMaxAbsHz, f.clarifierStepHz);
      forall k
        ensures k >= 0 <==> Times(k, f.clarifierStepHz) >= 0
      {
        TimesSign(k, f.clarifierStepHz);
      }
    }
  }

  /** V17: sixteen bytes besides the slot and the frequency, which is there. */
  lemma ShapeIsItsFields(f: FrameConfig, slotDigits: nat)
    ensures ValidShape(f, slotDigits) <==>
              f.memoryFreqDigits > 0 && f.memoryFrameLen == 16 + slotDigits + f.memoryFreqDigits
  {
  }
}
