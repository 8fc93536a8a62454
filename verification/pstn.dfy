/**
 The two class-specific requests of the USB CDC PSTN Subclass 1.2 that the
 reset routines issue: SET_CONTROL_LINE_STATE (section 6.3.12), whose
 wValue carries DTR in bit 0 and RTS in bit 1, and SET_LINE_CODING
 (section 6.3.10), whose data stage is the line-coding structure of
 table 17.
 */
module Pstn {
  import opened Ints

  /** Decoding of the control-signal bitmap: bit 0 is DTR. */
  predicate Dtr(state: uint8) {
    state % 2 == 1
  }

  /** Decoding of the control-signal bitmap: bit 1 is RTS. */
  predicate Rts(state: uint8) {
    (state / 2) % 2 == 1
  }

  /** Encoding of the control-signal bitmap for the given DTR and RTS levels. */
  function ControlLines(dtr: bool, rts: bool): (state: uint8)
    ensures Dtr(state) == dtr && Rts(state) == rts
    ensures state < 4
  {
    (if dtr then 1 else 0) + (if rts then 2 else 0)
  }

  /** Every two-bit bitmap is the encoding of its own decoded levels, so the
      encoding is a bijection between level pairs and 0..3. */
  lemma ControlLinesRoundTrip(state: uint8)
    requires state < 4
    ensures ControlLines(Dtr(state), Rts(state)) == state
  {
  }

  /** The three bitmaps the driver writes. */
  const LinesOff: uint8 := 0     // DTR = 0, RTS = 0
  const RtsOnly: uint8 := 2      // DTR = 0, RTS = 1
  const LinesOn: uint8 := 3      // DTR = 1, RTS = 1

  lemma NamedBitmaps()
    ensures LinesOff == ControlLines(false, false)
    ensures RtsOnly == ControlLines(false, true)
    ensures LinesOn == ControlLines(true, true)
  {
  }

  /** The line-coding structure (table 17): data terminal rate in bits per
      second, stop bits, parity and data bits. */
  datatype LineCoding = LineCoding(dteRate: uint32, charFormat: uint8, parityType: uint8, dataBits: uint8)

  const OneStopBit: uint8 := 0   // bCharFormat: 0 = 1, 1 = 1.5, 2 = 2 stop bits
  const NoParity: uint8 := 0     // bParityType: 0 = none, 1 odd, 2 even, 3 mark, 4 space

  /** The field values table 17 allows. */
  predicate ValidLineCoding(lc: LineCoding) {
    && lc.charFormat <= 2
    && lc.parityType <= 4
    && lc.dataBits in {5, 6, 7, 8, 16}
  }

  /** The "8-N-1" coding at a given rate, the only shape the driver sends. */
  function EightNOne(rate: uint32): (lc: LineCoding)
    ensures ValidLineCoding(lc)
    ensures lc.dteRate == rate
    ensures lc.dataBits == 8 && lc.parityType == NoParity && lc.charFormat == OneStopBit
  {
    LineCoding(rate, 0, 0, 8)
  }
}
