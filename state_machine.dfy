// The scanline state machine: each line spends 80 dots in OAM search, then
// transfers pixels until 160 have been pushed, then waits in HBlank until
// dot 456; after line 143 come ten VBlank lines, and LY wraps to 0 after 153.
module StateMachine {
  import opened Bits
  import Lcd
  import Ppu
  import opened Interrupts

  const LinesPerFrame: nat := 154
  const TicksPerLine: nat := 456
  const XRes: nat := 160
  const YRes: nat := 144

  // ---- The window line test of `increment_ly` ----

  /**
   * The test as written: `window_visible && ly >= window_y &&
   * ly < window_y + 144`, where `window_y + 144` is a `u8` sum that
   * overflows (a panic, `None`) once `window_y >= 112`; the last conjunct is
   * evaluated only when the first two hold.
   */
  function WindowTestAsWritten(visible: bool, ly: u8, windowY: u8): Option<bool>
  {
    if !visible || ly < windowY then Some(false)
    else if windowY + YRes > 0xFF then None
    else Some(ly < windowY + YRes)
  }

  /** The window's 144 lines start at `window_y`: the test the line counter needs. */
  predicate WindowLineCounts(visible: bool, ly: u8, windowY: u8)
  {
    visible && windowY <= ly < windowY + YRes
  }

  /**
   * With the window on line 120, reaching that line overflows the `u8` sum
   * instead of counting the line.
   */
  lemma WindowTestOverflows()
    ensures WindowTestAsWritten(true, 120, 120).None?
    ensures WindowLineCounts(true, 120, 120)
  {
  }

  /**
   * The written test overflows exactly when the window is visible, starts
   * at line 112 or below the screen edge, and has been reached; in every
   * other case it agrees with `WindowLineCounts`.
   */
  lemma WindowTestAgrees(visible: bool, ly: u8, windowY: u8)
    ensures WindowTestAsWritten(visible, ly, windowY).None? <==> visible && windowY <= ly && windowY >= 112
    ensures WindowTestAsWritten(visible, ly, windowY).Some?
            ==> WindowTestAsWritten(visible, ly, windowY).value == WindowLineCounts(visible, ly, windowY)
  {
  }

  // ---- The mode sequence, as values ----

  /** Where the raster is: the mode STAT names, LY, and the dots into the line. */
  datatype Scan = Scan(mode: Lcd.Mode, ly: int, ticks: nat)

  /** `mode_oam`: from dot 80 on, pixel transfer starts. */
  function OamStep(s: Scan): Scan
  {
    if s.ticks >= 80 then s.(mode := Lcd.Transfer) else s
  }

  /** `mode_transfer`: once 160 pixels have been pushed, HBlank starts. */
  function TransferStep(s: Scan, pushX: u8): Scan
  {
    if pushX >= XRes then s.(mode := Lcd.HBlank) else s
  }

  /** `mode_hblank`: at dot 456 the next line starts, in VBlank from line 144 on, else in OAM search. */
  function HBlankStep(s: Scan): Scan
  {
    if s.ticks >= TicksPerLine then
      Scan(if s.ly + 1 >= YRes then Lcd.VBlank else Lcd.Oam, s.ly + 1, 0)
    else s
  }

  /** `mode_vblank`: at dot 456 the next line starts; after line 153 the frame restarts at line 0 in OAM search. */
  function VBlankStep(s: Scan): Scan
  {
    if s.ticks >= TicksPerLine then
      if s.ly + 1 >= LinesPerFrame then Scan(Lcd.Oam, 0, 0) else s.(ly := s.ly + 1, ticks := 0)
    else s
  }

  /** The step for the mode STAT currently names. */
  function ModeStep(s: Scan, pushX: u8): Scan
  {
    match s.mode
    case Oam => OamStep(s)
    case Transfer => TransferStep(s, pushX)
    case HBlank => HBlankStep(s)
    case VBlank => VBlankStep(s)
  }

  /** Lines 0 to 143 are drawn (OAM, transfer, HBlank) and lines 144 to 153 are VBlank. */
  predicate Consistent(s: Scan)
  {
    0 <= s.ly < LinesPerFrame && (s.mode == Lcd.VBlank <==> s.ly >= YRes)
  }

  /** Every mode step keeps LY within the frame and in step with the mode. */
  lemma StepKeepsConsistent(s: Scan, pushX: u8)
    requires Consistent(s)
    ensures Consistent(ModeStep(s, pushX))
  {
  }

  /** `ly <= 153` alone is not kept: HBlank on line 153, reachable only out of step, moves to line 154. */
  lemma LyBoundAloneNotKept()
    ensures HBlankStep(Scan(Lcd.HBlank, 153, 456)).ly == 154
  {
  }

  /**
   * In step, VBlank is entered only when line 143 ends, and the frame
   * wraps to line 0 only when line 153 ends.
   */
  lemma FrameBoundaries(s: Scan)
    requires Consistent(s) && s.ticks >= TicksPerLine
    ensures s.mode == Lcd.HBlank ==> (HBlankStep(s).mode == Lcd.VBlank <==> s.ly == YRes - 1)
    ensures s.mode == Lcd.VBlank ==> (VBlankStep(s).ly == 0 <==> s.ly == LinesPerFrame - 1)
    ensures s.mode == Lcd.VBlank && s.ly < LinesPerFrame - 1 ==> VBlankStep(s).mode == Lcd.VBlank
  {
  }

  // ---- The functions of state_machine.rs ----

  /** The raster position of `ppu`. */
  function ScanOf(ppu: Ppu.Ppu): Scan
    reads ppu, ppu.lcd
  {
    Scan(Lcd.ModeOf(ppu.lcd.status), ppu.lcd.ly, ppu.lineTicks)
  }

  /** The request set after LY = LYC is detected, when the STAT bit for it is set. */
  function LycRequest(requested: u8, status: bv8, equal: bool): u8
  {
    if equal && Lcd.StatInterrupt(status) then WithRequest(requested, LcdStat) else requested
  }

  /**
   * The LY = LYC check at the end of `increment_ly`: the coincidence flag
   * records the comparison, and LCD STAT is requested when it holds and STAT
   * enables it.
   */
  method CompareLy(lcd: Lcd.Lcd, interrupts: Interrupts)
    requires lcd.Valid()
    modifies lcd`status, interrupts`requested
    ensures lcd.Valid()
    ensures lcd.status == Lcd.EqualsFlagSet(old(lcd.status), lcd.ly == lcd.lyCompare)
    ensures Lcd.ModeOf(lcd.status) == Lcd.ModeOf(old(lcd.status))
    ensures lcd.status & 0x78 == old(lcd.status) & 0x78
    ensures interrupts.requested == LycRequest(old(interrupts.requested), old(lcd.status), lcd.ly == lcd.lyCompare)
  {
    if lcd.ly == lcd.lyCompare {
      lcd.SetCoincidence(true);
      assert Lcd.StatInterrupt(lcd.status) == Lcd.StatInterrupt(old(lcd.status));
      if Lcd.StatInterrupt(lcd.status) {
        interrupts.RequestInterrupt(LcdStat);
      }
    } else {
      lcd.SetCoincidence(false);
    }
  }

  /**
   * `increment_ly(ppu, interrupts)`: LY moves to the next line; the
   * coincidence flag is set exactly when the new LY equals LYC, and LCD STAT
   * is requested only then and only if STAT enables it.  The window line
   * counter advances when the old line was one of the window's lines
   * (`window_visible` is a parameter: its definition is not part of this
   * model).  LY past 255 would overflow.
   */
  method IncrementLy(ppu: Ppu.Ppu, interrupts: Interrupts, windowVisible: bool)
    requires ppu.Valid() && ppu.lcd.ly < 0xFF
    modifies ppu`windowLine, ppu.lcd`ly, ppu.lcd`status, interrupts`requested
    ensures ppu.Valid()
    ensures ppu.lcd.ly == old(ppu.lcd.ly) + 1
    ensures ppu.windowLine
            == old(ppu.windowLine) + (if WindowLineCounts(windowVisible, old(ppu.lcd.ly), ppu.lcd.windowY) then 1 else 0)
    ensures ppu.lcd.status == Lcd.EqualsFlagSet(old(ppu.lcd.status), ppu.lcd.ly == ppu.lcd.lyCompare)
    ensures ppu.lcd.status & 0x78 == old(ppu.lcd.status) & 0x78
    ensures interrupts.requested
            == LycRequest(old(interrupts.requested), old(ppu.lcd.status), ppu.lcd.ly == ppu.lcd.lyCompare)
    ensures ScanOf(ppu) == old(ScanOf(ppu)).(ly := old(ppu.lcd.ly) + 1)
  {
    if WindowLineCounts(windowVisible, ppu.lcd.ly, ppu.lcd.windowY) {
      ppu.windowLine := ppu.windowLine + 1;
    }
    ppu.lcd.ly := ppu.lcd.ly + 1;
    CompareLy(ppu.lcd, interrupts);
  }

  /**
   * `mode_oam(ppu)`: from dot 80 on, STAT switches to pixel transfer and the
   * fetcher restarts at the line's first tile with every position 0.
   * Sprite selection at dot 1 is not part of this model.
   */
  method ModeOam(ppu: Ppu.Ppu)
    requires ppu.Valid()
    modifies ppu`fetchState, ppu`lineX, ppu`fetchX, ppu`pushX, ppu`fifoX, ppu.lcd`status
    ensures ppu.Valid()
    ensures ScanOf(ppu) == OamStep(old(ScanOf(ppu)))
    ensures old(ppu.lineTicks) >= 80 ==>
              && ppu.fetchState == Ppu.Tile && ppu.lineX == 0 && ppu.fetchX == 0 && ppu.pushX == 0
              && ppu.fifoX == 0 && ppu.lcd.status == Lcd.CurrentModeSet(old(ppu.lcd.status), 3)
    ensures old(ppu.lineTicks) < 80 ==>
              && ppu.fetchState == old(ppu.fetchState) && ppu.lineX == old(ppu.lineX)
              && ppu.fetchX == old(ppu.fetchX) && ppu.pushX == old(ppu.pushX)
              && ppu.fifoX == old(ppu.fifoX) && ppu.lcd.status == old(ppu.lcd.status)
  {
    if ppu.lineTicks >= 80 {
      ppu.lcd.SetMode(Lcd.Transfer);
      ppu.fetchState := Ppu.Tile;
      ppu.lineX := 0;
      ppu.fetchX := 0;
      ppu.pushX := 0;
      ppu.fifoX := 0;
    }
  }

  /**
   * `mode_transfer(ppu, interrupts)`: once 160 pixels have been pushed, STAT
   * switches to HBlank and LCD STAT is requested if STAT enables the HBlank
   * source.  The pixel pipeline it drives is not part of this model: the
   * method starts from the push position the pipeline left.
   */
  method ModeTransfer(ppu: Ppu.Ppu, interrupts: Interrupts)
    requires ppu.Valid()
    modifies ppu.lcd`status, interrupts`requested
    ensures ppu.Valid()
    ensures ScanOf(ppu) == TransferStep(old(ScanOf(ppu)), ppu.pushX)
    ensures ppu.pushX >= XRes ==> ppu.lcd.status == Lcd.CurrentModeSet(old(ppu.lcd.status), 0)
    ensures ppu.pushX < XRes ==> ppu.lcd.status == old(ppu.lcd.status)
    ensures interrupts.requested
            == if ppu.pushX >= XRes && Lcd.HBlankInterrupt(old(ppu.lcd.status))
               then WithRequest(old(interrupts.requested), LcdStat) else old(interrupts.requested)
  {
    if ppu.pushX >= XRes {
      ppu.lcd.SetMode(Lcd.HBlank);
      if Lcd.HBlankInterrupt(ppu.lcd.status) {
        interrupts.RequestInterrupt(LcdStat);
      }
    }
  }

  /**
   * `mode_vblank(ppu, interrupts)`: at dot 456 LY advances as
   * `increment_ly` does and the dot count restarts; when LY reaches 154 the
   * frame restarts at line 0 in OAM search with the window line counter 0.
   */
  method ModeVBlank(ppu: Ppu.Ppu, interrupts: Interrupts, windowVisible: bool)
    requires ppu.Valid() && ppu.lcd.ly < 0xFF
    modifies ppu`windowLine, ppu`lineTicks, ppu.lcd`ly, ppu.lcd`status, interrupts`requested
    ensures ppu.Valid()
    ensures ScanOf(ppu) == VBlankStep(old(ScanOf(ppu)))
    ensures old(ppu.lineTicks) >= TicksPerLine && old(ppu.lcd.ly) + 1 >= LinesPerFrame ==> ppu.windowLine == 0
    ensures old(ppu.lineTicks) < TicksPerLine ==>
              && ppu.windowLine == old(ppu.windowLine) && ppu.lcd.status == old(ppu.lcd.status)
              && interrupts.requested == old(interrupts.requested)
    ensures old(ppu.lineTicks) >= TicksPerLine ==>
              interrupts.requested
              == LycRequest(old(interrupts.requested), old(ppu.lcd.status), old(ppu.lcd.ly) + 1 == ppu.lcd.lyCompare)
    ensures old(ppu.lineTicks) >= TicksPerLine && old(ppu.lcd.ly) + 1 < LinesPerFrame ==>
              ppu.windowLine
              == old(ppu.windowLine) + (if WindowLineCounts(windowVisible, old(ppu.lcd.ly), ppu.lcd.windowY) then 1 else 0)
    ensures old(ppu.lineTicks) >= TicksPerLine ==>
              (ppu.lcd.status & 0x04 != 0 <==> old(ppu.lcd.ly) + 1 == ppu.lcd.lyCompare)
    ensures ppu.lcd.status & 0x78 == old(ppu.lcd.status) & 0x78
  {
    if ppu.lineTicks >= TicksPerLine {
      IncrementLy(ppu, interrupts, windowVisible);
      if ppu.lcd.ly >= LinesPerFrame {
        ppu.lcd.SetMode(Lcd.Oam);
        ppu.lcd.ly := 0;
        ppu.windowLine := 0;
      }
      ppu.lineTicks := 0;
    }
  }

  /**
   * Once a line ends, STAT's coincidence bit says whether the new LY equals
   * LYC and the four select bits are untouched, whatever mode follows.
   */
  lemma StatAfterLine(s0: bv8, s1: bv8, s2: bv8, equal: bool)
    requires s1 == Lcd.EqualsFlagSet(s0, equal) && s2 & 0x7C == s1 & 0x7C
    ensures s2 & 0x04 != 0 <==> equal
    ensures s2 & 0x78 == s0 & 0x78
  {
    assert s2 & 0x04 == (s2 & 0x7C) & 0x04 && s1 & 0x04 == (s1 & 0x7C) & 0x04;
    assert s2 & 0x78 == (s2 & 0x7C) & 0x78 && s1 & 0x78 == (s1 & 0x7C) & 0x78;
    assert s1 & 0x78 == (s1 & 0xFB) & 0x78 && s0 & 0x78 == (s0 & 0xFB) & 0x78;
  }

  /**
   * The VBlank entry of `mode_hblank`: STAT names VBlank, the VBlank
   * interrupt is requested, LCD STAT too if STAT enables the VBlank source,
   * and the frame count goes up.
   */
  method EnterVBlank(ppu: Ppu.Ppu, interrupts: Interrupts)
    requires ppu.Valid()
    modifies ppu`currentFrame, ppu.lcd`status, interrupts`requested
    ensures ppu.Valid()
    ensures ppu.lcd.status == Lcd.CurrentModeSet(old(ppu.lcd.status), 1)
    ensures Lcd.ModeOf(ppu.lcd.status) == Lcd.VBlank
    ensures ppu.lcd.status & 0x7C == old(ppu.lcd.status) & 0x7C
    ensures ppu.currentFrame == old(ppu.currentFrame) + 1
    ensures var r := WithRequest(old(interrupts.requested), Vblank);
            interrupts.requested == if Lcd.VBlankInterrupt(old(ppu.lcd.status)) then WithRequest(r, LcdStat) else r
  {
    ppu.lcd.SetMode(Lcd.VBlank);
    interrupts.RequestInterrupt(Vblank);
    assert Lcd.VBlankInterrupt(ppu.lcd.status) == Lcd.VBlankInterrupt(old(ppu.lcd.status));
    if Lcd.VBlankInterrupt(ppu.lcd.status) {
      interrupts.RequestInterrupt(LcdStat);
    }
    ppu.currentFrame := ppu.currentFrame + 1;
  }

  /**
   * The mode switch of `mode_hblank` once LY has advanced: VBlank from line
   * 144 on (see `EnterVBlank`), otherwise OAM search.
   */
  method NextLineMode(ppu: Ppu.Ppu, interrupts: Interrupts)
    requires ppu.Valid()
    modifies ppu`currentFrame, ppu.lcd`status, interrupts`requested
    ensures ppu.Valid()
    ensures Lcd.ModeOf(ppu.lcd.status) == if ppu.lcd.ly >= YRes then Lcd.VBlank else Lcd.Oam
    ensures ppu.lcd.status & 0x7C == old(ppu.lcd.status) & 0x7C
    ensures ppu.currentFrame == old(ppu.currentFrame) + (if ppu.lcd.ly >= YRes then 1 else 0)
    ensures var r := WithRequest(old(interrupts.requested), Vblank);
            interrupts.requested
            == if ppu.lcd.ly < YRes then old(interrupts.requested)
               else if Lcd.VBlankInterrupt(old(ppu.lcd.status)) then WithRequest(r, LcdStat) else r
  {
    if ppu.lcd.ly >= YRes {
      EnterVBlank(ppu, interrupts);
    } else {
      ppu.lcd.SetMode(Lcd.Oam);
    }
  }

  /**
   * `mode_hblank(ppu, interrupts)`: at dot 456 LY advances as
   * `increment_ly` does and the dot count restarts.  From line 144 on STAT
   * switches to VBlank, the VBlank interrupt is requested (and LCD STAT too
   * if STAT enables the VBlank source) and the frame count goes up;
   * otherwise STAT switches to OAM search.
   */
  method ModeHBlank(ppu: Ppu.Ppu, interrupts: Interrupts, windowVisible: bool)
    requires ppu.Valid() && ppu.lcd.ly < 0xFF
    modifies ppu`windowLine, ppu`lineTicks, ppu`currentFrame, ppu.lcd`ly, ppu.lcd`status, interrupts`requested
    ensures ppu.Valid()
    ensures ScanOf(ppu) == HBlankStep(old(ScanOf(ppu)))
    ensures ppu.currentFrame
            == old(ppu.currentFrame) + (if old(ppu.lineTicks) >= TicksPerLine && old(ppu.lcd.ly) + 1 >= YRes then 1 else 0)
    ensures old(ppu.lineTicks) < TicksPerLine ==>
              && ppu.windowLine == old(ppu.windowLine) && ppu.lcd.status == old(ppu.lcd.status)
              && interrupts.requested == old(interrupts.requested)
    ensures old(ppu.lineTicks) >= TicksPerLine && old(ppu.lcd.ly) + 1 >= YRes ==>
              var r := WithRequest(LycRequest(old(interrupts.requested), old(ppu.lcd.status),
                                              old(ppu.lcd.ly) + 1 == ppu.lcd.lyCompare), Vblank);
              interrupts.requested
              == if Lcd.VBlankInterrupt(old(ppu.lcd.status)) then WithRequest(r, LcdStat) else r
    ensures old(ppu.lineTicks) >= TicksPerLine && old(ppu.lcd.ly) + 1 < YRes ==>
              interrupts.requested
              == LycRequest(old(interrupts.requested), old(ppu.lcd.status), old(ppu.lcd.ly) + 1 == ppu.lcd.lyCompare)
    ensures old(ppu.lineTicks) >= TicksPerLine ==>
              ppu.windowLine
              == old(ppu.windowLine) + (if WindowLineCounts(windowVisible, old(ppu.lcd.ly), ppu.lcd.windowY) then 1 else 0)
    ensures old(ppu.lineTicks) >= TicksPerLine ==>
              (ppu.lcd.status & 0x04 != 0 <==> old(ppu.lcd.ly) + 1 == ppu.lcd.lyCompare)
    ensures ppu.lcd.status & 0x78 == old(ppu.lcd.status) & 0x78
  {
    if ppu.lineTicks >= TicksPerLine {
      IncrementLy(ppu, interrupts, windowVisible);
      ghost var s1 := ppu.lcd.status;
      assert Lcd.VBlankInterrupt(ppu.lcd.status) == Lcd.VBlankInterrupt(old(ppu.lcd.status));
      NextLineMode(ppu, interrupts);
      StatAfterLine(old(ppu.lcd.status), s1, ppu.lcd.status, ppu.lcd.ly == ppu.lcd.lyCompare);
      ppu.lineTicks := 0;
    }
  }
}
