/**
 * The audio datapath control of the application core (audio_datapath.c),
 * built for 10 ms frames.  Decoded frames enter a 40-block circular output
 * FIFO at the producer index; the I2S block-complete handler takes blocks
 * at the consumer index, and falls back to one of two zeroed alternate
 * buffers when the FIFO is empty.  Two state machines keep the stream in
 * time: drift compensation steers the audio PLL from the local and remote
 * timestamps, and presentation compensation measures the delay between
 * reception and playback and inserts or removes FIFO blocks.
 *
 * The sample data itself (decoding, muting, copying, tone mixing) and the
 * I2S receive path are not modelled; the block timestamps, indices,
 * counters and state are.  The datapath's static variables are the
 * fields of class `Datapath`.
 */
module AudioDatapath {
  import opened CInt
  import opened Errno
  import opened Wrappers

  // ---------------------------------------------------------------------
  // Constants (10 ms frames)
  // ---------------------------------------------------------------------

  const FRAME_DURATION_US: int := 10000
  /** `(int)(FRAME_DURATION_US * 0.001)`. */
  const TIMESTAMP_DELTA_MAX_ERR_US: int := 10
  const BLK_PERIOD_US: int := 1000
  const FIFO_SMPL_PERIOD_US: int := 40000
  const FIFO_NUM_BLKS: int := 40
  const NUM_BLKS_IN_FRAME: int := 10
  const DRIFT_MEAS_PERIOD_US: int := 100000
  /** DRIFT_MEAS_PERIOD_US / BLK_PERIOD_US. */
  const LOCAL_NUM_DATA_PTS: int := 100
  /** DRIFT_MEAS_PERIOD_US / FRAME_DURATION_US. */
  const REMOTE_NUM_DATA_PTS: int := 10
  const APLL_FREQ_CENTER: int := 39854
  const APLL_FREQ_MIN: int := 36834
  const APLL_FREQ_MAX: int := 42874
  const DRIFT_ERR_THRESH_LOCK: int := 16
  const DRIFT_ERR_THRESH_UNLOCK: int := 32
  const PRES_DLY_US: int := 10000
  const PRES_ERR_THRESH_LOCK_US: int := 1000

  // ---------------------------------------------------------------------
  // FIFO indices
  // ---------------------------------------------------------------------

  /** `NEXT_IDX(i)`: one block forward, wrapping from the last block to 0. */
  function NextIdx(i: int): (r: int)
    ensures 0 <= i < FIFO_NUM_BLKS ==> 0 <= r < FIFO_NUM_BLKS && r == (i + 1) % FIFO_NUM_BLKS
  {
    if i < FIFO_NUM_BLKS - 1 then i + 1 else 0
  }

  /** `PREV_IDX(i)`: one block back, wrapping from 0 to the last block; it undoes NEXT_IDX. */
  function PrevIdx(i: int): (r: int)
    ensures 0 <= i < FIFO_NUM_BLKS ==> 0 <= r < FIFO_NUM_BLKS && r == (i - 1) % FIFO_NUM_BLKS
    ensures 0 <= i < FIFO_NUM_BLKS ==> NextIdx(r) == i
  {
    if i > 0 then i - 1 else FIFO_NUM_BLKS - 1
  }

  // ---------------------------------------------------------------------
  // Audio PLL
  // ---------------------------------------------------------------------

  /**
   * The value `hfclkaudio_set(freq_value)` hands to the clock hardware:
   * the argument arrives as `uint16_t` and is clamped to the PLL range.
   */
  function HfclkAudioValue(arg: int): (v: int)
    ensures APLL_FREQ_MIN <= v <= APLL_FREQ_MAX
    ensures APLL_FREQ_MIN <= U16(arg) <= APLL_FREQ_MAX ==> v == U16(arg)
    ensures U16(arg) < APLL_FREQ_MIN ==> v == APLL_FREQ_MIN
    ensures U16(arg) > APLL_FREQ_MAX ==> v == APLL_FREQ_MAX
  {
    var f := U16(arg);
    var f1 := if f < APLL_FREQ_MAX then f else APLL_FREQ_MAX;
    if f1 > APLL_FREQ_MIN then f1 else APLL_FREQ_MIN
  }

  /**
   * `APLL_FREQ_ADJ(t)`, that is `-(t * 1000) / 331` in `int` arithmetic
   * with C division.  A positive timing error lowers the PLL frequency, a
   * negative one raises it, and a phase error within half a block moves
   * it by at most 1510 steps.
   */
  function ApllFreqAdj(t: i32): (r: int)
    ensures Abs(t) <= 2147483 ==> (t >= 0 ==> r <= 0) && (t <= 0 ==> r >= 0)
    ensures Abs(t) <= 500 ==> Abs(r) <= 1510
  {
    var scaled: int := I32(t * 1000);
    CDiv(I32(-scaled), 331)
  }

  /**
   * The phase error of OFFSET and LOCKED: the `uint32_t` difference of the
   * remote and local timestamps modulo one block period, moved into
   * (-500, 500] by subtracting a period from values above half a period.
   * The remainder is taken of the wrapped difference, so it agrees with
   * the true difference modulo a period only when the remote timestamp is
   * the larger one; otherwise it is off by 2^32 mod 1000 = 296.
   */
  function PhaseErr(remoteTs: u32, localTs: u32): (e: int)
    ensures -BLK_PERIOD_US / 2 < e <= BLK_PERIOD_US / 2
  {
    var m := U32(remoteTs - localTs) % BLK_PERIOD_US;
    if m > BLK_PERIOD_US / 2 then m - BLK_PERIOD_US else m
  }

  /** PhaseErr agrees with the wrapped difference modulo a block period, and with the true one up to 296. */
  lemma PhaseErrCongruent(remoteTs: u32, localTs: u32)
    ensures var e := PhaseErr(remoteTs, localTs);
      (e - U32(remoteTs - localTs)) % BLK_PERIOD_US == 0
      && (remoteTs >= localTs ==> (e - (remoteTs - localTs)) % BLK_PERIOD_US == 0)
      && (remoteTs < localTs ==> (e - (remoteTs - localTs) - 296) % BLK_PERIOD_US == 0)
  {
    var w := U32(remoteTs - localTs);
    var q := w / BLK_PERIOD_US;
    var e := PhaseErr(remoteTs, localTs);
    assert w == q * BLK_PERIOD_US + w % BLK_PERIOD_US;
    var k := if w % BLK_PERIOD_US > BLK_PERIOD_US / 2 then q + 1 else q;
    assert e - w == -k * BLK_PERIOD_US;
    MultipleOfPeriod(e - w, -k);
    if remoteTs >= localTs {
      assert w == remoteTs - localTs;
    } else {
      assert w == remoteTs - localTs + U32_LIMIT;
      MultipleOfPeriod(e - (remoteTs - localTs) - 296, 4294967 - k);
    }
  }

  /** `x` is a whole number of block periods. */
  lemma MultipleOfPeriod(x: int, c: int)
    requires x == c * BLK_PERIOD_US
    ensures x % BLK_PERIOD_US == 0
  {
  }

  // ---------------------------------------------------------------------
  // Drift compensation
  // ---------------------------------------------------------------------

  datatype DriftState = DrftInit | DrftCalib | DrftOffset | DrftLocked

  /** `ctrl_blk.drift_adj`. */
  datatype DriftAdj = DriftAdj(state: DriftState, ctr: u16, measStartTimeUs: u32, centerFreq: u32)

  /**
   * `drift_comp_state_set`: setting the current state again returns early,
   * so apart from the log line the effect is the assignment.
   */
  function DriftStateSet(d: DriftAdj, s: DriftState): (r: DriftAdj)
    ensures r.state == s
    ensures r.ctr == d.ctr && r.measStartTimeUs == d.measStartTimeUs && r.centerFreq == d.centerFreq
  {
    if s == d.state then d else d.(state := s)
  }

  /** The transitions drift compensation can take. */
  predicate DriftStep(s: DriftState, t: DriftState)
  {
    s == t
    || (s == DrftInit && t == DrftCalib)
    || (s == DrftCalib && t == DrftOffset)
    || (s == DrftOffset && t == DrftLocked)
    || (s == DrftLocked && t == DrftOffset)
  }

  /**
   * One call of `audio_datapath_drift_compensation` with the current
   * remote and local timestamps: the new `drift_adj` and the argument
   * passed to `hfclkaudio_set`, if it is called.
   */
  function DriftComp(d: DriftAdj, remoteTs: u32, localTs: u32): (r: (DriftAdj, Option<u32>))
  {
    var ctr := U16(d.ctr + 1);
    if ctr < LOCAL_NUM_DATA_PTS then (d.(ctr := ctr), None)
    else DriftAct(d.(ctr := ctr), remoteTs, localTs)
  }

  /** The state-machine step of drift compensation, taken once the counter has reached its period. */
  function DriftAct(d: DriftAdj, remoteTs: u32, localTs: u32): (r: (DriftAdj, Option<u32>))
  {
    match d.state
    case DrftInit =>
      if remoteTs != 0 then (DriftStateSet(d.(ctr := 0, measStartTimeUs := remoteTs), DrftCalib), None)
      else (d, None)
    case DrftCalib =>
      var errUs := I32(DRIFT_MEAS_PERIOD_US - U32(remoteTs - d.measStartTimeUs));
      var center := U32(APLL_FREQ_CENTER + ApllFreqAdj(errUs));
      (DriftStateSet(d.(ctr := 0, centerFreq := center), DrftOffset), Some(center))
    case DrftOffset =>
      var errUs := PhaseErr(remoteTs, localTs);
      var d1 := d.(ctr := 0);
      var d2 := if -DRIFT_ERR_THRESH_LOCK < errUs < DRIFT_ERR_THRESH_LOCK
                then DriftStateSet(d1, DrftLocked) else d1;
      (d2, Some(U32(d.centerFreq + ApllFreqAdj(errUs))))
    case DrftLocked =>
      var errUs := CDiv(PhaseErr(remoteTs, localTs), 2);
      var d1 := d.(ctr := 0);
      var d2 := if errUs > DRIFT_ERR_THRESH_UNLOCK || errUs < -DRIFT_ERR_THRESH_UNLOCK
                then DriftStateSet(d1, DrftOffset) else d1;
      (d2, Some(U32(d.centerFreq + ApllFreqAdj(errUs))))
  }

  /** Drift compensation acts only on every LOCAL_NUM_DATA_PTS-th call; the others only count. */
  lemma DriftCompCounts(d: DriftAdj, remoteTs: u32, localTs: u32)
    requires U16(d.ctr + 1) < LOCAL_NUM_DATA_PTS
    ensures DriftComp(d, remoteTs, localTs) == (d.(ctr := U16(d.ctr + 1)), None)
  {
  }

  /**
   * The only state changes are INIT to CALIB, CALIB to OFFSET and OFFSET
   * to LOCKED and back; the measurement start changes only on entering
   * CALIB and the centre frequency only when leaving it.
   */
  lemma DriftCompSteps(d: DriftAdj, remoteTs: u32, localTs: u32)
    ensures DriftStep(d.state, DriftComp(d, remoteTs, localTs).0.state)
    ensures DriftComp(d, remoteTs, localTs).0.measStartTimeUs != d.measStartTimeUs ==>
      DriftComp(d, remoteTs, localTs).0.state == DrftCalib
    ensures DriftComp(d, remoteTs, localTs).0.centerFreq != d.centerFreq ==> d.state == DrftCalib
  {
  }

  /**
   * On an acting call: INIT moves to CALIB exactly when a remote timestamp
   * has been seen, and starts the measurement there; CALIB always moves
   * to OFFSET and programs the centre frequency derived from the
   * measured drift; OFFSET moves to LOCKED exactly when the phase error
   * is within DRIFT_ERR_THRESH_LOCK, and LOCKED falls back to OFFSET
   * exactly when the halved error exceeds DRIFT_ERR_THRESH_UNLOCK; both
   * program the centre frequency corrected by the error.
   */
  lemma DriftCompTransitions(d: DriftAdj, remoteTs: u32, localTs: u32)
    requires U16(d.ctr + 1) >= LOCAL_NUM_DATA_PTS
    ensures var r := DriftComp(d, remoteTs, localTs);
      d.state == DrftInit ==>
        r.1 == None && (r.0.state == DrftCalib <==> remoteTs != 0)
        && (remoteTs != 0 ==> r.0.ctr == 0 && r.0.measStartTimeUs == remoteTs)
    ensures var r := DriftComp(d, remoteTs, localTs);
      d.state == DrftCalib ==>
        r.0.state == DrftOffset && r.0.ctr == 0 && r.1 == Some(r.0.centerFreq)
        && r.0.centerFreq == U32(APLL_FREQ_CENTER
             + ApllFreqAdj(I32(DRIFT_MEAS_PERIOD_US - U32(remoteTs - d.measStartTimeUs))))
    ensures var r := DriftComp(d, remoteTs, localTs); var err := PhaseErr(remoteTs, localTs);
      d.state == DrftOffset ==>
        r.0 == d.(ctr := 0, state := r.0.state)
        && (r.0.state == DrftLocked <==> Abs(err) < DRIFT_ERR_THRESH_LOCK)
        && r.1 == Some(U32(d.centerFreq + ApllFreqAdj(err)))
    ensures var r := DriftComp(d, remoteTs, localTs); var err := CDiv(PhaseErr(remoteTs, localTs), 2);
      d.state == DrftLocked ==>
        r.0 == d.(ctr := 0, state := r.0.state)
        && (r.0.state == DrftOffset <==> Abs(err) > DRIFT_ERR_THRESH_UNLOCK)
        && r.1 == Some(U32(d.centerFreq + ApllFreqAdj(err)))
  {
  }

  /**
   * Whatever the timestamps, every value drift compensation gives the
   * clock hardware is inside the PLL range.
   */
  lemma DriftClockInRange(d: DriftAdj, remoteTs: u32, localTs: u32)
    ensures var w := DriftComp(d, remoteTs, localTs).1;
      w.Some? ==> APLL_FREQ_MIN <= HfclkAudioValue(w.value) <= APLL_FREQ_MAX
  {
  }

  /**
   * In LOCKED the halved phase error lies in [-249, 250], so the state
   * stays LOCKED exactly when the folded phase error is within (-66, 66).
   */
  lemma {:induction false} DriftLockedKeepsLock(d: DriftAdj, remoteTs: u32, localTs: u32)
    requires d.state == DrftLocked && U16(d.ctr + 1) >= LOCAL_NUM_DATA_PTS
    ensures var e := PhaseErr(remoteTs, localTs);
      DriftComp(d, remoteTs, localTs).0.state == DrftLocked <==> -66 < e < 66
  {
    var e := PhaseErr(remoteTs, localTs);
    var h := CDiv(e, 2);
    assert Abs(h) > DRIFT_ERR_THRESH_UNLOCK <==> !(-66 < e < 66);
  }

  // ---------------------------------------------------------------------
  // Presentation compensation
  // ---------------------------------------------------------------------

  datatype PresState = PresInit | PresMeas | PresWait | PresLocked

  /** `ctrl_blk.pres_adj`. */
  datatype PresAdj = PresAdj(state: PresState, ctr: u16, errDlyUs: i32, sumErrDlyUs: i32)

  /** The presentation state and whether LED_APP_2_GREEN is lit. */
  datatype PresCtl = PresCtl(adj: PresAdj, led: bool)

  /**
   * `pres_comp_state_set`: setting the current state again changes
   * nothing; a change switches the LED on for LOCKED and off otherwise.
   */
  function PresStateSet(c: PresCtl, s: PresState): (r: PresCtl)
    ensures r.adj.state == s
    ensures s == c.adj.state ==> r == c
    ensures s != c.adj.state ==> r.adj == c.adj.(state := s) && (r.led <==> s == PresLocked)
  {
    if s == c.adj.state then c
    else PresCtl(c.adj.(state := s), s == PresLocked)
  }

  /**
   * One call of `audio_datapath_presentation_compensation(exp_dly_us)`,
   * given whether drift compensation is LOCKED and the measured
   * presentation delay: the new state and the adjustment returned.
   */
  function PresComp(c: PresCtl, driftLocked: bool, expDlyUs: u32, measPresDlyUs: u32)
    : (r: (PresCtl, i32))
    ensures !driftLocked ==> r == (PresStateSet(c, PresInit), 0)
    // A non-zero adjustment comes only from the call that completes a measurement.
    ensures r.1 != 0 ==> driftLocked && c.adj.state == PresMeas && c.adj.ctr >= REMOTE_NUM_DATA_PTS
    // The LED follows the state whenever the state changes.
    ensures r.0.adj.state != c.adj.state ==> (r.0.led <==> r.0.adj.state == PresLocked)
    ensures r.0.adj.state == c.adj.state ==> r.0.led == c.led
  {
    if !driftLocked then (PresStateSet(c, PresInit), 0)
    else
      match c.adj.state
      case PresInit =>
        (PresStateSet(c.(adj := c.adj.(ctr := 0, sumErrDlyUs := 0)), PresMeas), 0)
      case PresMeas =>
        var p := c.adj;
        if p.ctr < REMOTE_NUM_DATA_PTS then
          (c.(adj := p.(ctr := U16(p.ctr + 1),
                        sumErrDlyUs := I32(p.sumErrDlyUs + U32(expDlyUs - measPresDlyUs)))), 0)
        else
          var err := CDiv(p.sumErrDlyUs, REMOTE_NUM_DATA_PTS);
          var c1 := c.(adj := p.(ctr := 0, errDlyUs := err, sumErrDlyUs := 0));
          if err >= BLK_PERIOD_US / 2 || err <= -(BLK_PERIOD_US / 2) then (PresStateSet(c1, PresWait), err)
          else
            // Within half a block the lock threshold of PRES_ERR_THRESH_LOCK_US always holds.
            var c2 := if -PRES_ERR_THRESH_LOCK_US < err < PRES_ERR_THRESH_LOCK_US
                      then PresStateSet(c1, PresLocked) else c1;
            (c2, err)
      case PresWait =>
        var p := c.adj;
        var c1 := c.(adj := p.(ctr := U16(p.ctr + 1)));
        if p.ctr > FIFO_SMPL_PERIOD_US / FRAME_DURATION_US then (PresStateSet(c1, PresInit), 0)
        else (c1, 0)
      case PresLocked => (c, 0)
  }

  /** A completed measurement: the mean error, the counters cleared, WAIT or LOCKED by its size. */
  lemma PresCompMeasured(c: PresCtl, expDlyUs: u32, measPresDlyUs: u32)
    requires c.adj.state == PresMeas && c.adj.ctr >= REMOTE_NUM_DATA_PTS
    ensures var r := PresComp(c, true, expDlyUs, measPresDlyUs);
      r.1 == CDiv(c.adj.sumErrDlyUs, REMOTE_NUM_DATA_PTS) && r.0.adj.errDlyUs == r.1
      && r.0.adj.ctr == 0 && r.0.adj.sumErrDlyUs == 0
      && r.0.adj.state == (if Abs(r.1) >= BLK_PERIOD_US / 2 then PresWait else PresLocked)
  {
  }

  /** While measuring, each call adds the delay error in 32-bit arithmetic. */
  lemma PresCompMeasuring(c: PresCtl, expDlyUs: u32, measPresDlyUs: u32)
    requires c.adj.state == PresMeas && c.adj.ctr < REMOTE_NUM_DATA_PTS
    ensures PresComp(c, true, expDlyUs, measPresDlyUs) ==
      (c.(adj := c.adj.(ctr := c.adj.ctr + 1,
                        sumErrDlyUs := I32(c.adj.sumErrDlyUs + expDlyUs - measPresDlyUs))), 0)
  {
  }

  /** INIT starts a measurement, WAIT counts frames before starting over, LOCKED stays. */
  lemma PresCompOtherStates(c: PresCtl, expDlyUs: u32, measPresDlyUs: u32)
    ensures var r := PresComp(c, true, expDlyUs, measPresDlyUs);
      (c.adj.state == PresInit ==> r.0.adj == c.adj.(state := PresMeas, ctr := 0, sumErrDlyUs := 0) && r.1 == 0)
      && (c.adj.state == PresWait ==>
            r.0.adj == c.adj.(ctr := U16(c.adj.ctr + 1),
                              state := if c.adj.ctr > FIFO_SMPL_PERIOD_US / FRAME_DURATION_US then PresInit else PresWait)
            && r.1 == 0)
      && (c.adj.state == PresLocked ==> r == (c, 0))
  {
  }

  /** The adjustment PresComp returns from a completed measurement is below half a block only in LOCKED. */
  lemma PresLockedMeansSmallAdjustment(c: PresCtl, expDlyUs: u32, measPresDlyUs: u32)
    requires c.adj.state == PresMeas && c.adj.ctr >= REMOTE_NUM_DATA_PTS
    ensures var r := PresComp(c, true, expDlyUs, measPresDlyUs);
      (r.0.adj.state == PresLocked <==> -500 < r.1 < 500)
      && (r.0.adj.state == PresWait <==> !(-500 < r.1 < 500))
  {
  }

  // ---------------------------------------------------------------------
  // Frame ingest: timestamp check and FIFO adjustment
  // ---------------------------------------------------------------------

  /** What the timestamp check of `audio_datapath_stream_out` decides about a frame. */
  datatype Ingest = Drop | Accept(sduRef: u32, missingBlk: nat)

  /**
   * The duplicate check and the "drift control" of `stream_out`:
   * `hasBuf` is `buf != NULL` and `lastTs` is `remote.last_ts`.  A gap
   * shorter than one and a half frames that is more than
   * TIMESTAMP_DELTA_MAX_ERR_US off a frame is replaced by an estimate one
   * frame after the previous reference; the number of missing blocks is
   * the gap rounded down to whole frames.
   */
  function CheckTimestamp(hasBuf: bool, sduRef: u32, lastTs: u32): (v: Ingest)
    // The only frames dropped are those repeating the previous reference:
    // the minimum-gap `return` cannot be reached, since small gaps are estimated.
    ensures v.Drop? <==> sduRef == lastTs
    ensures v.Accept? ==> v.missingBlk % NUM_BLKS_IN_FRAME == 0
    ensures v.Accept? && !(hasBuf && lastTs != 0) ==> v == Accept(sduRef, 0)
    // Blocks are missing exactly when the gap is at least one and a half frames.
    ensures v.Accept? && hasBuf && lastTs != 0 ==>
      (v.missingBlk != 0 <==> U32(sduRef - lastTs) >= FRAME_DURATION_US + FRAME_DURATION_US / 2)
    // The reference kept is either the frame's own or the estimate.
    ensures v.Accept? && hasBuf && lastTs != 0 ==>
      var delta := U32(sduRef - lastTs);
      if delta < FRAME_DURATION_US + FRAME_DURATION_US / 2
         && (delta > FRAME_DURATION_US + TIMESTAMP_DELTA_MAX_ERR_US
             || delta < FRAME_DURATION_US - TIMESTAMP_DELTA_MAX_ERR_US)
      then v.sduRef == U32(lastTs + FRAME_DURATION_US)
      else v.sduRef == sduRef
  {
    if sduRef == lastTs then Drop
    else if hasBuf && lastTs != 0 then
      var delta := U32(sduRef - lastTs);
      var estimate := delta < FRAME_DURATION_US + FRAME_DURATION_US / 2
                      && (delta > FRAME_DURATION_US + TIMESTAMP_DELTA_MAX_ERR_US
                          || delta < FRAME_DURATION_US - TIMESTAMP_DELTA_MAX_ERR_US);
      var delta1 := if estimate then FRAME_DURATION_US else delta;
      var ref1 := if estimate then U32(lastTs + FRAME_DURATION_US) else sduRef;
      if delta1 > BLK_PERIOD_US / 2 then
        var lastOutBlk := (delta1 - BLK_PERIOD_US / 2) / BLK_PERIOD_US;
        Accept(ref1, (lastOutBlk / NUM_BLKS_IN_FRAME) * NUM_BLKS_IN_FRAME)
      else Drop
    else Accept(sduRef, 0)
  }

  /** `exp_dly_us`: PRES_DLY_US minus the time since the reference, in 32-bit arithmetic. */
  function ExpectedDelay(curTime: u32, sduRef: u32): (r: i32)
    ensures sduRef <= curTime && curTime - sduRef <= PRES_DLY_US - I32_MIN ==>
      r == PRES_DLY_US - (curTime - sduRef)
  {
    I32(PRES_DLY_US - U32(curTime - sduRef))
  }

  /**
   * The number of blocks `stream_out` inserts (positive) or removes
   * (negative): the presentation adjustment rounded half away from zero
   * to whole blocks, limited to half the FIFO, plus the missing blocks.
   */
  function AdjustBlocks(presAdjUs: i32, missingBlk: nat): (n: int)
    ensures missingBlk <= I32_MAX - FIFO_NUM_BLKS / 2 ==>
      -(FIFO_NUM_BLKS / 2) <= n - missingBlk <= FIFO_NUM_BLKS / 2
    ensures missingBlk <= I32_MAX - FIFO_NUM_BLKS / 2 && Abs(presAdjUs) < 20500 ==>
      Abs(presAdjUs - (n - missingBlk) * BLK_PERIOD_US) <= BLK_PERIOD_US / 2
    ensures missingBlk <= I32_MAX - FIFO_NUM_BLKS / 2 && 20500 <= presAdjUs <= I32_MAX - BLK_PERIOD_US / 2 ==>
      n - missingBlk == FIFO_NUM_BLKS / 2
    ensures missingBlk <= I32_MAX - FIFO_NUM_BLKS / 2 && I32_MIN + BLK_PERIOD_US / 2 <= presAdjUs <= -20500 ==>
      n - missingBlk == -(FIFO_NUM_BLKS / 2)
  {
    var rounded := I32(if presAdjUs >= 0 then presAdjUs + BLK_PERIOD_US / 2 else presAdjUs - BLK_PERIOD_US / 2);
    var blks := CDiv(rounded, BLK_PERIOD_US);
    var limited := if blks > FIFO_NUM_BLKS / 2 then FIFO_NUM_BLKS / 2
                   else if blks < -(FIFO_NUM_BLKS / 2) then -(FIFO_NUM_BLKS / 2) else blks;
    I32(limited + missingBlk)
  }

  /**
   * The output FIFO overrun test of `stream_out`: the producer index minus
   * the consumer index, without reducing it modulo the FIFO size.
   */
  predicate Overrun(prodIdx: int, consIdx: int)
  {
    prodIdx - consIdx + NUM_BLKS_IN_FRAME > FIFO_NUM_BLKS
  }

  /**
   * The overrun test ignores wrap-around: with the producer index behind
   * the consumer index it never discards, even when 35 of the 40 blocks
   * are queued.
   */
  lemma OverrunIgnoresWrap(prodIdx: int, consIdx: int)
    requires prodIdx < consIdx
    ensures !Overrun(prodIdx, consIdx)
    ensures !Overrun(0, 5) && (0 - 5) % FIFO_NUM_BLKS == 35
  {
  }

  /**
   * The block timestamps after writing `vals` at successive slots from
   * `start`, as the `for` loops of `stream_out` do.
   */
  function WriteRun(ts: seq<u32>, start: int, vals: seq<u32>): (r: seq<u32>)
    requires |ts| == FIFO_NUM_BLKS && 0 <= start < FIFO_NUM_BLKS
    ensures |r| == FIFO_NUM_BLKS
    decreases |vals|
  {
    if |vals| == 0 then ts
    else WriteRun(ts, start, vals[..|vals| - 1])[(start + |vals| - 1) % FIFO_NUM_BLKS := vals[|vals| - 1]]
  }

  /** Writing one more value of a run updates exactly one slot. */
  lemma WriteRunExtend(ts: seq<u32>, start: int, vals: seq<u32>, i: int)
    requires |ts| == FIFO_NUM_BLKS && 0 <= start < FIFO_NUM_BLKS && 0 <= i < |vals|
    ensures WriteRun(ts, start, vals[..i + 1]) == WriteRun(ts, start, vals[..i])[(start + i) % FIFO_NUM_BLKS := vals[i]]
  {
    assert vals[..i + 1][..i] == vals[..i];
  }

  /** Slot `j` is `m` steps after `start` exactly when its distance from `start` is `m`. */
  lemma SlotDistance(start: int, m: int, j: int)
    requires 0 <= start < FIFO_NUM_BLKS && 0 <= m < FIFO_NUM_BLKS && 0 <= j < FIFO_NUM_BLKS
    ensures j == (start + m) % FIFO_NUM_BLKS <==> (j - start) % FIFO_NUM_BLKS == m
  {
    if j >= start {
      assert (j - start) % FIFO_NUM_BLKS == j - start;
    } else {
      assert (j - start) % FIFO_NUM_BLKS == j - start + FIFO_NUM_BLKS;
    }
    if start + m < FIFO_NUM_BLKS {
      assert (start + m) % FIFO_NUM_BLKS == start + m;
    } else {
      assert (start + m) % FIFO_NUM_BLKS == start + m - FIFO_NUM_BLKS;
    }
  }

  /**
   * At most a FIFO's worth of writes: slot `j` holds the value written at
   * its distance from `start`, and slots beyond the run keep their value.
   */
  lemma {:induction false} WriteRunSlot(ts: seq<u32>, start: int, vals: seq<u32>, j: int)
    requires |ts| == FIFO_NUM_BLKS && 0 <= start < FIFO_NUM_BLKS && |vals| <= FIFO_NUM_BLKS
    requires 0 <= j < FIFO_NUM_BLKS
    ensures WriteRun(ts, start, vals)[j] ==
      if (j - start) % FIFO_NUM_BLKS < |vals| then vals[(j - start) % FIFO_NUM_BLKS] else ts[j]
    decreases |vals|
  {
    if |vals| > 0 {
      var m := |vals| - 1;
      var init := vals[..m];
      WriteRunSlot(ts, start, init, j);
      var d := (j - start) % FIFO_NUM_BLKS;
      SlotDistance(start, m, j);
      if d < m {
        assert init[d] == vals[d];
      }
    }
  }

  /**
   * The timestamp of the `k`-th of `n` blocks inserted for a presentation
   * delay: `(n - k)` block periods before the current time, the product
   * taken in `int` arithmetic.
   */
  function InsertedStamp(curTime: u32, n: int, k: int): (r: u32)
    ensures 0 <= (n - k) * BLK_PERIOD_US <= I32_MAX ==> r == U32(curTime - (n - k) * BLK_PERIOD_US)
  {
    U32(curTime - I32((n - k) * BLK_PERIOD_US))
  }

  /** The timestamps of the `n` inserted blocks, oldest first. */
  function InsertedStamps(curTime: u32, n: nat): (r: seq<u32>)
    ensures |r| == n
    ensures forall k :: 0 <= k < n ==> r[k] == InsertedStamp(curTime, n, k)
  {
    seq(n, k requires 0 <= k < n => InsertedStamp(curTime, n, k))
  }

  /** The timestamps of the ten blocks of a decoded frame: one block period apart from the current time. */
  function FrameStamps(curTime: u32): (r: seq<u32>)
    ensures |r| == NUM_BLKS_IN_FRAME
    ensures forall k :: 0 <= k < NUM_BLKS_IN_FRAME ==> r[k] == U32(curTime + k * BLK_PERIOD_US)
  {
    seq(NUM_BLKS_IN_FRAME, k requires 0 <= k < NUM_BLKS_IN_FRAME => U32(curTime + k * BLK_PERIOD_US))
  }

  /**
   * After a frame is written, the FIFO slots from the adjusted producer
   * index on hold the frame's block timestamps, and the other thirty
   * slots are as before.
   */
  lemma FrameWriteContents(ts: seq<u32>, start: int, curTime: u32, j: int)
    requires |ts| == FIFO_NUM_BLKS && 0 <= start < FIFO_NUM_BLKS && 0 <= j < FIFO_NUM_BLKS
    ensures var d := (j - start) % FIFO_NUM_BLKS;
      WriteRun(ts, start, FrameStamps(curTime))[j] ==
        if d < NUM_BLKS_IN_FRAME then U32(curTime + d * BLK_PERIOD_US) else ts[j]
  {
    WriteRunSlot(ts, start, FrameStamps(curTime), j);
  }

  /**
   * The block timestamps and the `out` counters after `stream_out` has
   * inserted (`n > 0`) or removed (`n < 0`) blocks for the presentation
   * delay.
   */
  function AdjustedFifo(ts: seq<u32>, o: Out, n: int, curTime: u32): (r: (seq<u32>, Out))
    requires |ts| == FIFO_NUM_BLKS && 0 <= o.prodBlkIdx < FIFO_NUM_BLKS
  {
    if n > 0 then
      (WriteRun(ts, o.prodBlkIdx, InsertedStamps(curTime, n)),
       o.(prodBlkIdx := (o.prodBlkIdx + n) % FIFO_NUM_BLKS, totalProdBlks := U32(o.totalProdBlks + n)))
    else if n < 0 then (ts, o.(prodBlkIdx := (o.prodBlkIdx + n) % FIFO_NUM_BLKS))
    else (ts, o)
  }

  /**
   * The block timestamps and the `out` counters after the output step of
   * `stream_out`: a frame's ten blocks unless the overrun test discards it.
   */
  function FramedFifo(ts: seq<u32>, o: Out, curTime: u32): (r: (seq<u32>, Out))
    requires |ts| == FIFO_NUM_BLKS && 0 <= o.prodBlkIdx < FIFO_NUM_BLKS
  {
    if Overrun(o.prodBlkIdx, o.consBlkIdx) then (ts, o)
    else
      (WriteRun(ts, o.prodBlkIdx, FrameStamps(curTime)),
       o.(prodBlkIdx := (o.prodBlkIdx + NUM_BLKS_IN_FRAME) % FIFO_NUM_BLKS,
          totalProdBlks := U32(o.totalProdBlks + NUM_BLKS_IN_FRAME)))
  }

  /**
   * A frame that is not discarded moves the producer index ten blocks on,
   * adds ten to the produced-block count, and leaves its blocks, stamped
   * one period apart from the current time, just behind the new index;
   * every other slot keeps its stamp.
   */
  lemma FramedFifoNewest(ts: seq<u32>, o: Out, curTime: u32)
    requires |ts| == FIFO_NUM_BLKS && 0 <= o.prodBlkIdx < FIFO_NUM_BLKS
    requires !Overrun(o.prodBlkIdx, o.consBlkIdx)
    ensures var r := FramedFifo(ts, o, curTime);
      r.1.prodBlkIdx == (o.prodBlkIdx + NUM_BLKS_IN_FRAME) % FIFO_NUM_BLKS
      && r.1.totalProdBlks == U32(o.totalProdBlks + NUM_BLKS_IN_FRAME)
      && r.1.consBlkIdx == o.consBlkIdx && r.1.totalFrames == o.totalFrames
    ensures forall k :: 0 <= k < NUM_BLKS_IN_FRAME ==>
      FramedFifo(ts, o, curTime).0[(o.prodBlkIdx + k) % FIFO_NUM_BLKS] == U32(curTime + k * BLK_PERIOD_US)
    ensures forall j :: 0 <= j < FIFO_NUM_BLKS && (j - o.prodBlkIdx) % FIFO_NUM_BLKS >= NUM_BLKS_IN_FRAME ==>
      FramedFifo(ts, o, curTime).0[j] == ts[j]
  {
    forall k | 0 <= k < NUM_BLKS_IN_FRAME
      ensures FramedFifo(ts, o, curTime).0[(o.prodBlkIdx + k) % FIFO_NUM_BLKS] == U32(curTime + k * BLK_PERIOD_US)
    {
      var j := (o.prodBlkIdx + k) % FIFO_NUM_BLKS;
      SlotDistance(o.prodBlkIdx, k, j);
      FrameWriteContents(ts, o.prodBlkIdx, curTime, j);
    }
    forall j | 0 <= j < FIFO_NUM_BLKS && (j - o.prodBlkIdx) % FIFO_NUM_BLKS >= NUM_BLKS_IN_FRAME
      ensures FramedFifo(ts, o, curTime).0[j] == ts[j]
    {
      FrameWriteContents(ts, o.prodBlkIdx, curTime, j);
    }
  }

  /** The block timestamps and `out` after `stream_out` has adjusted the FIFO by `n` blocks and output a frame. */
  function FifoAfterFrame(ts: seq<u32>, o: Out, n: int, curTime: u32): (seq<u32>, Out)
    requires |ts| == FIFO_NUM_BLKS && 0 <= o.prodBlkIdx < FIFO_NUM_BLKS
  {
    var a := AdjustedFifo(ts, o, n, curTime);
    FramedFifo(a.0, a.1.(totalFrames := U32(a.1.totalFrames + 1)), curTime)
  }

  /**
   * What one frame does to the FIFO indices and counters: the producer
   * index moves by the adjustment and, unless the overrun test (on the
   * adjusted index) discards the frame, by ten more blocks; inserted and
   * written blocks are counted, removed ones are not; one frame is
   * counted; the consumer side is untouched.
   */
  lemma FifoAfterFrameIndex(ts: seq<u32>, o: Out, n: int, curTime: u32)
    requires |ts| == FIFO_NUM_BLKS && 0 <= o.prodBlkIdx < FIFO_NUM_BLKS
    ensures var a := (o.prodBlkIdx + n) % FIFO_NUM_BLKS;
      var discard := Overrun(a, o.consBlkIdx);
      var r := FifoAfterFrame(ts, o, n, curTime).1;
      r.prodBlkIdx == (if discard then a else (o.prodBlkIdx + n + NUM_BLKS_IN_FRAME) % FIFO_NUM_BLKS)
      && r.totalProdBlks == U32(o.totalProdBlks + (if n > 0 then n else 0) + (if discard then 0 else NUM_BLKS_IN_FRAME))
      && r.totalFrames == U32(o.totalFrames + 1)
      && r.consBlkIdx == o.consBlkIdx && r.measPresDlyUs == o.measPresDlyUs
      && r.totalConsBlks == o.totalConsBlks && r.totalBlkUnderruns == o.totalBlkUnderruns
  {
    var a := (o.prodBlkIdx + n) % FIFO_NUM_BLKS;
    var q := (o.prodBlkIdx + n) / FIFO_NUM_BLKS;
    assert o.prodBlkIdx + n + NUM_BLKS_IN_FRAME == q * FIFO_NUM_BLKS + (a + NUM_BLKS_IN_FRAME);
    assert (a + NUM_BLKS_IN_FRAME) % FIFO_NUM_BLKS == (o.prodBlkIdx + n + NUM_BLKS_IN_FRAME) % FIFO_NUM_BLKS;
    var t := o.totalProdBlks + (if n > 0 then n else 0);
    U32AddWrapped(t, NUM_BLKS_IN_FRAME);
  }

  /** `pres_adj` after the missed-frame step of `stream_out`: counter cleared and WAIT entered. */
  function PresAfterIngest(c: PresCtl, missingBlk: nat): (r: PresCtl)
    ensures missingBlk == 0 ==> r == c
    ensures missingBlk != 0 ==>
      r.adj.state == PresWait && r.adj.ctr == 0
      && r.adj.errDlyUs == c.adj.errDlyUs && r.adj.sumErrDlyUs == c.adj.sumErrDlyUs
  {
    if missingBlk != 0 then PresStateSet(c.(adj := c.adj.(ctr := 0)), PresWait) else c
  }

  /** Where the I2S transmitter is pointed: a FIFO block or one of the two alternate buffers. */
  datatype TxBuf = FifoBlk(idx: int) | AltBuf0 | AltBuf1 | OtherBuf

  /** The exact effect of adding `k` after a wrap: the same as wrapping once at the end. */
  lemma {:induction false} U32AddWrapped(x: int, k: int)
    ensures U32(U32(x) + k) == U32(x + k)
  {
    var q := x / U32_LIMIT;
    assert x == q * U32_LIMIT + U32(x);
    assert (x + k) == q * U32_LIMIT + (U32(x) + k);
  }

  /** Stepping a reduced index is stepping the unreduced one. */
  lemma {:induction false} IdxStep(a: int)
    ensures NextIdx(a % FIFO_NUM_BLKS) == (a + 1) % FIFO_NUM_BLKS
    ensures PrevIdx(a % FIFO_NUM_BLKS) == (a - 1) % FIFO_NUM_BLKS
  {
    var q := a / FIFO_NUM_BLKS;
    assert a == q * FIFO_NUM_BLKS + a % FIFO_NUM_BLKS;
    assert a + 1 == q * FIFO_NUM_BLKS + (a % FIFO_NUM_BLKS + 1);
    assert a - 1 == q * FIFO_NUM_BLKS + (a % FIFO_NUM_BLKS - 1);
  }

  /**
   * The HFCLKAUDIO frequency setting after drift compensation: the clamped
   * value when it calls `hfclkaudio_set`, the previous setting otherwise.
   */
  function ClockAfter(cfg: Option<int>, w: Option<u32>): (r: Option<int>)
    ensures w.None? ==> r == cfg
    ensures w.Some? ==> r.Some? && APLL_FREQ_MIN <= r.value <= APLL_FREQ_MAX
  {
    if w.Some? then Some(HfclkAudioValue(w.value)) else cfg
  }

  const ZeroDrift: DriftAdj := DriftAdj(DrftInit, 0, 0, 0)
  const ZeroPres: PresAdj := PresAdj(PresInit, 0, 0, 0)

  /** `ctrl_blk.out` apart from the sample FIFO and the block timestamps. */
  datatype Out = Out(prodBlkIdx: int, consBlkIdx: int, measPresDlyUs: u32, totalFrames: u32,
                     totalProdBlks: u32, totalConsBlks: u32, totalBlkUnderruns: u32)

  const ZeroOut: Out := Out(0, 0, 0, 0, 0, 0, 0)

  // ---------------------------------------------------------------------
  // Alternate buffers
  // ---------------------------------------------------------------------

  /** The `alt` flags of the two alternate buffers. */
  datatype Alt = Alt(buf0InUse: bool, buf1InUse: bool)

  predicate InUse(a: Alt, b: TxBuf)
  {
    (b == AltBuf0 && a.buf0InUse) || (b == AltBuf1 && a.buf1InUse)
  }

  /**
   * `alt_buffer_get`: the result code, the buffer handed out and the new
   * flags.  It fails with -ENOMEM, changing nothing, exactly when both
   * buffers are in use; otherwise it marks a free buffer, buf_0 first.
   */
  function AltGet(a: Alt): (r: (int, TxBuf, Alt))
    ensures r.0 == 0 <==> !(a.buf0InUse && a.buf1InUse)
    ensures r.0 != 0 ==> r.0 == -ENOMEM && r.2 == a
    ensures r.0 == 0 ==>
      (r.1 == AltBuf0 || r.1 == AltBuf1) && !InUse(a, r.1) && InUse(r.2, r.1)
      && (r.1 == AltBuf0 ==> r.2.buf1InUse == a.buf1InUse)
      && (r.1 == AltBuf1 ==> r.2.buf0InUse == a.buf0InUse)
    ensures r.0 == 0 && r.1 == AltBuf1 ==> a.buf0InUse
  {
    if !a.buf0InUse then (0, AltBuf0, a.(buf0InUse := true))
    else if !a.buf1InUse then (0, AltBuf1, a.(buf1InUse := true))
    else (-ENOMEM, OtherBuf, a)
  }

  /**
   * `alt_buffer_free`: the released buffer is free afterwards and every
   * other buffer keeps its flag; a buffer that is not an alternate buffer
   * changes nothing.
   */
  function AltFree(a: Alt, b: TxBuf): (r: Alt)
    ensures !InUse(r, b)
    ensures forall c: TxBuf {:trigger InUse(r, c)} :: c != b ==> (InUse(r, c) <==> InUse(a, c))
    ensures b != AltBuf0 && b != AltBuf1 ==> r == a
  {
    if b == AltBuf0 then a.(buf0InUse := false)
    else if b == AltBuf1 then a.(buf1InUse := false)
    else a
  }

  /** Releasing the buffer just handed out restores the flags. */
  lemma AltGetThenFree(a: Alt)
    requires AltGet(a).0 == 0
    ensures AltFree(AltGet(a).2, AltGet(a).1) == a
  {
  }

  /** From two free buffers: buf_0, then buf_1, then -ENOMEM. */
  lemma AltPoolOfTwo()
    ensures var g0 := AltGet(Alt(false, false)); var g1 := AltGet(g0.2); var g2 := AltGet(g1.2);
      g0.0 == 0 && g0.1 == AltBuf0 && g1.0 == 0 && g1.1 == AltBuf1 && g2.0 == -ENOMEM
  {
  }

  // ---------------------------------------------------------------------
  // The datapath's static state
  // ---------------------------------------------------------------------

  /**
   * The static state of audio_datapath.c: `ctrl_blk` (without the sample
   * FIFO contents), the `alt` buffer flags, `tone_active`, the static
   * `underrun_condition` of the block-complete handler, and what was
   * asked of the hardware (PLL frequencies, I2S buffers, LED_APP_2_GREEN).
   */
  class Datapath {
    var datapathInitialized: bool
    var streamStarted: bool
    var out: Out
    /** `out.prod_blk_ts`: the time each FIFO block is due to be played. */
    const prodBlkTs: array<u32>
    var remoteLastTs: u32
    var localLastTs: u32
    var driftAdj: DriftAdj
    /** `pres_adj` and whether LED_APP_2_GREEN is lit. */
    var pres: PresCtl

    var alt: Alt
    var underrunCondition: bool
    var toneActive: bool
    /** The durations the tone stop timer was started with. */
    var toneTimerMs: seq<int>
    var blkCompRegistered: bool

    /** The value last handed to `nrfx_clock_hfclkaudio_config_set`, if any. */
    var hfclkAudioFreq: Option<int>
    var i2sRunning: bool
    /** TX buffers handed to the I2S driver, in order. */
    var i2sTx: seq<TxBuf>
    /** The halt code once ERR_CHK has halted the device. */
    var halted: Option<int>

    ghost predicate Valid()
      reads this
    {
      prodBlkTs.Length == FIFO_NUM_BLKS
      && 0 <= out.prodBlkIdx < FIFO_NUM_BLKS && 0 <= out.consBlkIdx < FIFO_NUM_BLKS
    }

    /** Static storage starts zeroed. */
    constructor ()
      ensures Valid()
      ensures !datapathInitialized && !streamStarted && out == ZeroOut
      ensures forall j :: 0 <= j < FIFO_NUM_BLKS ==> prodBlkTs[j] == 0
      ensures driftAdj == ZeroDrift && pres == PresCtl(ZeroPres, false)
      ensures remoteLastTs == 0 && localLastTs == 0 && !toneActive && alt == Alt(false, false)
      ensures hfclkAudioFreq == None && i2sTx == [] && !i2sRunning && halted == None
    {
      datapathInitialized := false;
      streamStarted := false;
      out := ZeroOut;
      prodBlkTs := new u32[FIFO_NUM_BLKS](_ => 0);
      remoteLastTs := 0;
      localLastTs := 0;
      driftAdj := ZeroDrift;
      pres := PresCtl(ZeroPres, false);
      alt := Alt(false, false);
      underrunCondition := false;
      toneActive := false;
      toneTimerMs := [];
      blkCompRegistered := false;
      hfclkAudioFreq := None;
      i2sRunning := false;
      i2sTx := [];
      halted := None;
    }

    /** `hfclkaudio_set`. */
    method HfclkAudioSet(freqValue: int)
      modifies this`hfclkAudioFreq
      ensures hfclkAudioFreq == Some(HfclkAudioValue(freqValue))
    {
      var freqVal := U16(freqValue);
      freqVal := if freqVal < APLL_FREQ_MAX then freqVal else APLL_FREQ_MAX;
      freqVal := if freqVal > APLL_FREQ_MIN then freqVal else APLL_FREQ_MIN;
      hfclkAudioFreq := Some(freqVal);
    }

    /** `drift_comp_state_set`. */
    method DriftCompStateSet(newState: DriftState)
      modifies this`driftAdj
      ensures driftAdj == DriftStateSet(old(driftAdj), newState)
    {
      if newState == driftAdj.state {
        return;
      }
      driftAdj := driftAdj.(state := newState);
    }

    /** `audio_datapath_drift_compensation`. */
    method DriftCompensation()
      modifies this`driftAdj, this`hfclkAudioFreq
      ensures driftAdj == DriftComp(old(driftAdj), remoteLastTs, localLastTs).0
      ensures hfclkAudioFreq == ClockAfter(old(hfclkAudioFreq), DriftComp(old(driftAdj), remoteLastTs, localLastTs).1)
    {
      var ctr := U16(driftAdj.ctr + 1);
      driftAdj := driftAdj.(ctr := ctr);
      if ctr < LOCAL_NUM_DATA_PTS {
        return;
      }
      match driftAdj.state
      case DrftInit =>
        if remoteLastTs != 0 {
          driftAdj := driftAdj.(ctr := 0, measStartTimeUs := remoteLastTs);
          DriftCompStateSet(DrftCalib);
        }
      case DrftCalib =>
        DriftCompCalib();
      case DrftOffset =>
        DriftCompOffset();
      case DrftLocked =>
        DriftCompLocked();
    }

    /** The DRIFT_STATE_CALIB case: the frequency error over the measurement period sets the centre frequency. */
    method DriftCompCalib()
      requires driftAdj.state == DrftCalib
      modifies this`driftAdj, this`hfclkAudioFreq
      ensures driftAdj == DriftAct(old(driftAdj), remoteLastTs, localLastTs).0
      ensures hfclkAudioFreq == ClockAfter(old(hfclkAudioFreq), DriftAct(old(driftAdj), remoteLastTs, localLastTs).1)
    {
      driftAdj := driftAdj.(ctr := 0);
      var errUs := I32(DRIFT_MEAS_PERIOD_US - U32(remoteLastTs - driftAdj.measStartTimeUs));
      var freqAdj := ApllFreqAdj(errUs);
      driftAdj := driftAdj.(centerFreq := U32(APLL_FREQ_CENTER + freqAdj));
      HfclkAudioSet(driftAdj.centerFreq);
      DriftCompStateSet(DrftOffset);
    }

    /** The DRIFT_STATE_OFFSET case: the phase error corrects the clock until it is small enough to lock. */
    method DriftCompOffset()
      requires driftAdj.state == DrftOffset
      modifies this`driftAdj, this`hfclkAudioFreq
      ensures driftAdj == DriftAct(old(driftAdj), remoteLastTs, localLastTs).0
      ensures hfclkAudioFreq == ClockAfter(old(hfclkAudioFreq), DriftAct(old(driftAdj), remoteLastTs, localLastTs).1)
    {
      driftAdj := driftAdj.(ctr := 0);
      var errUs := PhaseErr(remoteLastTs, localLastTs);
      var freqAdj := ApllFreqAdj(errUs);
      HfclkAudioSet(U32(driftAdj.centerFreq + freqAdj));
      if errUs < DRIFT_ERR_THRESH_LOCK && errUs > -DRIFT_ERR_THRESH_LOCK {
        DriftCompStateSet(DrftLocked);
      }
    }

    /** The DRIFT_STATE_LOCKED case: half the phase error corrects the clock; a large one unlocks. */
    method DriftCompLocked()
      requires driftAdj.state == DrftLocked
      modifies this`driftAdj, this`hfclkAudioFreq
      ensures driftAdj == DriftAct(old(driftAdj), remoteLastTs, localLastTs).0
      ensures hfclkAudioFreq == ClockAfter(old(hfclkAudioFreq), DriftAct(old(driftAdj), remoteLastTs, localLastTs).1)
    {
      driftAdj := driftAdj.(ctr := 0);
      var errUs := CDiv(PhaseErr(remoteLastTs, localLastTs), 2);
      var freqAdj := ApllFreqAdj(errUs);
      HfclkAudioSet(U32(driftAdj.centerFreq + freqAdj));
      if errUs > DRIFT_ERR_THRESH_UNLOCK || errUs < -DRIFT_ERR_THRESH_UNLOCK {
        DriftCompStateSet(DrftOffset);
      }
    }

    /** `pres_comp_state_set`; the result of switching the LED is not modelled. */
    method PresCompStateSet(newState: PresState)
      modifies this`pres
      ensures pres == PresStateSet(old(pres), newState)
    {
      if newState == pres.adj.state {
        return;
      }
      pres := pres.(adj := pres.adj.(state := newState));
      if newState == PresLocked {
        pres := pres.(led := true);
      } else {
        pres := pres.(led := false);
      }
    }

    /** `audio_datapath_presentation_compensation(exp_dly_us)`. */
    method PresentationCompensation(expDlyUs: u32) returns (presAdjUs: i32)
      modifies this`pres
      ensures (pres, presAdjUs) == PresComp(old(pres), driftAdj.state == DrftLocked, expDlyUs, out.measPresDlyUs)
    {
      if driftAdj.state != DrftLocked {
        PresCompStateSet(PresInit);
        return 0;
      }
      presAdjUs := 0;
      match pres.adj.state
      case PresInit =>
        pres := pres.(adj := pres.adj.(ctr := 0, sumErrDlyUs := 0));
        PresCompStateSet(PresMeas);
      case PresMeas =>
        var ctr := pres.adj.ctr;
        pres := pres.(adj := pres.adj.(ctr := U16(ctr + 1)));
        if ctr < REMOTE_NUM_DATA_PTS {
          pres := pres.(adj := pres.adj.(sumErrDlyUs :=
                          I32(pres.adj.sumErrDlyUs + U32(expDlyUs - out.measPresDlyUs))));
          return;
        }
        pres := pres.(adj := pres.adj.(ctr := 0));
        pres := pres.(adj := pres.adj.(errDlyUs := CDiv(pres.adj.sumErrDlyUs, REMOTE_NUM_DATA_PTS)));
        presAdjUs := pres.adj.errDlyUs;
        pres := pres.(adj := pres.adj.(sumErrDlyUs := 0));
        if presAdjUs >= BLK_PERIOD_US / 2 || presAdjUs <= -(BLK_PERIOD_US / 2) {
          PresCompStateSet(PresWait);
          return;
        }
        if pres.adj.errDlyUs < PRES_ERR_THRESH_LOCK_US && pres.adj.errDlyUs > -PRES_ERR_THRESH_LOCK_US {
          PresCompStateSet(PresLocked);
        }
      case PresWait =>
        var ctr := pres.adj.ctr;
        pres := pres.(adj := pres.adj.(ctr := U16(ctr + 1)));
        if ctr > FIFO_SMPL_PERIOD_US / FRAME_DURATION_US {
          PresCompStateSet(PresInit);
        }
      case PresLocked =>
    }

    /** `alt_buffer_get`. */
    method AltBufferGet() returns (ret: int, buf: TxBuf)
      modifies this`alt
      ensures (ret, buf, alt) == AltGet(old(alt))
    {
      buf := OtherBuf;
      if !alt.buf0InUse {
        alt := alt.(buf0InUse := true);
        buf := AltBuf0;
      } else if !alt.buf1InUse {
        alt := alt.(buf1InUse := true);
        buf := AltBuf1;
      } else {
        return -ENOMEM, buf;
      }
      return 0, buf;
    }

    /** `alt_buffer_free`. */
    method AltBufferFree(buf: TxBuf)
      modifies this`alt
      ensures alt == AltFree(old(alt), buf)
    {
      if buf == AltBuf0 {
        alt := alt.(buf0InUse := false);
      } else if buf == AltBuf1 {
        alt := alt.(buf1InUse := false);
      } else {
        return;
      }
    }

    /**
     * The transmit half of `audio_datapath_i2s_blk_complete(ts, ...,
     * tx_buf_released)`, followed by the drift compensation it ends with.
     * The consumer index advances unless the next block is the producer's;
     * then a zeroed alternate buffer is sent instead and the underrun is
     * counted.  No alternate buffer being free halts the device.
     */
    method I2sBlkComplete(ts: u32, txBufReleased: TxBuf)
      requires Valid() && halted == None
      modifies this`alt, this`out, this`underrunCondition, this`halted, this`i2sTx
      modifies this`localLastTs, this`driftAdj, this`hfclkAudioFreq
      ensures Valid()
      ensures var a1 := AltFree(old(alt), txBufReleased);
        var next := NextIdx(old(out.consBlkIdx));
        var g := AltGet(a1);
        var meas := U32(ts - prodBlkTs[old(out.consBlkIdx)]);
        if next != old(out.prodBlkIdx) then
          out == old(out).(consBlkIdx := next, measPresDlyUs := meas) && alt == a1
          && !underrunCondition && halted == None && i2sTx == old(i2sTx) + [FifoBlk(next)]
        else if g.0 != 0 then
          out == old(out).(measPresDlyUs := meas) && alt == g.2
          && halted == Some(g.0) && i2sTx == old(i2sTx) && underrunCondition == old(underrunCondition)
        else
          out == old(out).(measPresDlyUs := meas, totalBlkUnderruns := U32(old(out.totalBlkUnderruns) + 1))
          && alt == g.2 && underrunCondition && halted == None && i2sTx == old(i2sTx) + [g.1]
      ensures halted == None ==>
        localLastTs == ts && driftAdj == DriftComp(old(driftAdj), remoteLastTs, ts).0
        && hfclkAudioFreq == ClockAfter(old(hfclkAudioFreq), DriftComp(old(driftAdj), remoteLastTs, ts).1)
      ensures halted != None ==>
        localLastTs == old(localLastTs) && driftAdj == old(driftAdj) && hfclkAudioFreq == old(hfclkAudioFreq)
    {
      AltBufferFree(txBufReleased);
      out := out.(measPresDlyUs := U32(ts - prodBlkTs[out.consBlkIdx]));
      var txBuf: TxBuf;
      var nextOutBlkIdx := NextIdx(out.consBlkIdx);
      if nextOutBlkIdx != out.prodBlkIdx {
        out := out.(consBlkIdx := nextOutBlkIdx);
        if underrunCondition {
          underrunCondition := false;
        }
        txBuf := FifoBlk(nextOutBlkIdx);
      } else {
        var ret;
        ret, txBuf := AltBufferGet();
        if ret != 0 {
          halted := Some(ret);
          return;
        }
        underrunCondition := true;
        out := out.(totalBlkUnderruns := U32(out.totalBlkUnderruns + 1));
      }
      i2sTx := i2sTx + [txBuf];
      localLastTs := ts;
      DriftCompensation();
    }

    /** The "Increase presentation delay" loop of `stream_out`: `n` muted blocks stamped in the past. */
    method InsertBlocks(n: int, curTime: u32)
      requires Valid() && n > 0
      modifies prodBlkTs, this`out
      ensures Valid()
      ensures out == old(out).(prodBlkIdx := (old(out.prodBlkIdx) + n) % FIFO_NUM_BLKS,
                               totalProdBlks := U32(old(out.totalProdBlks) + n))
      ensures prodBlkTs[..] == WriteRun(old(prodBlkTs[..]), old(out.prodBlkIdx), InsertedStamps(curTime, n))
    {
      ghost var start := out.prodBlkIdx;
      ghost var ts0 := prodBlkTs[..];
      ghost var vals := InsertedStamps(curTime, n);
      var blkIdx := out.prodBlkIdx;
      var totalProdBlks: int := out.totalProdBlks;
      var i := 0;
      while i < n
        invariant 0 <= i <= n && out == old(out)
        invariant blkIdx == (start + i) % FIFO_NUM_BLKS
        invariant totalProdBlks == U32(old(out.totalProdBlks) + i)
        invariant prodBlkTs[..] == WriteRun(ts0, start, vals[..i])
      {
        ghost var before := prodBlkTs[..];
        var stamp := U32(curTime - I32((n - i) * BLK_PERIOD_US));
        assert stamp == vals[i];
        prodBlkTs[blkIdx] := stamp;
        assert prodBlkTs[..] == before[blkIdx := stamp];
        WriteRunExtend(ts0, start, vals, i);
        IdxStep(start + i);
        U32AddWrapped(old(out.totalProdBlks) + i, 1);
        blkIdx := NextIdx(blkIdx);
        totalProdBlks := U32(totalProdBlks + 1);
        i := i + 1;
      }
      assert vals[..n] == vals;
      out := out.(prodBlkIdx := blkIdx, totalProdBlks := totalProdBlks);
    }

    /** The "Reduce presentation delay" loop of `stream_out`: the producer index steps back `-n` blocks. */
    method RemoveBlocks(n: int)
      requires Valid() && n < 0
      modifies this`out
      ensures Valid()
      ensures out == old(out).(prodBlkIdx := (old(out.prodBlkIdx) + n) % FIFO_NUM_BLKS)
    {
      var i := 0;
      while i > n
        invariant n <= i <= 0 && Valid()
        invariant out == old(out).(prodBlkIdx := (old(out.prodBlkIdx) + i) % FIFO_NUM_BLKS)
      {
        IdxStep(old(out.prodBlkIdx) + i);
        out := out.(prodBlkIdx := PrevIdx(out.prodBlkIdx));
        i := i - 1;
      }
    }

    /** The output loop of `stream_out`: ten blocks stamped one period apart, then the index advances. */
    method WriteFrame(curTime: u32)
      requires Valid()
      modifies prodBlkTs, this`out
      ensures Valid()
      ensures out == old(out).(prodBlkIdx := (old(out.prodBlkIdx) + NUM_BLKS_IN_FRAME) % FIFO_NUM_BLKS,
                               totalProdBlks := U32(old(out.totalProdBlks) + NUM_BLKS_IN_FRAME))
      ensures prodBlkTs[..] == WriteRun(old(prodBlkTs[..]), old(out.prodBlkIdx), FrameStamps(curTime))
    {
      ghost var start := out.prodBlkIdx;
      ghost var ts0 := prodBlkTs[..];
      ghost var vals := FrameStamps(curTime);
      var outBlkIdx := out.prodBlkIdx;
      var i := 0;
      while i < NUM_BLKS_IN_FRAME
        invariant 0 <= i <= NUM_BLKS_IN_FRAME && out == old(out)
        invariant outBlkIdx == (start + i) % FIFO_NUM_BLKS
        invariant prodBlkTs[..] == WriteRun(ts0, start, vals[..i])
      {
        ghost var before := prodBlkTs[..];
        var stamp := U32(curTime + i * BLK_PERIOD_US);
        assert stamp == vals[i];
        prodBlkTs[outBlkIdx] := stamp;
        assert prodBlkTs[..] == before[outBlkIdx := stamp];
        WriteRunExtend(ts0, start, vals, i);
        IdxStep(start + i);
        outBlkIdx := NextIdx(outBlkIdx);
        i := i + 1;
      }
      assert vals[..NUM_BLKS_IN_FRAME] == vals;
      out := out.(prodBlkIdx := outBlkIdx, totalProdBlks := U32(out.totalProdBlks + NUM_BLKS_IN_FRAME));
    }

    /** The duplicate check and the "drift control" of `audio_datapath_stream_out`. */
    method TimestampCheck(hasBuf: bool, sduRef: u32) returns (accept: bool, ref: u32, missingBlk: nat)
      ensures (if accept then Accept(ref, missingBlk) else Drop) == CheckTimestamp(hasBuf, sduRef, remoteLastTs)
    {
      if sduRef == remoteLastTs {
        return false, sduRef, 0;
      }
      ref := sduRef;
      missingBlk := 0;
      if hasBuf && remoteLastTs != 0 {
        var lastOutDeltaUs := U32(sduRef - remoteLastTs);
        if lastOutDeltaUs < FRAME_DURATION_US + FRAME_DURATION_US / 2 {
          if lastOutDeltaUs > FRAME_DURATION_US + TIMESTAMP_DELTA_MAX_ERR_US
             || lastOutDeltaUs < FRAME_DURATION_US - TIMESTAMP_DELTA_MAX_ERR_US {
            lastOutDeltaUs := FRAME_DURATION_US;
            ref := U32(remoteLastTs + lastOutDeltaUs);
          }
        }
        // The frame is dropped (the `else return`) unless the gap exceeds
        // half a block, which the estimate above always ensures.
        accept := lastOutDeltaUs > BLK_PERIOD_US / 2;
        if accept {
          var lastOutBlk := (lastOutDeltaUs - BLK_PERIOD_US / 2) / BLK_PERIOD_US;
          missingBlk := (lastOutBlk / NUM_BLKS_IN_FRAME) * NUM_BLKS_IN_FRAME;
        }
      } else {
        accept := true;
      }
    }

    /**
     * `audio_datapath_stream_out(buf, size, sdu_ref, bad_frame)` with
     * `hasBuf` for `buf != NULL` and `curTime` for the sync timer reading.
     * Decoding is foreign and the sample data is not modelled; the effect
     * is on the block timestamps, the `out` counters, `remote.last_ts` and
     * the presentation compensation.
     */
    method StreamOut(hasBuf: bool, sduRef: u32, curTime: u32)
      requires Valid()
      modifies prodBlkTs, this`out, this`remoteLastTs, this`pres
      ensures Valid()
      ensures !old(streamStarted) || CheckTimestamp(hasBuf, sduRef, old(remoteLastTs)).Drop? ==>
        out == old(out) && remoteLastTs == old(remoteLastTs) && pres == old(pres)
        && prodBlkTs[..] == old(prodBlkTs[..])
      ensures var v := CheckTimestamp(hasBuf, sduRef, old(remoteLastTs));
        old(streamStarted) && v.Accept? ==>
          var pc := PresComp(PresAfterIngest(old(pres), v.missingBlk), driftAdj.state == DrftLocked,
                             U32(ExpectedDelay(curTime, v.sduRef)), old(out.measPresDlyUs));
          var f := FifoAfterFrame(old(prodBlkTs[..]), old(out), AdjustBlocks(pc.1, v.missingBlk), curTime);
          pres == pc.0 && prodBlkTs[..] == f.0 && out == f.1
          && remoteLastTs == (if hasBuf then v.sduRef else U32(old(remoteLastTs) + FRAME_DURATION_US))
    {
      if !streamStarted {
        return;
      }
      var accept, ref, missingBlk := TimestampCheck(hasBuf, sduRef);
      if !accept {
        return;
      }
      if missingBlk != 0 {
        pres := pres.(adj := pres.adj.(ctr := 0));
        PresCompStateSet(PresWait);
      }
      if hasBuf {
        remoteLastTs := ref;
      } else {
        remoteLastTs := U32(remoteLastTs + FRAME_DURATION_US);
      }
      var expDlyUs := ExpectedDelay(curTime, ref);
      var presAdjUs := PresentationCompensation(U32(expDlyUs));
      var presAdjBlks := AdjustBlocks(presAdjUs, missingBlk);
      OutputFrame(presAdjBlks, curTime);
    }

    /**
     * The FIFO part of `stream_out`: insert or remove `presAdjBlks`
     * blocks, count the frame, and store its blocks unless the overrun
     * test discards it.
     */
    method OutputFrame(presAdjBlks: int, curTime: u32)
      requires Valid()
      modifies prodBlkTs, this`out
      ensures Valid()
      ensures (prodBlkTs[..], out) == FifoAfterFrame(old(prodBlkTs[..]), old(out), presAdjBlks, curTime)
    {
      if presAdjBlks > 0 {
        InsertBlocks(presAdjBlks, curTime);
      } else if presAdjBlks < 0 {
        RemoveBlocks(presAdjBlks);
      }
      out := out.(totalFrames := U32(out.totalFrames + 1));
      var outDlyBlks := out.prodBlkIdx - out.consBlkIdx;
      if outDlyBlks + NUM_BLKS_IN_FRAME > FIFO_NUM_BLKS {
        return;
      }
      WriteFrame(curTime);
    }

    /**
     * `audio_datapath_tone_play(freq, dur_ms, amplitude)`; the tone
     * generator is foreign and `toneGenResult` is what it returns.
     */
    method TonePlay(freq: u16, durMs: u16, toneGenResult: int) returns (ret: int)
      modifies this`toneActive, this`toneTimerMs
      ensures old(toneActive) ==> ret == -EBUSY && toneActive && toneTimerMs == old(toneTimerMs)
      ensures !old(toneActive) && toneGenResult != 0 ==>
        ret == toneGenResult && !toneActive && toneTimerMs == old(toneTimerMs)
      ensures !old(toneActive) && toneGenResult == 0 ==>
        ret == 0 && toneActive && toneTimerMs == old(toneTimerMs) + (if durMs != 0 then [durMs as int] else [])
    {
      if toneActive {
        return -EBUSY;
      }
      ret := toneGenResult;
      if ret != 0 {
        return ret;
      }
      if durMs != 0 {
        toneTimerMs := toneTimerMs + [durMs as int];
      }
      toneActive := true;
      return 0;
    }

    /** `tone_stop_worker`, which the stop timer or `audio_datapath_tone_stop` schedules. */
    method ToneStopWorker()
      modifies this`toneActive
      ensures !toneActive
    {
      toneActive := false;
    }

    /** The `prod_blk_ts` part of `memset(&ctrl_blk.out, 0, ...)`. */
    method ClearBlockStamps()
      requires Valid()
      modifies prodBlkTs
      ensures forall j :: 0 <= j < FIFO_NUM_BLKS ==> prodBlkTs[j] == 0
    {
      forall j | 0 <= j < prodBlkTs.Length {
        prodBlkTs[j] := 0;
      }
    }

    /**
     * The TX half of `audio_datapath_i2s_start`: the consumer index steps
     * back twice and the two blocks it passes are handed to I2S, the later
     * one first.  `rxFifoBusy` says the RX FIFO reported used blocks (or
     * failed to report), `rxGet1` and `rxGet2` are the results of the two
     * requests for an empty RX block; each failure halts.
     */
    method I2sStart(rxFifoBusy: bool, rxGet1: int, rxGet2: int)
      requires Valid() && halted == None
      modifies this`out, this`i2sTx, this`i2sRunning, this`halted
      ensures Valid()
      ensures out == old(out).(consBlkIdx := PrevIdx(PrevIdx(old(out.consBlkIdx))))
      ensures halted == (if rxFifoBusy then Some(-ENOMEM) else if rxGet1 != 0 then Some(rxGet1)
                         else if rxGet2 != 0 then Some(rxGet2) else None)
      ensures halted == None ==>
        i2sRunning && i2sTx == old(i2sTx) + [FifoBlk(PrevIdx(old(out.consBlkIdx))), FifoBlk(out.consBlkIdx)]
      ensures halted != None ==> i2sRunning == old(i2sRunning) && i2sTx == old(i2sTx)
    {
      out := out.(consBlkIdx := PrevIdx(out.consBlkIdx));
      var txBufOne := FifoBlk(out.consBlkIdx);
      out := out.(consBlkIdx := PrevIdx(out.consBlkIdx));
      var txBufTwo := FifoBlk(out.consBlkIdx);
      if rxFifoBusy {
        halted := Some(-ENOMEM);
        return;
      }
      if rxGet1 != 0 {
        halted := Some(rxGet1);
        return;
      }
      if rxGet2 != 0 {
        halted := Some(rxGet2);
        return;
      }
      i2sRunning := true;
      i2sTx := i2sTx + [txBufOne, txBufTwo];
    }

    /**
     * `audio_datapath_start(fifo_rx)`: only an initialised, stopped
     * datapath starts; it clears the output state and starts I2S on the
     * last two FIFO blocks.
     */
    method Start(rxFifoBusy: bool, rxGet1: int, rxGet2: int) returns (ret: int)
      requires Valid() && halted == None
      modifies prodBlkTs, this`out, this`streamStarted, this`i2sTx, this`i2sRunning, this`halted
      ensures Valid()
      ensures !old(datapathInitialized) ==>
        ret == -ECANCELED && unchanged(this) && prodBlkTs[..] == old(prodBlkTs[..])
      ensures old(datapathInitialized) && old(streamStarted) ==>
        ret == -EALREADY && unchanged(this) && prodBlkTs[..] == old(prodBlkTs[..])
      ensures old(datapathInitialized) && !old(streamStarted) ==>
        out == ZeroOut.(consBlkIdx := FIFO_NUM_BLKS - 2)
        && (forall j :: 0 <= j < FIFO_NUM_BLKS ==> prodBlkTs[j] == 0)
        && (halted == None ==>
              ret == 0 && streamStarted && i2sRunning
              && i2sTx == old(i2sTx) + [FifoBlk(FIFO_NUM_BLKS - 1), FifoBlk(FIFO_NUM_BLKS - 2)])
        && (halted != None ==> !streamStarted)
    {
      if !datapathInitialized {
        return -ECANCELED;
      }
      if streamStarted {
        return -EALREADY;
      }
      out := ZeroOut;
      ClearBlockStamps();
      I2sStart(rxFifoBusy, rxGet1, rxGet2);
      if halted != None {
        // The device has halted; no value reaches the caller.
        return 0;
      }
      streamStarted := true;
      return 0;
    }

    /** `audio_datapath_stop`. */
    method Stop() returns (ret: int)
      modifies this`streamStarted, this`i2sRunning, this`remoteLastTs, this`pres
      ensures !old(streamStarted) ==> ret == -EALREADY && unchanged(this)
      ensures old(streamStarted) ==>
        ret == 0 && !streamStarted && !i2sRunning && remoteLastTs == 0
        && pres == PresStateSet(old(pres), PresInit)
    {
      if !streamStarted {
        return -EALREADY;
      }
      streamStarted := false;
      i2sRunning := false;
      remoteLastTs := 0;
      PresCompStateSet(PresInit);
      return 0;
    }

    /**
     * `audio_datapath_init`: `ctrl_blk` is zeroed, the block-complete
     * handler registered and the datapath marked initialised.  The `alt`
     * flags, `tone_active` and the LED are outside `ctrl_blk` and keep
     * their values.
     */
    method Init() returns (ret: int)
      requires Valid()
      modifies prodBlkTs, this`datapathInitialized, this`streamStarted, this`out, this`remoteLastTs
      modifies this`localLastTs, this`driftAdj, this`pres, this`blkCompRegistered
      ensures Valid()
      ensures ret == 0 && datapathInitialized && !streamStarted && blkCompRegistered
      ensures out == ZeroOut && forall j :: 0 <= j < FIFO_NUM_BLKS ==> prodBlkTs[j] == 0
      ensures remoteLastTs == 0 && localLastTs == 0 && driftAdj == ZeroDrift
      ensures pres == old(pres).(adj := ZeroPres)
    {
      datapathInitialized := false;
      streamStarted := false;
      out := ZeroOut;
      ClearBlockStamps();
      remoteLastTs := 0;
      localLastTs := 0;
      driftAdj := ZeroDrift;
      pres := pres.(adj := ZeroPres);
      blkCompRegistered := true;
      datapathInitialized := true;
      return 0;
    }
  }
}
