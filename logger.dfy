/** The accelerometer logger thread (app/sensors/adxl.py, lines 64-188): bring-up of the three
    devices, per-device offset calibration, and the fixed-period sampling loop that publishes
    each calibrated triple as the latest snapshot, as one CSV row, and to the sender. */
module AdxlLogger {
  import opened Records
  import opened Bus
  import opened Config
  import opened Adxl
  import Median
  import RealtimeSender

  /** The multiplexer write that selects a (valid) channel. */
  function SelectOp(channel: int): Op
    requires 0 <= channel <= 7
  {
    WriteByte(MuxAddr, SelectMask(channel).value)
  }

  /** The block read of adxl_read_z. */
  const ReadZOp: Op := ReadBlock(AdxlAddr, DataZ0, 2)

  /** n consecutive Z reads. */
  function ZReads(n: nat): (ops: seq<Op>)
    ensures |ops| == n
    ensures forall i :: 0 <= i < n ==> ops[i] == ReadZOp
  {
    if n == 0 then [] else ZReads(n - 1) + [ReadZOp]
  }

  // ---------------------------------------------------------------- calibration

  /** Discarded reads after switching the multiplexer, and measured reads, of _calc_offset. */
  const Discard: nat := 20
  const Samples: nat := 200

  /** The values of the successful reads among the `count` reads answered by
      respond(start), ..., respond(start + count - 1), in order. */
  function Collected(respond: nat -> Reply, start: nat, count: nat): (vals: seq<int>)
    ensures |vals| <= count
    ensures forall i :: 0 <= i < |vals| ==> -0x8000 <= vals[i] <= 0x7FFF
  {
    if count == 0 then []
    else
      var prefix := Collected(respond, start, count - 1);
      var res := ZReading(respond(start + count - 1));
      if res.0 == 0 then prefix + [res.1] else prefix
  }

  /** Only the replies to the measured reads matter: two environments that agree on them
      collect the same values, whatever the replies before them (among them the discarded reads). */
  lemma {:induction false} CollectedDependsOnlyOnItsReads(r1: nat -> Reply, r2: nat -> Reply, start: nat, count: nat)
    requires forall i :: start <= i < start + count ==> r1(i) == r2(i)
    ensures Collected(r1, start, count) == Collected(r2, start, count)
  {
    if count > 0 {
      CollectedDependsOnlyOnItsReads(r1, r2, start, count - 1);
      assert r1(start + count - 1) == r2(start + count - 1);
    }
  }

  /** When every measured read fails, nothing is collected. */
  lemma {:induction false} CollectedAllFailed(respond: nat -> Reply, start: nat, count: nat)
    requires forall i :: start <= i < start + count ==> ZReading(respond(i)).0 != 0
    ensures Collected(respond, start, count) == []
  {
    if count > 0 {
      CollectedAllFailed(respond, start, count - 1);
    }
  }

  /** A device that always answers with the same two bytes is collected as that one value. */
  lemma {:induction false} CollectedConstant(respond: nat -> Reply, start: nat, count: nat, lo: byte, hi: byte)
    requires forall i :: start <= i < start + count ==> respond(i) == Done([lo, hi])
    ensures Collected(respond, start, count) == seq(count, _ => DecodeZ(lo, hi))
  {
    if count > 0 {
      CollectedConstant(respond, start, count - 1, lo, hi);
      assert respond(start + count - 1) == Done([lo, hi]);
    }
  }

  /** The (err, offset) result of _calc_offset(channel, discard, samples) when its
      multiplexer write is the operation at position t of the bus. */
  function CalibrationResult(respond: nat -> Reply, t: nat, channel: int, discard: nat, samples: nat): (res: (int, int))
    ensures res.0 == 0 || res == (1, 0)
    ensures !(0 <= channel <= 7) || respond(t).OSError? ==> res == (1, 0)
    ensures res.0 == 0 ==> -0x8000 <= res.1 <= 0x7FFF
  {
    if !(0 <= channel <= 7) || respond(t).OSError? then (1, 0)
    else MeasuredOffset(respond, t + 1, discard, samples)
  }

  /** The result of the reads of _calc_offset that start at position t of the bus: `discard`
      ignored reads, then the median of the successful ones among `samples` reads. */
  function MeasuredOffset(respond: nat -> Reply, t: nat, discard: nat, samples: nat): (res: (int, int))
    ensures res.0 == 0 || res == (1, 0)
    ensures res.0 == 0 ==> -0x8000 <= res.1 <= 0x7FFF
  {
    var vals := Collected(respond, t + discard, samples);
    var res := Median.OffsetOf(vals);
    assert res.0 == 0 ==> res.1 in vals;
    res
  }

  /** The bus operations _calc_offset(channel, discard, samples) issues from position t. */
  function CalibrationOps(respond: nat -> Reply, t: nat, channel: int, discard: nat, samples: nat): (ops: seq<Op>)
    ensures |ops| == if !(0 <= channel <= 7) then 0 else if respond(t).OSError? then 1 else 1 + discard + samples
    ensures ops != [] ==> ops[0] == SelectOp(channel)
    ensures forall i :: 1 <= i < |ops| ==> ops[i] == ReadZOp
  {
    if !(0 <= channel <= 7) then []
    else if respond(t).OSError? then [SelectOp(channel)]
    else [SelectOp(channel)] + ZReads(discard + samples)
  }

  /** A calibration of a device that always returns the same reading yields that reading. */
  lemma ConstantDeviceOffset(respond: nat -> Reply, t: nat, channel: int, lo: byte, hi: byte)
    requires 0 <= channel <= 7 && !respond(t).OSError?
    requires forall i :: t + 1 + Discard <= i < t + 1 + Discard + Samples ==> respond(i) == Done([lo, hi])
    ensures CalibrationResult(respond, t, channel, Discard, Samples) == (0, DecodeZ(lo, hi))
  {
    var start := t + 1 + Discard;
    var vals := Collected(respond, start, Samples);
    CollectedConstant(respond, start, Samples, lo, hi);
    assert |vals| == Samples;
    var off := Median.OffsetOf(vals);
    assert off.1 in vals;
    var i :| 0 <= i < |vals| && vals[i] == off.1;
    assert CalibrationResult(respond, t, channel, Discard, Samples) == off;
  }

  /** The discarded reads never influence a calibration: two environments that agree on the
      multiplexer write and on the measured reads calibrate alike, whatever the discarded
      reads returned. */
  lemma DiscardIrrelevant(r1: nat -> Reply, r2: nat -> Reply, t: nat, channel: int, discard: nat, samples: nat)
    requires r1(t) == r2(t)
    requires forall i :: t + 1 + discard <= i < t + 1 + discard + samples ==> r1(i) == r2(i)
    ensures CalibrationResult(r1, t, channel, discard, samples) == CalibrationResult(r2, t, channel, discard, samples)
  {
    CollectedDependsOnlyOnItsReads(r1, r2, t + 1 + discard, samples);
    assert MeasuredOffset(r1, t + 1, discard, samples) == MeasuredOffset(r2, t + 1, discard, samples);
  }

  /** A calibration in which every measured read fails reports failure with offset 0. */
  lemma NoSuccessfulReads(respond: nat -> Reply, t: nat, channel: int, discard: nat, samples: nat)
    requires forall i :: t + 1 + discard <= i < t + 1 + discard + samples ==> ZReading(respond(i)).0 != 0
    ensures CalibrationResult(respond, t, channel, discard, samples) == (1, 0)
  {
    var start := t + 1 + discard;
    CollectedAllFailed(respond, start, samples);
    assert MeasuredOffset(respond, t + 1, discard, samples) == Median.OffsetOf(Collected(respond, start, samples));
  }

  /** A successful calibration's offset is one of the collected values, between their least
      and greatest. */
  lemma CalibrationInRange(respond: nat -> Reply, t: nat, channel: int, discard: nat, samples: nat)
    requires CalibrationResult(respond, t, channel, discard, samples).0 == 0
    ensures var vals := Collected(respond, t + 1 + discard, samples);
      && vals != []
      && CalibrationResult(respond, t, channel, discard, samples).1 in vals
      && Median.Min(vals) <= CalibrationResult(respond, t, channel, discard, samples).1 <= Median.Max(vals)
  {
    var vals := Collected(respond, t + 1 + discard, samples);
    assert MeasuredOffset(respond, t + 1, discard, samples) == Median.OffsetOf(vals);
    Median.OffsetWithinRange(vals);
  }

  /** The first loop of _calc_offset: `count` reads whose values are thrown away. */
  method DiscardReads(bus: SMBus, count: nat)
    modifies bus
    ensures bus.trace == old(bus.trace) + ZReads(count)
  {
    var i := 0;
    while i < count
      invariant 0 <= i <= count
      invariant bus.trace == old(bus.trace) + ZReads(i)
    {
      var _, _ := ReadZ(bus);
      i := i + 1;
    }
  }

  /** The second loop of _calc_offset: `count` reads, keeping the values of the successful ones. */
  method CollectReads(bus: SMBus, count: nat) returns (vals: seq<int>)
    modifies bus
    ensures bus.trace == old(bus.trace) + ZReads(count)
    ensures vals == Collected(bus.respond, |old(bus.trace)|, count)
  {
    vals := [];
    var i := 0;
    while i < count
      invariant 0 <= i <= count
      invariant bus.trace == old(bus.trace) + ZReads(i)
      invariant vals == Collected(bus.respond, |old(bus.trace)|, i)
    {
      var e, z := ReadZ(bus);
      if e == 0 {
        vals := vals + [z];
      }
      i := i + 1;
    }
  }

  /** The reads of _calc_offset after its channel is selected: discard, collect, take the
      element at index len/2 of the sorted values, or (1, 0) when none succeeded. */
  method MeasureOffset(bus: SMBus, discard: nat, samples: nat) returns (err: int, offset: int)
    modifies bus
    ensures bus.trace == old(bus.trace) + ZReads(discard + samples)
    ensures (err, offset) == MeasuredOffset(bus.respond, |old(bus.trace)|, discard, samples)
  {
    DiscardReads(bus, discard);
    var vals := CollectReads(bus, samples);
    ZReadsConcat(discard, samples);
    if vals == [] {
      return 1, 0;
    }
    var sorted := Median.SortAsc(vals);
    return 0, sorted[|vals| / 2];
  }

  /** _calc_offset: select the channel, throw away `discard` reads, keep the successful ones
      of `samples` reads, and return the element at index len/2 of their sorted list.
      Every failure (a bad channel, a failed multiplexer write, no successful read) is (1, 0). */
  method CalcOffset(bus: SMBus, channel: int, discard: nat, samples: nat) returns (err: int, offset: int)
    modifies bus
    ensures bus.trace == old(bus.trace) + CalibrationOps(bus.respond, |old(bus.trace)|, channel, discard, samples)
    ensures (err, offset) == CalibrationResult(bus.respond, |old(bus.trace)|, channel, discard, samples)
  {
    var s := Select(bus, channel);
    if s != Selected {
      return 1, 0;
    }
    ghost var t := |old(bus.trace)|;
    assert |bus.trace| == t + 1;
    err, offset := MeasureOffset(bus, discard, samples);
    SeqAssoc(old(bus.trace), [SelectOp(channel)], ZReads(discard + samples));
  }

  lemma SeqAssoc<T>(a: seq<T>, b: seq<T>, c: seq<T>)
    ensures (a + b) + c == a + (b + c)
  {
  }

  lemma {:induction false} ZReadsConcat(m: nat, n: nat)
    ensures ZReads(m) + ZReads(n) == ZReads(m + n)
  {
    if n == 0 {
      assert ZReads(m) + [] == ZReads(m);
    } else {
      ZReadsConcat(m, n - 1);
      assert ZReads(m) + ZReads(n) == (ZReads(m) + ZReads(n - 1)) + [ReadZOp];
    }
  }

  // ---------------------------------------------------------------- timing of the sampling loop

  /** A round is due when a whole period has passed since the deadline cursor. */
  predicate Due(previousUs: int, nowUs: int)
    ensures Due(previousUs, nowUs) ==> previousUs < nowUs
  {
    nowUs - previousUs >= IntervalUs
  }

  /** Once a round is due, it stays due at every later clock reading until it fires. */
  lemma DueStaysDue(previousUs: int, nowUs: int, laterUs: int)
    requires Due(previousUs, nowUs) && nowUs <= laterUs
    ensures Due(previousUs, laterUs)
  {
  }

  /** The cursor after one poll of the clock: advanced by exactly one period when due. */
  function Advance(previousUs: int, nowUs: int): (r: int)
    ensures r == previousUs || r == previousUs + IntervalUs
    ensures r != previousUs <==> Due(previousUs, nowUs)
    ensures Due(previousUs, nowUs) ==> r <= nowUs
  {
    if Due(previousUs, nowUs) then previousUs + IntervalUs else previousUs
  }

  /** The cursor after polling the first n clock readings in order. */
  function Deadline(startUs: int, clock: seq<int>, n: nat): (d: int)
    requires n <= |clock|
    ensures startUs <= d <= startUs + IntervalUs * n
  {
    if n == 0 then startUs else Advance(Deadline(startUs, clock, n - 1), clock[n - 1])
  }

  /** How many rounds fire while polling the first n clock readings in order. */
  function Fires(startUs: int, clock: seq<int>, n: nat): (f: nat)
    requires n <= |clock|
    ensures f <= n
  {
    if n == 0 then 0
    else Fires(startUs, clock, n - 1) + (if Due(Deadline(startUs, clock, n - 1), clock[n - 1]) then 1 else 0)
  }

  /** The cursor is additive: after k rounds it is exactly k periods past the start. */
  lemma {:induction false} DeadlineCountsPeriods(startUs: int, clock: seq<int>, n: nat)
    requires n <= |clock|
    ensures Deadline(startUs, clock, n) == startUs + IntervalUs * Fires(startUs, clock, n)
  {
    if n > 0 {
      DeadlineCountsPeriods(startUs, clock, n - 1);
    }
  }

  /** The clock is read at least once per period and never goes back. */
  ghost predicate PolledEveryPeriod(startUs: int, clock: seq<int>) {
    && (clock != [] ==> 0 <= clock[0] - startUs <= IntervalUs)
    && (forall i :: 0 < i < |clock| ==> 0 <= clock[i] - clock[i - 1] <= IntervalUs)
  }

  /** Polled at least once per period, the loop never runs ahead of the clock and never
      falls a whole period behind it. */
  lemma {:induction false} KeepsPace(startUs: int, clock: seq<int>, n: nat)
    requires 0 < n <= |clock| && PolledEveryPeriod(startUs, clock)
    ensures clock[n - 1] - IntervalUs < Deadline(startUs, clock, n) <= clock[n - 1]
  {
    if n > 1 {
      KeepsPace(startUs, clock, n - 1);
      assert 0 <= clock[n - 1] - clock[n - 2] <= IntervalUs;
    }
  }

  /** With zero processing delay and the clock polled at least once per period, the number of
      rounds equals the number of whole periods elapsed since the start. */
  lemma FiresMatchElapsed(startUs: int, clock: seq<int>)
    requires clock != [] && PolledEveryPeriod(startUs, clock)
    ensures Fires(startUs, clock, |clock|) == (clock[|clock| - 1] - startUs) / IntervalUs
  {
    KeepsPace(startUs, clock, |clock|);
    DeadlineCountsPeriods(startUs, clock, |clock|);
  }

  /** A loop that has fallen two periods behind fires again at the very same clock reading:
      missed periods are caught up one round per poll, not skipped. */
  lemma CatchUpWhenBehind(previousUs: int, nowUs: int)
    requires nowUs - previousUs >= 2 * IntervalUs
    ensures Due(previousUs, nowUs) && Due(Advance(previousUs, nowUs), nowUs)
  {
  }

  // ---------------------------------------------------------------- one sampling round

  /** The six bus operations of a round: for each device in order, select then read. */
  function RoundOps(): (ops: seq<Op>)
    ensures ops == [SelectOp(ChAdxl1), ReadZOp, SelectOp(ChAdxl2), ReadZOp, SelectOp(ChAdxl3), ReadZOp]
  {
    ChannelsInRange();
    ChannelOps(ChAdxl1) + ChannelOps(ChAdxl2) + ChannelOps(ChAdxl3)
  }

  /** The two operations of one "# Zk" block: select the channel, read Z. */
  function ChannelOps(channel: int): seq<Op>
    requires 0 <= channel <= 7
  {
    [SelectOp(channel), ReadZOp]
  }

  /** Whether some multiplexer write of the round starting at bus position t raises. */
  predicate RoundFaults(respond: nat -> Reply, t: nat) {
    respond(t).OSError? || respond(t + 2).OSError? || respond(t + 4).OSError?
  }

  /** The triple of a round starting at bus position t: raw reading minus offset per device,
      a failed read counting as a raw reading of 0. */
  function RoundTriple(respond: nat -> Reply, t: nat, o1: int, o2: int, o3: int): (tr: Triple)
    ensures ZReading(respond(t + 1)).0 != 0 ==> tr.z1 == -o1
    ensures ZReading(respond(t + 3)).0 != 0 ==> tr.z2 == -o2
    ensures ZReading(respond(t + 5)).0 != 0 ==> tr.z3 == -o3
    ensures -0x8000 - o1 <= tr.z1 <= 0x7FFF - o1 && -0x8000 - o2 <= tr.z2 <= 0x7FFF - o2
    ensures -0x8000 - o3 <= tr.z3 <= 0x7FFF - o3
  {
    Triple(ZReading(respond(t + 1)).1 - o1, ZReading(respond(t + 3)).1 - o2, ZReading(respond(t + 5)).1 - o3)
  }

  /** The triple of the j-th of back-to-back rounds from bus position t: each round issues
      six operations, so the j-th starts six operations after the (j-1)-th. */
  function RoundAt(respond: nat -> Reply, t: nat, j: nat, o1: int, o2: int, o3: int): Triple
    decreases j
  {
    if j == 0 then RoundTriple(respond, t, o1, o2, o3) else RoundAt(respond, t + 6, j - 1, o1, o2, o3)
  }

  /** The j-th round starts 6·j operations after bus position t. */
  lemma {:induction false} RoundAtStart(respond: nat -> Reply, t: nat, j: nat, o1: int, o2: int, o3: int)
    ensures RoundAt(respond, t, j, o1, o2, o3) == RoundTriple(respond, t + 6 * j, o1, o2, o3)
    decreases j
  {
    if j > 0 {
      RoundAtStart(respond, t + 6, j - 1, o1, o2, o3);
    }
  }

  /** The triples of k fault-free rounds issued back to back from bus position t. */
  function Rounds(respond: nat -> Reply, t: nat, k: nat, o1: int, o2: int, o3: int): (rows: seq<Triple>)
    ensures |rows| == k
  {
    if k == 0 then [] else Rounds(respond, t, k - 1, o1, o2, o3) + [RoundAt(respond, t, k - 1, o1, o2, o3)]
  }

  /** A log that held k rounds after x0 holds k + 1 once the next round's triple is appended. */
  lemma RoundsStep(x0: seq<Triple>, x: seq<Triple>, x2: seq<Triple>, respond: nat -> Reply, t: nat, k: nat,
                   o1: int, o2: int, o3: int, tr: Triple)
    requires x == x0 + Rounds(respond, t, k, o1, o2, o3)
    requires x2 == x + [tr] && tr == RoundAt(respond, t, k, o1, o2, o3)
    ensures x2 == x0 + Rounds(respond, t, k + 1, o1, o2, o3)
  {
    SeqAssoc(x0, Rounds(respond, t, k, o1, o2, o3), [tr]);
  }

  /** Row j of k back-to-back rounds is the round that starts 6·j operations in. */
  lemma {:induction false} RoundsIndex(respond: nat -> Reply, t: nat, k: nat, o1: int, o2: int, o3: int)
    ensures forall j :: 0 <= j < k ==>
      Rounds(respond, t, k, o1, o2, o3)[j] == RoundTriple(respond, t + 6 * j, o1, o2, o3)
  {
    if k > 0 {
      RoundsIndex(respond, t, k - 1, o1, o2, o3);
      RoundAtStart(respond, t, k - 1, o1, o2, o3);
    }
  }

  /** What the sampling loop can observe of the thread and its sender: the length of the bus
      trace, whether the thread has ended, the deadline cursor, the CSV rows, the latest
      snapshot, and the sender's ADXL history and buffer. */
  datatype LoopState = LoopState(traceLen: nat, halted: bool, previousUs: int, rows: seq<Triple>,
                                 latest: Option<Triple>, pushed: seq<Triple>, buf: seq<Triple>)

  /** Where the sampling loop started: bus position, cursor, CSV rows, sender history and
      buffer, and snapshot. */
  datatype Origin = Origin(t0: nat, start: int, rows0: seq<Triple>, pushed0: seq<Triple>,
                           buf0: seq<Triple>, latest0: Option<Triple>)

  /** After k fault-free rounds from origin org, they have been logged, sent and buffered in
      order, the snapshot is the last of them, and, without a fault, the bus has seen exactly
      their operations. */
  ghost predicate Tracked(respond: nat -> Reply, o1: int, o2: int, o3: int, org: Origin, k: nat,
                          hasSender: bool, s: LoopState)
  {
    var done := Rounds(respond, org.t0, k, o1, o2, o3);
    && s.rows == org.rows0 + done
    && (hasSender ==> s.pushed == org.pushed0 + done && s.buf == org.buf0 + done)
    && (!s.halted ==> s.traceLen == org.t0 + 6 * k)
    && s.latest == (if k == 0 then org.latest0 else Some(done[k - 1]))
  }

  /** The effect of one pass of the sampling loop at clock reading nowUs, from s to s2: either
      a due round read its triple without a fault and published it, six operations later, or
      nothing was published, and then, unless the thread ended, the bus was untouched and no
      round was due. */
  ghost predicate Stepped(respond: nat -> Reply, o1: int, o2: int, o3: int, hasSender: bool,
                          nowUs: int, s: LoopState, s2: LoopState)
  {
    var tr := RoundTriple(respond, s.traceLen, o1, o2, o3);
    && s2.previousUs == Advance(s.previousUs, nowUs)
    && (|| (&& Due(s.previousUs, nowUs) && !s2.halted && s2.traceLen == s.traceLen + 6
            && s2.rows == s.rows + [tr] && s2.latest == Some(tr)
            && (hasSender ==> s2.pushed == s.pushed + [tr] && s2.buf == s.buf + [tr]))
        || (&& s2.rows == s.rows && s2.latest == s.latest
            && (hasSender ==> s2.pushed == s.pushed && s2.buf == s.buf)
            && (!s2.halted ==> s2.traceLen == s.traceLen && !Due(s.previousUs, nowUs))))
  }

  /** One pass keeps the loop tracked, with one more round exactly when a row was
      published, which, unless the thread ended, is exactly when a round was due. */
  lemma TrackedStep(respond: nat -> Reply, o1: int, o2: int, o3: int, org: Origin, k: nat,
                    hasSender: bool, nowUs: int, s: LoopState, s2: LoopState)
    requires Tracked(respond, o1, o2, o3, org, k, hasSender, s) && !s.halted
    requires Stepped(respond, o1, o2, o3, hasSender, nowUs, s, s2)
    ensures Tracked(respond, o1, o2, o3, org, if |s2.rows| > |s.rows| then k + 1 else k, hasSender, s2)
    ensures !s2.halted ==> (|s2.rows| > |s.rows| <==> Due(s.previousUs, nowUs))
  {
    var tr := RoundTriple(respond, s.traceLen, o1, o2, o3);
    if |s2.rows| > |s.rows| {
      RoundAtStart(respond, org.t0, k, o1, o2, o3);
      RoundsStep(org.rows0, s.rows, s2.rows, respond, org.t0, k, o1, o2, o3, tr);
      if hasSender {
        RoundsStep(org.pushed0, s.pushed, s2.pushed, respond, org.t0, k, o1, o2, o3, tr);
        RoundsStep(org.buf0, s.buf, s2.buf, respond, org.t0, k, o1, o2, o3, tr);
      }
    }
  }

  /** The measured reads of a calibration starting at position c all answer the bytes lo, hi. */
  ghost predicate SteadyDuringCalibration(respond: nat -> Reply, c: nat, lo: byte, hi: byte) {
    forall i :: c + 1 + Discard <= i < c + 1 + Discard + Samples ==> respond(i) == Done([lo, hi])
  }

  /** Three devices at rest, each answering the same bytes during its calibration and in a later
      round, give that round the calibrated triple (0, 0, 0). */
  lemma SteadyDevicesReadZero(respond: nat -> Reply, c1: nat, c2: nat, c3: nat, t: nat,
                              lo1: byte, hi1: byte, lo2: byte, hi2: byte, lo3: byte, hi3: byte)
    requires !respond(c1).OSError? && !respond(c2).OSError? && !respond(c3).OSError?
    requires SteadyDuringCalibration(respond, c1, lo1, hi1)
    requires SteadyDuringCalibration(respond, c2, lo2, hi2)
    requires SteadyDuringCalibration(respond, c3, lo3, hi3)
    requires respond(t + 1) == Done([lo1, hi1])
    requires respond(t + 3) == Done([lo2, hi2])
    requires respond(t + 5) == Done([lo3, hi3])
    ensures RoundTriple(respond, t,
                        Fallback(CalibrationResult(respond, c1, ChAdxl1, Discard, Samples)),
                        Fallback(CalibrationResult(respond, c2, ChAdxl2, Discard, Samples)),
                        Fallback(CalibrationResult(respond, c3, ChAdxl3, Discard, Samples)))
            == Triple(0, 0, 0)
  {
    ChannelsInRange();
    SteadyReadingCancels(respond, c1, ChAdxl1, t + 1, lo1, hi1);
    SteadyReadingCancels(respond, c2, ChAdxl2, t + 3, lo2, hi2);
    SteadyReadingCancels(respond, c3, ChAdxl3, t + 5, lo3, hi3);
  }

  /** One device at rest: its later reading minus its calibrated offset is 0. */
  lemma SteadyReadingCancels(respond: nat -> Reply, c: nat, channel: int, k: nat, lo: byte, hi: byte)
    requires 0 <= channel <= 7 && !respond(c).OSError?
    requires SteadyDuringCalibration(respond, c, lo, hi)
    requires respond(k) == Done([lo, hi])
    ensures ZReading(respond(k)).1 - Fallback(CalibrationResult(respond, c, channel, Discard, Samples)) == 0
  {
    ConstantDeviceOffset(respond, c, channel, lo, hi);
  }

  // ---------------------------------------------------------------- the logger

  class Logger {
    /** The sender the triples are pushed to, if any. */
    const sender: RealtimeSender.Sender?

    var running: bool
    /** Set when run() has ended because of an exception (a failed multiplexer write). */
    var halted: bool

    var offsetZ1: int
    var offsetZ2: int
    var offsetZ3: int

    /** The latest published triple, None before the first round. */
    var latest: Option<Triple>
    /** The data rows of the CSV log (after its Z1,Z2,Z3 header), oldest first. */
    var csvRows: seq<Triple>
    /** The deadline cursor of the sampling loop. */
    var previousUs: int
    /** The clock reading taken when the sampling loop started. */
    ghost var startUs: int

    /** Every published round advanced the cursor by exactly one period. */
    ghost predicate Valid()
      reads this
    {
      halted || previousUs == startUs + IntervalUs * |csvRows|
    }

    constructor (sender: RealtimeSender.Sender?)
      ensures Valid()
      ensures this.sender == sender && running && !halted
      ensures offsetZ1 == 0 && offsetZ2 == 0 && offsetZ3 == 0
      ensures latest == None && csvRows == []
    {
      this.sender := sender;
      running, halted := true, false;
      offsetZ1, offsetZ2, offsetZ3 := 0, 0, 0;
      latest, csvRows := None, [];
      previousUs, startUs := 0, 0;
    }

    method Stop()
      modifies this
      ensures !running
      ensures halted == old(halted) && latest == old(latest) && csvRows == old(csvRows)
      ensures previousUs == old(previousUs) && startUs == old(startUs)
      ensures offsetZ1 == old(offsetZ1) && offsetZ2 == old(offsetZ2) && offsetZ3 == old(offsetZ3)
    {
      running := false;
    }

    method GetLatest() returns (r: Option<Triple>)
      ensures r == latest
    {
      r := latest;
    }

    /** The start of run(): bring up the three devices, calibrate each, fall back to an
        offset of 0 for a failed calibration, start a fresh CSV log and the deadline cursor.
        A failed multiplexer write during bring-up ends the thread. */
    method Setup(bus: SMBus, nowUs: int)
      modifies this, bus
      ensures var r, t := bus.respond, |old(bus.trace)|;
        && (BringUpFaults(r, t) ==>
              && halted && csvRows == old(csvRows) && latest == old(latest)
              && offsetZ1 == old(offsetZ1) && offsetZ2 == old(offsetZ2) && offsetZ3 == old(offsetZ3))
        && (!BringUpFaults(r, t) ==>
              && bus.trace == old(bus.trace) + BringUpOps() + SetupCalibrationOps(r, t + 12)
              && offsetZ1 == Fallback(CalibrationResult(r, t + 12, ChAdxl1, Discard, Samples))
              && offsetZ2 == Fallback(CalibrationResult(r, CalibrationStart2(r, t + 12), ChAdxl2, Discard, Samples))
              && offsetZ3 == Fallback(CalibrationResult(r, CalibrationStart3(r, t + 12), ChAdxl3, Discard, Samples))
              && halted == old(halted) && csvRows == [] && latest == old(latest)
              && previousUs == nowUs && startUs == nowUs)
      ensures !halted ==> Valid()
      ensures running == old(running)
    {
      ChannelsInRange();
      var ok := BringUpAll(bus);
      if !ok {
        halted := true;
        return;
      }
      assert |bus.trace| == |old(bus.trace)| + 12;
      offsetZ1, offsetZ2, offsetZ3 := CalibrateAll(bus);
      csvRows := [];
      previousUs, startUs := nowUs, nowUs;
    }

    /** Append a round's triple to the snapshot, the CSV log and the sender, in that order. */
    method Publish(tr: Triple)
      requires sender != null ==> sender.Valid()
      modifies this, sender
      ensures sender != null ==> sender.Valid()
      ensures latest == Some(tr) && csvRows == old(csvRows) + [tr]
      ensures sender != null ==> SenderGot(sender, tr)
      ensures running == old(running) && halted == old(halted) && previousUs == old(previousUs)
      ensures startUs == old(startUs)
      ensures offsetZ1 == old(offsetZ1) && offsetZ2 == old(offsetZ2) && offsetZ3 == old(offsetZ3)
    {
      latest := Some(tr);
      csvRows := csvRows + [tr];
      if sender != null {
        sender.PushAdxlSample(tr.z1, tr.z2, tr.z3);
      }
    }

    /** One pass of the sampling loop at clock reading nowUs (microseconds). Returns whether
        a round fired. A fired round reads the three devices in order and publishes the same
        calibrated triple as the latest snapshot, as one CSV row and to the sender; a failed
        multiplexer write ends the thread before anything is published. */
    method Tick(bus: SMBus, nowUs: int) returns (fired: bool)
      requires Valid()
      requires sender != null ==> sender.Valid()
      modifies this, bus, sender
      ensures Valid()
      ensures sender != null ==> sender.Valid()
      ensures fired == Due(old(previousUs), nowUs)
      ensures previousUs == Advance(old(previousUs), nowUs)
      ensures old(halted) ==> halted
      ensures !fired ==> bus.trace == old(bus.trace) && halted == old(halted)
      ensures var ok := fired && !RoundFaults(bus.respond, |old(bus.trace)|);
        var tr := RoundTriple(bus.respond, |old(bus.trace)|, offsetZ1, offsetZ2, offsetZ3);
        && (ok ==>
              && bus.trace == old(bus.trace) + RoundOps()
              && halted == old(halted) && latest == Some(tr) && csvRows == old(csvRows) + [tr]
              && (sender != null ==> SenderGot(sender, tr)))
        && (!ok ==> latest == old(latest) && csvRows == old(csvRows)
                    && (sender != null ==> SenderUnchanged(sender)))
      ensures fired && RoundFaults(bus.respond, |old(bus.trace)|) ==>
        halted && old(bus.trace) <= bus.trace <= old(bus.trace) + RoundOps()
      ensures running == old(running) && startUs == old(startUs)
      ensures offsetZ1 == old(offsetZ1) && offsetZ2 == old(offsetZ2) && offsetZ3 == old(offsetZ3)
    {
      fired := nowUs - previousUs >= IntervalUs;
      if !fired {
        return;
      }
      previousUs := previousUs + IntervalUs;
      var ok, tr := ReadRound(bus, offsetZ1, offsetZ2, offsetZ3);
      if !ok {
        halted := true;
        return;
      }
      Publish(tr);
    }

    /** The part of the thread and its sender that the sampling loop tracks. */
    ghost function State(bus: SMBus): LoopState
      reads this, bus, sender
    {
      LoopState(|bus.trace|, halted, previousUs, csvRows, latest,
                if sender != null then sender.pushedAdxl else [],
                if sender != null then sender.adxlBuf else [])
    }

    /** The sampling loop has published k rounds from origin org as Tracked says, and the
        cursor and sender invariants hold. */
    ghost predicate Progress(bus: SMBus, org: Origin, k: nat)
      reads this, bus, sender
    {
      && Valid()
      && (sender != null ==> sender.Valid())
      && Tracked(bus.respond, offsetZ1, offsetZ2, offsetZ3, org, k, sender != null, State(bus))
    }

    /** One pass of the sampling loop at clock reading nowUs, with the rows counted: it
        keeps Progress, advances the cursor, and, unless the thread ended, counts one more
        round exactly when one was due. */
    method Poll(bus: SMBus, nowUs: int, ghost org: Origin, ghost k: nat) returns (ghost k2: nat)
      requires !halted
      requires Progress(bus, org, k)
      modifies this, bus, sender
      ensures Progress(bus, org, k2)
      ensures previousUs == Advance(old(previousUs), nowUs)
      ensures !halted ==> k2 == k + (if Due(old(previousUs), nowUs) then 1 else 0)
      ensures sender != null ==> SenderRestUnchanged(sender)
      ensures running == old(running) && startUs == old(startUs)
      ensures offsetZ1 == old(offsetZ1) && offsetZ2 == old(offsetZ2) && offsetZ3 == old(offsetZ3)
    {
      ghost var s := State(bus);
      var fired := Tick(bus, nowUs);
      TrackedStep(bus.respond, offsetZ1, offsetZ2, offsetZ3, org, k, sender != null, nowUs, s, State(bus));
      k2 := if |csvRows| > |s.rows| then k + 1 else k;
    }

    /** The sampling loop over successive clock readings, while running and not halted.
        Without a fault, the cursor and the number of rows follow Deadline and Fires; the
        new CSV rows are the calibrated rounds read in order from the bus, and the sender
        receives and buffers exactly those rows, in order. */
    method SampleLoop(bus: SMBus, clock: seq<int>)
      requires Valid()
      requires sender != null ==> sender.Valid()
      modifies this, bus, sender
      ensures Valid()
      ensures sender != null ==> sender.Valid()
      ensures running == old(running)
      ensures !old(running) || old(halted) ==> previousUs == old(previousUs) && csvRows == old(csvRows)
      ensures old(running) && !halted ==>
        && previousUs == Deadline(old(previousUs), clock, |clock|)
        && |csvRows| == |old(csvRows)| + Fires(old(previousUs), clock, |clock|)
      ensures old(csvRows) <= csvRows
      ensures sender != null ==> sender.pushedAdxl == old(sender.pushedAdxl) + csvRows[|old(csvRows)|..]
      ensures offsetZ1 == old(offsetZ1) && offsetZ2 == old(offsetZ2) && offsetZ3 == old(offsetZ3)
      ensures csvRows[|old(csvRows)|..]
              == Rounds(bus.respond, |old(bus.trace)|, |csvRows| - |old(csvRows)|, offsetZ1, offsetZ2, offsetZ3)
      ensures sender != null ==>
        sender.adxlBuf == old(sender.adxlBuf) + csvRows[|old(csvRows)|..] && SenderRestUnchanged(sender)
      ensures |csvRows| > |old(csvRows)| ==> latest == Some(csvRows[|csvRows| - 1])
      ensures |csvRows| == |old(csvRows)| ==> latest == old(latest)
    {
      ghost var pushed0 := if sender != null then sender.pushedAdxl else [];
      ghost var buf0 := if sender != null then sender.adxlBuf else [];
      ghost var org := Origin(|bus.trace|, previousUs, csvRows, pushed0, buf0, latest);
      ghost var k, n := PollLoop(bus, clock, org);
      assert csvRows[|old(csvRows)|..] == Rounds(bus.respond, org.t0, k, offsetZ1, offsetZ2, offsetZ3);
    }

    /** The while loop of run(): poll successive clock readings while running and not halted,
        keeping Progress from origin org; without a fault, the cursor and the round count
        follow Deadline and Fires of the readings polled, which are all of them unless the
        thread was stopped. */
    method PollLoop(bus: SMBus, clock: seq<int>, ghost org: Origin) returns (ghost k: nat, ghost n: nat)
      requires Progress(bus, org, 0)
      requires previousUs == org.start
      modifies this, bus, sender
      ensures n <= |clock| && Progress(bus, org, k)
      ensures running == old(running) && (old(halted) ==> halted)
      ensures old(running) && !halted ==> n == |clock|
      ensures !old(running) || old(halted) ==> k == 0 && previousUs == old(previousUs)
      ensures !halted ==> previousUs == Deadline(org.start, clock, n) && k == Fires(org.start, clock, n)
      ensures offsetZ1 == old(offsetZ1) && offsetZ2 == old(offsetZ2) && offsetZ3 == old(offsetZ3)
      ensures startUs == old(startUs)
      ensures sender != null ==> SenderRestUnchanged(sender)
    {
      k := 0;
      var i := 0;
      while i < |clock| && running && !halted
        invariant 0 <= i <= |clock|
        invariant running == old(running)
        invariant old(halted) ==> halted
        invariant !old(running) || old(halted) ==> i == 0
        invariant i == 0 ==> previousUs == old(previousUs) && k == 0
        invariant Progress(bus, org, k)
        invariant !halted ==> previousUs == Deadline(org.start, clock, i) && k == Fires(org.start, clock, i)
        invariant offsetZ1 == old(offsetZ1) && offsetZ2 == old(offsetZ2) && offsetZ3 == old(offsetZ3)
        invariant startUs == old(startUs)
        invariant sender != null ==> SenderRestUnchanged(sender)
      {
        k := Poll(bus, clock[i], org, k);
        i := i + 1;
      }
      n := i;
    }

    /** run(): Setup, then the sampling loop from the clock reading Setup took. A failed
        bring-up ends the thread with nothing published; otherwise the offsets are the
        calibrations' (0 for a failed one), the CSV log holds the rounds read back to back
        after the calibrations, the sender received and buffered exactly those rows, and the
        snapshot is the last of them. */
    method Run(bus: SMBus, nowUs: int, clock: seq<int>)
      requires sender != null ==> sender.Valid()
      requires !halted
      modifies this, bus, sender
      ensures sender != null ==> sender.Valid() && SenderRestUnchanged(sender)
      ensures old(running) && !halted ==> |csvRows| == Fires(nowUs, clock, |clock|)
      ensures BringUpFaults(bus.respond, |old(bus.trace)|) ==>
        && halted && csvRows == old(csvRows) && latest == old(latest)
        && (sender != null ==> sender.pushedAdxl == old(sender.pushedAdxl) && sender.adxlBuf == old(sender.adxlBuf))
      ensures var r, t := bus.respond, |old(bus.trace)|;
        !BringUpFaults(r, t) ==>
          && offsetZ1 == Fallback(CalibrationResult(r, t + 12, ChAdxl1, Discard, Samples))
          && offsetZ2 == Fallback(CalibrationResult(r, CalibrationStart2(r, t + 12), ChAdxl2, Discard, Samples))
          && offsetZ3 == Fallback(CalibrationResult(r, CalibrationStart3(r, t + 12), ChAdxl3, Discard, Samples))
          && csvRows == Rounds(r, t + 12 + |SetupCalibrationOps(r, t + 12)|, |csvRows|, offsetZ1, offsetZ2, offsetZ3)
          && (sender != null ==>
                sender.pushedAdxl == old(sender.pushedAdxl) + csvRows && sender.adxlBuf == old(sender.adxlBuf) + csvRows)
          && (csvRows != [] ==> latest == Some(csvRows[|csvRows| - 1]))
          && (csvRows == [] ==> latest == old(latest))
    {
      ghost var r, t := bus.respond, |bus.trace|;
      Setup(bus, nowUs);
      if halted {
        return;
      }
      assert |BringUpOps()| == 12;
      ghost var t1 := |bus.trace|;
      assert t1 == t + 12 + |SetupCalibrationOps(r, t + 12)|;
      SampleLoop(bus, clock);
      assert csvRows[0..] == csvRows;
      assert csvRows == Rounds(r, t1, |csvRows|, offsetZ1, offsetZ2, offsetZ3);
    }
  }

  /** The twelve bring-up operations: select and configure each device in turn. */
  function BringUpOps(): seq<Op> {
    ChannelsInRange();
    [SelectOp(ChAdxl1)] + BringUpWrites + [SelectOp(ChAdxl2)] + BringUpWrites + [SelectOp(ChAdxl3)] + BringUpWrites
  }

  /** Whether a multiplexer write of the bring-up starting at bus position t raises. */
  predicate BringUpFaults(respond: nat -> Reply, t: nat) {
    respond(t).OSError? || respond(t + 4).OSError? || respond(t + 8).OSError?
  }

  /** Lines 98-105 of run(): select and configure each device in turn; false when a
      multiplexer write raised, which ends run(). */
  method BringUpAll(bus: SMBus) returns (ok: bool)
    modifies bus
    ensures ok == !BringUpFaults(bus.respond, |old(bus.trace)|)
    ensures ok ==> bus.trace == old(bus.trace) + BringUpOps()
  {
    ChannelsInRange();
    var s := Select(bus, ChAdxl1);
    if s != Selected { return false; }
    InitOnCurrentChannel(bus);
    s := Select(bus, ChAdxl2);
    if s != Selected { return false; }
    InitOnCurrentChannel(bus);
    s := Select(bus, ChAdxl3);
    if s != Selected { return false; }
    InitOnCurrentChannel(bus);
    return true;
  }

  /** Where the second and third calibrations start when the first starts at bus position u. */
  function CalibrationStart2(respond: nat -> Reply, u: nat): nat {
    u + |CalibrationOps(respond, u, ChAdxl1, Discard, Samples)|
  }

  function CalibrationStart3(respond: nat -> Reply, u: nat): nat {
    var c2 := CalibrationStart2(respond, u);
    c2 + |CalibrationOps(respond, c2, ChAdxl2, Discard, Samples)|
  }

  /** The operations of the three calibrations of run(), the first starting at position u. */
  function SetupCalibrationOps(respond: nat -> Reply, u: nat): seq<Op> {
    CalibrationOps(respond, u, ChAdxl1, Discard, Samples)
    + CalibrationOps(respond, CalibrationStart2(respond, u), ChAdxl2, Discard, Samples)
    + CalibrationOps(respond, CalibrationStart3(respond, u), ChAdxl3, Discard, Samples)
  }

  /** Lines 131-138 of run(): calibrate the three devices in order, keeping 0 for a failed
      calibration. */
  method CalibrateAll(bus: SMBus) returns (o1: int, o2: int, o3: int)
    modifies bus
    ensures var r, u := bus.respond, |old(bus.trace)|;
      && bus.trace == old(bus.trace) + SetupCalibrationOps(r, u)
      && o1 == Fallback(CalibrationResult(r, u, ChAdxl1, Discard, Samples))
      && o2 == Fallback(CalibrationResult(r, CalibrationStart2(r, u), ChAdxl2, Discard, Samples))
      && o3 == Fallback(CalibrationResult(r, CalibrationStart3(r, u), ChAdxl3, Discard, Samples))
  {
    ghost var r, u := bus.respond, |bus.trace|;
    ghost var c1 := CalibrationOps(r, u, ChAdxl1, Discard, Samples);
    var e1, z1Off := CalcOffset(bus, ChAdxl1, Discard, Samples);
    ghost var u2 := CalibrationStart2(r, u);
    assert |bus.trace| == u2;
    ghost var c2 := CalibrationOps(r, u2, ChAdxl2, Discard, Samples);
    var e2, z2Off := CalcOffset(bus, ChAdxl2, Discard, Samples);
    ghost var u3 := CalibrationStart3(r, u);
    assert |bus.trace| == u3;
    ghost var c3 := CalibrationOps(r, u3, ChAdxl3, Discard, Samples);
    var e3, z3Off := CalcOffset(bus, ChAdxl3, Discard, Samples);
    assert bus.trace == ((old(bus.trace) + c1) + c2) + c3;
    assert SetupCalibrationOps(r, u) == (c1 + c2) + c3;
    SeqAssoc(old(bus.trace), c1, c2);
    SeqAssoc(old(bus.trace), c1 + c2, c3);
    o1 := if e1 == 0 then z1Off else 0;
    o2 := if e2 == 0 then z2Off else 0;
    o3 := if e3 == 0 then z3Off else 0;
  }

  /** The offset kept from a calibration result: the estimate on success, 0 on failure. */
  function Fallback(res: (int, int)): (offset: int)
    ensures res.0 != 0 ==> offset == 0
    ensures res.0 == 0 ==> offset == res.1
  {
    if res.0 == 0 then res.1 else 0
  }

  /** One "# Zk" block of the sampling round: select the channel, read it, subtract the offset.
      false when the multiplexer write raised. */
  method ReadChannel(bus: SMBus, channel: int, offset: int) returns (ok: bool, z: int)
    requires 0 <= channel <= 7
    modifies bus
    ensures ok == !bus.respond(|old(bus.trace)|).OSError?
    ensures !ok ==> bus.trace == old(bus.trace) + [SelectOp(channel)]
    ensures ok ==> bus.trace == old(bus.trace) + ChannelOps(channel)
    ensures ok ==> z == ZReading(bus.respond(|old(bus.trace)| + 1)).1 - offset
  {
    var s := Select(bus, channel);
    if s != Selected {
      return false, 0;
    }
    var err, raw := ReadZ(bus);
    return true, raw - offset;
  }

  /** The three "# Zk" blocks of a round, in order, stopping at the first failed multiplexer
      write. On success the triple is RoundTriple of the round's bus position. */
  method ReadRound(bus: SMBus, o1: int, o2: int, o3: int) returns (ok: bool, tr: Triple)
    modifies bus
    ensures ok == !RoundFaults(bus.respond, |old(bus.trace)|)
    ensures ok ==> bus.trace == old(bus.trace) + RoundOps()
    ensures ok ==> tr == RoundTriple(bus.respond, |old(bus.trace)|, o1, o2, o3)
    ensures old(bus.trace) <= bus.trace <= old(bus.trace) + RoundOps()
  {
    ChannelsInRange();
    ghost var t := bus.trace;
    ghost var c1, c2, c3 := ChannelOps(ChAdxl1), ChannelOps(ChAdxl2), ChannelOps(ChAdxl3);
    tr := Triple(0, 0, 0);
    var ok1, z1 := ReadChannel(bus, ChAdxl1, o1);
    if !ok1 {
      OpsWithin(t, [], [SelectOp(ChAdxl1)], RoundOps(), RoundOps());
      return false, tr;
    }
    assert |bus.trace| == |t| + 2;
    var ok2, z2 := ReadChannel(bus, ChAdxl2, o2);
    if !ok2 {
      OpsWithin(t, c1, [SelectOp(ChAdxl2)], c2 + c3, RoundOps());
      return false, tr;
    }
    SeqAssoc(t, c1, c2);
    assert |bus.trace| == |t| + 4;
    var ok3, z3 := ReadChannel(bus, ChAdxl3, o3);
    if !ok3 {
      OpsWithin(t, c1 + c2, [SelectOp(ChAdxl3)], c3, RoundOps());
      return false, tr;
    }
    OpsWithin(t, c1 + c2, c3, c3, RoundOps());
    return true, Triple(z1, z2, z3);
  }

  /** A trace followed by the first operations of a round, up to some prefix b of the rest of
      the round, lies between the trace and the trace followed by the whole round. */
  lemma OpsWithin(t: seq<Op>, a: seq<Op>, b: seq<Op>, rest: seq<Op>, all: seq<Op>)
    requires b <= rest && a + rest == all
    ensures t <= (t + a) + b <= t + all
    ensures b == rest ==> (t + a) + b == t + all
  {
    SeqAssoc(t, a, b);
    SeqAssoc(t, a, rest);
    assert (t + (a + b))[..|t|] == t;
    assert (t + all)[..|t + (a + b)|] == t + (a + b);
  }

  /** The sender received exactly one more triple, tr, and nothing else changed. */
  twostate predicate SenderGot(sender: RealtimeSender.Sender, tr: Triple)
    reads sender
  {
    && sender.adxlBuf == old(sender.adxlBuf) + [tr]
    && sender.pushedAdxl == old(sender.pushedAdxl) + [tr]
    && SenderRestUnchanged(sender)
  }

  twostate predicate SenderUnchanged(sender: RealtimeSender.Sender)
    reads sender
  {
    && sender.adxlBuf == old(sender.adxlBuf)
    && sender.pushedAdxl == old(sender.pushedAdxl)
    && SenderRestUnchanged(sender)
  }

  twostate predicate SenderRestUnchanged(sender: RealtimeSender.Sender)
    reads sender
  {
    && sender.rs485Buf == old(sender.rs485Buf) && sender.lastFlush == old(sender.lastFlush)
    && sender.flushedAdxl == old(sender.flushedAdxl) && sender.running == old(sender.running)
    && sender.alive == old(sender.alive)
    && sender.pushedRs485 == old(sender.pushedRs485) && sender.takenRs485 == old(sender.takenRs485)
  }
}
