/** The data side of the dashboard (app/ui/dashboard.py): one environmental reading per
    timer tick, the rolling 600-row table, the five plot series of MAX_SAMPLES points, the
    record pushed to the sender, and the filtering of missing values before plotting. */
module Dashboard {
  import opened Records
  import opened Config
  import Compass
  import RealtimeSender

  /** The four holding registers read_all reads, in its read order. */
  datatype Raw = Raw(temp: int, hum: int, wspd: int, wdir: int)

  /** The number of rows the table keeps. */
  const TableRows: nat := 600

  /** The reading of one tick at `moment`; `raw` is None when any of the four register reads
      raised, which loses all four values, even those already read. */
  function Sample(moment: string, raw: Option<Raw>): (r: Reading)
    ensures r.timeLocal == moment
    ensures raw.None? ==> r.tempC.None? && r.humPct.None? && r.windDirDeg.None? && r.windSpdMs.None?
    ensures raw.None? <==> r.windDirTxt == "-"
    ensures raw.Some? ==>
      && r.tempC == Some(raw.value.temp) && r.humPct == Some(raw.value.hum)
      && r.windSpdMs == Some(raw.value.wspd)
      && r.windDirDeg == Some(raw.value.wdir % 360) && 0 <= r.windDirDeg.value < 360
      && r.windDirTxt == Compass.DegToCardinal(Some(raw.value.wdir as real))
  {
    match raw
    case None => Reading(moment, None, None, None, "-", None)
    case Some(w) =>
      var deg := w.wdir % 360;
      WindLabelOfReduced(w.wdir);
      Reading(moment, Some(w.temp), Some(w.hum), Some(deg), Compass.DegToCardinal(Some(deg as real)), Some(w.wspd))
  }

  /** Labelling the direction after taking it modulo 360 gives the label of the raw value. */
  lemma WindLabelOfReduced(k: int)
    ensures Compass.DegToCardinal(Some((k % 360) as real)) == Compass.DegToCardinal(Some(k as real))
  {
    var m, q := k % 360, k / 360;
    assert k == m + 360 * q;
    assert (k as real) == (m as real) + 360.0 * (q as real);
    Compass.ReduceTurns(m as real, q);
  }

  /** One table row: time, temperature, humidity, direction in degrees, wind speed
      (an empty cell for a missing value). */
  datatype Row = Row(time: string, temp: Option<int>, hum: Option<int>, wdir: Option<int>, wspd: Option<int>)

  function RowOf(r: Reading): (row: Row)
    ensures row.time == r.timeLocal
    ensures row.temp == r.tempC && row.hum == r.humPct && row.wdir == r.windDirDeg && row.wspd == r.windSpdMs
  {
    Row(r.timeLocal, r.tempC, r.humPct, r.windDirDeg, r.windSpdMs)
  }

  /** The table row of a tick: a failed read leaves the four value cells empty; otherwise the
      cells hold the registers, with the direction reduced modulo 360. */
  lemma RowOfSample(moment: string, raw: Option<Raw>)
    ensures raw.None? ==> RowOf(Sample(moment, raw)) == Row(moment, None, None, None, None)
    ensures raw.Some? ==>
      RowOf(Sample(moment, raw))
        == Row(moment, Some(raw.value.temp), Some(raw.value.hum), Some(raw.value.wdir % 360), Some(raw.value.wspd))
  {
  }

  /** The last n elements of s (all of s when it is shorter). */
  function Last<T>(s: seq<T>, n: nat): (r: seq<T>)
    ensures |r| == if |s| <= n then |s| else n
  {
    if |s| <= n then s else s[|s| - n..]
  }

  /** The window is the tail of the list: its newest entry is the list's last. */
  lemma LastIsSuffix<T>(s: seq<T>, n: nat)
    ensures Last(s, n) == s[|s| - |Last(s, n)|..]
    ensures n > 0 && s != [] ==> Last(s, n)[|Last(s, n)| - 1] == s[|s| - 1]
  {
  }

  /** Appending to a window of the last n elements and keeping the last n again is the window
      of the longer history. */
  lemma LastSnoc<T>(s: seq<T>, x: T, n: nat)
    ensures Last(Last(s, n) + [x], n) == Last(s + [x], n)
  {
    if |s| > n && n > 0 {
      var w := s[|s| - n..];
      assert (w + [x])[1..] == (s + [x])[|s| + 1 - n..];
    }
  }

  /** The table update: remove the oldest row when the table is full, then add the new one. */
  function Roll(rows: seq<Row>, row: Row): (r: seq<Row>)
    ensures |r| == if |rows| >= TableRows then |rows| else |rows| + 1
    ensures r[|r| - 1] == row
    ensures r[..|r| - 1] == rows[|rows| - (|r| - 1)..]
  {
    (if |rows| >= TableRows then rows[1..] else rows) + [row]
  }

  /** On a table that never held more than its capacity, rolling keeps exactly the most recent
      rows. */
  lemma RollIsWindow(rows: seq<Row>, row: Row)
    requires |rows| <= TableRows
    ensures Roll(rows, row) == Last(rows + [row], TableRows)
    ensures |Roll(rows, row)| <= TableRows
  {
    if |rows| == TableRows {
      assert rows[1..] + [row] == (rows + [row])[1..];
    }
  }

  /** One field of every reading of a history, in order. */
  function Column<T>(h: seq<Reading>, f: Reading -> T): (c: seq<T>)
    ensures |c| == |h|
  {
    if h == [] then [] else Column(h[..|h| - 1], f) + [f(h[|h| - 1])]
  }

  /** Entry i of a column is the field of reading i. */
  lemma {:induction false} ColumnAt<T>(h: seq<Reading>, f: Reading -> T, i: nat)
    requires i < |h|
    ensures Column(h, f)[i] == f(h[i])
  {
    if i < |h| - 1 {
      ColumnAt(h[..|h| - 1], f, i);
    }
  }

  lemma ColumnSnoc<T>(h: seq<Reading>, x: Reading, f: Reading -> T)
    ensures Column(h + [x], f) == Column(h, f) + [f(x)]
  {
    assert (h + [x])[..|h|] == h;
  }

  function TimeOf(r: Reading): string { r.timeLocal }
  function TempOf(r: Reading): Option<int> { r.tempC }
  function HumOf(r: Reading): Option<int> { r.humPct }
  function DirOf(r: Reading): Option<int> { r.windDirDeg }
  function SpeedOf(r: Reading): Option<int> { r.windSpdMs }

  function Times(h: seq<Reading>): seq<string> { Column(h, TimeOf) }
  function Temps(h: seq<Reading>): seq<Option<int>> { Column(h, TempOf) }
  function Hums(h: seq<Reading>): seq<Option<int>> { Column(h, HumOf) }
  function Directions(h: seq<Reading>): seq<Option<int>> { Column(h, DirOf) }
  function Speeds(h: seq<Reading>): seq<Option<int>> { Column(h, SpeedOf) }
  function Rows(h: seq<Reading>): seq<Row> { Column(h, RowOf) }

  /** Entry i of the window of the last n entries of a column is the field of a reading
      counted from the end of the history. */
  lemma LastColumnAt<T>(h: seq<Reading>, f: Reading -> T, n: nat, i: nat)
    requires i < |Last(Column(h, f), n)|
    ensures var k := |h| - |Last(Column(h, f), n)| + i;
      0 <= k < |h| && Last(Column(h, f), n)[i] == f(h[k])
  {
    ColumnAt(h, f, |h| - |Last(Column(h, f), n)| + i);
  }

  class Board {
    /** The realtime sender every reading is pushed to, if one is attached. */
    const sender: RealtimeSender.Sender?

    var dataTimes: seq<string>
    var dataTemp: seq<Option<int>>
    var dataHum: seq<Option<int>>
    var dataWdirDeg: seq<Option<int>>
    var dataWspd: seq<Option<int>>
    var table: seq<Row>

    /** Every reading taken so far, oldest first. */
    ghost var readings: seq<Reading>

    /** The series hold the last MAX_SAMPLES readings and the table the last 600, field by field
        and aligned. */
    ghost predicate Valid()
      reads this
    {
      && dataTimes == Last(Times(readings), MaxSamples)
      && dataTemp == Last(Temps(readings), MaxSamples)
      && dataHum == Last(Hums(readings), MaxSamples)
      && dataWdirDeg == Last(Directions(readings), MaxSamples)
      && dataWspd == Last(Speeds(readings), MaxSamples)
      && table == Last(Rows(readings), TableRows)
    }

    constructor (sender: RealtimeSender.Sender?)
      ensures Valid() && this.sender == sender && readings == []
    {
      this.sender := sender;
      dataTimes, dataTemp, dataHum, dataWdirDeg, dataWspd := [], [], [], [], [];
      table := [];
      readings := [];
      assert Times([]) == [] && Temps([]) == [] && Hums([]) == [];
      assert Directions([]) == [] && Speeds([]) == [] && Rows([]) == [];
    }

    /** read_all at `moment` with the outcome `raw` of the four register reads: one table row,
        one record to the sender, one point on every series. */
    method ReadAll(moment: string, raw: Option<Raw>)
      requires Valid()
      requires sender != null ==> sender.Valid()
      modifies this, sender
      ensures Valid()
      ensures sender != null ==> sender.Valid()
      ensures readings == old(readings) + [Sample(moment, raw)]
      ensures sender != null ==>
        && sender.rs485Buf == old(sender.rs485Buf) + [Sample(moment, raw)]
        && sender.pushedRs485 == old(sender.pushedRs485) + [Sample(moment, raw)]
        && sender.adxlBuf == old(sender.adxlBuf) && sender.pushedAdxl == old(sender.pushedAdxl)
        && sender.lastFlush == old(sender.lastFlush) && sender.running == old(sender.running)
        && sender.alive == old(sender.alive) && sender.takenRs485 == old(sender.takenRs485)
        && sender.flushedAdxl == old(sender.flushedAdxl)
    {
      var r := Sample(moment, raw);
      ghost var h := readings;
      WindowsAfter(h, r);
      RollIsWindow(table, RowOf(r));
      table := Roll(table, RowOf(r));

      if sender != null {
        sender.PushRs485(r);
      }

      AppendPoint(r);
      readings := readings + [r];
    }

    /** The series buffer of read_all: append one point to every series, then keep the last
        MAX_SAMPLES points of each when they have grown longer. */
    method AppendPoint(r: Reading)
      requires |dataTemp| == |dataHum| == |dataWdirDeg| == |dataWspd| == |dataTimes|
      modifies this
      ensures dataTimes == Last(old(dataTimes) + [r.timeLocal], MaxSamples)
      ensures dataTemp == Last(old(dataTemp) + [r.tempC], MaxSamples)
      ensures dataHum == Last(old(dataHum) + [r.humPct], MaxSamples)
      ensures dataWdirDeg == Last(old(dataWdirDeg) + [r.windDirDeg], MaxSamples)
      ensures dataWspd == Last(old(dataWspd) + [r.windSpdMs], MaxSamples)
      ensures table == old(table) && readings == old(readings)
    {
      dataTimes := dataTimes + [r.timeLocal];
      dataTemp := dataTemp + [r.tempC];
      dataHum := dataHum + [r.humPct];
      dataWdirDeg := dataWdirDeg + [r.windDirDeg];
      dataWspd := dataWspd + [r.windSpdMs];
      if |dataTimes| > MaxSamples {
        dataTimes := dataTimes[|dataTimes| - MaxSamples..];
        dataTemp := dataTemp[|dataTemp| - MaxSamples..];
        dataHum := dataHum[|dataHum| - MaxSamples..];
        dataWdirDeg := dataWdirDeg[|dataWdirDeg| - MaxSamples..];
        dataWspd := dataWspd[|dataWspd| - MaxSamples..];
      }
    }

    /** The three plotted series (temperature, humidity, wind speed) with their missing
        points removed. */
    method RedrawSeries() returns (temp: (seq<string>, seq<int>), hum: (seq<string>, seq<int>),
                                  wspd: (seq<string>, seq<int>))
      ensures temp == Kept(dataTimes, dataTemp)
      ensures hum == Kept(dataTimes, dataHum)
      ensures wspd == Kept(dataTimes, dataWspd)
    {
      var t1, v1 := Filtered(dataTimes, dataTemp);
      var t2, v2 := Filtered(dataTimes, dataHum);
      var t4, v4 := Filtered(dataTimes, dataWspd);
      temp, hum, wspd := (t1, v1), (t2, v2), (t4, v4);
    }
  }

  /** Every column window after one more reading. */
  lemma WindowsAfter(h: seq<Reading>, r: Reading)
    ensures Last(Times(h + [r]), MaxSamples) == Last(Last(Times(h), MaxSamples) + [r.timeLocal], MaxSamples)
    ensures Last(Temps(h + [r]), MaxSamples) == Last(Last(Temps(h), MaxSamples) + [r.tempC], MaxSamples)
    ensures Last(Hums(h + [r]), MaxSamples) == Last(Last(Hums(h), MaxSamples) + [r.humPct], MaxSamples)
    ensures Last(Directions(h + [r]), MaxSamples) == Last(Last(Directions(h), MaxSamples) + [r.windDirDeg], MaxSamples)
    ensures Last(Speeds(h + [r]), MaxSamples) == Last(Last(Speeds(h), MaxSamples) + [r.windSpdMs], MaxSamples)
    ensures Last(Rows(h + [r]), TableRows) == Last(Last(Rows(h), TableRows) + [RowOf(r)], TableRows)
  {
    ColumnSnoc(h, r, TimeOf);
    LastSnoc(Times(h), r.timeLocal, MaxSamples);
    ColumnSnoc(h, r, TempOf);
    LastSnoc(Temps(h), r.tempC, MaxSamples);
    ColumnSnoc(h, r, HumOf);
    LastSnoc(Hums(h), r.humPct, MaxSamples);
    ColumnSnoc(h, r, DirOf);
    LastSnoc(Directions(h), r.windDirDeg, MaxSamples);
    ColumnSnoc(h, r, SpeedOf);
    LastSnoc(Speeds(h), r.windSpdMs, MaxSamples);
    ColumnSnoc(h, r, RowOf);
    LastSnoc(Rows(h), RowOf(r), TableRows);
  }

  /** Point i of the series, in every series alike, is the field of one and the same reading,
      counted from the end of the history: the series are aligned and hold the most recent
      readings. */
  lemma SeriesAreLatest(b: Board, i: nat)
    requires b.Valid() && i < |b.dataTimes|
    ensures var k := |b.readings| - |b.dataTimes| + i;
      && 0 <= k < |b.readings|
      && b.dataTimes[i] == b.readings[k].timeLocal && b.dataTemp[i] == b.readings[k].tempC
      && b.dataHum[i] == b.readings[k].humPct && b.dataWdirDeg[i] == b.readings[k].windDirDeg
      && b.dataWspd[i] == b.readings[k].windSpdMs
  {
    var h := b.readings;
    SeriesAligned(b);
    LastColumnAt(h, TimeOf, MaxSamples, i);
    LastColumnAt(h, TempOf, MaxSamples, i);
    LastColumnAt(h, HumOf, MaxSamples, i);
    LastColumnAt(h, DirOf, MaxSamples, i);
    LastColumnAt(h, SpeedOf, MaxSamples, i);
  }

  /** The five series always have the same length, at most MAX_SAMPLES. */
  lemma SeriesAligned(b: Board)
    requires b.Valid()
    ensures |b.dataTimes| == |b.dataTemp| == |b.dataHum| == |b.dataWdirDeg| == |b.dataWspd| <= MaxSamples
    ensures |b.dataTimes| == if |b.readings| <= MaxSamples then |b.readings| else MaxSamples
  {
  }

  /** Row i of the table is the row of one reading, counted from the end of the history, and
      the table never exceeds 600 rows. */
  lemma TableIsLatest(b: Board, i: nat)
    requires b.Valid() && i < |b.table|
    ensures |b.table| <= TableRows
    ensures var k := |b.readings| - |b.table| + i;
      0 <= k < |b.readings| && b.table[i] == RowOf(b.readings[k])
  {
    LastColumnAt(b.readings, RowOf, TableRows, i);
  }

  // ---------------------------------------------------------------- filtering for the plots


  /** The positions below n, in increasing order, where v holds a value. */
  function Present<V>(v: seq<Option<V>>, n: nat): (idx: seq<nat>)
    requires n <= |v|
    ensures |idx| <= n
    ensures forall j :: 0 <= j < |idx| ==> idx[j] < n && v[idx[j]].Some?
  {
    if n == 0 then []
    else if v[n - 1].Some? then Present(v, n - 1) + [n - 1]
    else Present(v, n - 1)
  }

  /** Present lists its positions in strictly increasing order. */
  lemma {:induction false} PresentIncreasing<V>(v: seq<Option<V>>, n: nat)
    requires n <= |v|
    ensures forall j, k :: 0 <= j < k < |Present(v, n)| ==> Present(v, n)[j] < Present(v, n)[k]
  {
    if n > 0 {
      PresentIncreasing(v, n - 1);
    }
  }

  /** Present misses no position that holds a value. */
  lemma {:induction false} PresentComplete<V>(v: seq<Option<V>>, n: nat, i: nat)
    requires i < n <= |v| && v[i].Some?
    ensures i in Present(v, n)
  {
    if i < n - 1 {
      PresentComplete(v, n - 1, i);
    }
  }

  /** filtered(t, v): the pairs of zip(t, v) whose value is present, split into times and values;
      zip stops at the shorter list. */
  function Kept<T, V>(t: seq<T>, v: seq<Option<V>>): (r: (seq<T>, seq<V>))
    ensures |r.0| == |r.1| && |r.1| <= |t| && |r.1| <= |v|
  {
    var idx := Present(v, Min(|t|, |v|));
    (seq(|idx|, j requires 0 <= j < |idx| => t[idx[j]]),
     seq(|idx|, j requires 0 <= j < |idx| => v[idx[j]].value))
  }

  /** The nested filtered() of redraw_plots: walk both lists together, skipping missing values. */
  method Filtered<T, V>(t: seq<T>, v: seq<Option<V>>) returns (t2: seq<T>, v2: seq<V>)
    ensures (t2, v2) == Kept(t, v)
  {
    t2, v2 := [], [];
    var n := Min(|t|, |v|);
    var i := 0;
    while i < n
      invariant 0 <= i <= n
      invariant |t2| == |v2| == |Present(v, i)|
      invariant forall j :: 0 <= j < |t2| ==> t2[j] == t[Present(v, i)[j]] && v2[j] == v[Present(v, i)[j]].value
    {
      assert Present(v, i + 1) == if v[i].Some? then Present(v, i) + [i] else Present(v, i);
      if v[i].Some? {
        t2, v2 := t2 + [t[i]], v2 + [v[i].value];
      }
      i := i + 1;
    }
    ghost var idx := Present(v, n);
    assert t2 == seq(|idx|, j requires 0 <= j < |idx| => t[idx[j]]);
    assert v2 == seq(|idx|, j requires 0 <= j < |idx| => v[idx[j]].value);
  }

  /** filtered keeps equal-length lists no longer than the shorter input. */
  lemma KeptLengths<T, V>(t: seq<T>, v: seq<Option<V>>)
    ensures |Kept(t, v).0| == |Kept(t, v).1| <= Min(|t|, |v|)
  {
    PresentIncreasing(v, Min(|t|, |v|));
  }

  /** A value comes through filtered exactly when it is present, paired with its own time. */
  lemma KeptExactlyPresent<T, V>(t: seq<T>, v: seq<Option<V>>, i: nat, x: V)
    requires i < |t| && i < |v| && v[i] == Some(x)
    ensures exists j :: 0 <= j < |Kept(t, v).0| && Kept(t, v).0[j] == t[i] && Kept(t, v).1[j] == x
  {
    var idx := Present(v, Min(|t|, |v|));
    PresentComplete(v, Min(|t|, |v|), i);
    var j :| 0 <= j < |idx| && idx[j] == i;
    assert Kept(t, v).0[j] == t[i] && Kept(t, v).1[j] == x;
  }

  /** Nothing is kept from a series that is missing everywhere (a sensor that never answered). */
  lemma {:induction false} KeptAllMissing<T, V>(t: seq<T>, v: seq<Option<V>>)
    requires forall i :: 0 <= i < |v| ==> v[i].None?
    ensures Kept(t, v).0 == [] && Kept(t, v).1 == []
  {
    AllMissingNothingPresent(v, Min(|t|, |v|));
  }

  lemma {:induction false} AllMissingNothingPresent<V>(v: seq<Option<V>>, n: nat)
    requires n <= |v|
    requires forall i :: 0 <= i < |v| ==> v[i].None?
    ensures Present(v, n) == []
  {
    if n > 0 {
      AllMissingNothingPresent(v, n - 1);
    }
  }
}
