/**
 * The AQI classifier: two static lookup tables of closed intervals, a
 * first-match sub-index lookup per pollutant, and the worst-case rule
 * that combines the PM2.5 and PM10 sub-indices into one index 1..10.
 * Concentrations are exact decimals, modelled as `real`.
 */
module Aqi {
  import opened Wrappers

  /** Upper end of a band: a whole number, or no bound at all (`float('inf')`). */
  datatype Upper = UpTo(n: int) | Unbounded

  /** One row of a lookup table: the closed interval [lo, hi] and the index it maps to. */
  datatype Band = Band(lo: int, hi: Upper, index: int)

  predicate InBand(b: Band, v: real) {
    b.lo as real <= v && (b.hi.UpTo? ==> v <= b.hi.n as real)
  }

  function Pm25Table(): seq<Band> { [
    Band(0, UpTo(11), 1),
    Band(12, UpTo(23), 2),
    Band(24, UpTo(35), 3),
    Band(36, UpTo(41), 4),
    Band(42, UpTo(47), 5),
    Band(48, UpTo(53), 6),
    Band(54, UpTo(58), 7),
    Band(59, UpTo(64), 8),
    Band(65, UpTo(70), 9),
    Band(71, Unbounded, 10)
  ]}

  function Pm10Table(): seq<Band> { [
    Band(0, UpTo(16), 1),
    Band(17, UpTo(33), 2),
    Band(34, UpTo(50), 3),
    Band(51, UpTo(58), 4),
    Band(59, UpTo(66), 5),
    Band(67, UpTo(75), 6),
    Band(76, UpTo(83), 7),
    Band(84, UpTo(91), 8),
    Band(92, UpTo(100), 9),
    Band(101, Unbounded, 10)
  ]}

  /**
   * The shape both tables have: ten non-empty bands indexed 1..10 in order,
   * the first starting at 0, each ending strictly below the next one's start,
   * and the last one unbounded above.
   */
  ghost predicate WellFormed(t: seq<Band>) {
    |t| == 10 &&
    t[0].lo == 0 &&
    t[9].hi.Unbounded? &&
    (forall k :: 0 <= k < 10 ==> t[k].index == k + 1) &&
    (forall k :: 0 <= k < 9 ==> t[k].hi.UpTo? && t[k].lo <= t[k].hi.n < t[k + 1].lo)
  }

  /** Each band starts at the whole number right after the previous band's end. */
  ghost predicate Contiguous(t: seq<Band>) {
    forall k :: 0 <= k < |t| - 1 ==> t[k].hi.UpTo? && t[k + 1].lo == t[k].hi.n + 1
  }

  /** `v` lies strictly between the end of band `k` and the start of band `k + 1`. */
  ghost predicate InGapAfter(t: seq<Band>, k: int, v: real)
    requires WellFormed(t) && 0 <= k < 9
  {
    t[k].hi.n as real < v < t[k + 1].lo as real
  }

  /**
   * `calculate_sub_aqi`: scan the table in order and return the index of the
   * first band containing `v`, or None when no band does.
   */
  function SubIndex(v: real, t: seq<Band>): Option<int> {
    if t == [] then None
    else if InBand(t[0], v) then Some(t[0].index)
    else SubIndex(v, t[1..])
  }

  /**
   * The search finds nothing exactly when no band contains `v`, and what it
   * finds is the index of a band that contains `v`.
   */
  lemma {:induction false} SubIndexFinds(v: real, t: seq<Band>)
    ensures SubIndex(v, t).None? <==> forall k :: 0 <= k < |t| ==> !InBand(t[k], v)
    ensures SubIndex(v, t).Some? ==> exists k :: 0 <= k < |t| && InBand(t[k], v) && t[k].index == SubIndex(v, t).value
  {
    if t != [] && !InBand(t[0], v) {
      SubIndexFinds(v, t[1..]);
      assert forall k :: 1 <= k < |t| ==> t[k] == t[1..][k - 1];
      if SubIndex(v, t).Some? {
        var k :| 0 <= k < |t[1..]| && InBand(t[1..][k], v) && t[1..][k].index == SubIndex(v, t).value;
        assert InBand(t[k + 1], v);
      }
    }
  }

  /** A band ends strictly below the start of every later band. */
  lemma {:induction false} BandsOrdered(t: seq<Band>, j: int, k: int)
    requires WellFormed(t) && 0 <= j < k < 10
    ensures t[j].hi.UpTo? && t[j].hi.n < t[k].lo
    decreases k - j
  {
    if j + 1 < k {
      BandsOrdered(t, j + 1, k);
    }
  }

  /** Every band starts at 0 or above. */
  lemma BandsNonNegative(t: seq<Band>, k: int)
    requires WellFormed(t) && 0 <= k < 10
    ensures 0 <= t[k].lo
  {
    if 0 < k {
      BandsOrdered(t, 0, k);
    }
  }

  /** At most one band of a well-formed table contains a value. */
  lemma BandsDisjoint(t: seq<Band>, v: real, j: int, k: int)
    requires WellFormed(t) && 0 <= j < 10 && 0 <= k < 10
    requires InBand(t[j], v) && InBand(t[k], v)
    ensures j == k
  {
    if j < k {
      BandsOrdered(t, j, k);
    } else if k < j {
      BandsOrdered(t, k, j);
    }
  }

  /** The sub-index is `k + 1` exactly when `v` lies in the `k`-th band. */
  lemma SubIndexIsBand(t: seq<Band>, v: real, k: int)
    requires WellFormed(t) && 0 <= k < 10
    ensures SubIndex(v, t) == Some(k + 1) <==> InBand(t[k], v)
  {
    SubIndexFinds(v, t);
    var r := SubIndex(v, t);
    if InBand(t[k], v) {
      var j :| 0 <= j < |t| && InBand(t[j], v) && t[j].index == r.value;
      BandsDisjoint(t, v, j, k);
    }
  }

  /** A sub-index, when there is one, lies in 1..10. */
  lemma SubIndexRange(t: seq<Band>, v: real)
    requires WellFormed(t)
    ensures SubIndex(v, t).Some? ==> 1 <= SubIndex(v, t).value <= 10
  {
    SubIndexFinds(v, t);
  }

  /** Within the table's domain the sub-index never decreases as the value grows. */
  lemma SubIndexMonotone(t: seq<Band>, v: real, w: real)
    requires WellFormed(t) && v <= w
    requires SubIndex(v, t).Some? && SubIndex(w, t).Some?
    ensures SubIndex(v, t).value <= SubIndex(w, t).value
  {
    SubIndexFinds(v, t);
    SubIndexFinds(w, t);
    var j :| 0 <= j < |t| && InBand(t[j], v) && t[j].index == SubIndex(v, t).value;
    var k :| 0 <= k < |t| && InBand(t[k], w) && t[k].index == SubIndex(w, t).value;
    if k < j {
      BandsOrdered(t, k, j);
    }
  }

  /** Any value at or above the last band's start gets the top index 10. */
  lemma SubIndexTop(t: seq<Band>, v: real)
    requires WellFormed(t) && t[9].lo as real <= v
    ensures SubIndex(v, t) == Some(10)
  {
    SubIndexIsBand(t, v, 9);
  }

  /**
   * No sub-index exactly for negative values and for values in a gap between
   * two bands' integer boundaries.
   */
  lemma SubIndexNone(t: seq<Band>, v: real)
    requires WellFormed(t)
    ensures SubIndex(v, t).None? <==> v < 0.0 || exists k :: 0 <= k < 9 && InGapAfter(t, k, v)
  {
    SubIndexFinds(v, t);
    if v < 0.0 {
      forall k | 0 <= k < 10 ensures !InBand(t[k], v) {
        BandsNonNegative(t, k);
      }
    } else if exists k :: 0 <= k < 9 && InGapAfter(t, k, v) {
      var k :| 0 <= k < 9 && InGapAfter(t, k, v);
      forall j | 0 <= j < 10 ensures !InBand(t[j], v) {
        if j < k {
          BandsOrdered(t, j, k);
        } else if k + 1 < j {
          BandsOrdered(t, k + 1, j);
        }
      }
    } else {
      var k := LastBandStartingBelow(t, v, 0);
      assert InBand(t[k], v);
    }
  }

  /** The last band whose start is at or below `v`, searching from band `k` on. */
  lemma {:induction false} LastBandStartingBelow(t: seq<Band>, v: real, k: int) returns (j: int)
    requires WellFormed(t) && 0 <= k < 10 && t[k].lo as real <= v
    requires forall g :: 0 <= g < 9 ==> !InGapAfter(t, g, v)
    ensures 0 <= j < 10 && InBand(t[j], v)
    decreases 10 - k
  {
    if k == 9 {
      j := k;
    } else if v <= t[k].hi.n as real {
      j := k;
    } else {
      assert !InGapAfter(t, k, v);
      j := LastBandStartingBelow(t, v, k + 1);
    }
  }

  /** For a contiguous table every non-negative whole number has a sub-index. */
  lemma SubIndexWholeNumbers(t: seq<Band>, n: int)
    requires WellFormed(t) && Contiguous(t) && 0 <= n
    ensures SubIndex(n as real, t).Some?
  {
    var v := n as real;
    forall k | 0 <= k < 9 ensures !InGapAfter(t, k, v) {
      NoWholeNumberBetween(t[k].hi.n, n);
    }
    SubIndexNone(t, v);
  }

  /** No whole number lies strictly between `m` and `m + 1`. */
  lemma NoWholeNumberBetween(m: int, n: int)
    ensures !(m as real < n as real < (m + 1) as real)
  {
    if m < n {
      assert (m + 1) as real <= n as real;
    }
  }

  /** The sub-index of an optional reading, when there is one, lies in 1..10. */
  lemma SubIndexOfRange(t: seq<Band>, v: Option<real>)
    requires WellFormed(t)
    ensures SubIndexOf(v, t).Some? ==> 1 <= SubIndexOf(v, t).value <= 10
  {
    if v.Some? {
      SubIndexRange(t, v.value);
    }
  }

  /** Both lookup tables of `calculate_aqi` have the shape `WellFormed` describes, with no gap between whole numbers. */
  lemma TablesWellFormed()
    ensures WellFormed(Pm25Table()) && Contiguous(Pm25Table())
    ensures WellFormed(Pm10Table()) && Contiguous(Pm10Table())
  {
    Pm25TableShape();
    Pm10TableShape();
  }

  /** The PM2.5 table: bands 0-11, 12-23, ..., 65-70, then 71 and above. */
  lemma Pm25TableShape()
    ensures WellFormed(Pm25Table()) && Contiguous(Pm25Table())
  {
    var t := Pm25Table();
    forall k | 0 <= k < 10
      ensures t[k].index == k + 1
      ensures k < 9 ==> t[k].hi.UpTo? && t[k].lo <= t[k].hi.n && t[k + 1].lo == t[k].hi.n + 1
    {
      assert k in {0, 1, 2, 3, 4, 5, 6, 7, 8, 9};
    }
  }

  /** The PM10 table: bands 0-16, 17-33, ..., 92-100, then 101 and above. */
  lemma Pm10TableShape()
    ensures WellFormed(Pm10Table()) && Contiguous(Pm10Table())
  {
    var t := Pm10Table();
    forall k | 0 <= k < 10
      ensures t[k].index == k + 1
      ensures k < 9 ==> t[k].hi.UpTo? && t[k].lo <= t[k].hi.n && t[k + 1].lo == t[k].hi.n + 1
    {
      assert k in {0, 1, 2, 3, 4, 5, 6, 7, 8, 9};
    }
  }

  /** The sub-index of an optional reading; a missing reading has none. */
  function SubIndexOf(v: Option<real>, t: seq<Band>): Option<int> {
    if v.None? then None else SubIndex(v.value, t)
  }

  /**
   * The worst-case rule: the larger of two sub-indices, or whichever one
   * exists, or None.
   */
  function Worst(a: Option<int>, b: Option<int>): (r: Option<int>)
    ensures r.Some? <==> a.Some? || b.Some?
    ensures r.Some? ==> (r == a || r == b)
    ensures r.Some? ==> (a.Some? ==> a.value <= r.value) && (b.Some? ==> b.value <= r.value)
  {
    if a.Some? && b.Some? then Some(if a.value < b.value then b.value else a.value)
    else if a.Some? then a
    else if b.Some? then b
    else None
  }

  /**
   * `calculate_aqi(pm25, pm10)`, with a missing reading treated as having no
   * sub-index: absent when both readings are, otherwise an index in 1..10 or
   * None.
   */
  function CalculateAqi(pm25: Option<real>, pm10: Option<real>): (r: Option<int>)
    ensures r.Some? ==> 1 <= r.value <= 10
  {
    TablesWellFormed();
    SubIndexOfRange(Pm25Table(), pm25);
    SubIndexOfRange(Pm10Table(), pm10);
    if pm25.None? && pm10.None? then None
    else Worst(SubIndexOf(pm25, Pm25Table()), SubIndexOf(pm10, Pm10Table()))
  }

  /**
   * The worst-case rule: the AQI exists exactly when some reading classifies,
   * is one of the two sub-indices, and is at least each of them, so it is
   * their maximum when both exist and the only one when just one does.
   */
  lemma CalculateAqiWorstCase(pm25: Option<real>, pm10: Option<real>)
    ensures var a, b, r := SubIndexOf(pm25, Pm25Table()), SubIndexOf(pm10, Pm10Table()), CalculateAqi(pm25, pm10);
      (pm25.None? && pm10.None? ==> r.None?) &&
      (r.None? <==> a.None? && b.None?) &&
      (a.Some? && b.Some? ==> r.Some? && (r.value == a.value || r.value == b.value) && a.value <= r.value && b.value <= r.value) &&
      (a.Some? && b.None? ==> r == a) &&
      (a.None? && b.Some? ==> r == b)
  {
  }

  /** Raising the PM2.5 reading within the table's domain never lowers the AQI. */
  lemma CalculateAqiMonotonePm25(x: real, y: real, pm10: Option<real>)
    requires x <= y
    requires SubIndex(x, Pm25Table()).Some? && SubIndex(y, Pm25Table()).Some?
    ensures CalculateAqi(Some(x), pm10).value <= CalculateAqi(Some(y), pm10).value
  {
    TablesWellFormed();
    SubIndexMonotone(Pm25Table(), x, y);
  }

  /** Raising the PM10 reading within the table's domain never lowers the AQI. */
  lemma CalculateAqiMonotonePm10(pm25: Option<real>, x: real, y: real)
    requires x <= y
    requires SubIndex(x, Pm10Table()).Some? && SubIndex(y, Pm10Table()).Some?
    ensures CalculateAqi(pm25, Some(x)).value <= CalculateAqi(pm25, Some(y)).value
  {
    TablesWellFormed();
    SubIndexMonotone(Pm10Table(), x, y);
  }

  /** PM2.5 values from 71 up and PM10 values from 101 up give the top index. */
  lemma TopBands(pm25: real, pm10: real)
    ensures 71.0 <= pm25 ==> SubIndex(pm25, Pm25Table()) == Some(10)
    ensures 101.0 <= pm10 ==> SubIndex(pm10, Pm10Table()) == Some(10)
  {
    TablesWellFormed();
    if 71.0 <= pm25 { SubIndexTop(Pm25Table(), pm25); }
    if 101.0 <= pm10 { SubIndexTop(Pm10Table(), pm10); }
  }

  /**
   * The two tables disagree: PM10 between 92 and 100 is band 9 of the PM10
   * table but the top band of the PM2.5 table, so with PM2.5 at most 11
   * swapping the arguments turns an AQI of 9 into 10.
   */
  lemma SwapExample(pm10: real, pm25: real)
    requires 92.0 <= pm10 <= 100.0 && 0.0 <= pm25 <= 11.0
    ensures CalculateAqi(Some(pm10), Some(pm25)) == Some(10)
    ensures CalculateAqi(Some(pm25), Some(pm10)) == Some(9)
  {
    TablesWellFormed();
    TopBands(pm10, 0.0);
    SubIndexIsBand(Pm25Table(), pm25, 0);
    SubIndexIsBand(Pm10Table(), pm25, 0);
    SubIndexIsBand(Pm10Table(), pm10, 8);
  }

  /** Values between 11 and 12 fall through the PM2.5 table: no sub-index. */
  lemma Pm25GapAfterEleven(v: real)
    requires 11.0 < v < 12.0
    ensures SubIndex(v, Pm25Table()).None?
  {
    TablesWellFormed();
    assert InGapAfter(Pm25Table(), 0, v);
    SubIndexNone(Pm25Table(), v);
  }

  /** The behaviour of `calculate_aqi` as written, where a None argument reaches a comparison. */
  datatype PyError = TypeError

  /**
   * `calculate_sub_aqi` as written: a None reading is compared with the first
   * band's lower bound, which raises TypeError.
   */
  function SubIndexAsWritten(v: Option<real>, t: seq<Band>): (r: Result<Option<int>, PyError>)
    ensures v.Some? ==> r == Success(SubIndex(v.value, t))
    ensures v.None? && t != [] ==> r.Failure?
  {
    if v.None? then (if t == [] then Success(None) else Failure(TypeError))
    else Success(SubIndex(v.value, t))
  }

  /** `calculate_aqi` as written: only the both-None case is guarded. */
  function CalculateAqiAsWritten(pm25: Option<real>, pm10: Option<real>): (r: Result<Option<int>, PyError>)
    ensures r.Failure? <==> pm25.None? != pm10.None?
  {
    if pm25.None? && pm10.None? then Success(None)
    else
      match SubIndexAsWritten(pm25, Pm25Table())
      case Failure(e) => Failure(e)
      case Success(a) =>
        match SubIndexAsWritten(pm10, Pm10Table())
        case Failure(e) => Failure(e)
        case Success(b) => Success(Worst(a, b))
  }

  /** Wherever the code as written returns, it agrees with `CalculateAqi`. */
  lemma AsWrittenAgrees(pm25: Option<real>, pm10: Option<real>)
    ensures CalculateAqiAsWritten(pm25, pm10).Success? ==> CalculateAqiAsWritten(pm25, pm10).value == CalculateAqi(pm25, pm10)
    ensures pm25.Some? && pm10.Some? ==> CalculateAqiAsWritten(pm25, pm10) == Success(CalculateAqi(pm25, pm10))
  {
  }

  /** A lone PM10 reading of 20 raises TypeError instead of yielding index 2. */
  lemma SingleReadingRaises()
    ensures CalculateAqiAsWritten(None, Some(20.0)) == Failure(TypeError)
    ensures CalculateAqi(None, Some(20.0)) == Some(2)
  {
    assert InBand(Pm10Table()[1], 20.0);
    SubIndexIsBand(Pm10Table(), 20.0, 1);
  }
}
