/**
 * The ingestion loop: for each feed entry, take the PM10 (`P1`) and PM2.5
 * (`P2`) readings, recompute the loop-carried `aqi` when both are present,
 * build a flat item, buffer it, and hand the buffered items to the batch
 * writer 25 at a time, then the remainder once the entries run out.
 *
 * Any exception raised for an entry aborts the whole run; there is no
 * skipping of bad entries.
 */
module Ingestion {
  import opened Wrappers
  import opened Aqi
  import opened IntText

  /** One element of `sensordatavalues`; `value` is None when `decimal.Decimal` rejects its text. */
  datatype Reading = Reading(valueType: string, value: Option<real>)

  /** The feed's `id`, a number or a string. */
  datatype Id = IntId(n: int) | StrId(s: string)

  /** One feed entry; `country` is None when `location` or its `country` key is missing. */
  datatype Entry = Entry(id: Id, timestamp: string, country: Option<string>, values: seq<Reading>)

  /** The record handed to `put_item`. */
  datatype Item = Item(id: string, timestamp: string, country: string, pm10: Option<real>, pm25: Option<real>, aqi: Option<int>)

  /** The loop variables `pm10` and `pm25` after scanning one entry's readings. */
  datatype Readings = Readings(pm10: Option<real>, pm25: Option<real>)

  /** The exceptions that abort the run. */
  datatype EntryError =
    | MalformedValue  // `decimal.Decimal` rejects the text of a P1 or P2 value
    | MissingCountry  // `entry['location']['country']` is missing
    | UnboundAqi      // `aqi` is read before any entry has assigned it (NameError)

  /** The script variable `aqi`: never assigned yet, or holding what `calculate_aqi` returned. */
  datatype AqiVar = Unbound | Bound(aqi: Option<int>)

  /** Which entry (counting from 0) raised, and what. */
  datatype Abort = Abort(at: nat, error: EntryError)

  const BatchSize: nat := 25

  /** `str(entry['id'])`: a string id is kept, and a numeric id gives text that reads back as that number. */
  function IdToString(id: Id): (s: string)
    ensures id.IntId? ==> ParseInt(s) == Some(id.n)
    ensures id.StrId? ==> s == id.s
  {
    match id
    case IntId(n) => ParseIntRoundTrip(n); IntToString(n)
    case StrId(s) => s
  }

  predicate IsPmTag(tag: string) {
    tag == "P1" || tag == "P2"
  }

  /** The loop variable a tag is stored in: `P1` is PM10, `P2` is PM2.5. */
  function TagField(r: Readings, tag: string): Option<real>
    requires IsPmTag(tag)
  {
    if tag == "P1" then r.pm10 else r.pm25
  }

  /**
   * One iteration of the scan over `sensordatavalues`: a P1 or P2 reading
   * overwrites its own loop variable and leaves the other one alone, a
   * malformed P1 or P2 value raises, and any other tag changes nothing.
   */
  function ScanStep(r: Readings, x: Reading): (next: Result<Readings, EntryError>)
    ensures next.Failure? <==> IsPmTag(x.valueType) && x.value.None?
    ensures next.Success? ==> forall t :: IsPmTag(t) ==> TagField(next.value, t) == if t == x.valueType then x.value else TagField(r, t)
  {
    if x.valueType == "P1" then
      (if x.value.None? then Failure(MalformedValue) else Success(r.(pm10 := x.value)))
    else if x.valueType == "P2" then
      (if x.value.None? then Failure(MalformedValue) else Success(r.(pm25 := x.value)))
    else Success(r)
  }

  /** The scan over a whole `sensordatavalues` list, starting from two Nones. */
  function Extract(vs: seq<Reading>): (r: Result<Readings, EntryError>)
    ensures r.Failure? ==> r.error == MalformedValue
  {
    if vs == [] then Success(Readings(None, None))
    else
      match Extract(vs[..|vs| - 1])
      case Failure(e) => Failure(e)
      case Success(r) => ScanStep(r, vs[|vs| - 1])
  }

  /** Reading `i` is the last one carrying `tag`. */
  ghost predicate LastWithTag(vs: seq<Reading>, tag: string, i: int) {
    0 <= i < |vs| && vs[i].valueType == tag &&
    forall k :: i < k < |vs| ==> vs[k].valueType != tag
  }

  /** The scan raises exactly when some P1 or P2 reading has malformed text. */
  lemma {:induction false} ExtractFails(vs: seq<Reading>)
    ensures Extract(vs).Failure? <==> exists i :: 0 <= i < |vs| && IsPmTag(vs[i].valueType) && vs[i].value.None?
  {
    if vs != [] {
      var n := |vs| - 1;
      ExtractFails(vs[..n]);
      assert forall i :: 0 <= i < n ==> vs[..n][i] == vs[i];
      if Extract(vs[..n]).Failure? {
        var i :| 0 <= i < n && IsPmTag(vs[..n][i].valueType) && vs[..n][i].value.None?;
        assert IsPmTag(vs[i].valueType) && vs[i].value.None?;
      }
    }
  }

  /**
   * After a successful scan, the variable for P1 (PM10) or P2 (PM2.5) holds
   * the value of the last reading with that tag, and is None when no reading
   * has it; other tags are ignored.
   */
  lemma {:induction false} ExtractTakesLast(vs: seq<Reading>, tag: string)
    requires IsPmTag(tag) && Extract(vs).Success?
    ensures TagField(Extract(vs).value, tag).None? <==> forall i :: 0 <= i < |vs| ==> vs[i].valueType != tag
    ensures forall i :: LastWithTag(vs, tag, i) ==> TagField(Extract(vs).value, tag) == vs[i].value
  {
    if vs != [] {
      var n := |vs| - 1;
      var prefix := vs[..n];
      assert forall i :: 0 <= i < n ==> prefix[i] == vs[i];
      ExtractTakesLast(prefix, tag);
      var r := Extract(prefix).value;
      assert Extract(vs) == ScanStep(r, vs[n]);
      if vs[n].valueType == tag {
        assert TagField(Extract(vs).value, tag) == vs[n].value;
        forall i | LastWithTag(vs, tag, i) ensures i == n {
        }
      } else {
        assert TagField(Extract(vs).value, tag) == TagField(r, tag);
        forall i | LastWithTag(vs, tag, i) ensures LastWithTag(prefix, tag, i) {
        }
      }
    }
  }

  /** Once a prefix of the readings raises, the whole scan raises the same. */
  lemma {:induction false} ExtractFailureStable(vs: seq<Reading>, k: nat)
    requires k <= |vs| && Extract(vs[..k]).Failure?
    ensures Extract(vs) == Extract(vs[..k])
    decreases |vs| - k
  {
    if k < |vs| {
      assert vs[..k + 1][..k] == vs[..k];
      ExtractFailureStable(vs, k + 1);
    } else {
      assert vs[..k] == vs;
    }
  }

  /**
   * Lines 97-103: scan `sensordatavalues` once, keeping the last P1 value as
   * `pm10` and the last P2 value as `pm25`; a malformed value raises at once.
   */
  method ScanReadings(vs: seq<Reading>) returns (r: Result<Readings, EntryError>)
    ensures r == Extract(vs)
  {
    var pm10: Option<real> := None;
    var pm25: Option<real> := None;
    var i := 0;
    while i < |vs|
      invariant 0 <= i <= |vs|
      invariant Extract(vs[..i]) == Success(Readings(pm10, pm25))
    {
      var x := vs[i];
      assert vs[..i + 1][..i] == vs[..i];
      if x.valueType == "P1" {
        if x.value.None? {
          ExtractFailureStable(vs, i + 1);
          return Failure(MalformedValue);
        }
        pm10 := x.value;
      } else if x.valueType == "P2" {
        if x.value.None? {
          ExtractFailureStable(vs, i + 1);
          return Failure(MalformedValue);
        }
        pm25 := x.value;
      }
      i := i + 1;
    }
    assert vs[..i] == vs;
    return Success(Readings(pm10, pm25));
  }

  predicate BothPresent(rd: Readings) {
    rd.pm10.Some? && rd.pm25.Some?
  }

  /**
   * Lines 105-106: `aqi` is recomputed only when both readings are present,
   * and then by `calculate_aqi(pm10, pm25)`, which hands PM10 to the PM2.5
   * parameter and PM2.5 to the PM10 parameter; otherwise it keeps its value.
   */
  function NextAqi(rd: Readings, aqi: AqiVar): (r: AqiVar)
    ensures BothPresent(rd) ==> r == Bound(Worst(SubIndex(rd.pm10.value, Pm25Table()), SubIndex(rd.pm25.value, Pm10Table())))
    ensures !BothPresent(rd) ==> r == aqi
  {
    if BothPresent(rd) then Bound(CalculateAqi(rd.pm10, rd.pm25)) else aqi
  }

  /**
   * Lines 96-117: one entry's item and the new value of `aqi`, or the
   * exception it raises. A built item copies the id as text, the timestamp,
   * the country and the last P1 and P2 values, and carries the new `aqi`;
   * the entry raises for a malformed value (exactly when the scan fails),
   * for a missing country, or for `aqi` never having been assigned.
   */
  function BuildItem(e: Entry, aqi: AqiVar): (r: Result<(Item, AqiVar), EntryError>)
    ensures r.Success? ==> Extract(e.values).Success? && e.country.Some?
    ensures r.Success? && Extract(e.values).Success? && e.country.Some? ==>
      var (item, a) := r.value;
      var rd := Extract(e.values).value;
      a == NextAqi(rd, aqi) && a == Bound(item.aqi) &&
      item == Item(IdToString(e.id), e.timestamp, e.country.value, rd.pm10, rd.pm25, item.aqi)
    ensures r.Failure? ==>
      (r.error == MalformedValue <==> Extract(e.values).Failure?) &&
      (r.error == MissingCountry ==> e.country.None?) &&
      (r.error == UnboundAqi ==> e.country.Some? && aqi.Unbound? && !BothPresent(Extract(e.values).value))
  {
    match Extract(e.values)
    case Failure(err) => Failure(err)
    case Success(rd) =>
      var a := NextAqi(rd, aqi);
      if e.country.None? then Failure(MissingCountry)
      else if a.Unbound? then Failure(UnboundAqi)
      else Success((Item(IdToString(e.id), e.timestamp, e.country.value, rd.pm10, rd.pm25, a.aqi), a))
  }

  /** The items built so far and `aqi`, or the items built before the entry that raised. */
  datatype Run = Completed(items: seq<Item>, aqi: AqiVar) | Aborted(items: seq<Item>, failure: Abort)

  /**
   * One iteration of the loop on entry number `i`: nothing more happens once
   * the run has aborted; otherwise the entry either adds exactly one item or
   * aborts the run at `i` keeping the items built so far.
   */
  function Step(run: Run, e: Entry, i: nat): (next: Run)
    ensures run.Aborted? ==> next == run
    ensures next.Completed? ==> run.Completed? && |next.items| == |run.items| + 1 && next.items[..|run.items|] == run.items
    ensures run.Completed? && next.Aborted? ==> next.items == run.items && next.failure.at == i
  {
    match run
    case Aborted(items, f) => Aborted(items, f)
    case Completed(items, aqi) =>
      match BuildItem(e, aqi)
      case Failure(err) => Aborted(items, Abort(i, err))
      case Success(step) => Completed(items + [step.0], step.1)
  }

  /**
   * The loop after its first `n` iterations, in input order: a completed run
   * has one item per entry, an aborted run one per entry before the one
   * that raised.
   */
  function Process(es: seq<Entry>, n: nat): (run: Run)
    requires n <= |es|
    ensures run.Completed? ==> |run.items| == n
    ensures run.Aborted? ==> |run.items| == run.failure.at
  {
    if n == 0 then Completed([], Unbound)
    else Step(Process(es, n - 1), es[n - 1], n - 1)
  }

  /**
   * In a completed run `aqi` holds the last item's AQI (it is unassigned
   * before the first entry); an aborted run stopped at one of the entries
   * seen.
   */
  lemma {:induction false} ProcessShape(es: seq<Entry>, n: nat)
    requires n <= |es|
    ensures var run := Process(es, n);
      (run.Completed? && n == 0 ==> run.aqi.Unbound?) &&
      (run.Completed? && n > 0 ==> run.aqi == Bound(run.items[n - 1].aqi)) &&
      (run.Aborted? ==> run.failure.at < n)
  {
    if n > 0 {
      ProcessShape(es, n - 1);
      var prefix := Process(es, n - 1);
      if prefix.Completed? && BuildItem(es[n - 1], prefix.aqi).Success? {
      }
    }
  }

  /** Once the run has aborted, later entries change nothing. */
  lemma {:induction false} ProcessAbortedStable(es: seq<Entry>, k: nat, n: nat)
    requires k <= n <= |es| && Process(es, k).Aborted?
    ensures Process(es, n) == Process(es, k)
  {
    if k < n {
      ProcessAbortedStable(es, k, n - 1);
    }
  }

  /** An entry that raises ends the whole run, keeping the items built before it. */
  lemma {:induction false} ProcessAbortsAt(es: seq<Entry>, i: nat)
    requires i < |es| && Process(es, i).Completed?
    requires BuildItem(es[i], Process(es, i).aqi).Failure?
    ensures Process(es, |es|) == Aborted(Process(es, i).items, Abort(i, BuildItem(es[i], Process(es, i).aqi).error))
  {
    ProcessAbortedStable(es, i + 1, |es|);
  }

  /**
   * Every item of a completed run copies its entry: `id` as text, timestamp,
   * country, and the last P1 and P2 values; its AQI is absent or in 1..10.
   */
  lemma {:induction false} ProcessItems(es: seq<Entry>, n: nat, i: nat)
    requires n <= |es| && Process(es, n).Completed? && i < n
    ensures Extract(es[i].values).Success? && es[i].country.Some?
    ensures var item := Process(es, n).items[i];
      var rd := Extract(es[i].values).value;
      item.id == IdToString(es[i].id) && item.timestamp == es[i].timestamp &&
      item.country == es[i].country.value && item.pm10 == rd.pm10 && item.pm25 == rd.pm25 &&
      (item.aqi.Some? ==> 1 <= item.aqi.value <= 10)
  {
    var prefix := Process(es, n - 1);
    if i < n - 1 {
      ProcessItems(es, n - 1, i);
      assert Process(es, n).items[i] == prefix.items[i];
    } else {
      if 0 < i {
        ProcessItems(es, n - 1, i - 1);
      }
    }
  }

  /**
   * The AQI of item `i` is `calculate_aqi(pm10, pm25)` (arguments swapped
   * against the signature) when entry `i` has both readings; otherwise it is
   * inherited from item `i - 1`, and the first entry always has both.
   */
  lemma {:induction false} ProcessAqi(es: seq<Entry>, n: nat, i: nat)
    requires n <= |es| && Process(es, n).Completed? && i < n
    ensures Extract(es[i].values).Success?
    ensures var rd := Extract(es[i].values).value;
      (BothPresent(rd) ==> Process(es, n).items[i].aqi == CalculateAqi(rd.pm10, rd.pm25)) &&
      (!BothPresent(rd) ==> 0 < i && Process(es, n).items[i].aqi == Process(es, n).items[i - 1].aqi)
  {
    var prefix := Process(es, n - 1);
    if i < n - 1 {
      ProcessAqi(es, n - 1, i);
      assert Process(es, n).items[i] == prefix.items[i];
      if 0 < i {
        assert Process(es, n).items[i - 1] == prefix.items[i - 1];
      }
    } else {
    }
  }

  /**
   * Why a run aborts: entry `at` has a malformed P1/P2 value, or no country,
   * or (only possible for the very first entry) lacks a reading while `aqi`
   * was never assigned.
   */
  lemma {:induction false} ProcessAbortCause(es: seq<Entry>, n: nat)
    requires n <= |es| && Process(es, n).Aborted?
    ensures var f := Process(es, n).failure;
      f.at < n &&
      (f.error == MalformedValue <==> Extract(es[f.at].values).Failure?) &&
      (f.error == MissingCountry ==> es[f.at].country.None?) &&
      (f.error == UnboundAqi ==> f.at == 0 && es[0].country.Some? && !BothPresent(Extract(es[0].values).value))
  {
    var prefix := Process(es, n - 1);
    if prefix.Aborted? {
      ProcessAbortCause(es, n - 1);
    } else {
      ProcessShape(es, n - 1);
    }
  }

  /**
   * Lines 96-117, the body of the loop up to the item: scan the readings,
   * recompute `aqi` when both are present, and build the item; raises for a
   * malformed value, a missing country, or an `aqi` that was never assigned.
   */
  method BuildEntryItem(e: Entry, aqi: AqiVar) returns (r: Result<(Item, AqiVar), EntryError>)
    ensures r == BuildItem(e, aqi)
  {
    var readings := ScanReadings(e.values);
    if readings.Failure? {
      return Failure(readings.error);
    }
    var pm10, pm25 := readings.value.pm10, readings.value.pm25;
    var a := aqi;
    if pm10.Some? && pm25.Some? {
      a := Bound(CalculateAqi(pm10, pm25));
    }
    if e.country.None? {
      return Failure(MissingCountry);
    }
    if a.Unbound? {
      return Failure(UnboundAqi);
    }
    var item := Item(IdToString(e.id), e.timestamp, e.country.value, pm10, pm25, a.aqi);
    return Success((item, a));
  }

  /** `batch`, the writer from `table.batch_writer`; `put_item` is modelled as appending to a log. */
  class BatchWriter {
    /** Every item passed to `put_item`, in call order. */
    var log: seq<Item>

    constructor ()
      ensures log == []
    {
      log := [];
    }

    method PutItem(item: Item)
      modifies this
      ensures log == old(log) + [item]
    {
      log := log + [item];
    }
  }

  /** Lines 124-125 and 130-131: `put_item` for each buffered item, in order. */
  method PutAll(batch: BatchWriter, items: seq<Item>)
    modifies batch
    ensures batch.log == old(batch.log) + items
  {
    for k := 0 to |items|
      invariant batch.log == old(batch.log) + items[..k]
    {
      batch.PutItem(items[k]);
    }
    assert items[..|items|] == items;
  }

  /**
   * Lines 119-127: append `item` to the buffer; once the buffer holds 25
   * items, pass them all to `put_item` in order and empty it.
   */
  method AddToBuffer(batch: BatchWriter, buffered: seq<Item>, item: Item) returns (rest: seq<Item>, flushed: bool)
    requires |buffered| < BatchSize
    modifies batch
    ensures flushed <==> |buffered| + 1 == BatchSize
    ensures flushed ==> batch.log == old(batch.log) + (buffered + [item]) && rest == []
    ensures !flushed ==> batch.log == old(batch.log) && rest == buffered + [item]
  {
    rest := buffered + [item];
    flushed := false;
    if |rest| == BatchSize {
      PutAll(batch, rest);
      rest := [];
      flushed := true;
    }
  }

  /**
   * Lines 94-128: the loop over all entries with the 25-item buffer.
   * `groups` holds the items of each group of consecutive `put_item` calls,
   * one full group of 25 each time the buffer fills; `rest` is what is left
   * in the buffer when the entries run out. On an exception, only the full
   * groups before the failing entry were written.
   */
  method FillBatches(entries: seq<Entry>, batch: BatchWriter) returns (rest: seq<Item>, failure: Option<Abort>, ghost groups: seq<seq<Item>>)
    modifies batch
    ensures batch.log == old(batch.log) + Concat(groups)
    ensures forall k :: 0 <= k < |groups| ==> |groups[k]| == BatchSize
    ensures Process(entries, |entries|).Completed? ==>
      failure.None? &&
      Process(entries, |entries|).items == Concat(groups) + rest &&
      |groups| == |entries| / BatchSize && |rest| == |entries| % BatchSize
    ensures Process(entries, |entries|).Aborted? ==>
      var f := Process(entries, |entries|).failure;
      failure == Some(f) &&
      Concat(groups) == Process(entries, |entries|).items[..f.at / BatchSize * BatchSize] &&
      |groups| == f.at / BatchSize
  {
    rest := [];
    var aqi := Unbound;
    ghost var sent: seq<Item> := [];
    groups := [];
    for i := 0 to |entries|
      invariant Process(entries, i).Completed? && Process(entries, i).aqi == aqi
      invariant Process(entries, i).items == sent + rest
      invariant batch.log == old(batch.log) + sent && sent == Concat(groups)
      invariant |rest| < BatchSize && |sent| == |groups| * BatchSize
      invariant forall k :: 0 <= k < |groups| ==> |groups[k]| == BatchSize
    {
      var step := BuildEntryItem(entries[i], aqi);
      if step.Failure? {
        AbortedAfterFlushes(entries, i, sent, rest, aqi, |groups|);
        return rest, Some(Abort(i, step.error)), groups;
      }
      var item := step.value.0;
      ghost var full := rest + [item];
      assert Process(entries, i + 1).items == sent + full;
      aqi := step.value.1;
      var flushed;
      rest, flushed := AddToBuffer(batch, rest, item);
      if flushed {
        ConcatAppend(groups, full);
        sent, groups := sent + full, groups + [full];
      }
    }
    BatchBoundary(|entries|, |groups|, |rest|);
    failure := None;
  }

  /**
   * Lines 90-131: the buffered loop, then the final `put_item` calls for
   * what is left in the buffer. `groups` holds the items of each group of
   * consecutive `put_item` calls: one full group of 25 each time the buffer
   * fills, then the remainder (possibly empty) at the end. On completion
   * every item is written exactly once, in input order; on an exception,
   * only the full groups before the failing entry were written.
   */
  method IngestEntries(entries: seq<Entry>, batch: BatchWriter) returns (failure: Option<Abort>, ghost groups: seq<seq<Item>>)
    modifies batch
    ensures batch.log == old(batch.log) + Concat(groups)
    ensures Process(entries, |entries|).Completed? ==>
      failure.None? &&
      Concat(groups) == Process(entries, |entries|).items &&
      |groups| == |entries| / BatchSize + 1 &&
      (forall k :: 0 <= k < |entries| / BatchSize ==> |groups[k]| == BatchSize) &&
      |groups[|entries| / BatchSize]| == |entries| % BatchSize
    ensures Process(entries, |entries|).Aborted? ==>
      var f := Process(entries, |entries|).failure;
      failure == Some(f) &&
      Concat(groups) == Process(entries, |entries|).items[..f.at / BatchSize * BatchSize] &&
      |groups| == f.at / BatchSize &&
      (forall k :: 0 <= k < |groups| ==> |groups[k]| == BatchSize)
  {
    var rest;
    rest, failure, groups := FillBatches(entries, batch);
    if failure.Some? {
      return;
    }
    PutAll(batch, rest);
    ConcatAppend(groups, rest);
    groups := groups + [rest];
  }

  /** The items of consecutive groups of `put_item` calls, one group after the other. */
  ghost function Concat(groups: seq<seq<Item>>): seq<Item> {
    if groups == [] then [] else Concat(groups[..|groups| - 1]) + groups[|groups| - 1]
  }

  lemma ConcatAppend(groups: seq<seq<Item>>, g: seq<Item>)
    ensures Concat(groups + [g]) == Concat(groups) + g
  {
    assert (groups + [g])[..|groups|] == groups;
  }

  /**
   * An entry that raises while `sent` has been written in `q` full groups
   * and `buffered` waits in the buffer: the run aborts there, and what was
   * written is exactly the full groups before the failing entry.
   */
  lemma AbortedAfterFlushes(es: seq<Entry>, i: nat, sent: seq<Item>, buffered: seq<Item>, aqi: AqiVar, q: nat)
    requires i < |es| && Process(es, i) == Completed(sent + buffered, aqi)
    requires BuildItem(es[i], aqi).Failure?
    requires |buffered| < BatchSize && |sent| == q * BatchSize
    ensures Process(es, |es|) == Aborted(sent + buffered, Abort(i, BuildItem(es[i], aqi).error))
    ensures q == i / BatchSize && (sent + buffered)[..i / BatchSize * BatchSize] == sent
  {
    ProcessAbortsAt(es, i);
    BatchBoundary(i, q, |buffered|);
    assert (sent + buffered)[..|sent|] == sent;
  }

  /** `n` items split as `q` full batches and `r` buffered items: `q` is `n / 25` and `r` is `n % 25`. */
  lemma BatchBoundary(n: nat, q: nat, r: nat)
    requires n == q * BatchSize + r && r < BatchSize
    ensures q == n / BatchSize && r == n % BatchSize
  {
  }

  /** Scanning a P1 reading followed by a P2 reading keeps both values. */
  lemma ExtractPair(a: real, b: real)
    ensures Extract([Reading("P1", Some(a)), Reading("P2", Some(b))]) == Success(Readings(Some(a), Some(b)))
  {
    var vs := [Reading("P1", Some(a)), Reading("P2", Some(b))];
    assert vs[..1] == [vs[0]] && vs[..1][..0] == [];
    assert Extract(vs[..1]) == Success(Readings(Some(a), None));
    assert "P2" != "P1" by { assert "P2"[1] != "P1"[1]; }
  }

  /**
   * The argument swap in action: an entry with PM10 between 92 and 100 and
   * PM2.5 at most 11 gets AQI 10, while classifying each reading by its own
   * table would give 9.
   */
  lemma SwappedTablesExample(e: Entry, aqi: AqiVar, pm10: real, pm25: real)
    requires e.values == [Reading("P1", Some(pm10)), Reading("P2", Some(pm25))] && e.country.Some?
    requires 92.0 <= pm10 <= 100.0 && 0.0 <= pm25 <= 11.0
    ensures Extract(e.values).Success? && BuildItem(e, aqi).Success?
    ensures var rd := Extract(e.values).value;
      BuildItem(e, aqi).value.0.aqi == Some(10) && CalculateAqi(rd.pm25, rd.pm10) == Some(9)
  {
    ExtractPair(pm10, pm25);
    SwapExample(pm10, pm25);
  }
}
