/**
 * The clinic dashboard's derived views: call volume per day, the appointment estimate per day,
 * the duration label of a call row, and the system-status banner.
 */
module ClinicDashboardPage {
  import opened Util
  import opened Schema

  datatype VolumeEntry = VolumeEntry(day: string, calls: nat)
  datatype AppointmentEntry = AppointmentEntry(day: string, appts: nat)

  /** The day key of each call, in call order. */
  function DayKeys(calls: seq<CallRow>, dayKey: CallRow -> string): (keys: seq<string>)
    ensures |keys| == |calls|
    ensures forall i :: 0 <= i < |calls| ==> keys[i] == dayKey(calls[i])
  {
    if calls == [] then [] else [dayKey(calls[0])] + DayKeys(calls[1..], dayKey)
  }

  /** No key occurs twice. */
  predicate NoDuplicates(ds: seq<string>) {
    forall i, j :: 0 <= i < j < |ds| ==> ds[i] != ds[j]
  }

  /** The distinct keys in the order of their first appearance. */
  function Distinct(keys: seq<string>): (ds: seq<string>)
    ensures NoDuplicates(ds)
    ensures forall k :: k in ds <==> k in keys
    decreases |keys|
  {
    if keys == [] then []
    else
      var init := keys[..|keys| - 1];
      var last := keys[|keys| - 1];
      assert keys == init + [last];
      var prev := Distinct(init);
      if last in prev then prev else prev + [last]
  }

  /** One entry per key of `ds`, in that order, counting the key's occurrences in `keys`. */
  function Entries(ds: seq<string>, keys: seq<string>): (r: seq<VolumeEntry>)
    ensures |r| == |ds|
    ensures forall i :: 0 <= i < |ds| ==> r[i] == VolumeEntry(ds[i], multiset(keys)[ds[i]])
  {
    if ds == [] then []
    else Entries(ds[..|ds| - 1], keys) + [VolumeEntry(ds[|ds| - 1], multiset(keys)[ds[|ds| - 1]])]
  }

  /** The volume chart's data for a list of day keys. */
  function Volume(keys: seq<string>): seq<VolumeEntry> {
    Entries(Distinct(keys), keys)
  }

  /** The calls counted over all entries. */
  function Total(entries: seq<VolumeEntry>): nat {
    if entries == [] then 0 else Total(entries[..|entries| - 1]) + entries[|entries| - 1].calls
  }

  /**
   * Count the calls per day key in a map whose key order is the order of first insertion, then
   * list the map's entries. No calls, no entries.
   */
  method VolumeData(calls: seq<CallRow>, dayKey: CallRow -> string) returns (r: seq<VolumeEntry>)
    ensures r == Volume(DayKeys(calls, dayKey))
  {
    var keys := DayKeys(calls, dayKey);
    if |calls| == 0 {
      return [];
    }
    // the accumulator map: its keys in insertion order, and its counts
    var order: seq<string> := [];
    var counts: map<string, nat> := map[];
    var i := 0;
    while i < |calls|
      invariant 0 <= i <= |calls|
      invariant Tallies(keys[..i], order, counts)
    {
      var key := dayKey(calls[i]);
      assert key == keys[i];
      assert keys[..i + 1] == keys[..i] + [key];
      TallyStep(keys[..i], key, order, counts);
      order, counts := if key in counts then order else order + [key],
                       counts[key := (if key in counts then counts[key] else 0) + 1];
      i := i + 1;
    }
    assert keys[..i] == keys;

    r := ListEntries(order, counts, keys);
  }

  /** `Array.from(accumulator.entries()).map(...)`: the map's entries in insertion order. */
  method ListEntries(order: seq<string>, counts: map<string, nat>, keys: seq<string>) returns (r: seq<VolumeEntry>)
    requires forall k :: k in order ==> k in counts && counts[k] == multiset(keys)[k]
    ensures r == Entries(order, keys)
  {
    r := [];
    var j := 0;
    while j < |order|
      invariant 0 <= j <= |order|
      invariant r == Entries(order[..j], keys)
    {
      assert order[..j + 1][..j] == order[..j];
      r := r + [VolumeEntry(order[j], counts[order[j]])];
      j := j + 1;
    }
    assert order[..j] == order;
  }

  /** The accumulator holds, in first-insertion order, one count per key seen so far. */
  ghost predicate Tallies(seen: seq<string>, order: seq<string>, counts: map<string, nat>) {
    && order == Distinct(seen)
    && (forall k :: k in counts <==> k in order)
    && (forall k :: k in counts ==> counts[k] == multiset(seen)[k])
  }

  /** The distinct keys after one more key: it is appended when new. */
  lemma {:induction false} DistinctSnoc(seen: seq<string>, key: string)
    ensures Distinct(seen + [key]) == if key in Distinct(seen) then Distinct(seen) else Distinct(seen) + [key]
  {
    var all := seen + [key];
    assert all[..|all| - 1] == seen && all[|all| - 1] == key;
  }

  /** The counts after one more key: that key's count goes up by one. */
  lemma {:induction false} CountsStep(seen: seq<string>, key: string, counts: map<string, nat>)
    requires forall k :: k in counts ==> counts[k] == multiset(seen)[k]
    requires key !in counts ==> key !in seen
    ensures var counts' := counts[key := (if key in counts then counts[key] else 0) + 1];
      forall k :: k in counts' ==> counts'[k] == multiset(seen + [key])[k]
  {
    var counts' := counts[key := (if key in counts then counts[key] else 0) + 1];
    var m := multiset(seen + [key]);
    assert m == multiset(seen) + multiset{key};
    forall k | k in counts' ensures counts'[k] == m[k] {
      if k == key {
        if key !in counts {
          assert multiset(seen)[key] == 0;
        }
      } else {
        assert counts'[k] == counts[k];
      }
    }
  }

  /** Counting one more key keeps the accumulator in step. */
  lemma {:induction false} TallyStep(seen: seq<string>, key: string, order: seq<string>, counts: map<string, nat>)
    requires Tallies(seen, order, counts)
    ensures Tallies(seen + [key],
                    if key in counts then order else order + [key],
                    counts[key := (if key in counts then counts[key] else 0) + 1])
  {
    var order' := if key in counts then order else order + [key];
    var counts' := counts[key := (if key in counts then counts[key] else 0) + 1];
    DistinctSnoc(seen, key);
    assert key in counts <==> key in Distinct(seen);
    CountsStep(seen, key, counts);
    forall k ensures k in counts' <==> k in order' {
      assert k in counts' <==> k in counts || k == key;
    }
  }

  /** Every day with a call is listed exactly once, with its number of calls. */
  lemma {:induction false} VolumePerDay(keys: seq<string>, day: string)
    requires day in keys
    ensures exists i :: 0 <= i < |Volume(keys)| && Volume(keys)[i] == VolumeEntry(day, multiset(keys)[day])
    ensures forall i, j :: 0 <= i < j < |Volume(keys)| ==> Volume(keys)[i].day != Volume(keys)[j].day
  {
    var ds := Distinct(keys);
    var i :| 0 <= i < |ds| && ds[i] == day;
    assert Volume(keys)[i] == VolumeEntry(day, multiset(keys)[day]);
  }

  /** The total after one more entry. */
  lemma {:induction false} TotalSnoc(entries: seq<VolumeEntry>, e: VolumeEntry)
    ensures Total(entries + [e]) == Total(entries) + e.calls
  {
    var all := entries + [e];
    assert all[..|all| - 1] == entries;
  }

  /** A duplicate-free list without its last key is duplicate-free and lacks that key. */
  lemma {:induction false} NoDuplicatesInit(init: seq<string>, last: string)
    requires NoDuplicates(init + [last])
    ensures NoDuplicates(init) && last !in init
  {
    var ds := init + [last];
    forall i, j | 0 <= i < j < |init| ensures init[i] != init[j] {
      assert init[i] == ds[i] && init[j] == ds[j];
    }
    forall i | 0 <= i < |init| ensures init[i] != last {
      assert init[i] == ds[i] && last == ds[|ds| - 1];
    }
  }

  /** The entries of a list ending in `last`. */
  lemma {:induction false} EntriesUnfold(init: seq<string>, last: string, keys: seq<string>)
    ensures Entries(init + [last], keys) == Entries(init, keys) + [VolumeEntry(last, multiset(keys)[last])]
  {
    var ds := init + [last];
    assert ds[..|ds| - 1] == init && ds[|ds| - 1] == last;
  }

  /** Counting the keys of `ds` after one more key arrives. */
  lemma {:induction false} EntriesTotalSnoc(ds: seq<string>, keys: seq<string>, x: string)
    requires NoDuplicates(ds)
    ensures Total(Entries(ds, keys + [x])) == Total(Entries(ds, keys)) + (if x in ds then 1 else 0)
    decreases |ds|
  {
    if ds != [] {
      var init, last := ds[..|ds| - 1], ds[|ds| - 1];
      assert ds == init + [last];
      NoDuplicatesInit(init, last);
      EntriesTotalSnoc(init, keys, x);
      var m, m' := multiset(keys), multiset(keys + [x]);
      assert m' == m + multiset{x};
      EntriesUnfold(init, last, keys);
      EntriesUnfold(init, last, keys + [x]);
      TotalSnoc(Entries(init, keys), VolumeEntry(last, m[last]));
      TotalSnoc(Entries(init, keys + [x]), VolumeEntry(last, m'[last]));
      assert x in ds <==> x in init || x == last;
    }
  }

  /** Adding a key no other key equals adds its count. */
  lemma {:induction false} EntriesTotalAppend(ds: seq<string>, y: string, keys: seq<string>)
    ensures Total(Entries(ds + [y], keys)) == Total(Entries(ds, keys)) + multiset(keys)[y]
  {
    var all := ds + [y];
    assert all[..|all| - 1] == ds && all[|all| - 1] == y;
    TotalSnoc(Entries(ds, keys), VolumeEntry(y, multiset(keys)[y]));
  }

  /** One more call adds one to the chart's total. */
  lemma {:induction false} VolumeTotalSnoc(init: seq<string>, x: string)
    ensures Total(Volume(init + [x])) == Total(Volume(init)) + 1
  {
    var prev := Distinct(init);
    DistinctSnoc(init, x);
    EntriesTotalSnoc(prev, init, x);
    if x !in prev {
      EntriesTotalAppend(prev, x, init + [x]);
      assert multiset(init)[x] == 0;
    }
  }

  /** The chart's counts add up to the number of calls. */
  lemma {:induction false} VolumeTotal(keys: seq<string>)
    ensures Total(Volume(keys)) == |keys|
    decreases |keys|
  {
    if keys != [] {
      var init := keys[..|keys| - 1];
      assert keys == init + [keys[|keys| - 1]];
      VolumeTotal(init);
      VolumeTotalSnoc(init, keys[|keys| - 1]);
    }
  }

  /** `Math.round(n / 3)` for a non-negative count: halves round up. */
  function RoundThird(n: nat): nat {
    (2 * n + 3) / 6
  }

  /** The appointment estimate for a day's calls: a third of them, rounded, but at least one. */
  function Appointments(n: nat): (r: nat)
    ensures r >= 1
    ensures 3 * r <= n + 1 || r == 1
    ensures n + 1 < 3 * (r + 1)
  {
    if RoundThird(n) < 1 then 1 else RoundThird(n)
  }

  /** The rounded third is the integer quotient of `n + 1` by three. */
  lemma {:induction false} RoundThirdIsQuotient(n: nat)
    ensures RoundThird(n) == (n + 1) / 3
  {
    var q, m := (n + 1) / 3, (n + 1) % 3;
    assert n + 1 == 3 * q + m && 0 <= m < 3;
    assert 2 * n + 3 == 6 * q + (2 * m + 1);
  }

  /** The appointment chart: the volume chart's days, each with its estimate. */
  function AppointmentsData(volume: seq<VolumeEntry>): (r: seq<AppointmentEntry>)
    ensures |r| == |volume|
    ensures forall i :: 0 <= i < |r| ==> r[i].day == volume[i].day && r[i].appts >= 1
    ensures forall i :: 0 <= i < |r| ==> r[i].appts == if volume[i].calls + 1 < 6 then 1 else (volume[i].calls + 1) / 3
  {
    if volume == [] then []
    else
      RoundThirdIsQuotient(volume[0].calls);
      [AppointmentEntry(volume[0].day, Appointments(volume[0].calls))] + AppointmentsData(volume[1..])
  }

  /** A call row's duration: `<n>s` for a non-zero duration, `-` for none or zero. */
  function DurationLabel(seconds: Option<int>): (r: string)
    ensures r == "-" <==> seconds.None? || seconds.value == 0
    ensures seconds.Some? && seconds.value != 0 ==> |r| >= 2 && r[|r| - 1] == 's' && r[..|r| - 1] == IntToString(seconds.value)
  {
    if seconds.None? || seconds.value == 0 then "-"
    else
      var r := IntToString(seconds.value) + "s";
      assert r[..|r| - 1] == IntToString(seconds.value);
      assert r[0] == '-' ==> seconds.value < 0;
      r
  }

  /** A positive duration's label reads back as that number of seconds. */
  lemma {:induction false} DurationLabelRoundTrip(seconds: nat)
    requires seconds > 0
    ensures var r := DurationLabel(Some(seconds));
      (forall i :: 0 <= i < |r| - 1 ==> IsDigit(r[i])) && DigitsValue(r[..|r| - 1]) == seconds
  {
    NatToStringRoundTrip(seconds);
  }

  datatype Variant = Default | Destructive
  datatype Banner = Banner(variant: Variant, title: string, description: string)

  /** The banner above the dashboard. */
  function StatusBanner(status: SystemStatus): (b: Banner)
    ensures b.variant == Destructive <==> status == Paused
    ensures status == Paused ==> b.title == "System paused"
    ensures status == Active ==> b.title == "System active"
  {
    if status == Paused then
      Banner(Destructive, "System paused", "Calls are not being handled until you resume.")
    else
      Banner(Default, "System active", "AI receptionist is answering around the clock.")
  }
}
