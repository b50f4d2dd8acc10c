/** The reduction of the provider's 3-hourly forecast feed to at most five
    daily summaries: the first entry of each not-yet-seen day is kept, the
    others are skipped. */
module Forecast {
  import opened WeatherTypes
  import Js

  /** The number of days the reduction emits at most. */
  const MaxDays: nat := 5

  /** One entry of the forecast feed, as far as the reduction reads it.
      `dayKey` is the day the entry's timestamp falls on in the viewer's
      local time zone; the model treats it as an opaque label. */
  datatype ForecastEntry = ForecastEntry(
    dayKey: string,
    dtTxt: string,      // provider timestamp text, "YYYY-MM-DD hh:mm:ss"
    tempMin: real,
    tempMax: real,
    description: string,
    icon: string,
    humidity: int)

  /** `s.split(' ')[0]`: everything before the first space, or all of `s`. */
  function DatePart(s: string): (r: string)
    ensures |r| <= |s| && r == s[..|r|]
    ensures ' ' !in r
    ensures |r| < |s| ==> s[|r|] == ' '
  {
    if s == [] || s[0] == ' ' then [] else [s[0]] + DatePart(s[1..])
  }

  /** The summary emitted for one entry: that entry's values alone. */
  function ToDay(e: ForecastEntry): (d: ForecastDay)
    ensures d.date == DatePart(e.dtTxt)
    ensures e.tempMin - 0.5 < d.temperature.min as real <= e.tempMin + 0.5
    ensures e.tempMax - 0.5 < d.temperature.max as real <= e.tempMax + 0.5
    ensures d.description == e.description && d.icon == e.icon && d.humidity == e.humidity
  {
    ForecastDay(
      DatePart(e.dtTxt),
      TemperatureRange(Js.Round(e.tempMin), Js.Round(e.tempMax)),
      e.description,
      e.icon,
      e.humidity)
  }

  function Summaries(es: seq<ForecastEntry>): seq<ForecastDay>
  {
    seq(|es|, k requires 0 <= k < |es| => ToDay(es[k]))
  }

  /** The day keys occurring in `es`. */
  function DayKeys(es: seq<ForecastEntry>): set<string>
  {
    set i | 0 <= i < |es| :: es[i].dayKey
  }

  /** No two entries of `es` share a day key. */
  predicate DistinctKeys(es: seq<ForecastEntry>)
  {
    forall i, j :: 0 <= i < j < |es| ==> es[i].dayKey != es[j].dayKey
  }

  /** Index `i` holds the first entry of `list` with its day key. */
  predicate IsFirstOfDay(list: seq<ForecastEntry>, i: int)
  {
    0 <= i < |list| && forall j :: 0 <= j < i ==> list[j].dayKey != list[i].dayKey
  }

  /** Reference definition: the entries that open a new day, in input order. */
  function FirstOfEachDay(list: seq<ForecastEntry>): (firsts: seq<ForecastEntry>)
    ensures |firsts| <= |list|
    ensures list != [] ==> firsts != [] && firsts[0] == list[0]
    decreases |list|
  {
    if list == [] then []
    else
      var n := |list| - 1;
      var prev := FirstOfEachDay(list[..n]);
      if list[n].dayKey in DayKeys(list[..n]) then prev else prev + [list[n]]
  }

  /** The positions in `list` of the entries `FirstOfEachDay` keeps. */
  ghost function FirstIndices(list: seq<ForecastEntry>): seq<nat>
    decreases |list|
  {
    if list == [] then []
    else
      var n := |list| - 1;
      var prev := FirstIndices(list[..n]);
      if list[n].dayKey in DayKeys(list[..n]) then prev else prev + [n]
  }

  /** What the reduction yields: a summary of each of the first five days. */
  function DailyForecasts(list: seq<ForecastEntry>): (days: seq<ForecastDay>)
    ensures |days| <= MaxDays
  {
    Summaries(Js.Take(FirstOfEachDay(list), MaxDays))
  }

  // ---------------------------------------------------------------------
  // Properties of the reference definition

  lemma DayKeysSnoc(es: seq<ForecastEntry>, e: ForecastEntry)
    ensures DayKeys(es + [e]) == DayKeys(es) + {e.dayKey}
  {
    var s := es + [e];
    assert s[|es|] == e;
    forall k | k in DayKeys(s) ensures k in DayKeys(es) + {e.dayKey} {
      var i :| 0 <= i < |s| && s[i].dayKey == k;
      if i < |es| { assert es[i] == s[i]; }
    }
    forall k | k in DayKeys(es) ensures k in DayKeys(s) {
      var i :| 0 <= i < |es| && es[i].dayKey == k;
      assert s[i] == es[i];
    }
  }

  /** Every day of the input is represented in the kept entries, once. */
  lemma {:induction false} FirstOfEachDayKeys(list: seq<ForecastEntry>)
    ensures DayKeys(FirstOfEachDay(list)) == DayKeys(list)
    ensures DistinctKeys(FirstOfEachDay(list))
    decreases |list|
  {
    if list != [] {
      var n := |list| - 1;
      var prev := FirstOfEachDay(list[..n]);
      FirstOfEachDayKeys(list[..n]);
      assert list == list[..n] + [list[n]];
      DayKeysSnoc(list[..n], list[n]);
      if list[n].dayKey !in DayKeys(list[..n]) {
        DayKeysSnoc(prev, list[n]);
        var s := prev + [list[n]];
        forall i, j | 0 <= i < j < |s| ensures s[i].dayKey != s[j].dayKey {
          if j == |prev| {
            assert s[i] == prev[i];
            assert prev[i].dayKey in DayKeys(prev);
          } else {
            assert s[i] == prev[i] && s[j] == prev[j];
          }
        }
      }
    }
  }

  /** Entries with pairwise distinct keys have as many keys as entries. */
  lemma {:induction false} DistinctKeysCount(es: seq<ForecastEntry>)
    requires DistinctKeys(es)
    ensures |DayKeys(es)| == |es|
    decreases |es|
  {
    if es != [] {
      var n := |es| - 1;
      assert es == es[..n] + [es[n]];
      DistinctKeysCount(es[..n]);
      DayKeysSnoc(es[..n], es[n]);
      assert es[n].dayKey !in DayKeys(es[..n]) by {
        forall i | 0 <= i < n ensures es[..n][i].dayKey != es[n].dayKey {
          assert es[..n][i] == es[i];
        }
      }
    }
  }

  /** The kept entries sit at strictly increasing positions of the input,
      each the first of its day, and every first-of-day position is kept. */
  lemma {:induction false} FirstIndicesSpec(list: seq<ForecastEntry>)
    ensures |FirstIndices(list)| == |FirstOfEachDay(list)|
    ensures forall k :: 0 <= k < |FirstIndices(list)| ==>
              IsFirstOfDay(list, FirstIndices(list)[k]) &&
              FirstOfEachDay(list)[k] == list[FirstIndices(list)[k]]
    ensures forall k, m :: 0 <= k < m < |FirstIndices(list)| ==>
              FirstIndices(list)[k] < FirstIndices(list)[m]
    ensures forall i :: IsFirstOfDay(list, i) ==> i in FirstIndices(list)
    decreases |list|
  {
    if list != [] {
      var n := |list| - 1;
      var p := list[..n];
      FirstIndicesSpec(p);
      var fi, ff := FirstIndices(p), FirstOfEachDay(p);
      forall k | 0 <= k < |fi| ensures IsFirstOfDay(list, fi[k]) && ff[k] == list[fi[k]] {
        assert IsFirstOfDay(p, fi[k]);
        forall j | 0 <= j < fi[k] ensures list[j].dayKey != list[fi[k]].dayKey {
          assert list[j] == p[j];
        }
      }
      var seen := list[n].dayKey in DayKeys(p);
      if seen {
        var j :| 0 <= j < n && p[j].dayKey == list[n].dayKey;
        assert !IsFirstOfDay(list, n) by { assert list[j] == p[j]; }
      } else {
        forall j | 0 <= j < n ensures list[j].dayKey != list[n].dayKey {
          assert list[j] == p[j];
          assert p[j].dayKey in DayKeys(p);
        }
      }
      forall i | IsFirstOfDay(list, i) ensures i in FirstIndices(list) {
        if i < n {
          assert IsFirstOfDay(p, i) by {
            forall j | 0 <= j < i ensures p[j].dayKey != p[i].dayKey {
              assert list[j] == p[j] && list[i] == p[i];
            }
          }
        }
      }
    }
  }

  // ---------------------------------------------------------------------
  // Properties of the reduction

  /** With at least five distinct days exactly five are emitted; otherwise
      one per distinct day. */
  lemma DailyForecastsCount(list: seq<ForecastEntry>)
    ensures |DailyForecasts(list)| ==
            if |DayKeys(list)| >= MaxDays then MaxDays else |DayKeys(list)|
  {
    FirstOfEachDayKeys(list);
    DistinctKeysCount(FirstOfEachDay(list));
  }

  /** Each emitted day comes from the first input entry of its day, the
      sources are in input order with pairwise distinct day keys, and the
      day copies that single entry's values: no later entry of the same
      day widens the range. */
  lemma DailyForecastsFromFirstEntries(list: seq<ForecastEntry>)
    ensures |DailyForecasts(list)| <= |FirstIndices(list)|
    ensures forall k :: 0 <= k < |DailyForecasts(list)| ==>
              var i := FirstIndices(list)[k];
              IsFirstOfDay(list, i) &&
              DailyForecasts(list)[k] == ForecastDay(
                DatePart(list[i].dtTxt),
                TemperatureRange(Js.Round(list[i].tempMin), Js.Round(list[i].tempMax)),
                list[i].description, list[i].icon, list[i].humidity)
    ensures forall k, m :: 0 <= k < m < |DailyForecasts(list)| ==>
              FirstIndices(list)[k] < FirstIndices(list)[m] < |list| &&
              list[FirstIndices(list)[k]].dayKey != list[FirstIndices(list)[m]].dayKey
  {
    FirstIndicesSpec(list);
    var fi := FirstIndices(list);
    forall k, m | 0 <= k < m < |DailyForecasts(list)|
      ensures list[fi[k]].dayKey != list[fi[m]].dayKey
    {
      assert IsFirstOfDay(list, fi[m]);
      assert fi[k] < fi[m];
    }
  }

  // ---------------------------------------------------------------------
  // The reduction as the source runs it

  lemma SummariesSnoc(es: seq<ForecastEntry>, e: ForecastEntry)
    ensures Summaries(es + [e]) == Summaries(es) + [ToDay(e)]
  {
    assert forall k :: 0 <= k < |es| ==> (es + [e])[k] == es[k];
  }

  /** Walks the feed once, keeping a set of the days already emitted and
      emitting a day only while fewer than five have been emitted. */
  method ReduceForecast(list: seq<ForecastEntry>) returns (days: seq<ForecastDay>)
    ensures days == DailyForecasts(list)
  {
    days := [];
    var processed: set<string> := {};
    for i := 0 to |list|
      invariant days == DailyForecasts(list[..i])
      invariant processed == DayKeys(Js.Take(FirstOfEachDay(list[..i]), MaxDays))
    {
      var item := list[i];
      var date := item.dayKey;
      ghost var p := list[..i];
      assert list[..i + 1] == p + [item];
      assert (p + [item])[..i] == p;
      FirstOfEachDayKeys(p);
      ghost var f := FirstOfEachDay(p);
      assert FirstOfEachDay(list[..i + 1]) == if date in DayKeys(p) then f else f + [item];
      if |days| == MaxDays && date !in DayKeys(p) {
        assert (f + [item])[..MaxDays] == f[..MaxDays];
      }
      if date !in processed && |days| < MaxDays {
        processed := processed + {date};
        days := days + [ToDay(item)];
        DayKeysSnoc(FirstOfEachDay(p), item);
        SummariesSnoc(FirstOfEachDay(p), item);
      }
    }
    assert list[..|list|] == list;
  }
}
