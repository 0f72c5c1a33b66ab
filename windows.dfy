/**
 * The report windows a run walks: starting from the bookmark, one window per
 * step of `delta` (a day for the sales reports, a month for the financial
 * report) while the window's end `iterator + delta` is not after the
 * extraction time.
 */
module ReportWindows {
  import opened Calendar

  /** The step between two windows: `relativedelta(days=1)` or `relativedelta(months=1)`. */
  datatype Delta = Day | Month

  /** `d + delta`. */
  function Step(delta: Delta, d: DateTime): (r: DateTime)
    ensures Instant(d) < Instant(r)
  {
    match delta
    case Day => AddDay(d)
    case Month => AddMonth(d)
  }

  /** The loop guard `iterator + delta <= extraction_time`. */
  predicate Eligible(delta: Delta, it: DateTime, end: DateTime) {
    NotAfter(Step(delta, it), end)
  }

  /** The window starts the loop visits from `it`, in order. */
  function Windows(delta: Delta, it: DateTime, end: DateTime): (ws: seq<DateTime>)
    ensures ws == [] <==> !Eligible(delta, it, end)
    ensures ws != [] ==> ws[0] == it
    decreases Instant(end) - Instant(it)
  {
    if Eligible(delta, it, end) then [it] + Windows(delta, Step(delta, it), end) else []
  }

  /**
   * The loop visits a chain: the first window is the start, each window is
   * one step after the previous, every window is eligible, and the step
   * after the last one is not.
   */
  predicate IsChain(delta: Delta, it: DateTime, end: DateTime, ws: seq<DateTime>) {
    && (forall k :: 0 <= k < |ws| ==> Eligible(delta, ws[k], end))
    && (forall k :: 0 <= k < |ws| - 1 ==> ws[k + 1] == Step(delta, ws[k]))
    && (if ws == [] then !Eligible(delta, it, end)
        else ws[0] == it && !Eligible(delta, Step(delta, ws[|ws| - 1]), end))
  }

  lemma {:induction false} WindowsChain(delta: Delta, it: DateTime, end: DateTime)
    ensures IsChain(delta, it, end, Windows(delta, it, end))
    decreases Instant(end) - Instant(it)
  {
    if Eligible(delta, it, end) {
      var next := Step(delta, it);
      WindowsChain(delta, next, end);
      var ws, rest := Windows(delta, it, end), Windows(delta, next, end);
      assert ws[1..] == rest;
      if rest == [] {
        assert ws == [it];
      }
    }
  }

  /** The chain is unique: any sequence with those properties is exactly the windows. */
  lemma {:induction false} ChainIsWindows(delta: Delta, it: DateTime, end: DateTime, ws: seq<DateTime>)
    requires IsChain(delta, it, end, ws)
    ensures ws == Windows(delta, it, end)
    decreases |ws|
  {
    if ws != [] {
      var next := Step(delta, it);
      if |ws| == 1 {
        assert !Eligible(delta, next, end);
      } else {
        var tail := ws[1..];
        assert tail[0] == next;
        assert forall k :: 0 <= k < |tail| ==> tail[k] == ws[k + 1];
        ChainIsWindows(delta, next, end, tail);
      }
      assert ws == [it] + ws[1..];
    }
  }

  /** Windows start strictly after one another, none before the start. */
  lemma {:induction false} WindowsAscending(delta: Delta, it: DateTime, end: DateTime)
    ensures forall k :: 0 <= k < |Windows(delta, it, end)| ==> Instant(it) <= Instant(Windows(delta, it, end)[k])
    ensures forall j, k :: 0 <= j < k < |Windows(delta, it, end)| ==>
      Instant(Windows(delta, it, end)[j]) < Instant(Windows(delta, it, end)[k])
    decreases Instant(end) - Instant(it)
  {
    if Eligible(delta, it, end) {
      var next := Step(delta, it);
      WindowsAscending(delta, next, end);
      ShiftedInstants(it, next, Windows(delta, it, end), Windows(delta, next, end));
    }
  }

  /** The ordering facts of `[it] + rest` from those of `rest`. */
  lemma ShiftedInstants(it: DateTime, next: DateTime, ws: seq<DateTime>, rest: seq<DateTime>)
    requires ws == [it] + rest
    requires Instant(it) < Instant(next)
    requires forall k :: 0 <= k < |rest| ==> Instant(next) <= Instant(rest[k])
    requires forall j, k :: 0 <= j < k < |rest| ==> Instant(rest[j]) < Instant(rest[k])
    ensures forall k :: 0 <= k < |ws| ==> Instant(it) <= Instant(ws[k])
    ensures forall j, k :: 0 <= j < k < |ws| ==> Instant(ws[j]) < Instant(ws[k])
  {
    forall k | 0 <= k < |ws|
      ensures Instant(it) <= Instant(ws[k])
    {
      if k > 0 {
        assert ws[k] == rest[k - 1];
      }
    }
    forall j, k | 0 <= j < k < |ws|
      ensures Instant(ws[j]) < Instant(ws[k])
    {
      assert ws[k] == rest[k - 1];
      if j > 0 {
        assert ws[j] == rest[j - 1];
      }
    }
  }

  /** Daily windows: the k-th starts exactly k days after the start. */
  lemma {:induction false} DailyWindowsInstants(it: DateTime, end: DateTime)
    ensures forall k :: 0 <= k < |Windows(Day, it, end)| ==>
      Instant(Windows(Day, it, end)[k]) == Instant(it) + k * SecondsPerDay
    decreases Instant(end) - Instant(it)
  {
    if Eligible(Day, it, end) {
      var next := Step(Day, it);
      DailyWindowsInstants(next, end);
      var ws, rest := Windows(Day, it, end), Windows(Day, next, end);
      forall k | 0 <= k < |ws| ensures Instant(ws[k]) == Instant(it) + k * SecondsPerDay {
        if k > 0 {
          assert ws[k] == rest[k - 1];
        }
      }
    }
  }

  /**
   * Daily windows: as many as there are whole days from the start to the
   * extraction time, and none when that is negative.
   */
  lemma {:induction false} DailyWindowsCount(it: DateTime, end: DateTime)
    ensures |Windows(Day, it, end)| == if DaysBetween(it, end) < 0 then 0 else DaysBetween(it, end)
    decreases Instant(end) - Instant(it)
  {
    var gap := Instant(end) - Instant(it);
    if Eligible(Day, it, end) {
      var next := Step(Day, it);
      DailyWindowsCount(next, end);
      assert Instant(end) - Instant(next) == gap - SecondsPerDay;
      assert (gap - SecondsPerDay) / SecondsPerDay == gap / SecondsPerDay - 1;
    } else {
      assert gap < SecondsPerDay;
    }
  }
}
