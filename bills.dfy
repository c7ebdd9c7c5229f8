/** What `filter_bills_by_last_updated` keeps of the fetched bills: those last updated inside the
    window (since, until], each billNo once, at its first in-range occurrence, in upstream order. */
module Bills {
  import opened Results
  import opened Dates
  import opened Errors

  /** A bill record as the legislation endpoint returns it, keeping the fields the model reads. */
  datatype Bill = Bill(billNo: string, status: string, lastUpdated: string, sponsors: seq<string>)

  /** The date window (since, until]: since is excluded, until included. */
  datatype Window = Window(since: Date, until: Date) {
    predicate Holds(d: Date) {
      Before(since, d) && AtOrBefore(d, until)
    }
  }

  /** The date of the bill's last update, or None where strptime would raise. */
  function UpdatedOn(b: Bill): Option<Date> {
    ExtractDate(b.lastUpdated)
  }

  predicate InRange(b: Bill, w: Window) {
    UpdatedOn(b).Some? && w.Holds(UpdatedOn(b).value)
  }

  /** The dates the loop reads, position by position (UpdateDatesAt). */
  function UpdateDates(bills: seq<Bill>): (dates: seq<Option<Date>>)
    ensures |dates| == |bills|
  {
    if bills == [] then [] else UpdateDates(bills[..|bills| - 1]) + [UpdatedOn(bills[|bills| - 1])]
  }

  lemma {:induction false} UpdateDatesAt(bills: seq<Bill>, i: nat)
    requires i < |bills|
    ensures UpdateDates(bills)[i] == UpdatedOn(bills[i])
  {
    if i < |bills| - 1 {
      UpdateDatesAt(bills[..|bills| - 1], i);
    }
  }

  // ---- the filter, over the bills and their parsed dates --------------------

  predicate InWindowAt(dates: seq<Option<Date>>, i: nat, w: Window)
    requires i < |dates|
  {
    dates[i].Some? && w.Holds(dates[i].value)
  }

  /** One of the first n bills is in the window and has billNo x. */
  predicate InRangeBefore(bills: seq<Bill>, dates: seq<Option<Date>>, n: nat, x: string, w: Window)
    requires n <= |bills| == |dates|
  {
    exists j :: 0 <= j < n && InWindowAt(dates, j, w) && bills[j].billNo == x
  }

  /** Bill i is in the window and no earlier bill in the window has its billNo. */
  predicate IsFirstInRange(bills: seq<Bill>, dates: seq<Option<Date>>, i: nat, w: Window)
    requires i < |bills| == |dates|
  {
    InWindowAt(dates, i, w) && !InRangeBefore(bills, dates, i, bills[i].billNo, w)
  }

  /** The positions, among the first n, of the bills that are the first in-window occurrence of
      their billNo, in increasing order (KeptIndicesAreFirst). */
  function KeptIndices(bills: seq<Bill>, dates: seq<Option<Date>>, n: nat, w: Window): (idx: seq<nat>)
    requires n <= |bills| == |dates|
    ensures forall k :: 0 <= k < |idx| ==> idx[k] < n
    ensures forall k, l :: 0 <= k < l < |idx| ==> idx[k] < idx[l]
  {
    if n == 0 then []
    else KeptIndices(bills, dates, n - 1, w) + (if IsFirstInRange(bills, dates, n - 1, w) then [n - 1] else [])
  }

  /** Position i is kept exactly when bill i is the first in-window occurrence of its billNo. */
  lemma {:induction false} KeptIndicesAreFirst(bills: seq<Bill>, dates: seq<Option<Date>>, n: nat, w: Window)
    requires n <= |bills| == |dates|
    ensures forall i :: 0 <= i < n ==> (i in KeptIndices(bills, dates, n, w) <==> IsFirstInRange(bills, dates, i, w))
  {
    if n > 0 {
      KeptIndicesAreFirst(bills, dates, n - 1, w);
    }
  }

  /** The bills kept from the first n, in upstream order. */
  function Kept(bills: seq<Bill>, dates: seq<Option<Date>>, n: nat, w: Window): (r: seq<Bill>)
    requires n <= |bills| == |dates|
    ensures |r| <= n
  {
    if n == 0 then []
    else Kept(bills, dates, n - 1, w) + (if IsFirstInRange(bills, dates, n - 1, w) then [bills[n - 1]] else [])
  }

  /** The kept bills are the bills at the kept positions. */
  lemma {:induction false} KeptAtIndices(bills: seq<Bill>, dates: seq<Option<Date>>, n: nat, w: Window)
    requires n <= |bills| == |dates|
    ensures var r, idx := Kept(bills, dates, n, w), KeptIndices(bills, dates, n, w);
            |r| == |idx| && forall k :: 0 <= k < |r| ==> r[k] == bills[idx[k]]
  {
    if n > 0 {
      KeptAtIndices(bills, dates, n - 1, w);
    }
  }

  /** The billNos of a list of bills, in order: the source's `billNos` list. */
  function BillNos(bills: seq<Bill>): (nos: seq<string>)
    ensures |nos| == |bills| && forall k :: 0 <= k < |bills| ==> nos[k] == bills[k].billNo
  {
    if bills == [] then [] else BillNos(bills[..|bills| - 1]) + [bills[|bills| - 1].billNo]
  }

  lemma BillNosAppend(bills: seq<Bill>, b: Bill)
    ensures BillNos(bills + [b]) == BillNos(bills) + [b.billNo]
  {
    assert (bills + [b])[..|bills|] == bills;
  }

  lemma InRangeBeforeStep(bills: seq<Bill>, dates: seq<Option<Date>>, m: nat, x: string, w: Window)
    requires m < |bills| == |dates|
    ensures InRangeBefore(bills, dates, m + 1, x, w)
        <==> InRangeBefore(bills, dates, m, x, w) || (InWindowAt(dates, m, w) && bills[m].billNo == x)
  {
    if InRangeBefore(bills, dates, m + 1, x, w) && !InRangeBefore(bills, dates, m, x, w) {
      var j :| 0 <= j < m + 1 && InWindowAt(dates, j, w) && bills[j].billNo == x;
      assert j == m;
    }
  }

  /** A billNo has been kept from the first n bills exactly when one of them is in the window with it. */
  lemma {:induction false} KeptNos(bills: seq<Bill>, dates: seq<Option<Date>>, n: nat, w: Window, x: string)
    requires n <= |bills| == |dates|
    ensures x in BillNos(Kept(bills, dates, n, w)) <==> InRangeBefore(bills, dates, n, x, w)
  {
    if n > 0 {
      var m := n - 1;
      var prev := Kept(bills, dates, m, w);
      KeptNos(bills, dates, m, w, x);
      InRangeBeforeStep(bills, dates, m, x, w);
      if IsFirstInRange(bills, dates, m, w) {
        BillNosAppend(prev, bills[m]);
      } else {
        assert Kept(bills, dates, n, w) == prev + [] == prev;
      }
    }
  }

  /** The test the loop makes on bill i decides exactly whether bill i is kept. */
  lemma KeepTest(bills: seq<Bill>, dates: seq<Option<Date>>, i: nat, w: Window)
    requires i < |bills| == |dates|
    ensures IsFirstInRange(bills, dates, i, w)
        <==> InWindowAt(dates, i, w) && bills[i].billNo !in BillNos(Kept(bills, dates, i, w))
  {
    KeptNos(bills, dates, i, w, bills[i].billNo);
  }

  /** One turn of the loop on a bill whose date d parsed: the bill is appended, and its billNo
      recorded, exactly when d is in the window and the billNo is not yet recorded. */
  lemma LoopStep(bills: seq<Bill>, dates: seq<Option<Date>>, i: nat, d: Date, w: Window)
    requires i < |bills| == |dates| && dates[i] == Some(d)
    ensures var kept := Kept(bills, dates, i, w);
            var keep := w.Holds(d) && bills[i].billNo !in BillNos(kept);
            && Kept(bills, dates, i + 1, w) == (if keep then kept + [bills[i]] else kept)
            && BillNos(kept + [bills[i]]) == BillNos(kept) + [bills[i].billNo]
  {
    KeepTest(bills, dates, i, w);
    BillNosAppend(Kept(bills, dates, i, w), bills[i]);
  }

  // ---- the outcome ----------------------------------------------------------

  /** Position of the first date strptime refuses, or |dates| when there is none. */
  function FirstBadDate(dates: seq<Option<Date>>): (k: nat)
    ensures k <= |dates|
    ensures forall j :: 0 <= j < k ==> dates[j].Some?
    ensures k < |dates| ==> dates[k].None?
  {
    if dates == [] || dates[0].None? then 0 else 1 + FirstBadDate(dates[1..])
  }

  /** FirstBadDate of the bills' dates is the first bill whose date strptime refuses. */
  lemma FirstUnreadable(bills: seq<Bill>)
    ensures var k := FirstBadDate(UpdateDates(bills));
            && (forall j :: 0 <= j < k ==> UpdatedOn(bills[j]).Some?)
            && (k < |bills| ==> UpdatedOn(bills[k]).None?)
  {
    var k := FirstBadDate(UpdateDates(bills));
    forall j | 0 <= j < k ensures UpdatedOn(bills[j]).Some? {
      UpdateDatesAt(bills, j);
    }
    if k < |bills| {
      UpdateDatesAt(bills, k);
    }
  }

  /** The bills kept when every date parses. */
  function Selected(bills: seq<Bill>, w: Window): (r: seq<Bill>)
    ensures |r| <= |bills|
  {
    Kept(bills, UpdateDates(bills), |bills|, w)
  }

  /** The outcome of filtering the fetched bills: the first unreadable date aborts with its text. */
  function UpdatedWithin(bills: seq<Bill>, since: Date, until: Date): (r: Result<seq<Bill>, ApiError>)
    ensures r.Success? <==> forall i :: 0 <= i < |bills| ==> UpdatedOn(bills[i]).Some?
    ensures r.Failure? ==> r.error.BadDate?
  {
    FirstUnreadable(bills);
    var k := FirstBadDate(UpdateDates(bills));
    if k < |bills| then Failure(BadDate(DatePart(bills[k].lastUpdated)))
    else Success(Selected(bills, Window(since, until)))
  }

  /** The filter stops at the first unreadable date and reports its text. */
  lemma FailsAtFirstBadDate(bills: seq<Bill>, since: Date, until: Date, i: nat)
    requires i < |bills| && UpdatedOn(bills[i]).None?
    requires forall j :: 0 <= j < i ==> UpdatedOn(bills[j]).Some?
    ensures UpdatedWithin(bills, since, until) == Failure(BadDate(DatePart(bills[i].lastUpdated)))
  {
    FirstUnreadable(bills);
  }

  /** When every date reads, the filter returns the selected bills. */
  lemma SucceedsWhenAllDatesRead(bills: seq<Bill>, since: Date, until: Date)
    requires forall j :: 0 <= j < |bills| ==> UpdatedOn(bills[j]).Some?
    ensures UpdatedWithin(bills, since, until) == Success(Selected(bills, Window(since, until)))
  {
    FirstUnreadable(bills);
  }

  // ---- what the result promises --------------------------------------------

  /** Every kept bill was last updated inside the window. */
  lemma SelectedInRange(bills: seq<Bill>, w: Window)
    ensures forall b :: b in Selected(bills, w) ==> InRange(b, w)
  {
    var dates := UpdateDates(bills);
    var idx := KeptIndices(bills, dates, |bills|, w);
    var r := Selected(bills, w);
    KeptIndicesAreFirst(bills, dates, |bills|, w);
    KeptAtIndices(bills, dates, |bills|, w);
    forall k | 0 <= k < |r| ensures InRange(r[k], w) {
      assert idx[k] in idx;
      UpdateDatesAt(bills, idx[k]);
    }
  }

  /** No two kept bills share a billNo. */
  lemma SelectedUnique(bills: seq<Bill>, w: Window)
    ensures var r := Selected(bills, w);
            forall k, l :: 0 <= k < l < |r| ==> r[k].billNo != r[l].billNo
  {
    var dates := UpdateDates(bills);
    var idx := KeptIndices(bills, dates, |bills|, w);
    var r := Selected(bills, w);
    KeptIndicesAreFirst(bills, dates, |bills|, w);
    KeptAtIndices(bills, dates, |bills|, w);
    forall k, l | 0 <= k < l < |r| ensures r[k].billNo != r[l].billNo {
      assert idx[k] in idx && idx[l] in idx;
      assert IsFirstInRange(bills, dates, idx[l], w);
      assert InWindowAt(dates, idx[k], w);
    }
  }

  /** Every in-range bill has its billNo in the result, even if an earlier bill with the
      same billNo was out of range. */
  lemma SelectedComplete(bills: seq<Bill>, w: Window)
    ensures forall i :: 0 <= i < |bills| && InRange(bills[i], w) ==> bills[i].billNo in BillNos(Selected(bills, w))
  {
    var dates := UpdateDates(bills);
    forall i | 0 <= i < |bills| && InRange(bills[i], w) ensures bills[i].billNo in BillNos(Selected(bills, w)) {
      UpdateDatesAt(bills, i);
      assert InWindowAt(dates, i, w);
      KeptNos(bills, dates, |bills|, w, bills[i].billNo);
    }
  }

  /** When since is not before until no date fits the window: the result is empty, and the
      reversed window is not reported as an error. */
  lemma EmptyWindowKeepsNothing(bills: seq<Bill>, since: Date, until: Date)
    requires !Before(since, until)
    ensures UpdatedWithin(bills, since, until) != Failure(BadRange(since, until))
    ensures UpdatedWithin(bills, since, until).Success? ==> UpdatedWithin(bills, since, until).value == []
  {
    NothingInEmptyWindow(bills, UpdateDates(bills), Window(since, until));
  }

  lemma NothingInEmptyWindow(bills: seq<Bill>, dates: seq<Option<Date>>, w: Window)
    requires |bills| == |dates| && !Before(w.since, w.until)
    ensures Kept(bills, dates, |bills|, w) == []
  {
    var idx := KeptIndices(bills, dates, |bills|, w);
    KeptAtIndices(bills, dates, |bills|, w);
    if |idx| > 0 {
      KeptIndicesAreFirst(bills, dates, |bills|, w);
      assert idx[0] in idx;
      var d := dates[idx[0]].value;
      BeforeIsStrictTotalOrder(w.since, d, w.until);
      assert false;
    }
  }

  /** Filtering a result again gives it back unchanged. */
  lemma RefilterIsIdentity(bills: seq<Bill>, since: Date, until: Date)
    ensures var r := Selected(bills, Window(since, until));
            UpdatedWithin(r, since, until) == Success(r)
  {
    var w := Window(since, until);
    var r := Selected(bills, w);
    var dates := UpdateDates(r);
    SelectedInRange(bills, w);
    SelectedUnique(bills, w);
    forall k | 0 <= k < |r| ensures IsFirstInRange(r, dates, k, w) {
      assert r[k] in r;
      UpdateDatesAt(r, k);
    }
    AllFirstKeepsAll(r, dates, |r|, w);
    assert r[..|r|] == r;
    forall k | 0 <= k < |r| ensures UpdatedOn(r[k]).Some? {
      assert r[k] in r;
    }
    SucceedsWhenAllDatesRead(r, since, until);
  }

  /** When every bill is the first in-window occurrence of its billNo, all are kept. */
  lemma {:induction false} AllFirstKeepsAll(s: seq<Bill>, dates: seq<Option<Date>>, n: nat, w: Window)
    requires n <= |s| == |dates|
    requires forall k :: 0 <= k < |s| ==> IsFirstInRange(s, dates, k, w)
    ensures Kept(s, dates, n, w) == s[..n]
  {
    if n > 0 {
      AllFirstKeepsAll(s, dates, n - 1, w);
      assert s[..n] == s[..n - 1] + [s[n - 1]];
    }
  }
}
