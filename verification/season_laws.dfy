/**
 * Properties of the seasonal lookup: which entry wins, what cannot affect
 * the result, and how the order of the catalog matters.
 */
module SeasonLaws {
  import opened Options
  import opened MonthDays
  import opened Seasons

  lemma ConcatWellFormed(c1: seq<Sekki>, c2: seq<Sekki>)
    requires WellFormedCatalog(c1) && WellFormedCatalog(c2)
    ensures WellFormedCatalog(c1 + c2)
  {
    var c := c1 + c2;
    forall i | 0 <= i < |c|
      ensures WellFormed(c[i])
    {
      if i < |c1| {
        assert c[i] == c1[i];
      } else {
        assert c[i] == c2[i - |c1|];
      }
    }
  }

  /** An entry that has started overrides everything before it in the list;
      what comes before matters only when nothing after it has started. */
  lemma SelectConcat(c1: seq<Sekki>, c2: seq<Sekki>, today: string)
    requires WellFormedCatalog(c1) && WellFormedCatalog(c2)
    ensures WellFormedCatalog(c1 + c2)
    ensures SelectSeason(c1 + c2, today)
            == if SelectSeason(c2, today).Some? then SelectSeason(c2, today) else SelectSeason(c1, today)
  {
    ConcatWellFormed(c1, c2);
    var c := c1 + c2;
    var n1 := |c1|;
    assert forall j :: n1 <= j < |c| ==> c[j] == c2[j - n1];
    assert forall j :: 0 <= j < n1 ==> c[j] == c1[j];
    var r1, r2 := SelectSeason(c1, today), SelectSeason(c2, today);
    if r2.Some? {
      var k2 := Scan(c2, today, 0, None).value;
      assert IsLastStarted(c, today, n1 + k2, |c|);
    } else if r1.Some? {
      var k1 := Scan(c1, today, 0, None).value;
      assert IsLastStarted(c, today, k1, |c|);
    } else {
      assert NoneStarted(c, today, 0, |c|);
    }
  }

  /** Appending an entry: it wins exactly when it has started. */
  lemma SelectAppend(c: seq<Sekki>, s: Sekki, today: string)
    requires WellFormedCatalog(c) && WellFormed(s)
    ensures WellFormedCatalog(c + [s])
    ensures SelectSeason(c + [s], today) == if HasStarted(s, today) then Some(s) else SelectSeason(c, today)
  {
    SelectConcat(c, [s], today);
  }

  /** A one-row catalog selects its row only once the row has started;
      before that the result is `None`, whatever the date. */
  lemma SelectSingle(s: Sekki, today: string)
    requires WellFormed(s)
    ensures SelectSeason([s], today) == if HasStarted(s, today) then Some(s) else None
  {
    SelectAppend([], s, today);
    assert [] + [s] == [s];
  }

  /** An entry that has not started never affects the result: removing it
      from anywhere in the catalog leaves the selection unchanged. */
  lemma SelectIgnoresUnstarted(c: seq<Sekki>, i: int, today: string)
    requires WellFormedCatalog(c) && 0 <= i < |c|
    requires !HasStarted(c[i], today)
    ensures WellFormedCatalog(c[..i] + c[i + 1..])
    ensures SelectSeason(c[..i] + c[i + 1..], today) == SelectSeason(c, today)
  {
    var pre, x, post := c[..i], [c[i]], c[i + 1..];
    assert c == pre + (x + post);
    SelectConcat(x, post, today);
    assert SelectSeason(x, today).None?;
    SelectConcat(pre, x + post, today);
    SelectConcat(pre, post, today);
  }

  /** The result depends on the start dates only: two catalogs with the same
      start dates, position by position, select the same position. */
  lemma SelectSameStarts(c1: seq<Sekki>, c2: seq<Sekki>, today: string)
    requires WellFormedCatalog(c1) && WellFormedCatalog(c2)
    requires |c1| == |c2| && forall i :: 0 <= i < |c1| ==> c1[i].startDate == c2[i].startDate
    ensures SelectSeason(c1, today).None? <==> SelectSeason(c2, today).None?
    ensures forall k :: IsLastStarted(c1, today, k, |c1|) <==> IsLastStarted(c2, today, k, |c2|)
  {
    assert forall j :: 0 <= j < |c1| ==> (HasStarted(c1[j], today) <==> HasStarted(c2[j], today));
  }

  /** The catalog lists its entries in chronological order of start. */
  predicate Chronological(c: seq<Sekki>)
    requires WellFormedCatalog(c)
  {
    forall i, j :: 0 <= i < j < |c| ==> OnOrBefore(StartOf(c[i]), StartOf(c[j]))
  }

  /** On a chronological catalog the last started entry is also the one that
      started most recently: no started entry has a later start. */
  lemma ChronologicalSelectsLatestStart(c: seq<Sekki>, today: MonthDay)
    requires WellFormedCatalog(c) && Valid(today) && Chronological(c)
    ensures var r := SelectSeason(c, Format(today));
            r.Some? ==> WellFormed(r.value) && OnOrBefore(StartOf(r.value), today)
                        && forall j :: 0 <= j < |c| && HasStarted(c[j], Format(today)) ==>
                             OnOrBefore(StartOf(c[j]), StartOf(r.value))
  {
    var r := SelectSeason(c, Format(today));
    if r.Some? {
      var k := Scan(c, Format(today), 0, None).value;
      HasStartedAsWritten(c[k], today);
      forall j | 0 <= j < |c| && HasStarted(c[j], Format(today))
        ensures OnOrBefore(StartOf(c[j]), StartOf(r.value))
      {
        if j != k {
          assert j < k;
        }
      }
    }
  }
}
