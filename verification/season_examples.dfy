/**
 * Concrete catalogs that pin down the lookup's boundary behaviour: list
 * order beats chronology, an exact start date qualifies, and a day before
 * every start gives the blank result instead of wrapping round to the
 * previous year's last season.
 */
module SeasonExamples {
  import opened Options
  import opened MonthDays
  import opened Seasons
  import opened SeasonLaws

  function Row(id: string, start: string): Sekki {
    Sekki(id, "", "", "", start)
  }

  /** Two rows out of chronological order: on 1 July both have started and
      the later row in the list wins, although its start is earlier. */
  lemma ListOrderBeatsChronology()
    ensures var c := [Row("B", "06-10"), Row("A", "01-05")];
            WellFormedCatalog(c) && SelectSeason(c, "07-01") == Some(Row("A", "01-05"))
  {
    var c := [Row("B", "06-10"), Row("A", "01-05")];
    ParseFormat(MonthDay(6, 10));
    ParseFormat(MonthDay(1, 5));
    assert Format(MonthDay(1, 5)) == "01-05";
    assert Format(MonthDay(7, 1)) == "07-01";
    HasStartedAsWritten(c[1], MonthDay(7, 1));
    assert IsLastStarted(c, "07-01", 1, 2);
  }

  /** A day before every start gives the blank result for every size, even
      though the catalog is not empty: there is no wrap-around to "B". */
  lemma NoWraparound(size: WidgetSize)
    ensures var data := SeasonsData([Row("A", "01-05"), Row("B", "06-10")]);
            WellFormedCatalog(data.sekki) && LoadSeasonData(Some(data), MonthDay(1, 1), size) == EmptyView
  {
    var c := [Row("A", "01-05"), Row("B", "06-10")];
    ParseFormat(MonthDay(6, 10));
    ParseFormat(MonthDay(1, 5));
    HasStartedAsWritten(c[0], MonthDay(1, 1));
    HasStartedAsWritten(c[1], MonthDay(1, 1));
    assert NoneStarted(c, Format(MonthDay(1, 1)), 0, 2);
  }

  /** A row whose start is the rendering of `md` has started exactly when
      `md` is on or before today. */
  lemma RowStarted(id: string, md: MonthDay, today: MonthDay)
    requires Valid(md) && Valid(today)
    ensures WellFormed(Row(id, Format(md))) && StartOf(Row(id, Format(md))) == md
    ensures HasStarted(Row(id, Format(md)), Format(today)) <==> OnOrBefore(md, today)
  {
    ParseFormat(md);
    HasStartedAsWritten(Row(id, Format(md)), today);
  }

  function OpeningRows(): seq<Sekki> {
    [Row("Risshun", "02-04"), Row("Usui", "02-19"), Row("Keichun", "03-06")]
  }

  lemma OpeningRowsStarts(today: MonthDay)
    requires Valid(today)
    ensures WellFormedCatalog(OpeningRows())
    ensures HasStarted(OpeningRows()[0], Format(today)) <==> OnOrBefore(MonthDay(2, 4), today)
    ensures HasStarted(OpeningRows()[1], Format(today)) <==> OnOrBefore(MonthDay(2, 19), today)
    ensures HasStarted(OpeningRows()[2], Format(today)) <==> OnOrBefore(MonthDay(3, 6), today)
  {
    RowStarted("Risshun", MonthDay(2, 4), today);
    RowStarted("Usui", MonthDay(2, 19), today);
    RowStarted("Keichun", MonthDay(3, 6), today);
    assert Format(MonthDay(2, 4)) == "02-04";
    assert Format(MonthDay(2, 19)) == "02-19";
    assert Format(MonthDay(3, 6)) == "03-06";
  }

  /** The day after Usui starts shows Usui, although Risshun has started too. */
  lemma OpeningRowsAfterUsui()
    ensures WellFormedCatalog(OpeningRows())
    ensures LoadSeasonData(Some(SeasonsData(OpeningRows())), MonthDay(2, 20), Medium)
            == SeasonView("Usui", "", Some(""), None)
  {
    OpeningRowsStarts(MonthDay(2, 20));
    assert IsLastStarted(OpeningRows(), Format(MonthDay(2, 20)), 1, 3);
  }

  /** The very day Keichun starts shows Keichun. */
  lemma OpeningRowsOnKeichun()
    ensures WellFormedCatalog(OpeningRows())
    ensures LoadSeasonData(Some(SeasonsData(OpeningRows())), MonthDay(3, 6), Small).id == "Keichun"
  {
    OpeningRowsStarts(MonthDay(3, 6));
    assert IsLastStarted(OpeningRows(), Format(MonthDay(3, 6)), 2, 3);
  }

  /** The day before Risshun is blank, not the previous year's Keichun. */
  lemma OpeningRowsBeforeRisshun(size: WidgetSize)
    ensures WellFormedCatalog(OpeningRows())
    ensures LoadSeasonData(Some(SeasonsData(OpeningRows())), MonthDay(2, 3), size) == EmptyView
  {
    OpeningRowsStarts(MonthDay(2, 3));
    assert NoneStarted(OpeningRows(), Format(MonthDay(2, 3)), 0, 3);
  }
}
