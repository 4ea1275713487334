/** Properties of the widget text across sizes and catalogs. */
module DisplayLaws {
  import opened Options
  import opened MonthDays
  import opened Seasons
  import opened SeasonLaws
  import opened DisplayText

  /** The seasonal texts nest: the medium text extends the small one with the
      notes, and the large text puts the kanji in front of the medium one. */
  lemma SeasonTextsNest(data: Option<SeasonsData>, today: MonthDay, weekday: int, weekdaySymbols: seq<string>)
    requires Valid(today)
    requires data.Some? ==> WellFormedCatalog(data.value.sekki)
    ensures var raw := SmallSeasons.RawValue();
            var small := TextForUserChoice(raw, Small, data, today, weekday, weekdaySymbols);
            var medium := TextForUserChoice(raw, Medium, data, today, weekday, weekdaySymbols);
            var large := TextForUserChoice(raw, Large, data, today, weekday, weekdaySymbols);
            && small == LoadSeasonData(data, today, Large).id
            && medium == small + " \n" + LoadSeasonData(data, today, Large).notes.GetOr("")
            && large == LoadSeasonData(data, today, Large).kanji + " \n" + medium
  {
    var raw := SmallSeasons.RawValue();
    RawValueRoundTrip(SmallSeasons);
    var medium := TextForUserChoice(raw, Medium, data, today, weekday, weekdaySymbols);
    var v := LoadSeasonData(data, today, Large);
    assert v.kanji + " \n" + v.id + " \n" + v.notes.GetOr("") == v.kanji + " \n" + (v.id + " \n" + v.notes.GetOr(""));
  }

  /** Without a season in effect the texts are blank apart from the line
      separators. */
  lemma NoSeasonTexts(data: Option<SeasonsData>, today: MonthDay, weekday: int, weekdaySymbols: seq<string>)
    requires Valid(today)
    requires data.Some? ==> WellFormedCatalog(data.value.sekki)
    requires data.Some? ==> NoneStarted(data.value.sekki, Format(today), 0, |data.value.sekki|)
    ensures var raw := SmallSeasons.RawValue();
            && TextForUserChoice(raw, Small, data, today, weekday, weekdaySymbols) == ""
            && TextForUserChoice(raw, Medium, data, today, weekday, weekdaySymbols) == " \n"
            && TextForUserChoice(raw, Large, data, today, weekday, weekdaySymbols) == " \n \n"
  {
    RawValueRoundTrip(SmallSeasons);
  }

  /** Two catalogs that differ at most in their descriptions. */
  predicate SameButDescriptions(c1: seq<Sekki>, c2: seq<Sekki>) {
    |c1| == |c2| && forall i :: 0 <= i < |c1| ==> c1[i].(description := "") == c2[i].(description := "")
  }

  /** Catalogs that differ at most in descriptions select the same row up
      to its description, so the seasonal text agrees. */
  lemma SeasonTextIgnoresDescription(size: WidgetSize, c1: seq<Sekki>, c2: seq<Sekki>, today: MonthDay)
    requires Valid(today) && WellFormedCatalog(c1) && WellFormedCatalog(c2)
    requires SameButDescriptions(c1, c2)
    ensures SeasonText(LoadSeasonData(Some(SeasonsData(c1)), today, size), size)
            == SeasonText(LoadSeasonData(Some(SeasonsData(c2)), today, size), size)
  {
    forall i | 0 <= i < |c1|
      ensures c1[i].startDate == c2[i].startDate
    {
      assert c1[i].(description := "") == c2[i].(description := "");
    }
    SelectSameStarts(c1, c2, Format(today));
    if !NoneStarted(c1, Format(today), 0, |c1|) {
      var k := Scan(c1, Format(today), 0, None).value;
      assert c1[k].(description := "") == c2[k].(description := "");
    }
  }

  /** The description never reaches the widget text, at any size and for
      any choice. */
  lemma TextIgnoresDescription(choice: string, size: WidgetSize, c1: seq<Sekki>, c2: seq<Sekki>, today: MonthDay,
                               weekday: int, weekdaySymbols: seq<string>)
    requires Valid(today) && WellFormedCatalog(c1) && WellFormedCatalog(c2)
    requires SameButDescriptions(c1, c2)
    requires choice == DaysOfWeek.RawValue() ==> 1 <= weekday <= |weekdaySymbols|
    ensures TextForUserChoice(choice, size, Some(SeasonsData(c1)), today, weekday, weekdaySymbols)
            == TextForUserChoice(choice, size, Some(SeasonsData(c2)), today, weekday, weekdaySymbols)
  {
    SeasonTextIgnoresDescription(size, c1, c2, today);
  }
}
