/**
 * The widget's text (`textForUserChoice`): dispatch on the raw value of the
 * chosen display option, with the seasonal text laid out by widget size.
 */
module DisplayText {
  import opened Options
  import opened MonthDays
  import opened Seasons

  /** The display modes the companion app offers. */
  datatype DisplayOption = DaysOfWeek | Mantras | SmallSeasons {

    /** The raw string stored in the shared preferences. */
    function RawValue(): string {
      match this
      case DaysOfWeek => "Days of the Week"
      case Mantras => "Mantras"
      case SmallSeasons => "Small Seasons"
    }
  }

  /** `DisplayOption(rawValue:)`: the option with that raw value, if any. */
  function FromRawValue(raw: string): (r: Option<DisplayOption>)
    ensures r.Some? ==> r.value.RawValue() == raw
  {
    if raw == DaysOfWeek.RawValue() then Some(DaysOfWeek)
    else if raw == Mantras.RawValue() then Some(Mantras)
    else if raw == SmallSeasons.RawValue() then Some(SmallSeasons)
    else None
  }

  /** Every option is read back from its raw value, so no two share one. */
  lemma RawValueRoundTrip(o: DisplayOption)
    ensures FromRawValue(o.RawValue()) == Some(o)
  {
  }

  const MantraPlaceholder := "Mantra of the day: (Your mantra here)"
  const InvalidChoice := "Invalid choice"

  /** The seasonal text for a size: the id; the id and the notes; or the kanji,
      the id and the notes, each piece followed by " \n" but the last. */
  function SeasonText(v: SeasonView, size: WidgetSize): string {
    match size
    case Small => v.id
    case Medium => v.id + " \n" + v.notes.GetOr("")
    case Large => v.kanji + " \n" + v.id + " \n" + v.notes.GetOr("")
  }

  /** `textForUserChoice` with the catalog, today's month-day, today's
      weekday number (1 for the first symbol) and the calendar's weekday
      names passed in. */
  function TextForUserChoice(choice: string, size: WidgetSize, data: Option<SeasonsData>, today: MonthDay,
                             weekday: int, weekdaySymbols: seq<string>): (r: string)
    requires Valid(today)
    requires choice == SmallSeasons.RawValue() && data.Some? ==> WellFormedCatalog(data.value.sekki)
    requires choice == DaysOfWeek.RawValue() ==> 1 <= weekday <= |weekdaySymbols|
    ensures FromRawValue(choice).None? ==> r == InvalidChoice
    ensures FromRawValue(choice) == Some(Mantras) ==> r == MantraPlaceholder
    ensures FromRawValue(choice) == Some(DaysOfWeek) ==> r == weekdaySymbols[weekday - 1]
    ensures FromRawValue(choice) == Some(SmallSeasons) ==> r == SeasonText(LoadSeasonData(data, today, size), size)
  {
    if choice == SmallSeasons.RawValue() then
      SeasonText(LoadSeasonData(data, today, size), size)
    else if choice == DaysOfWeek.RawValue() then
      weekdaySymbols[weekday - 1]
    else if choice == Mantras.RawValue() then
      MantraPlaceholder
    else
      InvalidChoice
  }
}
