/**
 * The widget's seasonal lookup (`loadSeasonData`): scan the almanac catalog,
 * keep the last entry whose start has come round this year, and project it
 * according to the widget's size.
 */
module Seasons {
  import opened Options
  import opened MonthDays

  /** One row of the almanac catalog. */
  datatype Sekki = Sekki(id: string, kanji: string, notes: string, description: string, startDate: string)

  /** The decoded catalog document. */
  datatype SeasonsData = SeasonsData(sekki: seq<Sekki>)

  datatype WidgetSize = Small | Medium | Large

  /** The `(id, kanji, notes, description)` tuple the lookup returns. */
  datatype SeasonView = SeasonView(id: string, kanji: string, notes: Option<string>, description: Option<string>)

  /** The blank result for a missing catalog or a day before every start. */
  const EmptyView := SeasonView("", "", None, None)

  /** A row whose start date parses: the lookup force-unwraps the parse. */
  predicate WellFormed(s: Sekki) {
    Parse(s.startDate).Some?
  }

  predicate WellFormedCatalog(c: seq<Sekki>) {
    forall i :: 0 <= i < |c| ==> WellFormed(c[i])
  }

  function StartOf(s: Sekki): MonthDay
    requires WellFormed(s)
  {
    Parse(s.startDate).value
  }

  /** The lookup's test against today's "MM-dd" string: the row's start,
      parsed and rendered back as "MM-dd", is not after today as a string.
      For a well-formed row the rendering is the start string itself
      (`HasStartedAsWritten`), so the test reads that string directly. */
  predicate HasStarted(s: Sekki, today: string) {
    StrLe(s.startDate, today)
  }

  /** The test is the comparison the code writes, of the re-rendered start
      with today's rendering, and it is the chronological order of the
      month-days. */
  lemma HasStartedAsWritten(s: Sekki, today: MonthDay)
    requires WellFormed(s) && Valid(today)
    ensures HasStarted(s, Format(today)) <==> StrLe(Format(StartOf(s)), Format(today))
    ensures HasStarted(s, Format(today)) <==> OnOrBefore(StartOf(s), today)
  {
    FormatParse(s.startDate);
    FormatOrder(StartOf(s), today);
  }

  /** No entry of `c[lo..hi]` has started. */
  predicate NoneStarted(c: seq<Sekki>, today: string, lo: int, hi: int)
    requires 0 <= lo <= hi <= |c|
  {
    forall j :: lo <= j < hi ==> !HasStarted(c[j], today)
  }

  /** `k` is the last index of `c[..hi]` whose entry has started. */
  predicate IsLastStarted(c: seq<Sekki>, today: string, k: int, hi: int)
    requires 0 <= hi <= |c|
  {
    0 <= k < hi && HasStarted(c[k], today) && NoneStarted(c, today, k + 1, hi)
  }

  /** The lookup's loop from index `i` on. The candidate so far is kept as
      its position in the catalog: every started entry overwrites it. */
  function Scan(c: seq<Sekki>, today: string, i: int, mostRecent: Option<int>): (r: Option<int>)
    requires WellFormedCatalog(c)
    requires 0 <= i <= |c|
    requires mostRecent.None? ==> NoneStarted(c, today, 0, i)
    requires mostRecent.Some? ==> IsLastStarted(c, today, mostRecent.value, i)
    ensures r.None? <==> NoneStarted(c, today, 0, |c|)
    ensures r.Some? ==> IsLastStarted(c, today, r.value, |c|)
    decreases |c| - i
  {
    if i == |c| then
      mostRecent
    else if HasStarted(c[i], today) then
      Scan(c, today, i + 1, Some(i))
    else
      Scan(c, today, i + 1, mostRecent)
  }

  /** The season in effect on the day whose "MM-dd" is `today`: the last
      catalog entry, in list order, that has started, or `None` when none
      has (no wrap-around). */
  function SelectSeason(c: seq<Sekki>, today: string): (r: Option<Sekki>)
    requires WellFormedCatalog(c)
    ensures r.None? <==> NoneStarted(c, today, 0, |c|)
    ensures forall k :: IsLastStarted(c, today, k, |c|) ==> r == Some(c[k])
  {
    match Scan(c, today, 0, None)
    case None => None
    case Some(k) => Some(c[k])
  }

  /** Order of detail of the widget sizes. */
  function Detail(size: WidgetSize): nat {
    match size
    case Small => 0
    case Medium => 1
    case Large => 2
  }

  /** The per-size projection of the selected entry. */
  function Project(s: Sekki, size: WidgetSize): (v: SeasonView)
    ensures v.id == s.id && v.kanji == s.kanji
    ensures v.notes.Some? <==> Detail(size) >= 1
    ensures v.description.Some? <==> Detail(size) >= 2
    ensures v.notes.Some? ==> v.notes.value == s.notes
    ensures v.description.Some? ==> v.description.value == s.description
  {
    match size
    case Small => SeasonView(s.id, s.kanji, None, None)
    case Medium => SeasonView(s.id, s.kanji, Some(s.notes), None)
    case Large => SeasonView(s.id, s.kanji, Some(s.notes), Some(s.description))
  }

  /** `u` shows nothing that `v` does not show identically. */
  predicate Refines(u: SeasonView, v: SeasonView) {
    && u.id == v.id && u.kanji == v.kanji
    && (u.notes.Some? ==> u.notes == v.notes)
    && (u.description.Some? ==> u.description == v.description)
  }

  /** A larger widget shows everything a smaller one shows, and more. */
  lemma ProjectionMonotone(s: Sekki, a: WidgetSize, b: WidgetSize)
    requires Detail(a) <= Detail(b)
    ensures Refines(Project(s, a), Project(s, b))
    ensures Detail(a) < Detail(b) ==> Project(s, a) != Project(s, b)
  {
  }

  /** The large projection loses nothing but the start date. */
  lemma LargeProjectionRoundTrip(s: Sekki)
    ensures var v := Project(s, Large);
            Sekki(v.id, v.kanji, v.notes.GetOr(""), v.description.GetOr(""), s.startDate) == s
  {
  }

  /** `loadSeasonData(for:)` with the decoded catalog (`None` when the
      resource is missing or fails to decode) and today's month-day. */
  function LoadSeasonData(data: Option<SeasonsData>, today: MonthDay, size: WidgetSize): (r: SeasonView)
    requires Valid(today)
    requires data.Some? ==> WellFormedCatalog(data.value.sekki)
    ensures data.None? ==> r == EmptyView
    ensures data.Some? && NoneStarted(data.value.sekki, Format(today), 0, |data.value.sekki|) ==> r == EmptyView
    ensures data.Some? ==> forall k :: IsLastStarted(data.value.sekki, Format(today), k, |data.value.sekki|) ==>
                              r == Project(data.value.sekki[k], size)
  {
    match data
    case None => EmptyView
    case Some(d) =>
      match SelectSeason(d.sekki, Format(today))
      case None => EmptyView
      case Some(season) => Project(season, size)
  }
}
