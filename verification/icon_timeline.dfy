/**
 * The random-icons timeline provider: once per calendar day pick four icons
 * from a shuffle of the icon catalog and remember them in the shared
 * preferences; within the day reuse them; lay them out as four entries six
 * hours apart, each rotated once more than the last, refreshing at the start
 * of the next day.
 */
module IconTimeline {
  import opened Options
  import opened Rotation
  import opened Decimal

  /** A moment, in whole seconds since 2001-01-01 00:00:00 of the calendar's
      fixed time zone (the origin of Foundation's `Date`). */
  type Instant = int

  const SecondsPerHour := 3600
  const SecondsPerDay := 86400
  const HoursBetweenEntries := 6

  /** `Date.distantPast`, the first moment of the year 1. */
  const DistantPast: Instant := -63114076800

  /** The calendar day of an instant; `/` floors for a positive divisor, so
      instants before the origin fall on the right day too. */
  function DayOf(t: Instant): int {
    t / SecondsPerDay
  }

  predicate SameDay(a: Instant, b: Instant) {
    DayOf(a) == DayOf(b)
  }

  /** The first moment of the day after `t`'s day. */
  function StartOfNextDay(t: Instant): (r: Instant)
    ensures t < r <= t + SecondsPerDay
    ensures r % SecondsPerDay == 0
    ensures DayOf(r) == DayOf(t) + 1
  {
    (DayOf(t) + 1) * SecondsPerDay
  }

  /** The values the shared preferences hold. */
  datatype Value = DateValue(date: Instant) | StringArray(names: seq<string>) | StringValue(text: string)

  /** The app group's shared `UserDefaults` suite. */
  type Store = map<string, Value>

  const LastUpdateKey := "LastUpdateDate"
  const LastChosenIconsKey := "LastChosenIcons"

  /** The icons shown when nothing else is known. */
  const DefaultIcons := ["1.png", "2.png", "3.png", "4.png"]

  /** The numbers of the icons the daily choice is shuffled from; icon `n`
      is the image named "n.png". */
  const IconNumbers: seq<int> := [
    0, 1, 2, 3, 4, 14, 15, 16, 17, 18, 19, 20, 21, 22, 23, 24, 25, 26, 27, 28, 29, 30, 31, 32, 33,
    34, 35, 36, 37, 38, 39, 40, 41, 42, 43, 44, 45, 46, 47, 48, 49, 50, 51, 52, 53, 54, 55, 56, 57,
    58, 59, 60, 61, 62, 63, 64, 65, 66, 67, 68, 69, 70, 71, 72, 74, 76, 78, 80, 82, 84, 85, 86, 88,
    93, 94, 95, 96, 98, 101, 104, 105, 106, 107, 109, 110, 111, 112, 113, 114, 115, 116, 117, 118,
    119, 120, 121, 122, 123, 124, 125, 126, 127, 128, 129, 130, 132, 133, 136, 137, 138, 139, 140,
    141, 142, 143, 144, 145, 146, 147, 148, 149, 150, 151, 152, 153, 154, 155, 156, 157, 158, 159,
    160, 161, 162, 163, 164, 165, 166, 167, 168, 169, 170, 171, 172, 173, 174, 175, 176, 177, 178,
    179, 180, 181, 182, 184, 185, 186, 187, 188, 189, 190, 191, 192, 193, 194, 195, 196, 197, 198,
    199, 200, 201, 202, 203, 204, 205, 206, 207, 208, 209, 210, 211, 212, 213, 214, 215, 216, 217,
    218, 219, 220, 221, 222, 223, 224, 225, 226, 227, 228, 229, 230, 231, 232, 233, 234, 235, 236,
    237, 238, 239, 240, 241, 242, 243, 244, 245, 246, 247, 248, 249, 250, 251, 252, 253, 254, 255,
    256, 257, 258, 259, 260, 261, 262, 263, 264, 265, 266, 267, 268, 269, 270, 271, 272, 273, 274,
    275, 276, 277, 278, 279, 280, 281, 282, 283, 284, 285, 286, 287, 288, 289, 290, 291, 292, 293,
    294, 295, 296, 297, 298, 299, 300, 301, 302, 303, 304, 305, 306, 307, 308, 309, 310, 311, 312,
    313, 314, 315, 316, 317, 318, 319, 320, 321, 322, 323, 324
  ]

  /** The image name of icon `n`: its decimal digits, then ".png". */
  function IconName(n: int): string
    requires 0 <= n <= 999
  {
    (if n < 10 then [DigitChar(n)]
     else if n < 100 then [DigitChar(n / 10), DigitChar(n % 10)]
     else [DigitChar(n / 100), DigitChar(n / 10 % 10), DigitChar(n % 10)]) + ".png"
  }

  /** The icon catalog, by name. Every number in `IconNumbers` is below
      1000, so the `else` branch is never taken; it only meets `IconName`'s
      requires. */
  function IconNames(): (names: seq<string>)
    ensures |names| == |IconNumbers|
  {
    seq(|IconNumbers|, i requires 0 <= i < |IconNumbers| =>
      if 0 <= IconNumbers[i] <= 999 then IconName(IconNumbers[i]) else "")
  }

  /** `shuffled` is some shuffle of the icon catalog. */
  predicate IsShuffle(shuffled: seq<string>) {
    |shuffled| == |IconNames()| && multiset(shuffled) == multiset(IconNames())
  }

  /** A shuffle of the catalog has its length, at least four, and only its
      names. */
  lemma ShuffleFacts(shuffled: seq<string>)
    requires IsShuffle(shuffled)
    ensures |shuffled| == |IconNames()| >= 4
    ensures forall i :: 0 <= i < |shuffled| ==> InCatalog(shuffled[i])
  {
    assert |multiset(shuffled)| == |shuffled|;
    forall i | 0 <= i < |shuffled|
      ensures InCatalog(shuffled[i])
    {
      assert shuffled[i] in multiset(shuffled);
    }
  }

  predicate InCatalog(name: string) {
    name in IconNames()
  }

  /** `object(forKey: "LastUpdateDate") as? Date ?? Date.distantPast`. */
  function LastUpdate(store: Store): Instant {
    if LastUpdateKey in store && store[LastUpdateKey].DateValue? then store[LastUpdateKey].date else DistantPast
  }

  /** `stringArray(forKey: "LastChosenIcons") ?? ["1.png", "2.png", "3.png", "4.png"]`. */
  function StoredIcons(store: Store): seq<string> {
    if LastChosenIconsKey in store && store[LastChosenIconsKey].StringArray? then store[LastChosenIconsKey].names
    else DefaultIcons
  }

  /** The two writes of a new day: the chosen names, then the date. Nothing
      else in the suite changes. */
  function RecordChoice(store: Store, chosen: seq<string>, now: Instant): (store': Store)
    ensures LastUpdate(store') == now
    ensures StoredIcons(store') == chosen
    ensures store'.Keys == store.Keys + {LastUpdateKey, LastChosenIconsKey}
    ensures forall k :: k in store && k != LastUpdateKey && k != LastChosenIconsKey ==> store'[k] == store[k]
  {
    assert LastUpdateKey != LastChosenIconsKey by {
      assert |LastUpdateKey| != |LastChosenIconsKey|;
    }
    store[LastChosenIconsKey := StringArray(chosen)][LastUpdateKey := DateValue(now)]
  }

  /** The icons chosen and the shared preferences afterwards (`None` when the
      app group's suite cannot be opened). */
  datatype Fetched = Fetched(icons: seq<string>, defaults: Option<Store>)

  /** `fetchRandomIconsIfNeeded(currentDate:)`, with the shared suite, the
      current instant and the result of the shuffle passed in. */
  function FetchRandomIconsIfNeeded(defaults: Option<Store>, now: Instant, shuffled: seq<string>): (r: Fetched)
    requires IsShuffle(shuffled)
    ensures defaults.None? ==> r == Fetched(DefaultIcons, None)
    ensures defaults.Some? ==> r.defaults.Some?
    ensures defaults.Some? && !SameDay(LastUpdate(defaults.value), now) ==>
              && |r.icons| == 4 && r.icons == shuffled[..4]
              && (forall i :: 0 <= i < 4 ==> InCatalog(r.icons[i]))
              && r.defaults == Some(RecordChoice(defaults.value, r.icons, now))
    ensures defaults.Some? && SameDay(LastUpdate(defaults.value), now) ==>
              r.icons == StoredIcons(defaults.value) && r.defaults == defaults
  {
    match defaults
    case None => Fetched(DefaultIcons, None)
    case Some(store) =>
      if !SameDay(LastUpdate(store), now) then
        ShuffleFacts(shuffled);
        var chosen := shuffled[..4];
        Fetched(chosen, Some(RecordChoice(store, chosen, now)))
      else
        Fetched(StoredIcons(store), defaults)
  }

  /** One timeline entry: when it shows and its four icons. */
  datatype Entry = Entry(date: Instant, icon1: string, icon2: string, icon3: string, icon4: string)

  function IconsOf(e: Entry): seq<string> {
    [e.icon1, e.icon2, e.icon3, e.icon4]
  }

  /** The entries and the moment after which the system asks again. */
  datatype Timeline = Timeline(entries: seq<Entry>, refreshAfter: Instant)

  /** The loop of `getTimeline`: offsets 0, 6, 12 and 18 hours, the icons
      rotated once more for every entry after the first. */
  method TimelineEntries(icons: seq<string>, now: Instant) returns (entries: seq<Entry>)
    requires |icons| >= 4
    ensures |entries| == 4
    ensures forall k :: 0 <= k < 4 ==>
              entries[k].date == now + k * HoursBetweenEntries * SecondsPerHour
              && IconsOf(entries[k]) == RotateTimes(icons, k)[..4]
  {
    entries := [];
    var current := icons;
    var hourOffset := 0;
    while hourOffset < 24
      invariant hourOffset == HoursBetweenEntries * |entries| && |entries| <= 4
      invariant |entries| == 0 ==> current == icons
      invariant |entries| > 0 ==> current == RotateTimes(icons, |entries| - 1)
      invariant forall k :: 0 <= k < |entries| ==>
                  entries[k].date == now + k * HoursBetweenEntries * SecondsPerHour
                  && IconsOf(entries[k]) == RotateTimes(icons, k)[..4]
    {
      var k := |entries|;
      if hourOffset != 0 {
        RotateTimesSucc(icons, k - 1);
        current := Rotate(current);
      }
      entries := entries + [Entry(now + hourOffset * SecondsPerHour, current[0], current[1], current[2], current[3])];
      hourOffset := hourOffset + HoursBetweenEntries;
    }
  }

  /** `getTimeline`: fetch the day's icons (updating the shared suite), lay
      them out, and refresh at the start of the next day. */
  method GetTimeline(defaults: Option<Store>, now: Instant, shuffled: seq<string>)
    returns (timeline: Timeline, defaults': Option<Store>)
    requires IsShuffle(shuffled)
    requires |FetchRandomIconsIfNeeded(defaults, now, shuffled).icons| >= 4
    ensures var fetched := FetchRandomIconsIfNeeded(defaults, now, shuffled);
            && defaults' == fetched.defaults
            && |timeline.entries| == 4
            && (forall k :: 0 <= k < 4 ==>
                  timeline.entries[k].date == now + k * HoursBetweenEntries * SecondsPerHour
                  && IconsOf(timeline.entries[k]) == RotateTimes(fetched.icons, k)[..4])
    ensures DayOf(timeline.refreshAfter) == DayOf(now) + 1 && timeline.refreshAfter % SecondsPerDay == 0
  {
    var fetched := FetchRandomIconsIfNeeded(defaults, now, shuffled);
    var entries := TimelineEntries(fetched.icons, now);
    timeline := Timeline(entries, StartOfNextDay(now));
    defaults' := fetched.defaults;
  }
}
