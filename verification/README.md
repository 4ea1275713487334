# Glyphe widget core, in Dafny

A model of the logic inside the Glyphe ("Hieroscope") home-screen widget. The widget shows one of three texts: the day of the week, a placeholder mantra, or the current "small season" (sekki) of a Japanese almanac. Next to the text it shows four icons that are picked at random once per day. The model covers four pieces of `Glyphe/GlypheWidget/GlypheWidget.swift`:

- **Season lookup** (`loadSeasonData`). It scans the decoded catalog of `Sekki` rows in list order. Each row's start, read as an `"MM-dd"` date and rendered back, is compared as a string with today's `"MM-dd"`. The running candidate is overwritten by every row that has started. The result is therefore the last started row in list order. When no row has started, or the catalog is missing or fails to decode, the result is the blank tuple `("", "", nil, nil)`. The chosen row is then projected by widget size. Modules: `MonthDays` and `Seasons`, with laws in `SeasonLaws` and worked catalogs in `SeasonExamples`.
- **Widget text** (`textForUserChoice`). It dispatches on the raw value of a `DisplayOption` and lays out the seasonal text by widget size. Module `DisplayText`, with laws in `DisplayLaws`.
- **`Array.rotate()`**: the first element moves to the back. Module `Rotation`.
- **Icon timeline** (`fetchRandomIconsIfNeeded`, `getTimeline`). On a new calendar day it takes the first four names of a shuffle of the icon catalog and records them and the date in the shared preferences. On the same day it reuses the recorded names. It then emits four entries six hours apart, the icons rotated once more for each entry, and asks to be refreshed at the start of the next day. Module `IconTimeline`, with laws in `IconLaws`.

Everything the Swift code takes from the platform is a parameter:
- the decoded catalog is an `Option<SeasonsData>`;
- today is a `MonthDay`; the lookup itself works on today's `"MM-dd"` rendering, as the code does;
- the weekday number and the calendar's weekday names are a number and a list;
- the current moment is an integer `Instant`: seconds since 2001-01-01 00:00 in one fixed time zone, with days of 86400 seconds;
- the shuffle is any permutation of the icon catalog;
- the app group's `UserDefaults` suite is an `Option<map<string, Value>>`, where `None` means the suite could not be opened.

Behaviour the model pins down, which a reader might not expect:
- The lookup does not pick the row whose start is chronologically closest. A later row in the list overrides an earlier one even when its start is earlier (`SeasonExamples.ListOrderBeatsChronology`). On a catalog listed in chronological order the two agree (`SeasonLaws.ChronologicalSelectsLatestStart`).
- Before the first start of the year there is no wrap-around to the previous year's last season. The result is blank (`SeasonExamples.NoWraparound`, `SeasonExamples.OpeningRowsBeforeRisshun`). So a one-row catalog is selected only from its start date on (`SeasonLaws.SelectSingle`).
- The code's "start is in next year" branch (lines 50-55) never runs under a Gregorian calendar. A date read from `"MM-dd"` falls in the formatter's default year 2000, which is never later than the current year. The model therefore has one comparison, `Seasons.HasStarted`, the direct one of line 58. Were the branch taken, it would not be the same comparison: moving `"02-29"` back a year gives `"02-28"`.
- A date read from `"MM-dd"` with no year falls in the leap year 2000, so `"02-29"` is a valid start.
- Comparing the zero-padded strings is the same as comparing (month, day) pairs (`MonthDays.FormatOrder`).

## Model

| member | source | states |
|---|---|---|
| MonthDays.ParseFormat | Glyphe/GlypheWidget/GlypheWidget.swift:40-42 | reading back the `"MM-dd"` rendering of a valid month-day gives that month-day |
| MonthDays.FormatParse | Glyphe/GlypheWidget/GlypheWidget.swift:47 | every start string that parses is already the rendering of its month-day, so rendering the parsed start reproduces the catalog string |
| MonthDays.FormatOrder | Glyphe/GlypheWidget/GlypheWidget.swift:58 | the string comparison of two rendered month-days holds exactly when the first is on or before the second in the year |
| Seasons.HasStartedAsWritten | Glyphe/GlypheWidget/GlypheWidget.swift:47-58 | for a well-formed row, comparing the rendering of its parsed start with today's rendering, as the code does, agrees with comparing its raw start string, and holds exactly when its start month-day is on or before today |
| Seasons.Scan | Glyphe/GlypheWidget/GlypheWidget.swift:45-62 | the loop, resumed at any index with a candidate that is the last started row so far, ends with the last started row of the whole catalog, and with none only if no row has started |
| Seasons.SelectSeason | Glyphe/GlypheWidget/GlypheWidget.swift:45-62 | the candidate after the loop is absent exactly when no row has started; otherwise it is the row at the last started index, with no started row after it |
| Seasons.Project | Glyphe/GlypheWidget/GlypheWidget.swift:68-75 | every size keeps the row's id and kanji; notes appear from medium up and description only at large, each equal to the row's field |
| Seasons.ProjectionMonotone | Glyphe/GlypheWidget/GlypheWidget.swift:68-75 | a larger size shows everything a smaller one shows, identically, and strictly more |
| Seasons.LargeProjectionRoundTrip | Glyphe/GlypheWidget/GlypheWidget.swift:73-74 | the large tuple and the start date rebuild the row exactly |
| Seasons.LoadSeasonData | Glyphe/GlypheWidget/GlypheWidget.swift:33-76 | a missing or undecodable catalog gives the blank tuple; a day before every start gives the blank tuple; otherwise the result is the size projection of the last started row |
| SeasonLaws.SelectConcat | Glyphe/GlypheWidget/GlypheWidget.swift:46-62 | for a catalog split in two, the result is the second part's selection when it has one, and only otherwise the first part's |
| SeasonLaws.SelectAppend | Glyphe/GlypheWidget/GlypheWidget.swift:57-60 | a row appended to the catalog wins exactly when it has started, and otherwise the selection is unchanged |
| SeasonLaws.SelectSingle | Glyphe/GlypheWidget/GlypheWidget.swift:45-66 | a one-row catalog selects its row only once that row has started, and nothing before |
| SeasonLaws.SelectIgnoresUnstarted | Glyphe/GlypheWidget/GlypheWidget.swift:56-61 | removing a row that has not started, from any position, leaves the selection unchanged |
| SeasonLaws.SelectSameStarts | Glyphe/GlypheWidget/GlypheWidget.swift:46-61 | catalogs with the same start dates position by position select the same position, or both none |
| SeasonLaws.ChronologicalSelectsLatestStart | Glyphe/GlypheWidget/GlypheWidget.swift:45-62 | on a catalog in chronological order, the selected row has started and no started row has a later start |
| SeasonExamples.ListOrderBeatsChronology | Glyphe/GlypheWidget/GlypheWidget.swift:46-62 | with rows starting 06-10 then 01-05, on 07-01 the second row wins although the first started more recently |
| SeasonExamples.NoWraparound | Glyphe/GlypheWidget/GlypheWidget.swift:64-66 | with rows starting 01-05 and 06-10, on 01-01 the result is blank at every size, not the last row |
| SeasonExamples.OpeningRowsAfterUsui | Glyphe/GlypheWidget/GlypheWidget.swift:45-72 | with Risshun 02-04, Usui 02-19 and Keichun 03-06, on 02-20 the medium tuple is Usui's |
| SeasonExamples.OpeningRowsOnKeichun | Glyphe/GlypheWidget/GlypheWidget.swift:45-70 | on the exact start date 03-06 Keichun is selected |
| SeasonExamples.OpeningRowsBeforeRisshun | Glyphe/GlypheWidget/GlypheWidget.swift:45-66 | on 02-03, before every start, the result is blank rather than Keichun |
| DisplayText.FromRawValue | Glyphe/Glyphe/DisplayOption.swift:10-14 | a string decodes to an option only if it is that option's raw value |
| DisplayText.RawValueRoundTrip | Glyphe/Glyphe/DisplayOption.swift:10-14 | every option decodes back from its raw value, so the three raw values are distinct |
| DisplayText.TextForUserChoice | Glyphe/GlypheWidget/GlypheWidget.swift:78-113 | "Small Seasons" gives the seasonal text for the size; "Days of the Week" gives the weekday's name, index weekday-1; "Mantras" gives the placeholder; any other string gives "Invalid choice" |
| DisplayLaws.SeasonTextsNest | Glyphe/GlypheWidget/GlypheWidget.swift:80-99 | small text is the selected id; medium text is the small text, " \n" and the notes; large text is the kanji, " \n" and the medium text |
| DisplayLaws.NoSeasonTexts | Glyphe/GlypheWidget/GlypheWidget.swift:80-99 | with no season in effect the texts are "", " \n" and " \n \n" |
| DisplayLaws.SeasonTextIgnoresDescription | Glyphe/GlypheWidget/GlypheWidget.swift:92-99 | catalogs that differ only in descriptions give the same seasonal text at every size |
| DisplayLaws.TextIgnoresDescription | Glyphe/GlypheWidget/GlypheWidget.swift:78-113 | whatever the choice and size, the widget text never depends on any row's description |
| Rotation.RotateLaws | Glyphe/GlypheWidget/GlypheWidget.swift:317-324 | an empty array is unchanged; otherwise length and contents are kept and position i takes the element at position i+1, the last position taking the first |
| Rotation.RotateTimes | Glyphe/GlypheWidget/GlypheWidget.swift:317-324 | any number of rotations keeps the length |
| Rotation.RotateTimesAdd | Glyphe/GlypheWidget/GlypheWidget.swift:317-324 | a+b rotations are a rotations followed by b more |
| Rotation.RotateTimesSucc | Glyphe/GlypheWidget/GlypheWidget.swift:262-264 | rotating the current array once more, as each loop step does, is one rotation more of the original |
| Rotation.RotateTimesSplit | Glyphe/GlypheWidget/GlypheWidget.swift:317-324 | up to a full cycle, k rotations move the first k elements, in order, behind the rest |
| Rotation.RotateFullCycle | Glyphe/GlypheWidget/GlypheWidget.swift:317-324 | as many rotations as elements give the array back |
| IconTimeline.StartOfNextDay | Glyphe/GlypheWidget/GlypheWidget.swift:251-252 | the refresh moment is a day boundary, strictly after now and at most a day later, on the following day |
| IconTimeline.ShuffleFacts | Glyphe/GlypheWidget/GlypheWidget.swift:291 | a shuffle of the icon catalog has the catalog's length, at least four, and only catalog names |
| IconTimeline.RecordChoice | Glyphe/GlypheWidget/GlypheWidget.swift:299-304 | after the two writes the suite reads back the chosen names and now as the last update; it gains exactly those two keys and every other key is unchanged |
| IconTimeline.FetchRandomIconsIfNeeded | Glyphe/GlypheWidget/GlypheWidget.swift:276-313 | with no suite: the default four names and nothing stored. On a day other than the last update's: the first four names of the shuffle, all from the catalog, recorded in the suite. On the same day: the stored names, or the defaults, with the suite unchanged |
| IconTimeline.TimelineEntries | Glyphe/GlypheWidget/GlypheWidget.swift:258-268 | exactly four entries, at 0, 6, 12 and 18 hours after now; entry k shows the first four icons of the list rotated k times |
| IconTimeline.GetTimeline | Glyphe/GlypheWidget/GlypheWidget.swift:245-273 | the timeline is built from the fetched icons, the suite is left as the fetch left it, and the refresh moment is the start of the following day |
| IconLaws.FetchSameDayStable | Glyphe/GlypheWidget/GlypheWidget.swift:284-311 | a second fetch on the same day as the first returns the same icons and leaves the suite as it was, whatever the new shuffle |
| IconLaws.FirstFetchPicksFromShuffle | Glyphe/GlypheWidget/GlypheWidget.swift:284-305 | with no date stored under the update key (read as `Date.distantPast`), a fetch on any day other than that one takes the first four names of the shuffle and records them with now as the update |
| IconLaws.FetchKeepsIconsUsable | Glyphe/GlypheWidget/GlypheWidget.swift:299-311 | if the stored list has at least four names, a fetch returns at least four, so the timeline's `icons[3]` is in bounds, and the stored list keeps at least four |
| IconLaws.EntryIconsClosedForm | Glyphe/GlypheWidget/GlypheWidget.swift:258-268 | entry k starts at icon k and continues cyclically; with exactly four icons each icon leads exactly one entry |
| IconLaws.IconNameExamples | Glyphe/GlypheWidget/GlypheWidget.swift:291 | the catalog holds 295 names, each the icon number followed by ".png", the last being "324.png" |

## Left out

- Loading `content.json` from the bundle and decoding it with `JSONDecoder` (lines 34-36) is file I/O and a foreign decoder. The model takes the decoded catalog, or `None` for any failure.
- The force-unwrap of a start date that does not parse (line 47) crashes the widget. It is a precondition instead: every row's `startDate` is a zero-padded `"MM-dd"` of a real date. Strings that `DateFormatter` may accept leniently, such as `"2-4"`, fall outside that precondition.
- The year-shift branch (lines 50-55) is left out on the assumption that `Calendar.current` is Gregorian, so that the parsed start's year 2000 is never later than the current year. Under a calendar that counts years in eras, such as the Japanese one, line 43 gives an era year (2026 is Reiwa 8, 2000 is Heisei 12). The test at line 50 can then succeed, and the branch compares the start moved back a year, which turns a `"02-29"` start into `"02-28"`. The model does not cover such calendars.
- Swift orders `String`s by Unicode canonical equivalence. The model compares characters by code, which agrees for the digits and the hyphen that make up `"MM-dd"`.
- `Calendar` and `Date`: time zones, daylight saving and fractional seconds are not modelled. A day is 86400 seconds of one fixed time zone. Today's month-day, the weekday number and the weekday names are inputs. The `guard` and `continue` branches for calendar arithmetic returning nil (lines 252, 259) are not modelled, because Gregorian date arithmetic never fails there.
- FetchRandomIconsIfNeeded: returns icon names, not the `UIImage`s made from them, because image loading is I/O. The timeline entries carry names for the same reason.
- IconTimeline.TimelineEntries: requires at least four icons. The code reads `icons[0]` to `icons[3]` (line 266) without a check, and a shorter list crashes the widget. Such a list reaches the loop only when `LastChosenIcons` holds fewer than four names and the last update was today, because line 309 returns the stored list as it is. The model states the crash as a precondition. `IconLaws.FetchKeepsIconsUsable` shows that the code's own writes never store a shorter list.
- IconTimeline.GetTimeline: requires the fetched list to have at least four names, for the same reason. A stored list shorter than four names, read back on the same day, crashes the widget at line 266. This is a precondition here, and `IconLaws.FetchKeepsIconsUsable` shows the fetch never writes such a list.
- `shuffled()` is replaced by an arbitrary permutation of the catalog passed in. The model does not say which permutations are likely.
- The catalog of icon names is written as the list of icon numbers, each name being the number followed by ".png". This is the same list in a form the verifier handles cheaply.
- `placeholder` and `getSnapshot` (lines 220-243) only build an entry of the default icons at the current moment. They are image loading with no decision in them.
- `print` logging, `WidgetCenter` reloads and the completion callback are left out because they have no effect on the computed values.
- SwiftUI views are left out. This includes `RandomIconsWidgetEntryView` (lines 115-209), whose `userChoice` reads `displayOption` with "Small Seasons" as the default. It also covers `ContentView`, the live activity and the widget bundle, which are UI and registration only.
- `IconWidgetProvider` is a directory listing plus a shuffle: I/O and randomness with only a count check.
