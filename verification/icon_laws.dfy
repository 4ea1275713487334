/** Properties of the daily icon choice and of the timeline built from it. */
module IconLaws {
  import opened Options
  import opened Rotation
  import opened IconTimeline
  import opened Decimal

  /** Within one day the choice is stable: a second fetch on the same day as
      the first returns the same icons, whatever the second shuffle, and
      leaves the shared suite as the first fetch left it. */
  lemma FetchSameDayStable(defaults: Option<Store>, now: Instant, shuffled: seq<string>,
                           later: Instant, reshuffled: seq<string>)
    requires IsShuffle(shuffled) && IsShuffle(reshuffled)
    requires SameDay(now, later)
    ensures var first := FetchRandomIconsIfNeeded(defaults, now, shuffled);
            var second := FetchRandomIconsIfNeeded(first.defaults, later, reshuffled);
            second == first
  {
  }

  /** A suite with no date recorded under the update key reads the last
      update as `Date.distantPast`: a fetch on any other day picks the head
      of the shuffle and records it. */
  lemma FirstFetchPicksFromShuffle(store: Store, now: Instant, shuffled: seq<string>)
    requires IsShuffle(shuffled)
    requires LastUpdateKey !in store || !store[LastUpdateKey].DateValue?
    requires !SameDay(now, DistantPast)
    ensures var r := FetchRandomIconsIfNeeded(Some(store), now, shuffled);
            r.icons == shuffled[..4] && r.defaults == Some(RecordChoice(store, shuffled[..4], now))
  {
  }

  /** The stored icon list, or the default one, has enough icons for the four
      slots of a timeline entry. */
  predicate IconsUsable(store: Store) {
    |StoredIcons(store)| >= 4
  }

  /** Fetching keeps the stored icons usable, and from a usable suite (or
      none) it returns at least four icons, so the timeline's indexing is in
      bounds. */
  lemma FetchKeepsIconsUsable(defaults: Option<Store>, now: Instant, shuffled: seq<string>)
    requires IsShuffle(shuffled)
    requires defaults.Some? ==> IconsUsable(defaults.value)
    ensures var r := FetchRandomIconsIfNeeded(defaults, now, shuffled);
            && |r.icons| >= 4
            && (r.defaults.Some? ==> IconsUsable(r.defaults.value))
  {
  }

  /** Entry `k` of the timeline starts at the `k`-th icon and continues
      cyclically; with exactly four icons every icon leads one entry. */
  lemma {:induction false} EntryIconsClosedForm(icons: seq<string>, k: nat)
    requires |icons| >= 4 && k < 4
    ensures RotateTimes(icons, k)[..4] == (icons[k..] + icons[..k])[..4]
    ensures RotateTimes(icons, k)[0] == icons[k]
    ensures |icons| == 4 ==> RotateTimes(icons, k) == icons[k..] + icons[..k]
  {
    RotateTimesSplit(icons, k);
  }

  /** Icon names are the decimal number followed by ".png". */
  lemma IconNameExamples()
    ensures IconName(1) == "1.png" && IconName(14) == "14.png" && IconName(324) == "324.png"
    ensures |IconNames()| == 295 && IconNames()[294] == "324.png"
  {
    assert DigitChar(0) == '0' && DigitChar(1) == '1' && DigitChar(2) == '2';
    assert DigitChar(3) == '3' && DigitChar(4) == '4';
    assert IconNumbers[294] == 324;
  }
}
