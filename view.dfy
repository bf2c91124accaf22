/**
 * The saved-reports list (CarbMine/frontend/src/components/View.js): the
 * creation stamp of a report, its displayed date, its age in words, and the
 * search-then-sort that decides which reports show and in what order.
 */
module ReportView {
  import opened Text
  import opened Seqs
  import opened Sorting

  /** A Firestore timestamp whose `seconds` field is 0 (falsy in JavaScript) is not modelled. */
  type NonZero = s: int | s != 0 witness 1

  /** A stored creation stamp: absent, a Firestore timestamp, or a date (or a date string already parsed to its instant). */
  datatype When = Missing | Timestamp(seconds: NonZero) | Instant(millis: int)

  /** What `formatWhen` yields: '' for a missing stamp, else a date at an instant in milliseconds. */
  datatype Moment = Blank | At(millis: int)

  /** A saved report; `createdAtLegacy` is the snake-case `created_at` field read when `createdAt` is absent. */
  datatype Report = Report(name: string, mineName: string, createdAt: When, createdAtLegacy: When)

  /** The locale date formatter, whose text the model does not fix. */
  type Locale = int -> string

  /** `pdf.createdAt || pdf.created_at`. */
  function Stamp(r: Report): (w: When)
    ensures w == Missing <==> r.createdAt == Missing && r.createdAtLegacy == Missing
    ensures r.createdAt != Missing ==> w == r.createdAt
  {
    if r.createdAt != Missing then r.createdAt else r.createdAtLegacy
  }

  /** `formatWhen`: a timestamp counts seconds, a date counts milliseconds. */
  function FormatWhen(w: When): (m: Moment)
    ensures m == Blank <==> w == Missing
    ensures w.Timestamp? ==> m == At(w.seconds * 1000)
    ensures w.Instant? ==> m == At(w.millis)
  {
    match w
    case Missing => Blank
    case Timestamp(s) => At(s * 1000)
    case Instant(ms) => At(ms)
  }

  /** A timestamp and the date at its instant format identically. */
  lemma TimestampMatchesInstant(s: NonZero, render: Locale)
    ensures FormatWhen(Timestamp(s)) == FormatWhen(Instant(s * 1000))
    ensures FormatDate(Timestamp(s), render) == FormatDate(Instant(s * 1000), render)
  {
  }

  const UNKNOWN_DATE := "Unknown date"

  /** `formatDate`: a fixed text for a missing stamp, else the locale rendering of its instant. */
  function FormatDate(w: When, render: Locale): (text: string)
    ensures w == Missing ==> text == UNKNOWN_DATE
    ensures w != Missing ==> text == render(FormatWhen(w).millis)
  {
    match FormatWhen(w)
    case Blank => UNKNOWN_DATE
    case At(ms) => render(ms)
  }

  // ---------------------------------------------------------- relative time

  /** What `getRelativeTime` shows; `OnDate` is the locale date of the instant. */
  datatype Age = Unknown | JustNow | MinutesAgo(minutes: nat) | HoursAgo(hours: nat) | DaysAgo(days: nat) | OnDate(millis: int)

  const MINUTE := 60
  const HOUR := 3600
  const DAY := 86400
  const MONTH := 2592000

  /** Whole seconds from the stamp to `nowMillis`, floored as `Math.floor` does. */
  function ElapsedSeconds(millis: int, nowMillis: int): (d: int)
    ensures d * 1000 <= nowMillis - millis < (d + 1) * 1000
  {
    (nowMillis - millis) / 1000
  }

  /** `getRelativeTime`, with the clock passed in as `nowMillis`. */
  function RelativeTime(w: When, nowMillis: int): (age: Age)
    ensures age == Unknown <==> w == Missing
    ensures w != Missing ==> var d := ElapsedSeconds(FormatWhen(w).millis, nowMillis);
      && (age == JustNow <==> d < MINUTE)
      && (age.MinutesAgo? <==> MINUTE <= d < HOUR)
      && (age.HoursAgo? <==> HOUR <= d < DAY)
      && (age.DaysAgo? <==> DAY <= d < MONTH)
      && (age.OnDate? <==> MONTH <= d)
  {
    match FormatWhen(w)
    case Blank => Unknown
    case At(ms) =>
      var d := ElapsedSeconds(ms, nowMillis);
      if d < MINUTE then JustNow
      else if d < HOUR then MinutesAgo(d / MINUTE)
      else if d < DAY then HoursAgo(d / HOUR)
      else if d < MONTH then DaysAgo(d / DAY)
      else OnDate(ms)
  }

  /** The shown count is the whole number of units elapsed, and lies within the bucket's range. */
  lemma RelativeTimeCounts(w: When, nowMillis: int)
    requires w != Missing
    ensures var d := ElapsedSeconds(FormatWhen(w).millis, nowMillis);
      match RelativeTime(w, nowMillis)
      case MinutesAgo(n) => 1 <= n < 60 && n * MINUTE <= d < (n + 1) * MINUTE
      case HoursAgo(n) => 1 <= n < 24 && n * HOUR <= d < (n + 1) * HOUR
      case DaysAgo(n) => 1 <= n < 30 && n * DAY <= d < (n + 1) * DAY
      case _ => true
  {
    var d := ElapsedSeconds(FormatWhen(w).millis, nowMillis);
    if MINUTE <= d < HOUR {
      FloorDivision(d, MINUTE);
    } else if HOUR <= d < DAY {
      FloorDivision(d, HOUR);
    } else if DAY <= d < MONTH {
      FloorDivision(d, DAY);
    }
  }

  lemma FloorDivision(d: int, unit: int)
    requires unit > 0
    ensures (d / unit) * unit <= d < (d / unit + 1) * unit
  {
  }

  /** A stamp in the future still reads as "Just now". */
  lemma FutureIsJustNow(w: When, nowMillis: int)
    requires w != Missing && FormatWhen(w).millis >= nowMillis
    ensures RelativeTime(w, nowMillis) == JustNow
  {
  }

  // ------------------------------------------------------ search and order

  /** A report is kept when the lower-cased search occurs in its lower-cased date, name or mine name. */
  predicate Matches(r: Report, searchTerm: string, render: Locale): (m: bool)
    ensures searchTerm == "" ==> m
  {
    var term := Lower(searchTerm);
    || Contains(Lower(FormatDate(Stamp(r), render)), term)
    || (r.name != "" && Contains(Lower(r.name), term))
    || (r.mineName != "" && Contains(Lower(r.mineName), term))
  }

  /** The sort key: the stamp's instant, with '' converting to 0 under subtraction. */
  function SortKey(r: Report): (k: real)
    ensures Stamp(r) == Missing ==> k == 0.0
    ensures Stamp(r).Timestamp? ==> k == (Stamp(r).seconds * 1000) as real
    ensures Stamp(r).Instant? ==> k == Stamp(r).millis as real
  {
    match FormatWhen(Stamp(r))
    case Blank => 0.0
    case At(ms) => ms as real
  }

  /** The `filter` step: the matching reports in saved order. */
  function Kept(pdfs: seq<Report>, searchTerm: string, render: Locale): (kept: seq<Report>)
    ensures |kept| <= |pdfs|
    ensures forall i :: 0 <= i < |kept| ==> Matches(kept[i], searchTerm, render)
    ensures forall r :: r in kept <==> r in pdfs && Matches(r, searchTerm, render)
    ensures IsSubsequence(kept, pdfs)
  {
    var kept := Filter(pdfs, r => Matches(r, searchTerm, render));
    FilterIsSubsequence(pdfs, r => Matches(r, searchTerm, render));
    forall r | r in pdfs && Matches(r, searchTerm, render) ensures r in kept {
      FilterComplete(pdfs, x => Matches(x, searchTerm, render), r);
    }
    kept
  }

  /** `filteredAndSortedPdfs`: the matching reports, newest first for 'newest' and oldest first for any other choice. */
  function FilteredAndSorted(pdfs: seq<Report>, searchTerm: string, sortBy: string, render: Locale): (shown: seq<Report>)
    ensures |shown| <= |pdfs|
    ensures multiset(shown) == multiset(Kept(pdfs, searchTerm, render))
    ensures forall r :: r in shown <==> r in pdfs && Matches(r, searchTerm, render)
    ensures SortedBy(shown, SortKey, sortBy == "newest")
  {
    var kept := Kept(pdfs, searchTerm, render);
    var shown := SortByKey(kept, SortKey, sortBy == "newest");
    SortByKeySorted(kept, SortKey, sortBy == "newest");
    assert forall r :: r in shown <==> r in multiset(shown);
    assert forall r :: r in kept <==> r in multiset(kept);
    shown
  }

  /** An empty search keeps every report, only reordered. */
  lemma EmptySearchKeepsAll(pdfs: seq<Report>, sortBy: string, render: Locale)
    ensures multiset(FilteredAndSorted(pdfs, "", sortBy, render)) == multiset(pdfs)
  {
    forall i | 0 <= i < |pdfs| ensures Matches(pdfs[i], "", render) {
      ContainsEmpty(Lower(FormatDate(Stamp(pdfs[i]), render)));
    }
    FilterAll(pdfs, r => Matches(r, "", render));
    assert Kept(pdfs, "", render) == pdfs;
  }

  /** Reports with the same instant keep their saved order, as the stable `Array.prototype.sort` does. */
  lemma SameInstantKeepsOrder(pdfs: seq<Report>, searchTerm: string, sortBy: string, render: Locale, k: real)
    ensures WithKey(FilteredAndSorted(pdfs, searchTerm, sortBy, render), SortKey, k)
         == WithKey(Kept(pdfs, searchTerm, render), SortKey, k)
  {
    SortByKeyStable(Kept(pdfs, searchTerm, render), SortKey, sortBy == "newest", k);
  }
}
