/**
 * The recommendations page (CarbMine/frontend/src/pages/Recommendations.js):
 * the impact/category/search filter, the category choices, the total
 * reduction, the per-impact counts and the badge colours.
 */
module RecommendationsPage {
  import opened Wrappers
  import opened Text
  import opened Seqs
  import opened Services
  import opened Series

  // ---------------------------------------------------------------- filter

  /** The two select filters ('all' or a lower-case value) and the search box. */
  datatype Filters = Filters(impact: string, category: string, searchTerm: string)

  /** Whether an item passes: each filter is 'all' or equals the lower-cased field; the search matches any of three fields. */
  predicate Keep(r: Recommendation, f: Filters): (keep: bool)
    ensures f.impact == "all" && f.category == "all" && f.searchTerm == "" ==> keep
    ensures keep && f.impact != "all" ==> Lower(r.impactLevel) == f.impact
    ensures keep && f.category != "all" ==> Lower(r.category) == f.category
  {
    && (f.impact == "all" || Lower(r.impactLevel) == f.impact)
    && (f.category == "all" || Lower(r.category) == f.category)
    && (f.searchTerm == ""
        || Contains(Lower(r.strategy), Lower(f.searchTerm))
        || Contains(Lower(r.description), Lower(f.searchTerm))
        || Contains(Lower(r.category), Lower(f.searchTerm)))
  }

  /** `filtered`. */
  function Filtered(items: seq<Recommendation>, f: Filters): (r: seq<Recommendation>)
    ensures |r| <= |items|
    ensures forall i :: 0 <= i < |r| ==> Keep(r[i], f)
    ensures IsSubsequence(r, items)
    ensures forall x :: x in items && Keep(x, f) ==> x in r
  {
    FilterIsSubsequence(items, x => Keep(x, f));
    forall x | x in items && Keep(x, f)
      ensures x in Filter(items, x => Keep(x, f))
    {
      FilterComplete(items, y => Keep(y, f), x);
    }
    Filter(items, x => Keep(x, f))
  }

  /** With both filters on 'all' and no search, every item is shown. */
  lemma FilteredAllKeepsEverything(items: seq<Recommendation>)
    ensures Filtered(items, Filters("all", "all", "")) == items
  {
    FilterAll(items, x => Keep(x, Filters("all", "all", "")));
  }

  /** For a lower-case filter value, items whose fields differ only in case are kept or dropped together. */
  lemma KeepIgnoresCase(r: Recommendation, s: Recommendation, f: Filters)
    requires Lower(r.impactLevel) == Lower(s.impactLevel) && Lower(r.category) == Lower(s.category)
    requires Lower(r.strategy) == Lower(s.strategy) && Lower(r.description) == Lower(s.description)
    ensures Keep(r, f) <==> Keep(s, f)
  {
  }

  // ------------------------------------------------------------ categories

  /** The lower-cased categories that are not empty, in item order. */
  function CategoryNames(items: seq<Recommendation>): (names: seq<string>)
    ensures forall i :: 0 <= i < |names| ==> names[i] != ""
    ensures forall i :: 0 <= i < |items| && items[i].category != "" ==> Lower(items[i].category) in names
    ensures forall n :: n in names ==> exists i :: 0 <= i < |items| && Lower(items[i].category) == n
  {
    if items == [] then []
    else
      var rest := CategoryNames(items[1..]);
      assert forall i :: 1 <= i < |items| ==> items[1..][i - 1] == items[i];
      (if items[0].category != "" then [Lower(items[0].category)] else []) + rest
  }

  /** `categories`: 'all', then each distinct non-empty lower-cased category once, by first appearance. */
  function Categories(items: seq<Recommendation>): (cs: seq<string>)
    ensures |cs| >= 1 && cs[0] == "all"
    ensures NoDuplicates(cs[1..])
    ensures forall i :: 0 <= i < |items| && items[i].category != "" ==> Lower(items[i].category) in cs[1..]
    ensures forall c :: c in cs[1..] ==> c != "" && exists i :: 0 <= i < |items| && Lower(items[i].category) == c
    ensures forall i, j :: 1 <= i < j < |cs| ==>
              cs[i] in CategoryNames(items) && cs[j] in CategoryNames(items)
              && FirstIndex(CategoryNames(items), cs[i]) < FirstIndex(CategoryNames(items), cs[j])
  {
    var names := CategoryNames(items);
    var distinct := Dedup(names);
    DedupFirstOccurrenceOrder(names);
    assert (["all"] + distinct)[1..] == distinct;
    ["all"] + distinct
  }

  // --------------------------------------------------------------- totals

  /** `totalReduction`: the sum of the shown items' reductions. */
  function TotalReduction(items: seq<Recommendation>): (total: real)
    ensures total == Sum(Reductions(items))
    ensures (forall i :: 0 <= i < |items| ==> items[i].estimatedReduction >= 0.0) ==> total >= 0.0
  {
    if items == [] then 0.0
    else
      assert Reductions(items)[1..] == Reductions(items[1..]);
      items[0].estimatedReduction + TotalReduction(items[1..])
  }

  /** The reductions of the items, in order. */
  function Reductions(items: seq<Recommendation>): (rs: seq<real>)
    ensures |rs| == |items| && forall i :: 0 <= i < |items| ==> rs[i] == items[i].estimatedReduction
  {
    seq(|items|, i requires 0 <= i < |items| => items[i].estimatedReduction)
  }

  /** Narrowing the list never raises the total while the reductions are non-negative. */
  lemma {:induction false} TotalOfSubsequence(a: seq<Recommendation>, b: seq<Recommendation>)
    requires IsSubsequence(a, b)
    requires forall i :: 0 <= i < |b| ==> b[i].estimatedReduction >= 0.0
    ensures 0.0 <= TotalReduction(a) <= TotalReduction(b)
    decreases |b|
  {
    if b != [] {
      assert forall i :: 0 <= i < |b[1..]| ==> b[1..][i] == b[i + 1];
      if a != [] && a[0] == b[0] && IsSubsequence(a[1..], b[1..]) {
        TotalOfSubsequence(a[1..], b[1..]);
      } else {
        TotalOfSubsequence(a, b[1..]);
      }
    }
  }

  /** The filtered total is at most the total over all items. */
  lemma FilteredTotalBounded(items: seq<Recommendation>, f: Filters)
    requires forall i :: 0 <= i < |items| ==> items[i].estimatedReduction >= 0.0
    ensures 0.0 <= TotalReduction(Filtered(items, f)) <= TotalReduction(items)
  {
    TotalOfSubsequence(Filtered(items, f), items);
  }

  // --------------------------------------------------------- impact counts

  datatype ImpactCounts = ImpactCounts(high: nat, medium: nat, low: nat)

  /** How many items have this lower-cased impact level. */
  function CountLevel(items: seq<Recommendation>, level: string): (n: nat)
    ensures n <= |items|
  {
    if items == [] then 0
    else CountLevel(items[..|items| - 1], level) + (if Lower(items[|items| - 1].impactLevel) == level then 1 else 0)
  }

  /** `impactCounts`: one pass that bumps the counter named by each item's lower-cased impact, if there is one. */
  method CountImpacts(filtered: seq<Recommendation>) returns (counts: ImpactCounts)
    ensures counts.high == CountLevel(filtered, "high")
    ensures counts.medium == CountLevel(filtered, "medium")
    ensures counts.low == CountLevel(filtered, "low")
    ensures counts.high + counts.medium + counts.low <= |filtered|
  {
    counts := ImpactCounts(0, 0, 0);
    var i := 0;
    while i < |filtered|
      invariant 0 <= i <= |filtered|
      invariant counts.high == CountLevel(filtered[..i], "high")
      invariant counts.medium == CountLevel(filtered[..i], "medium")
      invariant counts.low == CountLevel(filtered[..i], "low")
      invariant counts.high + counts.medium + counts.low <= i
    {
      var impact := Lower(filtered[i].impactLevel);
      assert filtered[..i + 1][..i] == filtered[..i];
      if impact == "high" {
        counts := counts.(high := counts.high + 1);
      } else if impact == "medium" {
        counts := counts.(medium := counts.medium + 1);
      } else if impact == "low" {
        counts := counts.(low := counts.low + 1);
      }
      i := i + 1;
    }
    assert filtered[..i] == filtered;
  }

  // ---------------------------------------------------------------- badges

  const RENEWABLE_BADGE := "bg-emerald-100 text-emerald-700 border-emerald-200"
  const EFFICIENCY_BADGE := "bg-blue-100 text-blue-700 border-blue-200"
  const CAPTURE_BADGE := "bg-purple-100 text-purple-700 border-purple-200"
  const OFFSET_BADGE := "bg-amber-100 text-amber-700 border-amber-200"
  const POLICY_BADGE := "bg-gray-100 text-gray-700 border-gray-200"
  const DEFAULT_BADGE := "bg-slate-100 text-slate-700 border-slate-200"

  /** `badgeClasses`: the first keyword found, in the order renewable, efficiency, capture, offset, policy/behavior. */
  function BadgeClass(category: string): (b: string)
    ensures var c := Lower(category);
      && (Contains(c, "renewable") ==> b == RENEWABLE_BADGE)
      && (!Contains(c, "renewable") && Contains(c, "efficiency") ==> b == EFFICIENCY_BADGE)
      && (!Contains(c, "renewable") && !Contains(c, "efficiency") && Contains(c, "capture") ==> b == CAPTURE_BADGE)
      && ((!Contains(c, "renewable") && !Contains(c, "efficiency") && !Contains(c, "capture")
           && Contains(c, "offset")) ==> b == OFFSET_BADGE)
      && ((!Contains(c, "renewable") && !Contains(c, "efficiency") && !Contains(c, "capture") && !Contains(c, "offset")
           && (Contains(c, "policy") || Contains(c, "behavior"))) ==> b == POLICY_BADGE)
      && (b == DEFAULT_BADGE <==> !ContainsAny(c, ["renewable", "efficiency", "capture", "offset", "policy", "behavior"]))
  {
    var c := Lower(category);
    if Contains(c, "renewable") then RENEWABLE_BADGE
    else if Contains(c, "efficiency") then EFFICIENCY_BADGE
    else if Contains(c, "capture") then CAPTURE_BADGE
    else if Contains(c, "offset") then OFFSET_BADGE
    else if Contains(c, "policy") || Contains(c, "behavior") then POLICY_BADGE
    else DEFAULT_BADGE
  }

  const HIGH_IMPACT := "text-red-600 bg-red-50 border-red-200"
  const MEDIUM_IMPACT := "text-orange-600 bg-orange-50 border-orange-200"
  const OTHER_IMPACT := "text-green-700 bg-green-50 border-green-200"

  /** `impactClass`: red for a high impact, orange for medium, green otherwise, ignoring case. */
  function ImpactClass(impact: string): (k: string)
    ensures k == HIGH_IMPACT <==> Lower(impact) == "high"
    ensures k == MEDIUM_IMPACT <==> Lower(impact) == "medium"
    ensures k == OTHER_IMPACT <==> Lower(impact) != "high" && Lower(impact) != "medium"
  {
    var v := Lower(impact);
    if v == "high" then HIGH_IMPACT else if v == "medium" then MEDIUM_IMPACT else OTHER_IMPACT
  }

  /** Badge and impact colours ignore letter case. */
  lemma ClassesIgnoreCase(a: string, b: string)
    requires Lower(a) == Lower(b)
    ensures BadgeClass(a) == BadgeClass(b) && ImpactClass(a) == ImpactClass(b)
  {
  }
}
