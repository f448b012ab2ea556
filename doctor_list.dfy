/**
 * The filter/sort engine: the view of the doctor list derived from the URL's
 * `search`, `mode`, `specialties` and `sort` parameters.
 */
module DoctorList {
  import opened Seqs
  import opened QueryParams
  import opened Doctors
  import opened DoctorCard
  import opened FilterPanel
  import SortOptions

  /** The four parameters as the list reads them, defaults applied. */
  datatype Query = Query(search: string, mode: string, specialties: seq<string>, sort: string)

  /**
   * How the list reads the URL: absent or empty values fall back to "", "all",
   * [] and "". The list filters and sorts by exactly the mode, selection and
   * sort that the filter panel and the sort control show for the same URL.
   */
  function ReadQuery(params: Params): (q: Query)
    ensures q.mode == ReadMode(params)
    ensures q.specialties == GetArrayFromParams(params, "specialties")
    ensures q.sort == SortOptions.ReadSort(params)
    ensures "search" !in params ==> q.search == ""
    ensures "search" in params ==> q.search == params["search"]
  {
    Query(GetOr(params, "search", ""),
          GetOr(params, "mode", "all"),
          GetArrayFromParams(params, "specialties"),
          GetOr(params, "sort", ""))
  }

  /** The mode test: "video" and "in_clinic" restrict, any other value keeps everyone. */
  predicate ModeMatches(d: Doctor, mode: string)
  {
    if mode == "video" then d.videoConsult
    else if mode == "in_clinic" then d.inClinic
    else true
  }

  /** The specialty test, with AND semantics: the doctor has every selected specialty. */
  predicate HasSpecialties(d: Doctor, selected: seq<string>)
  {
    forall s :: s in selected ==> s in SpecialityNames(d)
  }

  /** A doctor is shown when it passes all three filters. */
  predicate Keep(d: Doctor, q: Query)
  {
    NameMatches(d, q.search) && ModeMatches(d, q.mode) && HasSpecialties(d, q.specialties)
  }

  function ModeTest(mode: string): Doctor -> bool
  {
    d => ModeMatches(d, mode)
  }

  function SpecialtyTest(selected: seq<string>): Doctor -> bool
  {
    d => HasSpecialties(d, selected)
  }

  function KeepTest(q: Query): Doctor -> bool
  {
    d => Keep(d, q)
  }

  /** The reference view before sorting: one pass that keeps the doctors passing all filters. */
  function Filtered(doctors: seq<Doctor>, q: Query): seq<Doctor>
  {
    Filter(doctors, KeepTest(q))
  }

  // ---- Sorting ----

  datatype SortOrder = FeesAscending | ExperienceDescending

  function Fee(d: Doctor): nat
  {
    ExtractNumber(d.fees)
  }

  function Experience(d: Doctor): nat
  {
    ExtractNumber(d.experience)
  }

  /** The key the comparator orders by, ascending: fees up, experience down. */
  function SortKey(d: Doctor, order: SortOrder): int
  {
    match order
    case FeesAscending => Fee(d)
    case ExperienceDescending => -(Experience(d) as int)
  }

  ghost predicate SortedBy(s: seq<Doctor>, order: SortOrder)
  {
    forall i, j :: 0 <= i < j < |s| ==> SortKey(s[i], order) <= SortKey(s[j], order)
  }

  /** Exchanges two neighbouring elements. */
  method SwapNeighbours(a: array<Doctor>, j: nat)
    requires 0 < j < a.Length
    modifies a
    ensures a[j - 1] == old(a[j]) && a[j] == old(a[j - 1])
    ensures forall k :: 0 <= k < a.Length && k != j - 1 && k != j ==> a[k] == old(a[k])
    ensures multiset(a[..]) == multiset(old(a[..]))
  {
    a[j - 1], a[j] := a[j], a[j - 1];
  }

  /** Keys of `s[..n]` are ordered. */
  ghost predicate OrderedPrefix(s: seq<Doctor>, n: nat, order: SortOrder)
    requires n <= |s|
  {
    forall p, q :: 0 <= p < q < n ==> SortKey(s[p], order) <= SortKey(s[q], order)
  }

  /**
   * The state of an insertion pass that has carried the new element down to
   * `j`: `s[..i + 1]` is ordered except around position `j`.
   */
  ghost predicate Inserting(s: seq<Doctor>, i: nat, j: nat, order: SortOrder)
    requires j <= i < |s|
  {
    (forall p, q :: 0 <= p < q <= i && q != j ==> SortKey(s[p], order) <= SortKey(s[q], order)) &&
    (0 < j < i ==> SortKey(s[j - 1], order) <= SortKey(s[j + 1], order))
  }

  /** Swapping the inverted pair at `j - 1`, `j` carries the pass one step down. */
  lemma InsertingStep(s: seq<Doctor>, t: seq<Doctor>, i: nat, j: nat, order: SortOrder)
    requires 0 < j <= i < |s| == |t|
    requires Inserting(s, i, j, order)
    requires SortKey(s[j - 1], order) > SortKey(s[j], order)
    requires t[j - 1] == s[j] && t[j] == s[j - 1]
    requires forall k :: 0 <= k < |s| && k != j - 1 && k != j ==> t[k] == s[k]
    ensures Inserting(t, i, j - 1, order)
  {
  }

  /** A pass that stops at `j` has ordered the whole of `s[..i + 1]`. */
  lemma InsertingDone(s: seq<Doctor>, i: nat, j: nat, order: SortOrder)
    requires j <= i < |s|
    requires Inserting(s, i, j, order)
    requires j == 0 || SortKey(s[j - 1], order) <= SortKey(s[j], order)
    ensures OrderedPrefix(s, i + 1, order)
  {
  }

  /**
   * One pass of the insertion sort: moves `a[i]` left past every neighbour
   * with a strictly larger key, so that `a[..i + 1]` becomes ordered.
   */
  method InsertLast(a: array<Doctor>, i: nat, order: SortOrder)
    requires i < a.Length
    requires OrderedPrefix(a[..], i, order)
    modifies a
    ensures OrderedPrefix(a[..], i + 1, order)
    ensures multiset(a[..]) == multiset(old(a[..]))
    ensures a[i + 1..] == old(a[i + 1..])
  {
    var j := i;
    while j > 0 && SortKey(a[j - 1], order) > SortKey(a[j], order)
      invariant 0 <= j <= i
      invariant multiset(a[..]) == multiset(old(a[..]))
      invariant Inserting(a[..], i, j, order)
      invariant a[i + 1..] == old(a[i + 1..])
    {
      ghost var before := a[..];
      SwapNeighbours(a, j);
      InsertingStep(before, a[..], i, j, order);
      assert a[i + 1..] == before[i + 1..];
      j := j - 1;
    }
    InsertingDone(a[..], i, j, order);
  }

  /**
   * `processedDoctors.sort(compare)` in place; the comparator is
   * `key(a) - key(b)`. An insertion sort by adjacent swaps of strictly
   * inverted neighbours.
   */
  method SortInPlace(a: array<Doctor>, order: SortOrder)
    modifies a
    ensures SortedBy(a[..], order)
    ensures multiset(a[..]) == multiset(old(a[..]))
  {
    var i := 0;
    while i < a.Length
      invariant 0 <= i <= a.Length
      invariant OrderedPrefix(a[..], i, order)
      invariant multiset(a[..]) == multiset(old(a[..]))
    {
      InsertLast(a, i, order);
      i := i + 1;
    }
  }

  // ---- The pipeline ----

  /**
   * The three filters of the pipeline, applied in order, each only when its
   * parameter asks for it; the result is the one-pass reference filter.
   */
  method ApplyFilters(doctors: seq<Doctor>, q: Query) returns (processed: seq<Doctor>)
    ensures processed == Filtered(doctors, q)
  {
    processed := doctors;
    if q.search != "" {
      processed := Filter(processed, NameTest(q.search));
    } else {
      forall d ensures NameMatches(d, q.search) { EmptyTermMatchesAll(d); }
      FilterKeepsAll(processed, NameTest(q.search));
    }
    ghost var afterSearch := processed;

    if q.mode == "video" {
      processed := Filter(processed, ModeTest(q.mode));
    } else if q.mode == "in_clinic" {
      processed := Filter(processed, ModeTest(q.mode));
    } else {
      FilterKeepsAll(processed, ModeTest(q.mode));
    }
    ghost var afterMode := processed;

    if |q.specialties| > 0 {
      processed := Filter(processed, SpecialtyTest(q.specialties));
    } else {
      FilterKeepsAll(processed, SpecialtyTest(q.specialties));
    }
    FilterFuse(doctors, NameTest(q.search), ModeTest(q.mode), SpecialtyTest(q.specialties), KeepTest(q));
  }

  /** Fees non-decreasing along the list. */
  ghost predicate FeesAscendingOrder(s: seq<Doctor>)
  {
    forall i, j :: 0 <= i < j < |s| ==> Fee(s[i]) <= Fee(s[j])
  }

  /** Experience non-increasing along the list. */
  ghost predicate ExperienceDescendingOrder(s: seq<Doctor>)
  {
    forall i, j :: 0 <= i < j < |s| ==> Experience(s[i]) >= Experience(s[j])
  }

  lemma SortedByFees(s: seq<Doctor>)
    requires SortedBy(s, FeesAscending)
    ensures FeesAscendingOrder(s)
  {
    forall i, j | 0 <= i < j < |s| ensures Fee(s[i]) <= Fee(s[j]) {
      assert SortKey(s[i], FeesAscending) <= SortKey(s[j], FeesAscending);
    }
  }

  lemma SortedByExperience(s: seq<Doctor>)
    requires SortedBy(s, ExperienceDescending)
    ensures ExperienceDescendingOrder(s)
  {
    forall i, j | 0 <= i < j < |s| ensures Experience(s[i]) >= Experience(s[j]) {
      assert SortKey(s[i], ExperienceDescending) <= SortKey(s[j], ExperienceDescending);
    }
  }

  /** Two lists with the same multiset have the same members. */
  lemma SameMultisetSameMembers(a: seq<Doctor>, b: seq<Doctor>)
    requires multiset(a) == multiset(b)
    ensures forall d :: d in a <==> d in b
  {
    forall d ensures d in a <==> d in b {
      assert d in a <==> d in multiset(a);
      assert d in b <==> d in multiset(b);
    }
  }

  /**
   * The body of the list's `useMemo`: read the parameters, copy the input,
   * filter, then sort the copy when `sort` is "fees_asc" or "exp_desc".
   * The input array is only read (no `modifies`).
   */
  method DeriveView(doctors: array<Doctor>, params: Params) returns (view: seq<Doctor>)
    ensures forall d :: d in view <==> d in doctors[..] && Keep(d, ReadQuery(params))
    ensures multiset(view) == multiset(Filtered(doctors[..], ReadQuery(params)))
    ensures ReadQuery(params).sort != "fees_asc" && ReadQuery(params).sort != "exp_desc" ==>
              view == Filtered(doctors[..], ReadQuery(params)) && IsSubsequence(view, doctors[..])
    ensures ReadQuery(params).sort == "fees_asc" ==> FeesAscendingOrder(view)
    ensures ReadQuery(params).sort == "exp_desc" ==> ExperienceDescendingOrder(view)
    ensures doctors.Length == 0 ==> view == []
  {
    var q := ReadQuery(params);
    var processed := ApplyFilters(doctors[..], q);
    ghost var filtered := processed;
    if q.sort == "fees_asc" {
      processed := SortedCopy(processed, FeesAscending);
      SortedByFees(processed);
    } else if q.sort == "exp_desc" {
      processed := SortedCopy(processed, ExperienceDescending);
      SortedByExperience(processed);
    }
    SameMultisetSameMembers(processed, filtered);
    view := processed;
  }

  /**
   * Sorts the array that holds the filtered list. The source sorts the array
   * the last filter returned; that array is fresh, as this one is.
   */
  method SortedCopy(s: seq<Doctor>, order: SortOrder) returns (r: seq<Doctor>)
    ensures SortedBy(r, order)
    ensures multiset(r) == multiset(s)
  {
    var buffer := new Doctor[|s|](i requires 0 <= i < |s| => s[i]);
    assert buffer[..] == s;
    SortInPlace(buffer, order);
    r := buffer[..];
  }

  // ---- Properties of the view ----

  /** With no search, no recognised mode and no specialty, nothing is filtered out. */
  lemma {:induction false} NoFilterParamsKeepAll(doctors: seq<Doctor>, params: Params)
    requires "search" !in params || params["search"] == ""
    requires "mode" !in params || (params["mode"] != "video" && params["mode"] != "in_clinic")
    requires "specialties" !in params || params["specialties"] == ""
    ensures Filtered(doctors, ReadQuery(params)) == doctors
  {
    var q := ReadQuery(params);
    forall d | d in doctors ensures Keep(d, q) {
      EmptyTermMatchesAll(d);
    }
    FilterKeepsAll(doctors, KeepTest(q));
  }

  /** An empty search applies no name filtering. */
  lemma EmptySearchIsNoFilter(doctors: seq<Doctor>, q: Query)
    requires q.search == ""
    ensures Filtered(doctors, q) == Filter(Filter(doctors, ModeTest(q.mode)), SpecialtyTest(q.specialties))
  {
    forall d ensures NameMatches(d, q.search) { EmptyTermMatchesAll(d); }
    FilterKeepsAll(doctors, NameTest(q.search));
    FilterFuse(doctors, NameTest(q.search), ModeTest(q.mode), SpecialtyTest(q.specialties), KeepTest(q));
  }

  /** Any mode other than "video" and "in_clinic" (garbage included) filters exactly like "all". */
  lemma UnknownModeIsAll(doctors: seq<Doctor>, q: Query)
    requires q.mode != "video" && q.mode != "in_clinic"
    ensures Filtered(doctors, q) == Filtered(doctors, q.(mode := "all"))
  {
    FilterCongruent(doctors, KeepTest(q), KeepTest(q.(mode := "all")));
  }

  /** "video" keeps exactly the doctors offering video consultation that pass the other two filters. */
  lemma VideoModeMembership(doctors: seq<Doctor>, q: Query, d: Doctor)
    requires q.mode == "video"
    ensures d in Filtered(doctors, q) <==>
            d in doctors && d.videoConsult && NameMatches(d, q.search) && HasSpecialties(d, q.specialties)
  {
  }

  /** AND semantics: a doctor with specialty A alone is dropped when A and B are both selected. */
  lemma SpecialtiesAreConjunctive(d: Doctor, a: string, b: string)
    requires SpecialityNames(d) == [a] && a != b
    ensures HasSpecialties(d, [a])
    ensures !HasSpecialties(d, [a, b])
  {
    assert b !in SpecialityNames(d);
  }

  /** An empty selection removes nobody. */
  lemma EmptySelectionKeepsAll(d: Doctor)
    ensures HasSpecialties(d, [])
  {
  }

  /** Under "fees_asc", a doctor whose fee text has no digit (fee 0) comes before every doctor with a positive fee. */
  lemma NoDigitFeeSortsFirst(view: seq<Doctor>, i: nat, j: nat)
    requires FeesAscendingOrder(view)
    requires i < |view| && j < |view|
    requires Text.NoDigit(view[i].fees) && Fee(view[j]) > 0
    ensures i < j
  {
    ExtractNumberNoDigit(view[i].fees);
  }

  /**
   * The fee example: the records with fees "₹ 500", "₹ 100" and
   * "₹ no-digits" come out of "fees_asc" as 0, 100, 500 - the digit-free
   * record first, since it sorts as 0.
   */
  lemma FeesAscendingExample(d500: Doctor, d100: Doctor, d0: Doctor, view: seq<Doctor>)
    requires d500.fees == "\U{20B9} 500" && d100.fees == "\U{20B9} 100" && d0.fees == "\U{20B9} no-digits"
    requires multiset(view) == multiset([d500, d100, d0])
    requires FeesAscendingOrder(view)
    ensures view == [d0, d100, d500]
  {
    FeeValues(d500, d100, d0);
    assert |view| == 3 by { assert |multiset(view)| == 3; }
    forall k | 0 <= k < 3 ensures view[k] in multiset([d500, d100, d0]) {
      assert view[k] in multiset(view);
    }
    assert d0 in multiset(view) && d100 in multiset(view) && d500 in multiset(view);
  }

  lemma FeeValues(d500: Doctor, d100: Doctor, d0: Doctor)
    requires d500.fees == "\U{20B9} 500" && d100.fees == "\U{20B9} 100" && d0.fees == "\U{20B9} no-digits"
    ensures Fee(d500) == 500 && Fee(d100) == 100 && Fee(d0) == 0
  {
    ExtractNumberExampleFees();
    ExtractNumberExampleHundred();
    ExtractNumberExampleNoDigits();
  }
}
