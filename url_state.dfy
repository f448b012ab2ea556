/**
 * The URL as the one store of the view's state: the four writers together,
 * and reading the state back through the list's reader.
 */
module UrlState {
  import opened QueryParams
  import SortOptions
  import FilterPanel
  import AutocompleteSearch
  import DoctorList
  import Text

  /**
   * The states that survive the URL: a mode of "all", "video" or "in_clinic",
   * a sort of "", "fees_asc" or "exp_desc", and a selection of comma-free
   * names other than `[""]`. The checkboxes write names unescaped, so a name
   * holding a comma, or a selection of only the empty name, would not
   * survive (`CommaInNameSplits`).
   */
  predicate IsValidQuery(q: DoctorList.Query)
  {
    && (q.mode == "all" || q.mode == "video" || q.mode == "in_clinic")
    && (q.sort == "" || q.sort == "fees_asc" || q.sort == "exp_desc")
    && (forall i :: 0 <= i < |q.specialties| ==> ',' !in q.specialties[i])
    && q.specialties != [""]
  }

  /** Each control writes its own key, one after the other, starting from `current`. */
  function WriteQuery(current: Params, q: DoctorList.Query): Params
  {
    var p1 := SortOptions.SortQuery(current, q.sort);
    var p2 := FilterPanel.SpecialtiesQuery(p1, q.specialties);
    var p3 := FilterPanel.ModeQuery(p2, q.mode);
    AutocompleteSearch.SearchQuery(p3, q.search)
  }

  /** Every such state survives the trip through the URL, whatever other parameters were there. */
  lemma ReadAfterWrite(current: Params, q: DoctorList.Query)
    requires IsValidQuery(q)
    ensures DoctorList.ReadQuery(WriteQuery(current, q)) == q
  {
    var p1 := SortOptions.SortQuery(current, q.sort);
    var p2 := FilterPanel.SpecialtiesQuery(p1, q.specialties);
    var p3 := FilterPanel.ModeQuery(p2, q.mode);
    var p4 := AutocompleteSearch.SearchQuery(p3, q.search);
    FilterPanel.SpecialtiesRoundTrip(p1, q.specialties);
    assert FilterPanel.GetArrayFromParams(p4, "specialties") == FilterPanel.GetArrayFromParams(p2, "specialties");
  }

  /** A state at its defaults leaves no trace of its four keys in the URL. */
  lemma DefaultsAreOmitted(current: Params, q: DoctorList.Query)
    requires q == DoctorList.Query("", "all", [], "")
    ensures var p := WriteQuery(current, q);
            "search" !in p && "mode" !in p && "specialties" !in p && "sort" !in p
  {
  }

  /** A specialty name holding a comma comes back as two names: the join is not escaped. */
  lemma CommaInNameSplits(current: Params)
    ensures DoctorList.ReadQuery(WriteQuery(current, DoctorList.Query("", "all", ["a,b"], ""))).specialties == ["a", "b"]
  {
    var q := DoctorList.Query("", "all", ["a,b"], "");
    var p1 := SortOptions.SortQuery(current, q.sort);
    var p2 := FilterPanel.SpecialtiesQuery(p1, q.specialties);
    assert p2["specialties"] == "a,b";
    assert WriteQuery(current, q)["specialties"] == "a,b";
    assert "a,b"[1..] == ",b" && ",b"[1..] == "b" && "b"[1..] == "";
    assert Text.Split("", ',') == [""];
    assert Text.Split("b", ',') == ["b"] by {
      assert "b"[0] == 'b' != ',';
      assert Text.Split("b", ',') == [['b'] + Text.Split("", ',')[0]] + Text.Split("", ',')[1..];
      assert ['b'] + "" == "b";
    }
    assert Text.Split(",b", ',') == ["", "b"] by {
      assert ",b"[0] == ',';
      assert Text.Split(",b", ',') == [""] + Text.Split("b", ',');
    }
    assert Text.Split("a,b", ',') == ["a", "b"] by {
      assert "a,b"[0] == 'a' != ',';
      assert Text.Split("a,b", ',') == [['a'] + Text.Split(",b", ',')[0]] + Text.Split(",b", ',')[1..];
      assert ['a'] + "" == "a";
    }
    assert FilterPanel.GetArrayFromParams(WriteQuery(current, q), "specialties") == Text.Split("a,b", ',');
  }
}
