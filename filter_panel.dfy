/** The mode radio buttons and the specialty checkboxes, and what they write to the URL. */
module FilterPanel {
  import opened Wrappers
  import opened Text
  import opened Seqs
  import opened QueryParams

  /** `getArrayFromParams`: an absent or empty value reads as `[]`, any other value is split on commas. */
  function GetArrayFromParams(params: Params, key: string): (r: seq<string>)
    ensures key !in params || params[key] == "" ==> r == []
    ensures key in params && params[key] != "" ==> r == Split(params[key], ',')
  {
    match Get(params, key)
    case Some(value) => if value != "" then Split(value, ',') else []
    case None => []
  }

  /** The mode the panel shows for the given parameters: `get('mode') || 'all'`. */
  function ReadMode(params: Params): (mode: string)
    ensures mode != ""
    ensures "mode" !in params || params["mode"] == "" ==> mode == "all"
    ensures "mode" in params && params["mode"] != "" ==> mode == params["mode"]
  {
    GetOr(params, "mode", "all")
  }

  /** The parameters `updateModeQuery(newMode)` pushes: `mode` is kept only for a value other than "" and "all". */
  function ModeQuery(current: Params, newMode: string): (pushed: Params)
    ensures SameExcept(current, pushed, "mode")
    ensures "mode" in pushed <==> newMode != "" && newMode != "all"
    ensures "mode" in pushed ==> pushed["mode"] == newMode
  {
    Assign(current, "mode", if newMode != "" && newMode != "all" then Some(newMode) else None)
  }

  /** The parameters `updateSpecialtiesQuery(xs)` pushes: the comma-joined selection, or no key for none. */
  function SpecialtiesQuery(current: Params, selection: seq<string>): (pushed: Params)
    ensures SameExcept(current, pushed, "specialties")
    ensures "specialties" in pushed <==> |selection| > 0
    ensures |selection| > 0 ==> pushed["specialties"] == Join(selection, ',')
  {
    Assign(current, "specialties", if |selection| > 0 then Some(Join(selection, ',')) else None)
  }

  method UpdateModeQuery(current: Params, newMode: string) returns (pushed: Params)
    ensures pushed == ModeQuery(current, newMode)
  {
    var params := new SearchParams(current);
    if newMode != "" && newMode != "all" {
      params.Set("mode", newMode);
    } else {
      params.Delete("mode");
    }
    pushed := params.entries;
  }

  method UpdateSpecialtiesQuery(current: Params, newSpecialties: seq<string>) returns (pushed: Params)
    ensures pushed == SpecialtiesQuery(current, newSpecialties)
  {
    var params := new SearchParams(current);
    if |newSpecialties| > 0 {
      params.Set("specialties", Join(newSpecialties, ','));
    } else {
      params.Delete("specialties");
    }
    pushed := params.entries;
  }

  /** Writing a mode and reading it back: "" and "all" read as "all", anything else as itself. */
  lemma ModeRoundTrip(current: Params, newMode: string)
    ensures ReadMode(ModeQuery(current, newMode)) == if newMode == "" then "all" else newMode
  {
  }

  /** The test a checkbox handler uses to drop a specialty. */
  function Unequal(specialty: string): string -> bool
  {
    s => s != specialty
  }

  /**
   * The selection after a checkbox change: a check appends the specialty
   * (with no duplicate test), an uncheck removes every occurrence and keeps
   * the order of the remaining entries.
   */
  function ToggledSelection(selected: seq<string>, specialty: string, isChecked: bool): (r: seq<string>)
    ensures isChecked ==> r == selected + [specialty]
    ensures !isChecked ==> specialty !in r && IsSubsequence(r, selected)
    ensures !isChecked ==> forall s :: s != specialty ==> multiset(r)[s] == multiset(selected)[s]
  {
    if isChecked then selected + [specialty] else Filter(selected, Unequal(specialty))
  }

  /**
   * Round trip of the specialty selection through the URL: for comma-free
   * names, what `getArrayFromParams` reads after `updateSpecialtiesQuery(xs)`
   * is `xs` itself, with the one exception of `[""]`, which is written as an
   * empty value and so reads back as `[]`.
   */
  lemma {:induction false} SpecialtiesRoundTrip(current: Params, xs: seq<string>)
    requires forall i :: 0 <= i < |xs| ==> ',' !in xs[i]
    ensures GetArrayFromParams(SpecialtiesQuery(current, xs), "specialties") == xs <==> xs != [""]
  {
    var pushed := SpecialtiesQuery(current, xs);
    JoinEmpty(xs, ',');
    if |xs| > 0 && xs != [""] {
      SplitJoin(xs, ',');
    }
  }

  /**
   * The other direction: writing back the selection that was read restores
   * the parameter's text exactly (an empty value is dropped), whatever commas it holds.
   */
  lemma RewriteReadSelection(current: Params, params: Params)
    ensures SpecialtiesQuery(current, GetArrayFromParams(params, "specialties"))
            == if "specialties" in params && params["specialties"] != ""
               then current["specialties" := params["specialties"]]
               else current - {"specialties"}
  {
    if "specialties" in params && params["specialties"] != "" {
      JoinSplit(params["specialties"], ',');
    }
  }

  /** The component state: the radio and checkbox selections, re-read from the URL on every change. */
  class Panel {
    var selectedMode: string
    var selectedSpecialties: seq<string>

    constructor (params: Params)
      ensures selectedMode == ReadMode(params)
      ensures selectedSpecialties == GetArrayFromParams(params, "specialties")
    {
      selectedMode := ReadMode(params);
      selectedSpecialties := GetArrayFromParams(params, "specialties");
    }

    /** The two effects that run when the URL changes. */
    method SyncFromUrl(params: Params)
      modifies this
      ensures selectedMode == ReadMode(params)
      ensures selectedSpecialties == GetArrayFromParams(params, "specialties")
    {
      selectedMode := ReadMode(params);
      selectedSpecialties := GetArrayFromParams(params, "specialties");
    }

    /** A mode radio change writes the URL only; the state follows through `SyncFromUrl`. */
    method HandleModeChange(current: Params, newMode: string) returns (pushed: Params)
      ensures pushed == ModeQuery(current, newMode)
    {
      pushed := UpdateModeQuery(current, newMode);
    }

    /** A checkbox change writes the toggled selection to the URL and leaves the state alone. */
    method HandleSpecialtyChange(current: Params, specialty: string, isChecked: bool) returns (pushed: Params)
      ensures pushed == SpecialtiesQuery(current, ToggledSelection(selectedSpecialties, specialty, isChecked))
    {
      var newSelection := selectedSpecialties;
      if isChecked {
        newSelection := newSelection + [specialty];
      } else {
        newSelection := Filter(newSelection, Unequal(specialty));
      }
      pushed := UpdateSpecialtiesQuery(current, newSelection);
    }
  }
}
