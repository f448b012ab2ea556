/** The sort radio buttons and the `sort` parameter they write. */
module SortOptions {
  import opened Wrappers
  import opened QueryParams

  /** The sort the control shows: `get('sort') || ''`, where "" means no sort. */
  function ReadSort(params: Params): (sort: string)
    ensures "sort" !in params ==> sort == ""
    ensures "sort" in params ==> sort == params["sort"]
  {
    GetOr(params, "sort", "")
  }

  /** The parameters `updateSortQuery(newSort)` pushes. */
  function SortQuery(current: Params, newSort: string): (pushed: Params)
    ensures SameExcept(current, pushed, "sort")
    ensures "sort" in pushed <==> newSort != ""
    ensures newSort != "" ==> pushed["sort"] == newSort
  {
    Assign(current, "sort", if newSort != "" then Some(newSort) else None)
  }

  method UpdateSortQuery(current: Params, newSort: string) returns (pushed: Params)
    ensures pushed == SortQuery(current, newSort)
  {
    var params := new SearchParams(current);
    if newSort != "" {
      params.Set("sort", newSort);
    } else {
      params.Delete("sort");
    }
    pushed := params.entries;
  }

  /** Writing a sort and reading it back gives the sort written, "" included. */
  lemma SortRoundTrip(current: Params, newSort: string)
    ensures ReadSort(SortQuery(current, newSort)) == newSort
  {
  }

  /** The two radio buttons of the control. */
  datatype SortRadio = FeesRadio | ExperienceRadio

  /** The `value` attribute of each radio button. */
  function RadioValue(radio: SortRadio): (value: string)
    ensures value == "fees_asc" || value == "exp_desc"
    ensures (value == "fees_asc") <==> radio == FeesRadio
  {
    match radio
    case FeesRadio => "fees_asc"
    case ExperienceRadio => "exp_desc"
  }

  /** The component state: the checked radio, re-read from the URL on every change. */
  class SortControl {
    var selectedSort: string

    constructor (params: Params)
      ensures selectedSort == ReadSort(params)
    {
      selectedSort := ReadSort(params);
    }

    /** The effect that runs when the URL changes. */
    method SyncFromUrl(params: Params)
      modifies this
      ensures selectedSort == ReadSort(params)
    {
      selectedSort := ReadSort(params);
    }

    /** Whether a radio button is shown as checked. */
    predicate IsChecked(radio: SortRadio)
      reads this
    {
      selectedSort == RadioValue(radio)
    }

    /**
     * A radio change writes its value to the URL and leaves the state alone;
     * the only sorts a user action ever writes are "fees_asc" and "exp_desc".
     */
    method HandleSortChange(current: Params, radio: SortRadio) returns (pushed: Params)
      ensures pushed == SortQuery(current, RadioValue(radio))
      ensures "sort" in pushed && (pushed["sort"] == "fees_asc" || pushed["sort"] == "exp_desc")
    {
      pushed := UpdateSortQuery(current, RadioValue(radio));
    }
  }

  /**
   * A radio click followed by the URL effect: the control then shows exactly
   * the clicked radio as checked.
   */
  method ClickThenSync(control: SortControl, current: Params, clicked: SortRadio, other: SortRadio) returns (pushed: Params)
    modifies control
    ensures pushed == SortQuery(current, RadioValue(clicked))
    ensures control.IsChecked(clicked)
    ensures other != clicked ==> !control.IsChecked(other)
  {
    pushed := control.HandleSortChange(current, clicked);
    control.SyncFromUrl(pushed);
    ClickedRadioIsChecked(current, clicked, other);
  }

  /** After a radio change and the URL sync, exactly the radio that was clicked is checked. */
  lemma ClickedRadioIsChecked(current: Params, clicked: SortRadio, other: SortRadio)
    ensures ReadSort(SortQuery(current, RadioValue(clicked))) == RadioValue(clicked)
    ensures other != clicked ==> ReadSort(SortQuery(current, RadioValue(clicked))) != RadioValue(other)
  {
  }
}
