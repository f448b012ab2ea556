# Doctor directory query engine, in Dafny

This project models the client-side query engine of a doctor-directory page.
The page keeps all of its search, filter and sort state in the URL query
string. Four components read that state and write it:

- the doctor list (`DoctorList`) reads `search`, `mode`, `specialties` and
  `sort`. It filters a copy of the doctor list by name, by consultation mode
  and by specialty (every selected specialty is required), and it can sort the
  copy by fee (ascending) or by experience (descending);
- the search box (`AutocompleteSearch`) holds the typed term, the focus flag
  and up to three suggestions, and commits a term to `search`;
- the filter panel (`FilterPanel`) writes `mode` and the comma-joined
  `specialties`;
- the sort control (`SortOptions`) writes `sort`.

The card helpers (`DoctorCard`) extract the first decimal number in a free-text
field such as `"₹ 500"`, and check photo URLs.

Layout: `wrappers.dfy` (Option), `text.dfy` (case folding, `includes`, `trim`,
`startsWith`, `split`/`join`, digits), `seqs.dfy` (`filter`, `slice`,
subsequences), `params.dfy` (the query parameters as a `map<string,string>`,
and a `SearchParams` class for the mutable copy a writer edits), `doctors.dfy`
(the record), one file per component, and `url_state.dfy` (all four writers
composed, then read back).

Each writer takes the current parameters, copies them into a fresh
`SearchParams`, calls `Set` or `Delete` on one key, and returns the new map,
which stands for the URL the router navigates to. The component state that
React keeps (`searchTerm`, `suggestions`, `isFocused`, `selectedMode`,
`selectedSpecialties`, `selectedSort`) is held in classes whose handler
methods state their new state. The effects that re-read the URL are
`SyncFromUrl` methods, and the suggestion effect is `RefreshSuggestions`.

The doctor list's `extractNumber` (src/components/DoctorList.tsx:12-16) is
character-for-character the card's (src/components/DoctorCard.tsx:9-12), so it
is defined once, as `DoctorCard.ExtractNumber`. The list decodes `specialties`
inline (src/components/DoctorList.tsx:24-25) by the same rule as
`getArrayFromParams`, so the model uses `FilterPanel.GetArrayFromParams` there.

A record whose fee has no digit extracts as 0, so under `fees_asc` it comes
first: the fees `"₹ 500"`, `"₹ 100"`, `"₹ no-digits"` sort as no-digits, 100,
500 (`DoctorList.FeesAscendingExample`).

## Model

| member | source | states |
|---|---|---|
| `Text.LowerChar` | src/components/DoctorList.tsx:33 | `toLowerCase` on one character: `A`-`Z` move to `a`-`z`, every other character is kept, and the result is never an upper-case letter |
| `Text.Lower` | src/components/DoctorList.tsx:33 | `toLowerCase` on a string: same length, each character lowered by `LowerChar` |
| `Text.Contains` | src/components/DoctorList.tsx:33 | `includes`: a recursive search for the needle as a prefix of some suffix; `ContainsIffOccurs` states what it means |
| `Text.StartsWith` | src/components/DoctorCard.tsx:17 | `startsWith`: the prefix relation on strings; `SafeImageSrcIsHttpTest` uses it |
| `Text.Trim` | src/components/AutocompleteSearch.tsx:35 | `trim()`: leading, then trailing, whitespace removed; `TrimEmptyIffBlank` states when it is empty |
| `Text.DigitsValue` | src/components/DoctorCard.tsx:11 | `parseInt(ds, 10)` on a digit string: the base-10 value, most significant digit first, unbounded; `ExtractNumberFirstRun` relates it to `extractNumber` |
| `Text.Split` | src/components/FilterPanel.tsx:9 | `split(sep)`: at least one piece, none holding the separator; `SplitJoin` and `JoinSplit` relate it to `Join` |
| `Text.Join` | src/components/FilterPanel.tsx:53 | `join(sep)`: the pieces with the separator between neighbours; `JoinEmpty`, `SplitJoin` and `JoinSplit` describe it |
| `Text.ContainsIffOccurs` | src/components/DoctorList.tsx:32-34 | the `includes` test holds exactly when the needle occurs at some index of the haystack |
| `Text.TrimEmptyIffBlank` | src/components/AutocompleteSearch.tsx:35 | `trim()` is empty exactly when the string is all whitespace |
| `Text.SplitJoin` | src/components/FilterPanel.tsx:7-10 | splitting the comma-join of a non-empty list of comma-free names gives the list back |
| `Text.JoinSplit` | src/components/FilterPanel.tsx:50-57 | joining the pieces of a split on commas gives back the original text, for every text |
| `Text.JoinEmpty` | src/components/FilterPanel.tsx:52-53 | a selection joins to the empty string exactly when it is `[]` or `[""]` |
| `Seqs.Filter` | src/components/DoctorList.tsx:32-51 | `filter` keeps exactly the elements that pass; each kept element keeps its multiplicity; the result is an order-preserving subsequence of the input |
| `Seqs.FilterFuse` | src/components/DoctorList.tsx:30-52 | three filters applied in sequence equal one filter by their conjunction |
| `Seqs.FilterCons` | src/components/DoctorList.tsx:31-46 | filtering a list with a first element keeps that element exactly when it passes, followed by the filtered rest |
| `Seqs.FilterKeepsAll` | src/components/DoctorList.tsx:31-46 | a filter that every element passes returns its input unchanged |
| `Seqs.FilterCongruent` | src/components/DoctorList.tsx:37-43 | filters by tests that agree on every element give the same result |
| `Seqs.Take` | src/components/AutocompleteSearch.tsx:40 | `slice(0, n)` is a prefix whose length is the smaller of `n` and the input's length |
| `Seqs.TakeOfFilter` | src/components/AutocompleteSearch.tsx:36-40 | a prefix of a filtered list holds only passing elements of the input and is a subsequence of it |
| `QueryParams.Get` | src/components/FilterPanel.tsx:8 | `params.get(key)`: a value exactly when the key is present, and then the stored value |
| `QueryParams.GetOr` | src/components/DoctorList.tsx:22-26 | reading a key with a fallback: an absent key and an empty value both read as the fallback; any other value reads as itself |
| `QueryParams.Assign` | src/components/FilterPanel.tsx:30-35 | `set` or `delete` on a copy writes the one key and keeps every other key and value |
| `QueryParams.GetOrOtherKey` | src/components/SortOptions.tsx:15-21 | a write to one key never changes what a read of another key returns |
| `QueryParams.AssignCommutes` | src/components/FilterPanel.tsx:29-37 | writes by two controls to two different keys commute |
| `QueryParams.SearchParams.Set` | src/components/FilterPanel.tsx:32 | `set` replaces the key's value and changes nothing else |
| `QueryParams.SearchParams.Delete` | src/components/FilterPanel.tsx:34 | `delete` removes the key and changes nothing else |
| `QueryParams.SearchParams.constructor` | src/components/FilterPanel.tsx:30 | `new URLSearchParams(searchParams.toString())`: the copy holds exactly the current parameters |
| `Doctors.SpecialityNames` | src/components/DoctorList.tsx:48 | the names of the doctor's specialities, in order |
| `Doctors.NameMatches` | src/components/DoctorList.tsx:33 | the name test `name.toLowerCase().includes(term.toLowerCase())`, shared with AutocompleteSearch.tsx:38; `EmptyTermMatchesAll` and `AliMatches`/`AliSkipsBob` describe it |
| `Doctors.EmptyTermMatchesAll` | src/components/DoctorList.tsx:31-35 | every doctor's name matches the empty search term |
| `DoctorCard.DigitPrefix` | src/components/DoctorCard.tsx:10 | the greedy `\d+`: a prefix made of digits that is followed by a non-digit or by the end |
| `DoctorCard.FirstDigitRun` | src/components/DoctorCard.tsx:10 | `str.match(/\d+/)`: the leftmost maximal digit run, empty when nothing matches; the result is all digits |
| `DoctorCard.ExtractNumber` | src/components/DoctorCard.tsx:9-12 | `extractNumber`, defined identically at DoctorList.tsx:13-16: `parseInt` of the first digit run, or 0; `ExtractNumberNoDigit` and `ExtractNumberFirstRun` together give its value on every string |
| `DoctorCard.ExtractNumberNoDigit` | src/components/DoctorCard.tsx:9-11 | a string with no digit extracts as 0 |
| `DoctorCard.ExtractNumberFirstRun` | src/components/DoctorCard.tsx:9-12 | for a digit-free prefix, a maximal digit run and any rest that starts with a non-digit, the match is that run and the result is its decimal value |
| `DoctorCard.ExtractNumberIgnoresTail` | src/components/DoctorCard.tsx:10-11 | what follows the first digit run does not change the result |
| `DoctorCard.ExtractNumberExampleFees` | src/components/DoctorCard.tsx:8 | `"₹ 500"` gives 500 |
| `DoctorCard.ExtractNumberExampleYears` | src/components/DoctorCard.tsx:9-12 | `"13 Years of experience"` gives 13 |
| `DoctorCard.ExtractNumberExampleHundred` | src/components/DoctorList.tsx:12-16 | `"₹ 100"` gives 100 |
| `DoctorCard.ExtractNumberExampleNoDigits` | src/components/DoctorList.tsx:14-15 | `"₹ no-digits"` gives 0 |
| `DoctorCard.GetSafeImageSrc` | src/components/DoctorCard.tsx:15-22 | the image source is always either the input URL or `/placeholder-doctor.png` |
| `DoctorCard.SafeImageSrcIsHttpTest` | src/components/DoctorCard.tsx:17-21 | the input is returned exactly when it is present and starts with `http`; null, undefined, empty, blank and non-`http` input give the placeholder; the blank test never decides |
| `FilterPanel.GetArrayFromParams` | src/components/FilterPanel.tsx:7-10 | an absent or empty value reads as `[]`; any other value reads as its comma split |
| `FilterPanel.ReadMode` | src/components/FilterPanel.tsx:21 | the mode is never empty; it reads as `all` when `mode` is absent or empty, and as the stored value otherwise |
| `FilterPanel.ModeQuery` | src/components/FilterPanel.tsx:29-37 | `mode` is present after the write exactly when the new mode is neither empty nor `all`, and then holds it; no other key changes |
| `FilterPanel.UpdateModeQuery` | src/components/FilterPanel.tsx:29-37 | the copy-set-or-delete code pushes exactly `ModeQuery` |
| `FilterPanel.ModeRoundTrip` | src/components/FilterPanel.tsx:29-41 | after a mode write, the panel reads `all` for `""` and `all`, and the written mode otherwise |
| `FilterPanel.SpecialtiesQuery` | src/components/FilterPanel.tsx:50-58 | `specialties` is present exactly when the selection is non-empty, and then holds the comma-join; no other key changes |
| `FilterPanel.UpdateSpecialtiesQuery` | src/components/FilterPanel.tsx:50-58 | the copy-set-or-delete code pushes exactly `SpecialtiesQuery` |
| `FilterPanel.ToggledSelection` | src/components/FilterPanel.tsx:67-73 | a check appends the specialty at the end, with no duplicate test; an uncheck removes every occurrence and keeps the rest in order with their multiplicities |
| `FilterPanel.Unequal` | src/components/FilterPanel.tsx:72 | the uncheck test `s => s !== specialty`; `ToggledSelection` states what filtering by it gives |
| `FilterPanel.SpecialtiesRoundTrip` | src/components/FilterPanel.tsx:50-62 | for comma-free names, reading back after the write gives the selection exactly when it is not `[""]` |
| `FilterPanel.RewriteReadSelection` | src/components/FilterPanel.tsx:7-10 | writing back the selection just read restores the parameter's text exactly, and drops an empty value |
| `FilterPanel.Panel.constructor` | src/components/FilterPanel.tsx:21-26 | the initial mode and selection are read from the URL |
| `FilterPanel.Panel.SyncFromUrl` | src/components/FilterPanel.tsx:39-41 | the state is re-read from the URL (both effects) |
| `FilterPanel.Panel.HandleModeChange` | src/components/FilterPanel.tsx:43-47 | a radio change writes the mode and leaves the state alone |
| `FilterPanel.Panel.HandleSpecialtyChange` | src/components/FilterPanel.tsx:64-76 | a checkbox change writes the toggled selection and leaves the state alone |
| `SortOptions.ReadSort` | src/components/SortOptions.tsx:9 | an absent `sort` reads as `""`; a present one reads as its value |
| `SortOptions.SortQuery` | src/components/SortOptions.tsx:14-22 | `sort` is present exactly when the new sort is non-empty, and then holds it; `""` deletes it; no other key changes |
| `SortOptions.UpdateSortQuery` | src/components/SortOptions.tsx:14-22 | the copy-set-or-delete code pushes exactly `SortQuery` |
| `SortOptions.SortRoundTrip` | src/components/SortOptions.tsx:14-27 | after a sort write, the control reads back the sort written |
| `SortOptions.RadioValue` | src/components/SortOptions.tsx:39-64 | the radio values are `fees_asc` for the fee radio and `exp_desc` for the experience radio |
| `SortOptions.SortControl.constructor` | src/components/SortOptions.tsx:9-11 | the initial sort is read from the URL |
| `SortOptions.SortControl.SyncFromUrl` | src/components/SortOptions.tsx:25-27 | the state is re-read from the URL |
| `SortOptions.SortControl.HandleSortChange` | src/components/SortOptions.tsx:29-33 | a radio change writes its value and leaves the state alone; what it writes is always `fees_asc` or `exp_desc` |
| `SortOptions.SortControl.IsChecked` | src/components/SortOptions.tsx:44-58 | a radio is checked exactly when the selected sort is its value; `ClickThenSync` states the outcome of a click |
| `SortOptions.ClickedRadioIsChecked` | src/components/SortOptions.tsx:44-58 | after a radio's write, the clicked radio reads as checked and the other does not |
| `SortOptions.ClickThenSync` | src/components/SortOptions.tsx:25-58 | a radio click pushes its value; after the URL effect the control shows the clicked radio as checked and the other as not |
| `AutocompleteSearch.Suggestions` | src/components/AutocompleteSearch.tsx:34-45 | at most 3 suggestions; each is in the dataset and its lowered name contains the lowered untrimmed term; they are a subsequence of the dataset; there are none when unfocused or when the term is blank; otherwise they are the first min(3, matches) matches |
| `AutocompleteSearch.SuggestionsAreFirstMatches` | src/components/AutocompleteSearch.tsx:36-40 | the i-th suggestion is the i-th match, for every i below 3 and below the number of matches |
| `AutocompleteSearch.AliFilterExample` | src/components/AutocompleteSearch.tsx:36-40 | of Alice, Alicia and Bob, the names containing `ali` (ignoring case) are exactly Alice's and Alicia's, in dataset order |
| `AutocompleteSearch.SuggestionsExample` | src/components/AutocompleteSearch.tsx:36-40 | for the term `ali` and the dataset Alice, Alicia, Bob, the suggestions are Alice and Alicia, in that order |
| `AutocompleteSearch.SearchQuery` | src/components/AutocompleteSearch.tsx:21-30 | `search` is set to a non-empty term and deleted for the empty term; no other key changes |
| `AutocompleteSearch.SearchRoundTrip` | src/components/AutocompleteSearch.tsx:48-50 | reading `search` back after a commit gives the committed term |
| `AutocompleteSearch.SearchBox.constructor` | src/components/AutocompleteSearch.tsx:14-18 | the initial term comes from the URL; there are no suggestions and no focus |
| `AutocompleteSearch.SearchBox.UpdateSearchQuery` | src/components/AutocompleteSearch.tsx:21-30 | the copy-set-or-delete code pushes exactly `SearchQuery` |
| `AutocompleteSearch.SearchBox.RefreshSuggestions` | src/components/AutocompleteSearch.tsx:34-45 | the suggestion effect sets the suggestions to `Suggestions` of the current term and focus |
| `AutocompleteSearch.SearchBox.SyncFromUrl` | src/components/AutocompleteSearch.tsx:48-50 | the term is re-read from the URL |
| `AutocompleteSearch.SearchBox.HandleInputChange` | src/components/AutocompleteSearch.tsx:53-55 | typing sets the term, and by its frame changes nothing else |
| `AutocompleteSearch.SearchBox.HandleSuggestionClick` | src/components/AutocompleteSearch.tsx:57-62 | a click takes the name as the term, empties the suggestions, unfocuses, and pushes `search` set to the name |
| `AutocompleteSearch.SearchBox.HandleKeyDown` | src/components/AutocompleteSearch.tsx:64-70 | Enter empties the suggestions, unfocuses and pushes the current term; any other key changes nothing and pushes nothing |
| `AutocompleteSearch.SearchBox.HandleFocus` | src/components/AutocompleteSearch.tsx:86 | focus sets the focus flag |
| `AutocompleteSearch.SearchBox.HandleBlur` | src/components/AutocompleteSearch.tsx:72-77 | blur only schedules one more timeout; the focus flag is not touched yet |
| `AutocompleteSearch.SearchBox.BlurTimeoutFired` | src/components/AutocompleteSearch.tsx:74-76 | a scheduled timeout fires and clears the focus flag |
| `AutocompleteSearch.BlurThenClick` | src/components/AutocompleteSearch.tsx:57-77 | after a blur on a focused box showing its suggestions, the entry to be clicked is still on screen; the click commits its name, and the box ends unfocused with no suggestions |
| `AutocompleteSearch.BlurThenTimeout` | src/components/AutocompleteSearch.tsx:33-77 | if the blur timeout fires and the suggestion effect runs before any click, the box is unfocused and the list is empty, so no suggestion can be clicked |
| `DoctorList.ReadQuery` | src/components/DoctorList.tsx:22-26 | the list reads the same mode as the filter panel (`ReadMode`), the same selection (`GetArrayFromParams`) and the same sort as the sort control (`ReadSort`); the search is `""` when `search` is absent and the stored value otherwise, as `get('search') || ''` reads |
| `DoctorList.ModeMatches` | src/components/DoctorList.tsx:38-43 | the mode test: `video` needs video consultation, `in_clinic` needs an in-clinic practice, any other mode keeps everyone; `UnknownModeIsAll` and `VideoModeMembership` describe it |
| `DoctorList.HasSpecialties` | src/components/DoctorList.tsx:46-51 | `every` selected specialty is among the doctor's speciality names; `SpecialtiesAreConjunctive` and `EmptySelectionKeepsAll` describe it |
| `DoctorList.Keep` | src/components/DoctorList.tsx:31-52 | the conjunction of the name, mode and specialty tests; `ApplyFilters` proves the guarded three-stage pipeline equal to filtering by it |
| `DoctorList.Filtered` | src/components/DoctorList.tsx:28-52 | the reference unsorted view: one filter pass by `Keep`; `ApplyFilters` and `DeriveView` are tied to it |
| `DoctorList.SortKey` | src/components/DoctorList.tsx:55-58 | the key both comparators order by, ascending: the fee for `fees_asc`, the negated experience for `exp_desc`; `SortedByFees` and `SortedByExperience` turn key order into the source's orders |
| `DoctorList.SwapNeighbours` | src/components/DoctorList.tsx:55-59 | exchanges two adjacent entries, leaves every other position as it was and keeps the multiset |
| `DoctorList.InsertingStep` | src/components/DoctorList.tsx:55-59 | swapping an inverted neighbour pair moves the element being inserted one place down and keeps the rest of `a[..i+1]` ordered |
| `DoctorList.InsertingDone` | src/components/DoctorList.tsx:55-59 | an insertion pass that stops at a non-inverted neighbour, or at the front, has ordered all of `a[..i+1]` |
| `DoctorList.InsertLast` | src/components/DoctorList.tsx:55-59 | one insertion pass: with `a[..i]` already ordered by the comparator's key, `a[..i+1]` ends ordered, `a[i+1..]` is left as it was, and the array holds the same multiset |
| `DoctorList.SortInPlace` | src/components/DoctorList.tsx:55-59 | the in-place sort leaves the array ordered by the comparator's key and a permutation of what it held |
| `DoctorList.SortedCopy` | src/components/DoctorList.tsx:54-59 | the sorted list is ordered by the key and is a permutation of the filtered list |
| `DoctorList.ApplyFilters` | src/components/DoctorList.tsx:28-52 | the three guarded filter stages give the one-pass filter by the conjunction of the three tests |
| `DoctorList.DeriveView` | src/components/DoctorList.tsx:21-63 | a doctor is shown exactly when it is in the input and passes the name, mode and all-specialties tests; the view is a permutation of the filtered list; without a known sort it is that filtered list, an order-preserving subsequence of the input; `fees_asc` gives fees non-decreasing and `exp_desc` gives experience non-increasing; an empty input gives an empty view; the input array is not modified (no `modifies` clause) |
| `DoctorList.NoFilterParamsKeepAll` | src/components/DoctorList.tsx:22-52 | with no search, no `video`/`in_clinic` mode and no specialties in the URL, the filtered list is the whole input |
| `DoctorList.EmptySearchIsNoFilter` | src/components/DoctorList.tsx:31-35 | an empty search leaves only the mode and specialty filters |
| `DoctorList.UnknownModeIsAll` | src/components/DoctorList.tsx:37-43 | any mode other than `video` and `in_clinic` filters exactly like `all` |
| `DoctorList.VideoModeMembership` | src/components/DoctorList.tsx:38-39 | under `video`, a doctor is kept exactly when it offers video consultation and passes the other two tests |
| `DoctorList.SpecialtiesAreConjunctive` | src/components/DoctorList.tsx:45-52 | a doctor with specialty A alone is kept for `[A]` and dropped for `[A, B]` |
| `DoctorList.EmptySelectionKeepsAll` | src/components/DoctorList.tsx:46 | an empty selection removes nobody |
| `DoctorList.NoDigitFeeSortsFirst` | src/components/DoctorList.tsx:55-56 | under `fees_asc`, a doctor whose fee has no digit comes before every doctor with a positive fee |
| `DoctorList.FeeValues` | src/components/DoctorList.tsx:12-16 | the fees `"₹ 500"`, `"₹ 100"` and `"₹ no-digits"` extract as 500, 100 and 0 |
| `DoctorList.FeesAscendingExample` | src/components/DoctorList.tsx:55-56 | the only `fees_asc` order of those three records is no-digits, 100, 500 |
| `UrlState.ReadAfterWrite` | src/components/DoctorList.tsx:22-26 | a state whose mode is `all`, `video` or `in_clinic`, whose sort is `""`, `fees_asc` or `exp_desc`, and whose selection is comma-free names other than `[""]`, written by the four writers, reads back through the list's reader as the same state, whatever else the URL held |
| `UrlState.DefaultsAreOmitted` | src/components/FilterPanel.tsx:31-35 | writing the default state leaves none of the four keys in the URL |
| `UrlState.CommaInNameSplits` | src/components/FilterPanel.tsx:50-58 | the selection `["a,b"]` is written as `a,b` unescaped and reads back as `["a", "b"]` |

## Left out

- The network fetch of the doctor list (src/lib/api.ts) is I/O. The model takes the list as an input; a failed fetch is the empty list, and `DeriveView` handles it.
- The page (src/app/page.tsx), the image-host configuration (next.config.ts), all JSX rendering, class names, test ids and the `next/image` component are presentation.
- The alphabetical `allSpecialties.sort()` (src/components/FilterPanel.tsx:105) only orders checkboxes on screen.
- `router.push` and URL serialisation are not modelled. A write is the new parameter map. This leaves out the `application/x-www-form-urlencoded` percent-encoding of the WHATWG URL Standard, `{ scroll: false }` and history entries.
- Parameters are a map with one value per key. `URLSearchParams` can hold repeated keys, and it keeps key order.
- React scheduling is not modelled. The effects are the explicit methods `SyncFromUrl` and `RefreshSuggestions`, not runs triggered by dependency changes.
- The 150 ms blur timer becomes a counter of pending timeouts (`HandleBlur`, `BlurTimeoutFired`). Real time is not modelled.
- `toLowerCase` is ASCII-only (`Text.LowerChar`). `trim` strips only ASCII whitespace (`Text.IsSpace`). Unicode case mappings and Unicode spaces are not modelled.
- `DoctorCard.ExtractNumber`: `parseInt` precision on long digit runs is not modelled. The value is an unbounded `nat`, and comparator arithmetic on huge numbers (`Infinity - Infinity`) is not modelled.
- `DoctorList.SortInPlace`: stability of `Array.prototype.sort` is not stated. The contract gives only ordering and permutation. The adjacent-swap insertion sort used here is stable, but no stability proof is given.
- `DoctorList.SortedCopy`: stability is not stated. Under `fees_asc` and `exp_desc` the contract fixes the order of distinct keys only; doctors with equal keys may appear in either order, while `Array.prototype.sort` keeps them in dataset order.
- `DoctorList.DeriveView`: the same gap as `SortedCopy`. For a sorted view, the relative order of doctors with equal keys is not stated.
- Specialty names are joined with `,` unescaped (src/components/FilterPanel.tsx:53). A name holding a comma, or a selection of only the empty name, does not read back as written (`UrlState.CommaInNameSplits`, `FilterPanel.SpecialtiesRoundTrip`). `UrlState.ReadAfterWrite` covers only selections without these.
- Doctor fields that only the card displays (`doctor_introduction`, `languages`, `clinic`) are not part of the record.
- `getSafeImageSrc` takes `Option<string>`. `None` stands for `null` and `undefined`; other JavaScript types cannot reach it through the typed record.
