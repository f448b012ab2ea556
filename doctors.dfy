/** The doctor record, restricted to the fields the query engine and the card read. */
module Doctors {
  import opened Text

  datatype Speciality = Speciality(name: string)

  datatype Doctor = Doctor(
    id: string,
    name: string,
    photo: string,
    specialities: seq<Speciality>,
    fees: string,          // free text such as "₹ 500"
    experience: string,    // free text such as "13 Years of experience"
    videoConsult: bool,
    inClinic: bool)

  /** `doctor.specialities.map(s => s.name)`. */
  function SpecialityNames(d: Doctor): (names: seq<string>)
    ensures |names| == |d.specialities|
    ensures forall i :: 0 <= i < |names| ==> names[i] == d.specialities[i].name
  {
    seq(|d.specialities|, i requires 0 <= i < |d.specialities| => d.specialities[i].name)
  }

  /** `doctor.name.toLowerCase().includes(term.toLowerCase())`. */
  predicate NameMatches(d: Doctor, term: string)
  {
    Contains(Lower(d.name), Lower(term))
  }

  /** The search test as a value that can be handed to a filter. */
  function NameTest(term: string): Doctor -> bool
  {
    d => NameMatches(d, term)
  }

  /** The empty term matches every name. */
  lemma EmptyTermMatchesAll(d: Doctor)
    ensures NameMatches(d, "")
  {
    ContainsEmpty(Lower(d.name));
  }
}
