/**
 * The list edits of src/components/forms/EducationForm.tsx. The form receives the current
 * array as `data` and hands a new array to `updateData`; an entry holds strings only, so
 * copying the array copies the entries' values.
 */
module EducationForm {
  import opened Resume
  import opened JsArrays

  /** The `name` attributes of an entry's inputs. */
  datatype EducationField = Institution | Degree | Location | StartYear | EndYear | Cgpa

  function FieldOf(e: Education, f: EducationField): string {
    match f
    case Institution => e.institution
    case Degree => e.degree
    case Location => e.location
    case StartYear => e.startYear
    case EndYear => e.endYear
    case Cgpa => e.cgpa
  }

  /** `{ ...entry, [name]: value }`: only the named field changes; the id is kept. */
  function WithField(e: Education, f: EducationField, v: string): (r: Education)
    ensures FieldOf(r, f) == v && r.id == e.id
    ensures forall g :: g != f ==> FieldOf(r, g) == FieldOf(e, g)
  {
    match f
    case Institution => e.(institution := v)
    case Degree => e.(degree := v)
    case Location => e.(location := v)
    case StartYear => e.(startYear := v)
    case EndYear => e.(endYear := v)
    case Cgpa => e.(cgpa := v)
  }

  /** The entry `addEducation` appends: every field empty, under a freshly generated id. */
  function NewEducation(id: string): (r: Education)
    ensures r.id == id && forall g :: FieldOf(r, g) == ""
  {
    Education(id, "", "", "", "", "", "")
  }

  /**
   * `handleChange(index, e)`: a copy of the array in which entry `index` has the named field
   * replaced; the length and every other entry are unchanged, and the input array is not touched.
   */
  method HandleChange(data: JsArray<Education>, index: nat, name: EducationField, value: string)
    returns (updated: JsArray<Education>)
    requires index < |data.items|
    ensures fresh(updated)
    ensures |updated.items| == |data.items|
    ensures updated.items[index] == WithField(data.items[index], name, value)
    ensures forall j :: 0 <= j < |data.items| && j != index ==> updated.items[j] == data.items[j]
  {
    updated := new JsArray(data.items);
    updated.Store(index, WithField(updated.items[index], name, value));
  }

  /**
   * `addEducation(id)`: a new array holding the old entries, in order, followed by one empty
   * entry (the id is what `generateId` returned).
   */
  method AddEducation(data: JsArray<Education>, id: string) returns (updated: JsArray<Education>)
    ensures fresh(updated)
    ensures updated.items == data.items + [NewEducation(id)]
  {
    updated := new JsArray(data.items + [NewEducation(id)]);
  }

  /** `removeEducation(index)`: a copy of the array with exactly element `index` deleted. */
  method RemoveEducation(data: JsArray<Education>, index: nat) returns (updated: JsArray<Education>)
    ensures fresh(updated)
    ensures updated.items == Spliced(data.items, index)
  {
    updated := new JsArray(data.items);
    updated.Splice(index);
  }
}
