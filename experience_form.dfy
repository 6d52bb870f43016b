/**
 * The list edits of src/components/forms/ExperienceForm.tsx.
 *
 * An entry object holds its `points` list as a separate array object. `[...data]` copies
 * only the outer array, so the point edits, which write into `updated[expIndex].points`,
 * change the very array the caller's `data` also refers to: they modify that one object and
 * hand back a new outer array holding the same entries.
 */
module ExperienceForm {
  import opened Resume
  import opened JsArrays

  /** An entry object as the form holds it: its points are a shared array object. */
  type Entry = ExperienceOf<JsArray<string>>

  /** The `name` attributes of an entry's text inputs. */
  datatype ExperienceField = Company | CompanyUrl | Position | Location | StartYear | EndYear

  function FieldOf<P>(e: ExperienceOf<P>, f: ExperienceField): string {
    match f
    case Company => e.company
    case CompanyUrl => e.companyUrl
    case Position => e.position
    case Location => e.location
    case StartYear => e.startYear
    case EndYear => e.endYear
  }

  /** `{ ...entry, [name]: value }`: only the named field changes; id and points are kept. */
  function WithField<P>(e: ExperienceOf<P>, f: ExperienceField, v: string): (r: ExperienceOf<P>)
    ensures FieldOf(r, f) == v && r.id == e.id && r.points == e.points
    ensures forall g :: g != f ==> FieldOf(r, g) == FieldOf(e, g)
  {
    match f
    case Company => e.(company := v)
    case CompanyUrl => e.(companyUrl := v)
    case Position => e.(position := v)
    case Location => e.(location := v)
    case StartYear => e.(startYear := v)
    case EndYear => e.(endYear := v)
  }

  /** The record value an entry object stands for at this moment. */
  function Snapshot(e: Entry): (r: Experience)
    reads e.points
    ensures r.points == e.points.items
    ensures r.id == e.id && forall g :: FieldOf(r, g) == FieldOf(e, g)
  {
    ExperienceOf(e.id, e.company, e.companyUrl, e.position, e.location, e.startYear, e.endYear, e.points.items)
  }

  /** The record values of a list of entry objects. */
  function Snapshots(xs: seq<Entry>): (r: seq<Experience>)
    reads set i | 0 <= i < |xs| :: xs[i].points
    ensures |r| == |xs|
    ensures forall i :: 0 <= i < |xs| ==> r[i] == Snapshot(xs[i])
  {
    seq(|xs|, i reads if 0 <= i < |xs| then {xs[i].points} else {} requires 0 <= i < |xs| => Snapshot(xs[i]))
  }

  /** No two entries of the list share a points array (every entry is created with its own). */
  predicate Unshared(xs: seq<Entry>) {
    forall i, j :: 0 <= i < |xs| && 0 <= j < |xs| && i != j ==> xs[i].points != xs[j].points
  }

  /** `xs[e]` with its points replaced. */
  function WithPoints(xs: seq<Experience>, e: nat, points: seq<string>): (r: seq<Experience>)
    requires e < |xs|
    ensures |r| == |xs|
    ensures r[e].points == points && forall g :: FieldOf(r[e], g) == FieldOf(xs[e], g)
    ensures r[e].id == xs[e].id
    ensures forall j :: 0 <= j < |xs| && j != e ==> r[j] == xs[j]
  {
    xs[e := xs[e].(points := points)]
  }

  /**
   * `handleChange(index, e)`: a new outer array in which entry `index` is a new object with the
   * named field replaced; the length, every other entry and every points array are unchanged.
   */
  method HandleChange(data: JsArray<Entry>, index: nat, name: ExperienceField, value: string)
    returns (updated: JsArray<Entry>)
    requires index < |data.items|
    ensures fresh(updated)
    ensures updated.items == data.items[index := WithField(data.items[index], name, value)]
    ensures Snapshots(updated.items) == Snapshots(data.items)[index := WithField(Snapshots(data.items)[index], name, value)]
    ensures Unshared(data.items) ==> Unshared(updated.items)
  {
    updated := new JsArray(data.items);
    updated.Store(index, WithField(updated.items[index], name, value));
  }

  /**
   * `addExperience(id)`: a new outer array with the old entries, in order, and one new entry
   * whose text fields are empty and whose points are a new array holding one empty point.
   */
  method AddExperience(data: JsArray<Entry>, id: string) returns (updated: JsArray<Entry>)
    ensures fresh(updated)
    ensures |updated.items| == |data.items| + 1 && updated.items[..|data.items|] == data.items
    ensures fresh(updated.items[|data.items|].points)
    ensures Snapshots(updated.items) == Snapshots(data.items) + [ExperienceOf(id, "", "", "", "", "", "", [""])]
    ensures Unshared(data.items) ==> Unshared(updated.items)
  {
    var points := new JsArray([""]);
    updated := new JsArray(data.items + [ExperienceOf(id, "", "", "", "", "", "", points)]);
    assert updated.items[..|data.items|] == data.items;
  }

  /** `removeExperience(index)`: a new outer array with exactly entry `index` deleted. */
  method RemoveExperience(data: JsArray<Entry>, index: nat) returns (updated: JsArray<Entry>)
    ensures fresh(updated)
    ensures updated.items == Spliced(data.items, index)
    ensures Snapshots(updated.items) == Spliced(Snapshots(data.items), index)
    ensures Unshared(data.items) ==> Unshared(updated.items)
  {
    updated := new JsArray(data.items);
    updated.Splice(index);
  }

  /**
   * `handlePointChange(expIndex, pointIndex, value)`: stores `value` at `pointIndex` of entry
   * `expIndex`'s points array, in place. The index is an existing point, or 0 for the single
   * input shown when an entry has no points, which then becomes a one-point list. Every other
   * entry and every other point is unchanged, and the caller's `data` shows the same change.
   */
  method HandlePointChange(data: JsArray<Entry>, expIndex: nat, pointIndex: nat, value: string)
    returns (updated: JsArray<Entry>)
    requires expIndex < |data.items| && pointIndex <= |data.items[expIndex].points.items|
    requires Unshared(data.items)
    modifies data.items[expIndex].points
    ensures fresh(updated) && updated.items == data.items
    ensures var before := old(data.items[expIndex].points.items);
      pointIndex <= |before| && data.items[expIndex].points.items == Stored(before, pointIndex, value)
    ensures Snapshots(updated.items) == WithPoints(old(Snapshots(data.items)), expIndex, data.items[expIndex].points.items)
  {
    updated := new JsArray(data.items);
    var points := updated.items[expIndex].points;
    points.Store(pointIndex, value);
  }

  /**
   * `addPoint(expIndex)`: pushes an empty point onto entry `expIndex`'s points array, in place.
   * (The source first creates an empty array when `points` is missing; in this record an
   * entry always has one.)
   */
  method AddPoint(data: JsArray<Entry>, expIndex: nat) returns (updated: JsArray<Entry>)
    requires expIndex < |data.items|
    requires Unshared(data.items)
    modifies data.items[expIndex].points
    ensures fresh(updated) && updated.items == data.items
    ensures data.items[expIndex].points.items == old(data.items[expIndex].points.items) + [""]
    ensures Snapshots(updated.items) == WithPoints(old(Snapshots(data.items)), expIndex, data.items[expIndex].points.items)
  {
    updated := new JsArray(data.items);
    updated.items[expIndex].points.Push("");
  }

  /**
   * `removePoint(expIndex, pointIndex)`: splices point `pointIndex` out of entry `expIndex`'s
   * points array, in place. On an entry without points (its placeholder's delete button passes
   * index 0) nothing changes.
   */
  method RemovePoint(data: JsArray<Entry>, expIndex: nat, pointIndex: nat) returns (updated: JsArray<Entry>)
    requires expIndex < |data.items|
    requires Unshared(data.items)
    modifies data.items[expIndex].points
    ensures fresh(updated) && updated.items == data.items
    ensures data.items[expIndex].points.items == Spliced(old(data.items[expIndex].points.items), pointIndex)
    ensures Snapshots(updated.items) == WithPoints(old(Snapshots(data.items)), expIndex, data.items[expIndex].points.items)
  {
    updated := new JsArray(data.items);
    updated.items[expIndex].points.Splice(pointIndex);
  }
}
