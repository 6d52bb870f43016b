/**
 * The list edits of src/components/forms/ProjectsForm.tsx. As in the experience form, the
 * outer array is copied and each project's `points` array is shared with the caller, so the
 * point edits change that array in place.
 */
module ProjectsForm {
  import opened Resume
  import opened JsArrays

  /** A project object as the form holds it: its points are a shared array object. */
  type Entry = ProjectOf<JsArray<string>>

  /** The `name` attributes of a project's text inputs that go through `handleChange`. */
  datatype ProjectField = Title | LiveUrl | Technologies

  function FieldOf<P>(p: ProjectOf<P>, f: ProjectField): string {
    match f
    case Title => p.title
    case LiveUrl => p.liveUrl
    case Technologies => p.technologies
  }

  /** `{ ...project, [name]: value }`: only the named field changes; id and points are kept. */
  function WithField<P>(p: ProjectOf<P>, f: ProjectField, v: string): (r: ProjectOf<P>)
    ensures FieldOf(r, f) == v && r.id == p.id && r.points == p.points
    ensures forall g :: g != f ==> FieldOf(r, g) == FieldOf(p, g)
  {
    match f
    case Title => p.(title := v)
    case LiveUrl => p.(liveUrl := v)
    case Technologies => p.(technologies := v)
  }

  /** The record value a project object stands for at this moment. */
  function Snapshot(p: Entry): (r: Project)
    reads p.points
    ensures r.points == p.points.items
    ensures r.id == p.id && forall g :: FieldOf(r, g) == FieldOf(p, g)
  {
    ProjectOf(p.id, p.title, p.points.items, p.technologies, p.liveUrl)
  }

  /** The record values of a list of project objects. */
  function Snapshots(xs: seq<Entry>): (r: seq<Project>)
    reads set i | 0 <= i < |xs| :: xs[i].points
    ensures |r| == |xs|
    ensures forall i :: 0 <= i < |xs| ==> r[i] == Snapshot(xs[i])
  {
    seq(|xs|, i reads if 0 <= i < |xs| then {xs[i].points} else {} requires 0 <= i < |xs| => Snapshot(xs[i]))
  }

  /** No two projects of the list share a points array. */
  predicate Unshared(xs: seq<Entry>) {
    forall i, j :: 0 <= i < |xs| && 0 <= j < |xs| && i != j ==> xs[i].points != xs[j].points
  }

  /** `xs[j]` with its points replaced. */
  function WithPoints(xs: seq<Project>, j: nat, points: seq<string>): (r: seq<Project>)
    requires j < |xs|
    ensures |r| == |xs|
    ensures r[j].points == points && r[j].id == xs[j].id && forall g :: FieldOf(r[j], g) == FieldOf(xs[j], g)
    ensures forall k :: 0 <= k < |xs| && k != j ==> r[k] == xs[k]
  {
    xs[j := xs[j].(points := points)]
  }

  /**
   * `handleChange(index, e)`: a new outer array in which project `index` is a new object with
   * the named field replaced; the length and every other project are unchanged.
   */
  method HandleChange(data: JsArray<Entry>, index: nat, name: ProjectField, value: string)
    returns (updated: JsArray<Entry>)
    requires index < |data.items|
    ensures fresh(updated)
    ensures updated.items == data.items[index := WithField(data.items[index], name, value)]
    ensures Snapshots(updated.items) == Snapshots(data.items)[index := WithField(Snapshots(data.items)[index], name, value)]
    ensures Unshared(data.items) ==> Unshared(updated.items)
  {
    updated := new JsArray(data.items);
    updated.Store(index, WithField(updated.items[index], name, value));
  }

  /**
   * `handlePointsChange(projectIndex, pointIndex, value)`: stores `value` at `pointIndex` of
   * project `projectIndex`'s points array, in place; nothing else changes.
   */
  method HandlePointsChange(data: JsArray<Entry>, projectIndex: nat, pointIndex: nat, value: string)
    returns (updated: JsArray<Entry>)
    requires projectIndex < |data.items| && pointIndex < |data.items[projectIndex].points.items|
    requires Unshared(data.items)
    modifies data.items[projectIndex].points
    ensures fresh(updated) && updated.items == data.items
    ensures data.items[projectIndex].points.items == old(data.items[projectIndex].points.items)[pointIndex := value]
    ensures Snapshots(updated.items) == WithPoints(old(Snapshots(data.items)), projectIndex, data.items[projectIndex].points.items)
  {
    updated := new JsArray(data.items);
    updated.items[projectIndex].points.Store(pointIndex, value);
  }

  /** `addPoint(projectIndex)`: pushes an empty point onto project `projectIndex`'s points, in place. */
  method AddPoint(data: JsArray<Entry>, projectIndex: nat) returns (updated: JsArray<Entry>)
    requires projectIndex < |data.items|
    requires Unshared(data.items)
    modifies data.items[projectIndex].points
    ensures fresh(updated) && updated.items == data.items
    ensures data.items[projectIndex].points.items == old(data.items[projectIndex].points.items) + [""]
    ensures Snapshots(updated.items) == WithPoints(old(Snapshots(data.items)), projectIndex, data.items[projectIndex].points.items)
  {
    updated := new JsArray(data.items);
    updated.items[projectIndex].points.Push("");
  }

  /** `removePoint(projectIndex, pointIndex)`: splices exactly that point out, in place. */
  method RemovePoint(data: JsArray<Entry>, projectIndex: nat, pointIndex: nat) returns (updated: JsArray<Entry>)
    requires projectIndex < |data.items|
    requires Unshared(data.items)
    modifies data.items[projectIndex].points
    ensures fresh(updated) && updated.items == data.items
    ensures data.items[projectIndex].points.items == Spliced(old(data.items[projectIndex].points.items), pointIndex)
    ensures Snapshots(updated.items) == WithPoints(old(Snapshots(data.items)), projectIndex, data.items[projectIndex].points.items)
  {
    updated := new JsArray(data.items);
    updated.items[projectIndex].points.Splice(pointIndex);
  }

  /**
   * `addProject(id)`: a new outer array with the old projects, in order, and one new project
   * with empty title, liveUrl and technologies and a new points array holding one empty point.
   */
  method AddProject(data: JsArray<Entry>, id: string) returns (updated: JsArray<Entry>)
    ensures fresh(updated)
    ensures |updated.items| == |data.items| + 1 && updated.items[..|data.items|] == data.items
    ensures fresh(updated.items[|data.items|].points)
    ensures Snapshots(updated.items) == Snapshots(data.items) + [ProjectOf(id, "", [""], "", "")]
    ensures Unshared(data.items) ==> Unshared(updated.items)
  {
    var points := new JsArray([""]);
    updated := new JsArray(data.items + [ProjectOf(id, "", points, "", "")]);
    assert updated.items[..|data.items|] == data.items;
  }

  /** `removeProject(index)`: a new outer array with exactly project `index` deleted. */
  method RemoveProject(data: JsArray<Entry>, index: nat) returns (updated: JsArray<Entry>)
    ensures fresh(updated)
    ensures updated.items == Spliced(data.items, index)
    ensures Snapshots(updated.items) == Spliced(Snapshots(data.items), index)
    ensures Unshared(data.items) ==> Unshared(updated.items)
  {
    updated := new JsArray(data.items);
    updated.Splice(index);
  }
}
