/**
 * The list edits of src/components/forms/SkillsForm.tsx. The form receives the two skill
 * lists as separate props (`null` here when a prop is missing, which the component reads as
 * an empty list) and reports a change through one of two callbacks, `updateLanguages` or
 * `updateTools`; each method returns which callback it invoked and the new array it passed.
 */
module SkillsForm {
  import opened JsArrays

  /** Which list an input belongs to, and so which callback receives the change. */
  datatype SkillList = Languages | Tools

  /** A list prop with its default: a missing prop is the empty list. */
  function ItemsOr(list: JsArray?<string>): (r: seq<string>)
    reads list
    ensures list == null ==> r == []
    ensures list != null ==> r == list.items
  {
    if list == null then [] else list.items
  }

  /** The list a kind selects. */
  function Selected(kind: SkillList, languages: seq<string>, tools: seq<string>): seq<string> {
    if kind == Languages then languages else tools
  }

  /**
   * `handleChange(type, index, e)`: a copy of the selected list with entry `index` replaced,
   * passed to that list's own callback; the length is kept and the other list is not touched.
   */
  method HandleChange(languages: JsArray?<string>, tools: JsArray?<string>, kind: SkillList, index: nat, value: string)
    returns (target: SkillList, updated: JsArray<string>)
    requires index < |Selected(kind, ItemsOr(languages), ItemsOr(tools))|
    ensures target == kind && fresh(updated)
    ensures updated.items == Selected(kind, ItemsOr(languages), ItemsOr(tools))[index := value]
  {
    if kind == Languages {
      updated := new JsArray(ItemsOr(languages));
      updated.Store(index, value);
      target := Languages;
    } else {
      updated := new JsArray(ItemsOr(tools));
      updated.Store(index, value);
      target := Tools;
    }
  }

  /** `addLanguage`: `[...languages, '']` passed to `updateLanguages`. */
  method AddLanguage(languages: JsArray?<string>) returns (target: SkillList, updated: JsArray<string>)
    ensures target == Languages && fresh(updated)
    ensures updated.items == ItemsOr(languages) + [""]
  {
    updated := new JsArray(ItemsOr(languages) + [""]);
    target := Languages;
  }

  /** `addTool`: `[...tools, '']` passed to `updateTools`. */
  method AddTool(tools: JsArray?<string>) returns (target: SkillList, updated: JsArray<string>)
    ensures target == Tools && fresh(updated)
    ensures updated.items == ItemsOr(tools) + [""]
  {
    updated := new JsArray(ItemsOr(tools) + [""]);
    target := Tools;
  }

  /** `removeLanguage(index)`: a copy of the languages with exactly element `index` deleted. */
  method RemoveLanguage(languages: JsArray?<string>, index: nat) returns (target: SkillList, updated: JsArray<string>)
    ensures target == Languages && fresh(updated)
    ensures updated.items == Spliced(ItemsOr(languages), index)
  {
    updated := new JsArray(ItemsOr(languages));
    updated.Splice(index);
    target := Languages;
  }

  /** `removeTool(index)`: a copy of the tools with exactly element `index` deleted. */
  method RemoveTool(tools: JsArray?<string>, index: nat) returns (target: SkillList, updated: JsArray<string>)
    ensures target == Tools && fresh(updated)
    ensures updated.items == Spliced(ItemsOr(tools), index)
  {
    updated := new JsArray(ItemsOr(tools));
    updated.Splice(index);
    target := Tools;
  }
}
