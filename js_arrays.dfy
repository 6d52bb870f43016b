/**
 * JavaScript arrays as the form components use them: objects shared by reference whose
 * contents change in place through index stores, `push` and `splice`, and which `[...a]`
 * copies into a new array holding the same element references.
 */
module JsArrays {

  /**
   * The contents after `a[i] = v` on an array of length |s|, for an index inside the array
   * or at its end (a store at the end grows the array by one).
   */
  function Stored<T>(s: seq<T>, i: nat, v: T): (r: seq<T>)
    requires i <= |s|
    ensures |r| == if i < |s| then |s| else |s| + 1
    ensures r[i] == v
    ensures forall j :: 0 <= j < |s| && j != i ==> r[j] == s[j]
  {
    if i < |s| then s[i := v] else s + [v]
  }

  /**
   * The contents after `a.splice(i, 1)`: element i is deleted, the prefix stays and the later
   * elements move down by one; an index at or past the end deletes nothing.
   */
  function Spliced<T>(s: seq<T>, i: nat): (r: seq<T>)
    ensures i < |s| ==> |r| == |s| - 1
    ensures i >= |s| ==> r == s
    ensures forall j :: 0 <= j < i && j < |s| ==> r[j] == s[j]
    ensures forall j :: i <= j < |r| ==> r[j] == s[j + 1]
  {
    if i < |s| then s[..i] + s[i + 1..] else s
  }

  /** Deleting the element just pushed gives back the original contents. */
  lemma SplicePush<T>(s: seq<T>, v: T)
    ensures Spliced(s + [v], |s|) == s
  {
  }

  /** Storing what is already at an index leaves the contents as they were. */
  lemma StoreSame<T>(s: seq<T>, i: nat)
    requires i < |s|
    ensures Stored(s, i, s[i]) == s
  {
  }

  /** A JavaScript array object. */
  class JsArray<T> {
    var items: seq<T>

    /** An array literal or the spread copy `[...xs]`. */
    constructor (xs: seq<T>)
      ensures items == xs
    {
      items := xs;
    }

    /** `a[i] = v`. */
    method Store(i: nat, v: T)
      requires i <= |items|
      modifies this
      ensures items == Stored(old(items), i, v)
    {
      items := Stored(items, i, v);
    }

    /** `a.push(v)`. */
    method Push(v: T)
      modifies this
      ensures items == old(items) + [v]
    {
      items := items + [v];
    }

    /** `a.splice(i, 1)`. */
    method Splice(i: nat)
      modifies this
      ensures items == Spliced(old(items), i)
    {
      items := Spliced(items, i);
    }
  }
}
