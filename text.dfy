/**
 * The JavaScript string and array operations the renderers rely on: `Array.prototype.join`,
 * `Array.prototype.map`, `String.prototype.split(' ')` and `Array.prototype.filter(Boolean)` on strings.
 */
module Text {

  /** `xs.join(sep)`: the items with one `sep` between each two neighbours. */
  function Join(xs: seq<string>, sep: string): string
    decreases |xs|
  {
    if |xs| == 0 then ""
    else if |xs| == 1 then xs[0]
    else xs[0] + sep + Join(xs[1..], sep)
  }

  /** Sum of the lengths of the items. */
  function TotalLength(xs: seq<string>): nat
    decreases |xs|
  {
    if |xs| == 0 then 0 else |xs[0]| + TotalLength(xs[1..])
  }

  /**
   * A join of k >= 1 items holds the items and exactly k - 1 separators: its length is the
   * items' total length plus k - 1 times the separator's length.
   */
  lemma {:induction false} JoinLength(xs: seq<string>, sep: string)
    ensures |xs| == 0 ==> Join(xs, sep) == ""
    ensures |xs| > 0 ==> |Join(xs, sep)| + |sep| == TotalLength(xs) + |xs| * |sep|
    decreases |xs|
  {
    if |xs| > 1 {
      JoinLength(xs[1..], sep);
      assert |Join(xs, sep)| == |xs[0]| + |sep| + |Join(xs[1..], sep)|;
      assert (|xs| - 1) * |sep| + |sep| == |xs| * |sep|;
    }
  }

  /** A join with at least one item begins with the first item and ends with the last: no leading or trailing separator. */
  lemma {:induction false} JoinEnds(xs: seq<string>, sep: string)
    requires |xs| > 0
    ensures |Join(xs, sep)| >= |xs[0]| && Join(xs, sep)[..|xs[0]|] == xs[0]
    ensures |Join(xs, sep)| >= |xs[|xs| - 1]| && Join(xs, sep)[|Join(xs, sep)| - |xs[|xs| - 1]|..] == xs[|xs| - 1]
    decreases |xs|
  {
    if |xs| > 1 {
      JoinEnds(xs[1..], sep);
      var j := Join(xs[1..], sep);
      assert Join(xs, sep) == (xs[0] + sep) + j;
    }
  }

  /** A join whose first item is non-empty is non-empty. */
  lemma JoinNonEmpty(xs: seq<string>, sep: string)
    requires |xs| > 0 && xs[0] != ""
    ensures Join(xs, sep) != ""
  {
    JoinEnds(xs, sep);
  }

  /** Appending an item to a non-empty list appends one separator and the item. */
  lemma {:induction false} JoinSnoc(xs: seq<string>, x: string, sep: string)
    requires |xs| > 0
    ensures Join(xs + [x], sep) == Join(xs, sep) + sep + x
    decreases |xs|
  {
    if |xs| > 1 {
      assert (xs + [x])[1..] == xs[1..] + [x];
      JoinSnoc(xs[1..], x, sep);
    } else {
      assert xs + [x] == [xs[0], x];
    }
  }

  /** A join of five items is the items with the separator between each two. */
  lemma JoinFive(a: string, b: string, c: string, d: string, e: string, sep: string)
    ensures Join([a, b, c, d, e], sep) == a + sep + b + sep + c + sep + d + sep + e
  {
    assert [a, b, c, d, e][1..] == [b, c, d, e];
    assert [b, c, d, e][1..] == [c, d, e];
    assert [c, d, e][1..] == [d, e];
    assert [d, e][1..] == [e];
    assert Join([d, e], sep) == d + sep + e;
    assert Join([c, d, e], sep) == c + sep + (d + sep + e);
    assert Join([b, c, d, e], sep) == b + sep + (c + sep + (d + sep + e));
  }

  /** `xs.map(f)` on strings. */
  function Map(f: string -> string, xs: seq<string>): (r: seq<string>)
    ensures |r| == |xs| && forall i :: 0 <= i < |xs| ==> r[i] == f(xs[i])
  {
    seq(|xs|, i requires 0 <= i < |xs| => f(xs[i]))
  }

  /** Mapping distributes over concatenation. */
  lemma MapAppend(f: string -> string, xs: seq<string>, ys: seq<string>)
    ensures Map(f, xs + ys) == Map(f, xs) + Map(f, ys)
  {
    assert forall i :: 0 <= i < |xs + ys| ==> Map(f, xs + ys)[i] == (Map(f, xs) + Map(f, ys))[i] by {
      forall i | 0 <= i < |xs + ys| ensures Map(f, xs + ys)[i] == (Map(f, xs) + Map(f, ys))[i] {
        if i < |xs| {
          assert (xs + ys)[i] == xs[i];
        } else {
          assert (xs + ys)[i] == ys[i - |xs|];
        }
      }
    }
  }

  /** Mapping two orderings of the same items gives two orderings of the same results. */
  lemma {:induction false} MapReorder(f: string -> string, xs: seq<string>, ys: seq<string>)
    requires multiset(xs) == multiset(ys)
    ensures multiset(Map(f, xs)) == multiset(Map(f, ys))
    decreases |xs|
  {
    if |xs| == 0 {
      assert ys == [];
    } else {
      var x := xs[0];
      assert x in multiset(ys);
      var k :| 0 <= k < |ys| && ys[k] == x;
      var left, right := ys[..k], ys[k + 1..];
      assert ys == left + [x] + right;
      assert xs == [x] + xs[1..];
      assert multiset(xs[1..]) == multiset(xs) - multiset{x};
      assert multiset(left + right) == multiset(ys) - multiset{x};
      MapReorder(f, xs[1..], left + right);
      MapAppend(f, [x], xs[1..]);
      MapAppend(f, left, right);
      MapAppend(f, left + [x], right);
      MapAppend(f, left, [x]);
    }
  }

  /** `xs.filter(Boolean)` on strings: the non-empty items, in their order. */
  function NonEmpty(xs: seq<string>): (r: seq<string>)
    ensures |r| <= |xs|
    ensures forall i :: 0 <= i < |r| ==> r[i] != ""
    ensures forall s :: s in r <==> s in xs && s != ""
    decreases |xs|
  {
    if |xs| == 0 then []
    else if xs[0] == "" then NonEmpty(xs[1..])
    else [xs[0]] + NonEmpty(xs[1..])
  }

  /** Filtering distributes over concatenation, so the kept items stay in their original order. */
  lemma {:induction false} NonEmptyAppend(xs: seq<string>, ys: seq<string>)
    ensures NonEmpty(xs + ys) == NonEmpty(xs) + NonEmpty(ys)
    decreases |xs|
  {
    if |xs| > 0 {
      assert (xs + ys)[1..] == xs[1..] + ys;
      NonEmptyAppend(xs[1..], ys);
    } else {
      assert xs + ys == ys;
    }
  }

  /**
   * `s.split(' ')`: the maximal space-free pieces between single spaces. There is always at
   * least one piece ("" splits to [""]), and consecutive spaces give empty pieces.
   */
  function SplitSpaces(s: string): (parts: seq<string>)
    ensures |parts| >= 1
    ensures forall i :: 0 <= i < |parts| ==> ' ' !in parts[i]
    decreases |s|
  {
    if |s| == 0 then [""]
    else
      var rest := SplitSpaces(s[1..]);
      if s[0] == ' ' then [""] + rest
      else [[s[0]] + rest[0]] + rest[1..]
  }

  /** Splitting on spaces and joining with a space gives back the original string. */
  lemma {:induction false} JoinSplitSpaces(s: string)
    ensures Join(SplitSpaces(s), " ") == s
    decreases |s|
  {
    if |s| > 0 {
      var rest := SplitSpaces(s[1..]);
      JoinSplitSpaces(s[1..]);
      if s[0] == ' ' {
        assert ([""] + rest)[1..] == rest;
        assert s == " " + s[1..];
      } else {
        var parts := [[s[0]] + rest[0]] + rest[1..];
        if |rest| == 1 {
          assert s == [s[0]] + s[1..];
        } else {
          assert parts[1..] == rest[1..];
          assert Join(rest, " ") == rest[0] + " " + Join(rest[1..], " ");
          assert s == [s[0]] + s[1..];
        }
      }
    }
  }

  /** Without a space the string is its own single piece; with one there are at least two pieces. */
  lemma {:induction false} SplitSpacesCount(s: string)
    ensures ' ' !in s ==> SplitSpaces(s) == [s]
    ensures ' ' in s ==> |SplitSpaces(s)| >= 2
    decreases |s|
  {
    if |s| > 0 {
      SplitSpacesCount(s[1..]);
      if s[0] != ' ' {
        assert ' ' in s ==> ' ' in s[1..] by {
          if ' ' in s {
            var k :| 0 <= k < |s| && s[k] == ' ';
            assert s[1..][k - 1] == ' ';
          }
        }
        if ' ' !in s {
          assert s == [s[0]] + s[1..];
        }
      }
    }
  }
}
