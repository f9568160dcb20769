/**
 * The toggle the forms use for multi-select chips and checkboxes:
 * `list.includes(x) ? list.filter((y) => y !== x) : [...list, x]`.
 */
module Selection {

  /** Number of occurrences of `x` in `s`. */
  function Occurrences(s: seq<string>, x: string): nat
  {
    if s == [] then 0 else (if s[0] == x then 1 else 0) + Occurrences(s[1..], x)
  }

  /** `s` has no element twice. */
  predicate NoDuplicates(s: seq<string>)
  {
    forall i, j :: 0 <= i < j < |s| ==> s[i] != s[j]
  }

  /** `s.filter((y) => y !== x)`: every occurrence of `x` removed, the rest in order. */
  function RemoveAll(s: seq<string>, x: string): (r: seq<string>)
    ensures x !in r
    ensures forall y :: y != x ==> (y in r <==> y in s)
    ensures forall y :: y != x ==> Occurrences(r, y) == Occurrences(s, y)
    ensures |r| == |s| - Occurrences(s, x)
  {
    if s == [] then []
    else if s[0] == x then RemoveAll(s[1..], x)
    else
      var r := [s[0]] + RemoveAll(s[1..], x);
      assert r[1..] == RemoveAll(s[1..], x);
      r
  }

  /** Removing an element that is absent changes nothing. */
  lemma {:induction false} RemoveAbsent(s: seq<string>, x: string)
    requires x !in s
    ensures RemoveAll(s, x) == s
  {
    if s != [] {
      RemoveAbsent(s[1..], x);
    }
  }

  /** Filtering distributes over concatenation, so what stays keeps its relative order. */
  lemma {:induction false} RemoveAllDistributes(s: seq<string>, x: string, t: seq<string>)
    ensures RemoveAll(s + t, x) == RemoveAll(s, x) + RemoveAll(t, x)
  {
    if s != [] {
      assert (s + t)[1..] == s[1..] + t;
      RemoveAllDistributes(s[1..], x, t);
    } else {
      assert s + t == t;
    }
  }

  /** The toggle: remove every occurrence of a present `x`, append an absent one. */
  function Toggle(s: seq<string>, x: string): (r: seq<string>)
    ensures x in s ==> r == RemoveAll(s, x)
    ensures x !in s ==> r == s + [x]
    ensures x in r <==> x !in s
    ensures forall y :: y != x ==> (y in r <==> y in s)
  {
    if x in s then RemoveAll(s, x) else s + [x]
  }

  /** Toggling an absent element twice gives the list back. */
  lemma ToggleTwiceAbsent(s: seq<string>, x: string)
    requires x !in s
    ensures Toggle(Toggle(s, x), x) == s
  {
    assert x in s + [x];
    RemoveAllDistributes(s, x, [x]);
    RemoveAbsent(s, x);
  }

  /** Toggling a present element of a list without duplicates removes exactly that one position. */
  lemma {:induction false} ToggleRemovesOne(s: seq<string>, x: string, k: nat)
    requires NoDuplicates(s) && k < |s| && s[k] == x
    ensures Toggle(s, x) == s[..k] + s[k + 1..]
  {
    assert s == s[..k] + [x] + s[k + 1..];
    assert x !in s[..k];
    assert x !in s[k + 1..];
    RemoveAllDistributes(s[..k] + [x], x, s[k + 1..]);
    RemoveAllDistributes(s[..k], x, [x]);
    RemoveAbsent(s[..k], x);
    RemoveAbsent(s[k + 1..], x);
  }

  /** Dropping one position keeps a list free of duplicates. */
  lemma DropKeepsNoDuplicates(s: seq<string>, k: nat)
    requires NoDuplicates(s) && k < |s|
    ensures NoDuplicates(s[..k] + s[k + 1..])
  {
    var r := s[..k] + s[k + 1..];
    forall i, j | 0 <= i < j < |r| ensures r[i] != r[j] {
      var i', j' := if i < k then i else i + 1, if j < k then j else j + 1;
      assert r[i] == s[i'] && r[j] == s[j'] && i' < j';
    }
  }

  /** Appending an absent element keeps a list free of duplicates. */
  lemma AppendKeepsNoDuplicates(s: seq<string>, x: string)
    requires NoDuplicates(s) && x !in s
    ensures NoDuplicates(s + [x])
  {
    var r := s + [x];
    forall i, j | 0 <= i < j < |r| ensures r[i] != r[j] {
      assert r[i] == s[i];
      if j == |s| {
        assert r[j] == x;
      } else {
        assert r[j] == s[j];
      }
    }
  }

  /** A list built only by toggling never holds an element twice. */
  lemma ToggleKeepsNoDuplicates(s: seq<string>, x: string)
    requires NoDuplicates(s)
    ensures NoDuplicates(Toggle(s, x))
  {
    if x in s {
      var k :| 0 <= k < |s| && s[k] == x;
      ToggleRemovesOne(s, x, k);
      DropKeepsNoDuplicates(s, k);
    } else {
      AppendKeepsNoDuplicates(s, x);
    }
  }
}
