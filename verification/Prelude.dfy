/** Datatypes and text helpers shared by the other modules. */
module Prelude {

  datatype Option<+T> = None | Some(value: T)

  datatype Result<+T, +E> = Ok(value: T) | Err(error: E)

  /** The white space that unicode.IsSpace of Go accepts. */
  predicate IsSpace(c: char) {
    || c == ' ' || c == '\t' || c == '\n' || c == '\r' || c == '\U{000B}' || c == '\U{000C}'
    || c == '\U{0085}' || c == '\U{00A0}' || c == '\U{1680}'
    || '\U{2000}' <= c <= '\U{200A}'
    || c == '\U{2028}' || c == '\U{2029}' || c == '\U{202F}' || c == '\U{205F}' || c == '\U{3000}'
  }

  function TrimLeft(s: string): (r: string)
    ensures |r| <= |s|
    ensures r == s[|s| - |r|..]
    ensures forall i | 0 <= i < |s| - |r| :: IsSpace(s[i])
    ensures r != [] ==> !IsSpace(r[0])
  {
    if s == [] || !IsSpace(s[0]) then s else TrimLeft(s[1..])
  }

  function TrimRight(s: string): (r: string)
    ensures |r| <= |s|
    ensures r == s[..|r|]
    ensures forall i | |r| <= i < |s| :: IsSpace(s[i])
    ensures r != [] ==> !IsSpace(r[|r| - 1])
  {
    if s == [] || !IsSpace(s[|s| - 1]) then s else TrimRight(s[..|s| - 1])
  }

  /** strings.TrimSpace. */
  function TrimSpace(s: string): (r: string)
    ensures |r| <= |s|
    ensures r != [] ==> !IsSpace(r[0]) && !IsSpace(r[|r| - 1])
    ensures r == [] <==> forall i | 0 <= i < |s| :: IsSpace(s[i])
  {
    TrimRight(TrimLeft(s))
  }

  /** What TrimSpace cuts off is white space, and nothing else is cut off. */
  lemma TrimSpaceMeans(s: string) returns (i: nat, j: nat)
    ensures i <= j <= |s| && TrimSpace(s) == s[i..j]
    ensures forall k | 0 <= k < i || j <= k < |s| :: IsSpace(s[k])
    ensures i < j ==> !IsSpace(s[i]) && !IsSpace(s[j - 1])
  {
    i := |s| - |TrimLeft(s)|;
    j := i + |TrimSpace(s)|;
    Slices(s, TrimLeft(s), TrimSpace(s), i, j);
    forall k | 0 <= k < i || j <= k < |s|
      ensures IsSpace(s[k])
    {
      assert k >= j ==> s[k] == TrimLeft(s)[k - i];
    }
  }

  lemma Slices(s: string, left: string, t: string, i: nat, j: nat)
    requires i <= j <= |s| && left == s[i..] && |t| == j - i && t == left[..|t|]
    ensures t == s[i..j]
  {
  }

  function Filter<T>(p: T -> bool, s: seq<T>): (r: seq<T>)
    ensures |r| <= |s|
    ensures forall x | x in r :: x in s && p(x)
    ensures forall x | x in s && p(x) :: x in r
  {
    if s == [] then []
    else if p(s[|s| - 1]) then Filter(p, s[..|s| - 1]) + [s[|s| - 1]]
    else Filter(p, s[..|s| - 1])
  }

  /** The position of the first occurrence. */
  function FirstIndex<T(==)>(s: seq<T>, x: T): (i: nat)
    requires x in s
    ensures i < |s| && s[i] == x && x !in s[..i]
  {
    if s[0] == x then 0 else 1 + FirstIndex(s[1..], x)
  }

  /** The elements of `s` satisfying `p`, each kept where it occurs first. */
  function Distinct<T(==)>(s: seq<T>, p: T -> bool): seq<T> {
    if s == [] then [] else Keep(Distinct(s[..|s| - 1], p), p, s[|s| - 1])
  }

  function Keep<T(==)>(r: seq<T>, p: T -> bool, y: T): seq<T> {
    if p(y) && y !in r then r + [y] else r
  }

  lemma FirstIndexAppend<T>(s: seq<T>, y: T, x: T)
    requires x in s
    ensures x in s + [y] && FirstIndex(s + [y], x) == FirstIndex(s, x)
  {
    var j := FirstIndex(s, x);
    assert (s + [y])[j] == x;
    assert (s + [y])[..j] == s[..j];
  }

  /** Earlier in `r` means earlier first occurrence in `s`; in particular nothing occurs twice. */
  ghost predicate InOrder<T>(s: seq<T>, r: seq<T>) {
    && (forall x | x in r :: x in s)
    && (forall i, j | 0 <= i < j < |r| :: FirstIndex(s, r[i]) < FirstIndex(s, r[j]))
  }

  /** What `Distinct` promises: exactly the wanted elements, each once, in first-occurrence order. */
  lemma {:induction false} DistinctMeans<T(!new)>(s: seq<T>, p: T -> bool)
    ensures forall x :: x in Distinct(s, p) <==> x in s && p(x)
    ensures InOrder(s, Distinct(s, p))
  {
    if s != [] {
      var init, y := s[..|s| - 1], s[|s| - 1];
      assert s == init + [y];
      DistinctMeans(init, p);
      forall x | x in init
        ensures FirstIndex(s, x) == FirstIndex(init, x) && x in s
      {
        FirstIndexAppend(init, y, x);
      }
      var before, r := Distinct(init, p), Distinct(s, p);
      if y !in init {
        assert FirstIndex(s, y) == |init|;
      }
      forall i, j | 0 <= i < j < |r|
        ensures FirstIndex(s, r[i]) < FirstIndex(s, r[j])
      {
        assert r[i] == before[i] && before[i] in init;
        assert FirstIndex(s, r[i]) == FirstIndex(init, r[i]) < |init|;
        if j < |before| {
          assert r[j] == before[j] && before[j] in init;
          assert FirstIndex(init, before[i]) < FirstIndex(init, before[j]);
        } else {
          assert r == before + [y] && r[j] == y && y !in init;
        }
      }
    }
  }
}
