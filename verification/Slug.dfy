/**
 The application slug: the normaliser of the setup tool, the test its `plan` applies, and the
 test the server applies at startup.
 */
module Slug {
  import opened Prelude

  predicate IsLower(c: char) {
    'a' <= c <= 'z'
  }

  predicate IsDigit(c: char) {
    '0' <= c <= '9'
  }

  predicate IsAlnum(c: char) {
    IsLower(c) || IsDigit(c)
  }

  /** strings.ToLower on one rune, as far as the normaliser can see it: besides A-Z only the Kelvin
      sign and the dotted capital I lower into ASCII; every other letter is dropped either way. */
  function ToLower(c: char): char {
    if 'A' <= c <= 'Z' then c - 'A' + 'a'
    else if c == '\U{212A}' then 'k'
    else if c == '\U{0130}' then 'i'
    else c
  }

  predicate IsSeparator(c: char) {
    IsSpace(c) || c == '-' || c == '_' || c == '.'
  }

  /** A letter or digit, or a hyphen with a letter or digit after it. */
  predicate GoesOn(s: string, i: nat)
    requires i < |s|
  {
    IsAlnum(s[i]) || (s[i] == '-' && i + 1 < |s| && IsAlnum(s[i + 1]))
  }

  /** The accepted language: [a-z][a-z0-9]*(-[a-z0-9]+)* */
  predicate IsSlug(s: string) {
    s != [] && IsLower(s[0]) && forall i | 0 <= i < |s| :: GoesOn(s, i)
  }

  // ------------------------------------------------------------- normaliser

  /** The builder's contents and the pending separator after a prefix of the runes. */
  datatype Scan = Scan(built: string, separator: bool)

  function Feed(s: Scan, c: char): Scan {
    if IsAlnum(c) then Scan((if s.separator && |s.built| > 0 then s.built + ['-'] else s.built) + [c], false)
    else if IsSeparator(c) then s.(separator := true)
    else s
  }

  function ScanAll(runes: string): Scan {
    if runes == [] then Scan([], false) else Feed(ScanAll(runes[..|runes| - 1]), ToLower(runes[|runes| - 1]))
  }

  function Prefixed(slug: string): string {
    if |slug| > 0 && IsDigit(slug[0]) then "app-" + slug else slug
  }

  function Normalize(value: string): string {
    Prefixed(ScanAll(TrimSpace(value)).built)
  }

  /** normalizeSlug. */
  method NormalizeSlug(value: string) returns (slug: string)
    ensures slug == Normalize(value)
  {
    slug := Build(TrimSpace(value));
    if |slug| > 0 && '0' <= slug[0] <= '9' {
      slug := "app-" + slug;
    }
  }

  /** The loop of normalizeSlug. */
  method Build(runes: string) returns (builder: string)
    ensures builder == ScanAll(runes).built
  {
    builder := [];
    var separator := false;
    for i := 0 to |runes|
      invariant Scan(builder, separator) == ScanAll(runes[..i])
    {
      assert runes[..i + 1][..i] == runes[..i];
      var c := ToLower(runes[i]);
      if 'a' <= c <= 'z' || '0' <= c <= '9' {
        if separator && |builder| > 0 {
          builder := builder + ['-'];
        }
        builder := builder + [c];
        separator := false;
      } else if IsSpace(c) || c == '-' || c == '_' || c == '.' {
        separator := true;
      }
    }
    assert runes[..|runes|] == runes;
  }

  // -------------------------------------------------- every result is a slug

  /** A slug that may still start with a digit. */
  predicate IsTail(s: string) {
    (s != [] ==> IsAlnum(s[0]) && IsAlnum(s[|s| - 1])) && forall i | 0 <= i < |s| :: GoesOn(s, i)
  }

  lemma {:induction false} ScanBuildsTail(runes: string)
    ensures IsTail(ScanAll(runes).built)
  {
    if runes != [] {
      ScanBuildsTail(runes[..|runes| - 1]);
      var before, c := ScanAll(runes[..|runes| - 1]), ToLower(runes[|runes| - 1]);
      var after := Feed(before, c).built;
      forall i | 0 <= i < |after|
        ensures GoesOn(after, i)
      {
        if i < |before.built| {
          assert GoesOn(before.built, i) && after[i] == before.built[i];
          assert i + 1 < |before.built| ==> after[i + 1] == before.built[i + 1];
        }
      }
    }
  }

  lemma PrefixedTailIsSlug(tail: string)
    requires IsTail(tail)
    ensures Prefixed(tail) == "" || IsSlug(Prefixed(tail))
  {
    if tail != [] && IsDigit(tail[0]) {
      var slug := "app-" + tail;
      forall i | 0 <= i < |slug|
        ensures GoesOn(slug, i)
      {
        if i >= 4 {
          assert GoesOn(tail, i - 4) && slug[i] == tail[i - 4];
          assert i + 1 < |slug| ==> slug[i + 1] == tail[i - 3];
        }
      }
    }
  }

  lemma NormalizeYieldsSlug(value: string)
    ensures Normalize(value) == "" || IsSlug(Normalize(value))
  {
    ScanBuildsTail(TrimSpace(value));
    PrefixedTailIsSlug(ScanAll(TrimSpace(value)).built);
  }

  // ------------------------------------------------ slugs are left unchanged

  /** Scanning a prefix of a slug: its letters and digits with the separators already due. */
  lemma {:induction false} ScanOfTail(s: string, n: nat)
    requires IsTail(s) && n <= |s|
    ensures ScanAll(s[..n]) ==
      if n > 0 && s[n - 1] == '-' then Scan(s[..n - 1], true) else Scan(s[..n], false)
  {
    if n > 0 {
      ScanOfTail(s, n - 1);
      assert s[..n][..n - 1] == s[..n - 1];
      assert s[..n] == s[..n - 1] + [s[n - 1]];
      assert GoesOn(s, n - 1) && ToLower(s[n - 1]) == s[n - 1];
      if n > 1 && s[n - 2] == '-' {
        assert GoesOn(s, n - 2) && IsAlnum(s[n - 1]);
        assert s[..n - 1] == s[..n - 2] + ['-'];
      }
    }
  }

  lemma TrimKeeps(s: string)
    requires s == [] || (!IsSpace(s[0]) && !IsSpace(s[|s| - 1]))
    ensures TrimSpace(s) == s
  {
  }

  lemma ScanWhole(s: string)
    requires IsTail(s)
    ensures ScanAll(s).built == s
  {
    ScanOfTail(s, |s|);
    assert s[..|s|] == s;
  }

  lemma SlugIsTail(s: string)
    requires s == "" || IsSlug(s)
    ensures IsTail(s)
  {
    if s != "" {
      assert GoesOn(s, |s| - 1) && IsAlnum(s[|s| - 1]);
    }
  }

  lemma AlnumIsNoSpace(c: char)
    requires IsAlnum(c)
    ensures !IsSpace(c)
  {
  }

  lemma SlugIsTrimmed(s: string)
    requires IsTail(s)
    ensures TrimSpace(s) == s
  {
    if |s| > 0 {
      AlnumIsNoSpace(s[0]);
      AlnumIsNoSpace(s[|s| - 1]);
    }
    TrimKeeps(s);
  }

  lemma SlugIsFixed(s: string)
    requires s == "" || IsSlug(s)
    ensures Normalize(s) == s
  {
    SlugIsTail(s);
    SlugIsTrimmed(s);
    ScanWhole(s);
  }

  /** The fixed points are exactly the empty string and the slugs. */
  lemma FixedPoints(s: string)
    ensures Normalize(s) == s <==> s == "" || IsSlug(s)
  {
    NormalizeYieldsSlug(s);
    if s == "" || IsSlug(s) {
      SlugIsFixed(s);
    }
  }

  lemma Idempotent(value: string)
    ensures Normalize(Normalize(value)) == Normalize(value)
  {
    NormalizeYieldsSlug(value);
    SlugIsFixed(Normalize(value));
  }

  // ------------------------------------------------ what becomes of any text

  /** The runes that are kept, and what they become. */
  predicate Becomes(c: char, d: char) {
    || (('a' <= c <= 'z' || '0' <= c <= '9') && d == c)
    || ('A' <= c <= 'Z' && d as int == c as int + 32)
    || (c == '\U{212A}' && d == 'k')
    || (c == '\U{0130}' && d == 'i')
  }

  predicate IsKept(c: char) {
    'a' <= c <= 'z' || '0' <= c <= '9' || 'A' <= c <= 'Z' || c == '\U{212A}' || c == '\U{0130}'
  }

  /** The positions of the kept runes among the first `n`, in order. */
  function Kept(value: string, n: nat): (at: seq<nat>)
    requires n <= |value|
    ensures forall i | 0 <= i < |at| :: at[i] < n
  {
    if n == 0 then [] else Kept(value, n - 1) + (if IsKept(value[n - 1]) then [n - 1] else [])
  }

  predicate Divides(c: char) {
    IsSpace(c) || c == '-' || c == '_' || c == '.'
  }

  ghost predicate Apart(value: string, i: nat, j: nat) {
    exists k | i < k < j && k < |value| :: Divides(value[k])
  }

  /** The kept runes in order, lower-cased, and one hyphen between two of them exactly when white space, a hyphen,
      an underscore or a dot stands somewhere in between. */
  ghost predicate Spelled(value: string, at: seq<nat>, s: string)
    requires forall i | 0 <= i < |at| :: at[i] < |value|
  {
    if at == [] then s == ""
    else
      var last, rest := at[|at| - 1], at[..|at| - 1];
      && s != "" && Becomes(value[last], s[|s| - 1])
      && if rest == [] then |s| == 1
         else if Apart(value, rest[|rest| - 1], last) then
           |s| > 1 && s[|s| - 2] == '-' && Spelled(value, rest, s[..|s| - 2])
         else Spelled(value, rest, s[..|s| - 1])
  }

  lemma KeptMeans(c: char)
    ensures IsKept(c) <==> IsAlnum(ToLower(c))
    ensures IsKept(c) ==> Becomes(c, ToLower(c)) && !IsSpace(c)
    ensures !IsKept(c) ==> ToLower(c) == c
    ensures IsSeparator(c) <==> Divides(c)
  {
  }

  lemma SpelledStep(value: string, at: seq<nat>, s: string, p: nat, d: char)
    requires (forall i | 0 <= i < |at| :: at[i] < |value|) && p < |value| && Becomes(value[p], d)
    requires Spelled(value, at, s) && (s == "" <==> at == [])
    ensures Spelled(value, at + [p], (if at != [] && Apart(value, at[|at| - 1], p) then s + ['-'] else s) + [d])
  {
    var at', s' := at + [p], (if at != [] && Apart(value, at[|at| - 1], p) then s + ['-'] else s) + [d];
    assert at'[..|at|] == at && at'[|at|] == p;
    assert s'[..|s|] == s;
  }

  lemma ApartStep(value: string, i: nat, n: nat)
    requires i <= n < |value|
    ensures Apart(value, i, n + 1) <==> Apart(value, i, n) || (i < n && Divides(value[n]))
  {
  }

  /** Where the scan stands when it has kept the runes at `at` and goes on with rune `n`. */
  ghost predicate ScannedTo(value: string, n: nat, at: seq<nat>, scan: Scan)
    requires n <= |value| && forall i | 0 <= i < |at| :: at[i] < n
  {
    && (scan.built == "" <==> at == []) && Spelled(value, at, scan.built)
    && (at != [] ==> (scan.separator <==> Apart(value, at[|at| - 1], n)))
  }

  lemma FeedSpells(value: string, n: nat, at: seq<nat>, scan: Scan)
    requires n < |value| && (forall i | 0 <= i < |at| :: at[i] < n) && ScannedTo(value, n, at, scan)
    ensures ScannedTo(value, n + 1, at + (if IsKept(value[n]) then [n] else []), Feed(scan, ToLower(value[n])))
  {
    KeptMeans(value[n]);
    if IsKept(value[n]) {
      SpelledStep(value, at, scan.built, n, ToLower(value[n]));
      assert !Apart(value, n, n + 1);
    } else {
      assert at + [] == at;
      if at != [] {
        ApartStep(value, at[|at| - 1], n);
      }
    }
  }

  /** The scan from `i`, where only white space precedes. */
  lemma {:induction false} ScanSpells(value: string, i: nat, n: nat) returns (at: seq<nat>, scan: Scan)
    requires i <= n <= |value| && forall k | 0 <= k < i :: IsSpace(value[k])
    ensures at == Kept(value, n) && scan == ScanAll(value[i..n]) && ScannedTo(value, n, at, scan)
    decreases n
  {
    if n == i {
      SpaceKeepsNothing(value, 0, i);
      at, scan := [], Scan([], false);
    } else {
      var at', scan' := ScanSpells(value, i, n - 1);
      FeedSpells(value, n - 1, at', scan');
      at, scan := at' + (if IsKept(value[n - 1]) then [n - 1] else []), Feed(scan', ToLower(value[n - 1]));
      ScanLast(value, i, n);
    }
  }

  lemma ScanLast(value: string, i: nat, n: nat)
    requires i < n <= |value|
    ensures ScanAll(value[i..n]) == Feed(ScanAll(value[i..n - 1]), ToLower(value[n - 1]))
  {
    assert value[i..n][..n - 1 - i] == value[i..n - 1];
  }

  lemma {:induction false} SpaceKeepsNothing(value: string, i: nat, j: nat)
    requires i <= j <= |value| && forall k | i <= k < j :: IsSpace(value[k])
    ensures Kept(value, j) == Kept(value, i)
    decreases j
  {
    if i < j {
      SpaceKeepsNothing(value, i, j - 1);
      KeptMeans(value[j - 1]);
    }
  }

  /** What the normaliser makes of any text: its letters and digits spelled out, behind "app-" if that starts
      with a digit. */
  lemma NormalizeSpells(value: string) returns (tail: string)
    ensures Spelled(value, Kept(value, |value|), tail)
    ensures Normalize(value) == if tail != "" && '0' <= tail[0] <= '9' then "app-" + tail else tail
  {
    var i, j := TrimSpaceMeans(value);
    var at, scan := ScanSpells(value, i, j);
    SpaceKeepsNothing(value, j, |value|);
    return scan.built;
  }

  // -------------------------------------------------------------- acceptance

  /** The test of `plan`. */
  predicate PlanAccepts(slug: string) {
    !(slug == "" || |slug| > 48 || Normalize(slug) != slug)
  }

  /** isSafeAppSlug. */
  method IsSafeAppSlug(value: string) returns (ok: bool)
    ensures ok <==> Safe(TrimSpace(value))
  {
    ok := IsSafeTrimmed(TrimSpace(value));
  }

  method IsSafeTrimmed(slug: string) returns (ok: bool)
    ensures ok <==> Safe(slug)
  {
    if slug == "" || |slug| > 63 || slug[0] == '-' || slug[|slug| - 1] == '-' {
      return false;
    }
    for i := 0 to |slug|
      invariant forall j | 0 <= j < i :: IsAlnum(slug[j]) || slug[j] == '-'
    {
      if 'a' <= slug[i] <= 'z' || '0' <= slug[i] <= '9' || slug[i] == '-' {
        continue;
      }
      return false;
    }
    return true;
  }

  /** A DNS label of lower-case letters, digits and inner hyphens. */
  predicate Safe(slug: string) {
    && 0 < |slug| <= 63 && IsAlnum(slug[0]) && IsAlnum(slug[|slug| - 1])
    && forall i | 0 <= i < |slug| :: IsAlnum(slug[i]) || slug[i] == '-'
  }

  lemma SlugIsSafe(slug: string)
    requires IsSlug(slug) && |slug| <= 48
    ensures Safe(slug) && '_' !in slug
  {
    assert GoesOn(slug, |slug| - 1);
    forall i | 0 <= i < |slug|
      ensures IsAlnum(slug[i]) || slug[i] == '-'
    {
      assert GoesOn(slug, i);
    }
  }

  lemma SafeTrimsToItself(slug: string)
    requires Safe(slug)
    ensures TrimSpace(slug) == slug
  {
    TrimKeeps(slug);
  }

  /** `plan` accepts exactly the slugs of at most 48 characters. */
  lemma AcceptedSlugs(slug: string)
    ensures PlanAccepts(slug) <==> IsSlug(slug) && |slug| <= 48
  {
    FixedPoints(slug);
  }

  /** The server accepts every slug that setup can write. */
  lemma AcceptedIsSafe(slug: string)
    requires PlanAccepts(slug)
    ensures Safe(TrimSpace(slug)) && '_' !in slug
  {
    AcceptedSlugs(slug);
    SlugIsSafe(slug);
    SafeTrimsToItself(slug);
  }
}
