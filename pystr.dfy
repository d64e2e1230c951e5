/**
 * The parts of Python's `str` semantics that the services rely on:
 * `split()` on runs of whitespace, `' '.join`, non-overlapping `count`,
 * the `in` substring test, `find`, `split(sep)`, slicing with negative
 * indices, `strip()`, `lower()` and `replace(c, '')`.
 */
module PyStr {
  import opened Wrappers

  /** The characters Python's `str.isspace()` accepts; `split()` and `strip()` use this set. */
  predicate IsSpace(c: char) {
    var n := c as int;
    (9 <= n <= 13) || (0x1C <= n <= 0x20) || n == 0x85 || n == 0xA0 || n == 0x1680
    || (0x2000 <= n <= 0x200A) || n == 0x2028 || n == 0x2029 || n == 0x202F
    || n == 0x205F || n == 0x3000
  }

  /** `str.isdigit` on one character, restricted to ASCII. */
  predicate IsDigit(c: char) {
    '0' <= c <= '9'
  }

  /** `str.isalpha` on one character, restricted to ASCII. */
  predicate IsAlpha(c: char) {
    'a' <= c <= 'z' || 'A' <= c <= 'Z'
  }

  predicate NoSpace(w: string) {
    forall i :: 0 <= i < |w| ==> !IsSpace(w[i])
  }

  /** End of the run of non-whitespace characters that starts at `i`. */
  function WordEnd(s: string, i: nat): (j: nat)
    requires i <= |s|
    ensures i <= j <= |s|
    ensures forall k :: i <= k < j ==> !IsSpace(s[k])
    ensures j < |s| ==> IsSpace(s[j])
    decreases |s| - i
  {
    if i == |s| || IsSpace(s[i]) then i else WordEnd(s, i + 1)
  }

  /** `s.split()`: the maximal runs of non-whitespace characters, in order. */
  function Split(s: string): (words: seq<string>)
    ensures forall k :: 0 <= k < |words| ==> words[k] != [] && NoSpace(words[k])
    ensures |words| <= |s|
    decreases |s|
  {
    if s == [] then []
    else if IsSpace(s[0]) then Split(s[1..])
    else
      var j := WordEnd(s, 0);
      [s[..j]] + Split(s[j..])
  }

  /** `' '.join(ws)` */
  function Join(ws: seq<string>): (r: string)
    ensures |ws| > 0 ==> |ws[0]| <= |r| && r[..|ws[0]|] == ws[0]
  {
    if |ws| == 0 then ""
    else if |ws| == 1 then ws[0]
    else ws[0] + " " + Join(ws[1..])
  }

  predicate OccursAt(s: string, sub: string, i: nat) {
    i + |sub| <= |s| && s[i..i + |sub|] == sub
  }

  /** `sub in s` */
  predicate Contains(s: string, sub: string) {
    exists i: nat :: i <= |s| && OccursAt(s, sub, i)
  }

  /** Non-overlapping matches of a non-empty `sub` in `s[i..]`, found left to right as `str.count` does. */
  function CountFrom(s: string, sub: string, i: nat): nat
    requires |sub| > 0 && i <= |s|
    decreases |s| - i
  {
    if i + |sub| > |s| then 0
    else if s[i..i + |sub|] == sub then 1 + CountFrom(s, sub, i + |sub|)
    else CountFrom(s, sub, i + 1)
  }

  /** `s.count(sub)`; an empty `sub` is counted once per position, `len(s) + 1` times. */
  function Count(s: string, sub: string): nat {
    if sub == [] then |s| + 1 else CountFrom(s, sub, 0)
  }

  /** Leftmost occurrence of a non-empty `sub` at or after `i`, as `str.find(sub, i)` gives it. */
  function FindFrom(s: string, sub: string, i: nat): (r: Option<nat>)
    requires |sub| > 0 && i <= |s|
    ensures r.Some? ==> i <= r.value && OccursAt(s, sub, r.value)
    ensures r.Some? ==> forall k :: i <= k < r.value ==> !OccursAt(s, sub, k)
    ensures r.None? ==> forall k :: i <= k <= |s| ==> !OccursAt(s, sub, k)
    decreases |s| - i
  {
    if i + |sub| > |s| then None
    else if s[i..i + |sub|] == sub then Some(i)
    else FindFrom(s, sub, i + 1)
  }

  /** Python's normalisation of a slice bound for a sequence of length `n`. */
  function Clip(i: int, n: nat): (r: nat)
    ensures r <= n
  {
    if i < 0 then (if n + i < 0 then 0 else n + i)
    else if i > n then n
    else i
  }

  /** `s[start:stop]` with Python's treatment of negative and out-of-range bounds. */
  function Slice<T>(s: seq<T>, start: int, stop: int): seq<T> {
    var a, b := Clip(start, |s|), Clip(stop, |s|);
    if a < b then s[a..b] else []
  }

  /** `s[:k]` */
  function Prefix<T>(s: seq<T>, k: int): (r: seq<T>)
    ensures 0 <= k ==> |r| == if k < |s| then k else |s|
    ensures |r| <= |s| && r == s[..|r|]
  {
    Slice(s, 0, k)
  }

  /** `s[k:]` */
  function SliceFrom<T>(s: seq<T>, k: int): seq<T> {
    Slice(s, k, |s|)
  }

  function LStrip(s: string): (r: string)
    ensures |r| <= |s| && r == s[|s| - |r|..]
    ensures r == [] || !IsSpace(r[0])
    ensures forall k :: 0 <= k < |s| - |r| ==> IsSpace(s[k])
  {
    if s != [] && IsSpace(s[0]) then LStrip(s[1..]) else s
  }

  function RStrip(s: string): (r: string)
    ensures |r| <= |s| && r == s[..|r|]
    ensures r == [] || !IsSpace(r[|r| - 1])
    ensures forall k :: |r| <= k < |s| ==> IsSpace(s[k])
  {
    if s != [] && IsSpace(s[|s| - 1]) then RStrip(s[..|s| - 1]) else s
  }

  /** `s.strip()` */
  function Strip(s: string): (r: string)
    ensures |r| <= |s|
    ensures r == [] || (!IsSpace(r[0]) && !IsSpace(r[|r| - 1]))
  {
    RStrip(LStrip(s))
  }

  /** Lower-casing of one character, for ASCII letters only. */
  function LowerChar(c: char): char {
    if 'A' <= c <= 'Z' then (c as int + 32) as char else c
  }

  /** `s.lower()` restricted to ASCII letters. */
  function Lower(s: string): (r: string)
    ensures |r| == |s|
    ensures forall i :: 0 <= i < |s| ==> r[i] == LowerChar(s[i])
  {
    if s == [] then [] else [LowerChar(s[0])] + Lower(s[1..])
  }

  /** `s.replace(c, '')` */
  function RemoveChar(s: string, c: char): (r: string)
    ensures |r| <= |s|
    ensures forall i :: 0 <= i < |r| ==> r[i] != c
    ensures forall i :: 0 <= i < |s| && s[i] != c ==> s[i] in r
  {
    if s == [] then [] else (if s[0] == c then [] else [s[0]]) + RemoveChar(s[1..], c)
  }

  /** Removal works piece by piece, so the characters kept stay in their order: together with
      the value on one character, this determines `RemoveChar` on every string. */
  lemma {:induction false} RemoveCharAppend(a: string, b: string, c: char)
    ensures RemoveChar(a + b, c) == RemoveChar(a, c) + RemoveChar(b, c)
    ensures RemoveChar([c], c) == [] && forall x :: x != c ==> RemoveChar([x], c) == [x]
    decreases |a|
  {
    if a != [] {
      assert (a + b)[0] == a[0] && (a + b)[1..] == a[1..] + b;
      calc {
        RemoveChar(a + b, c);
        (if a[0] == c then [] else [a[0]]) + RemoveChar(a[1..] + b, c);
        { RemoveCharAppend(a[1..], b, c); }
        (if a[0] == c then [] else [a[0]]) + (RemoveChar(a[1..], c) + RemoveChar(b, c));
      }
    } else {
      assert a + b == b;
    }
  }

  /** Every character other than `c` is kept as often as it occurs. */
  lemma {:induction false} RemoveCharCounts(s: string, c: char)
    ensures multiset(RemoveChar(s, c)) == multiset(s)[c := 0]
    decreases |s|
  {
    if s != [] {
      RemoveCharCounts(s[1..], c);
      assert s == [s[0]] + s[1..];
    }
  }

  /** `r` is the piece of `s` starting at `a`, with only whitespace around it. */
  ghost predicate TrimmedAt(s: string, r: string, a: nat) {
    a + |r| <= |s| && r == s[a..a + |r|]
    && (forall k :: 0 <= k < a ==> IsSpace(s[k]))
    && (forall k :: a + |r| <= k < |s| ==> IsSpace(s[k]))
  }

  /** `r` is a contiguous piece of `s` with only whitespace around it. */
  ghost predicate TrimmedFrom(s: string, r: string) {
    exists a: nat :: TrimmedAt(s, r, a)
  }

  /** `strip()` adds no character: one that `s` avoids, its stripped text avoids too. */
  lemma StripAvoids(s: string, c: char)
    requires forall k :: 0 <= k < |s| ==> s[k] != c
    ensures forall k :: 0 <= k < |Strip(s)| ==> Strip(s)[k] != c
  {
    var l := LStrip(s);
    var r := RStrip(l);
    var a := |s| - |l|;
    assert l == s[a..] && r == l[..|r|];
    forall k | 0 <= k < |r|
      ensures r[k] != c
    {
      assert r[k] == l[k] == s[a + k];
    }
  }

  /** A piece with only whitespace around it and no whitespace at its ends is unique. */
  lemma TrimmedUnique(s: string, r1: string, r2: string)
    requires TrimmedFrom(s, r1) && (r1 == [] || (!IsSpace(r1[0]) && !IsSpace(r1[|r1| - 1])))
    requires TrimmedFrom(s, r2) && (r2 == [] || (!IsSpace(r2[0]) && !IsSpace(r2[|r2| - 1])))
    ensures r1 == r2
  {
    var a1: nat :| TrimmedAt(s, r1, a1);
    var a2: nat :| TrimmedAt(s, r2, a2);
    assert r1 != [] ==> s[a1] == r1[0] && s[a1 + |r1| - 1] == r1[|r1| - 1];
    assert r2 != [] ==> s[a2] == r2[0] && s[a2 + |r2| - 1] == r2[|r2| - 1];
  }

  /** `strip()` keeps one contiguous piece of `s` and drops only whitespace around it. */
  lemma StripTrims(s: string)
    ensures TrimmedFrom(s, Strip(s))
  {
    var l := LStrip(s);
    var r := RStrip(l);
    var a := |s| - |l|;
    assert l == s[a..];
    assert r == l[..|r|];
    assert r == s[a..a + |r|];
    forall k | a + |r| <= k < |s|
      ensures IsSpace(s[k])
    {
      assert s[k] == l[k - a];
    }
    assert TrimmedAt(s, r, a);
  }

  /** Index of the last occurrence of `c`, for `rsplit(c, 1)`. */
  function LastIndexOf(s: string, c: char): (r: Option<nat>)
    ensures r.Some? ==> r.value < |s| && s[r.value] == c
    ensures r.Some? ==> forall k :: r.value < k < |s| ==> s[k] != c
    ensures r.None? ==> forall k :: 0 <= k < |s| ==> s[k] != c
  {
    if s == [] then None
    else if s[|s| - 1] == c then Some(|s| - 1)
    else LastIndexOf(s[..|s| - 1], c)
  }

  /** Index of the first occurrence of `c`. */
  function FirstIndexOf(s: string, c: char): (r: Option<nat>)
    ensures r.Some? ==> r.value < |s| && s[r.value] == c
    ensures r.Some? ==> forall k :: 0 <= k < r.value ==> s[k] != c
    ensures r.None? ==> forall k :: 0 <= k < |s| ==> s[k] != c
  {
    if s == [] then None
    else if s[0] == c then Some(0)
    else match FirstIndexOf(s[1..], c)
      case None => None
      case Some(i) => Some(i + 1)
  }

  /** Lower-casing twice is lower-casing once. */
  lemma LowerIdempotent(s: string)
    ensures Lower(Lower(s)) == Lower(s)
  {
    assert forall i :: 0 <= i < |s| ==> LowerChar(LowerChar(s[i])) == LowerChar(s[i]);
  }

  /** `s.split(sep)[k]`-style access: the text after the first occurrence of `sep`
      up to the next one (or the end); None when `sep` does not occur. */
  function AfterFirst(s: string, sep: string): (r: Option<string>)
    requires |sep| > 0
  {
    match FindFrom(s, sep, 0)
    case None => None
    case Some(i) => Some(BeforeFirst(s[i + |sep|..], sep))
  }

  /** `s.split(sep)[0]`: the text before the first occurrence of `sep`, or all of `s`. */
  function BeforeFirst(s: string, sep: string): (r: string)
    requires |sep| > 0
    ensures |r| <= |s| && r == s[..|r|]
    ensures !Contains(r, sep)
    ensures |r| < |s| ==> OccursAt(s, sep, |r|)
  {
    match FindFrom(s, sep, 0)
    case None => NoOccurrenceNotContained(s, sep); s
    case Some(i) => PrefixBeforeFirst(s, sep, i); s[..i]
  }

  lemma NoOccurrenceNotContained(s: string, sep: string)
    requires |sep| > 0
    requires forall k :: 0 <= k <= |s| ==> !OccursAt(s, sep, k)
    ensures !Contains(s, sep)
  {
  }

  lemma PrefixBeforeFirst(s: string, sep: string, i: nat)
    requires |sep| > 0 && i <= |s|
    requires forall k :: 0 <= k < i ==> !OccursAt(s, sep, k)
    ensures !Contains(s[..i], sep)
  {
    if Contains(s[..i], sep) {
      var k: nat :| k <= i && OccursAt(s[..i], sep, k);
      assert s[..i][k..k + |sep|] == s[k..k + |sep|];
      assert OccursAt(s, sep, k);
    }
  }

  // ---------------------------------------------------------------------
  // Lemmas relating count, find and the substring test.

  /** `s.count(sub) >= 1` exactly when `sub in s`. */
  lemma {:induction false} CountFromPositive(s: string, sub: string, i: nat)
    requires |sub| > 0 && i <= |s|
    ensures CountFrom(s, sub, i) >= 1 <==> exists k: nat :: i <= k <= |s| && OccursAt(s, sub, k)
    decreases |s| - i
  {
    if i + |sub| > |s| {
    } else if s[i..i + |sub|] == sub {
      assert OccursAt(s, sub, i);
    } else {
      CountFromPositive(s, sub, i + 1);
      if exists k: nat :: i <= k <= |s| && OccursAt(s, sub, k) {
        var k: nat :| i <= k <= |s| && OccursAt(s, sub, k);
        assert k != i;
      }
    }
  }

  lemma CountPositiveIffContains(s: string, sub: string)
    requires |sub| > 0
    ensures Count(s, sub) >= 1 <==> Contains(s, sub)
  {
    CountFromPositive(s, sub, 0);
  }

  /** Non-overlapping matches never need more room than the text has. */
  lemma {:induction false} CountFromBound(s: string, sub: string, i: nat)
    requires |sub| > 0 && i <= |s|
    ensures CountFrom(s, sub, i) * |sub| <= |s| - i
    decreases |s| - i
  {
    if i + |sub| > |s| {
    } else if s[i..i + |sub|] == sub {
      CountFromBound(s, sub, i + |sub|);
    } else {
      CountFromBound(s, sub, i + 1);
    }
  }

  /** A string containing a longer string contains every prefix of it. */
  lemma ContainsPrefix(s: string, sub: string, k: nat)
    requires k <= |sub| && Contains(s, sub)
    ensures Contains(s, sub[..k])
  {
    var i: nat :| i <= |s| && OccursAt(s, sub, i);
    assert s[i..i + k] == s[i..i + |sub|][..k];
    assert OccursAt(s, sub[..k], i);
  }

  /** `' '.join` of non-empty words is non-empty. */
  lemma JoinNonEmpty(ws: seq<string>)
    requires |ws| > 0 && ws[0] != []
    ensures Join(ws) != []
  {
  }

  /** Whitespace-split words never contain whitespace, so `strip()` leaves them unchanged. */
  lemma StripNoSpace(w: string)
    requires NoSpace(w)
    ensures Strip(w) == w
  {
  }
}
