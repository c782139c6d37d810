/** The string operations of Python and JavaScript that the two backends and the
    frontend use, over ASCII: whitespace, case mapping, substring search,
    `split`, `join`, `strip` and `splitlines`. */
module Text {
  import opened Wrappers

  type String = seq<char>

  /** Python's `str.isspace` on one ASCII character (also what `strip` and `split()` remove). */
  predicate IsSpace(c: char) {
    // "\t\n\x0b\x0c\r" and "\x1c\x1d\x1e\x1f "
    '\t' <= c <= '\r' || '\U{1C}' <= c <= ' '
  }

  /** A line boundary of Python's `str.splitlines` on ASCII ("\r\n" counts as one). */
  predicate IsLineBreak(c: char) {
    // "\n\x0b\x0c\r" and "\x1c\x1d\x1e"
    '\n' <= c <= '\r' || '\U{1C}' <= c <= '\U{1E}'
  }

  predicate AllSpace(s: String) {
    forall k | 0 <= k < |s| :: IsSpace(s[k])
  }

  // ---------------------------------------------------------------- case

  function LowerChar(c: char): char {
    if 'A' <= c <= 'Z' then (c as int + 32) as char else c
  }

  function UpperChar(c: char): char {
    if 'a' <= c <= 'z' then (c as int - 32) as char else c
  }

  /** Python's `str.lower` and JavaScript's `toLowerCase` on ASCII. */
  function Lower(s: String): String {
    seq(|s|, i requires 0 <= i < |s| => LowerChar(s[i]))
  }

  /** Lower-casing twice is lower-casing once. */
  lemma LowerIdempotent(s: String)
    ensures Lower(Lower(s)) == Lower(s)
  {
  }

  /** JavaScript's `toUpperCase` on ASCII. */
  function Upper(s: String): String {
    seq(|s|, i requires 0 <= i < |s| => UpperChar(s[i]))
  }

  /** Upper-casing twice is upper-casing once. */
  lemma UpperIdempotent(s: String)
    ensures Upper(Upper(s)) == Upper(s)
  {
  }

  /** Case mapping works character by character, so it distributes over concatenation. */
  lemma LowerAppend(a: String, b: String)
    ensures Lower(a + b) == Lower(a) + Lower(b)
  {
  }

  /** Python's `str.isupper`: some cased character, and every cased character upper-case. */
  predicate IsUpper(s: String) {
    (exists i | 0 <= i < |s| :: 'A' <= s[i] <= 'Z') && forall i | 0 <= i < |s| :: !('a' <= s[i] <= 'z')
  }

  // ---------------------------------------------------------------- non-whitespace projection

  /** The characters of `s` that are not whitespace, in order. */
  function Visible(s: String): String {
    if s == [] then [] else (if IsSpace(s[0]) then [] else [s[0]]) + Visible(s[1..])
  }

  lemma {:induction false} VisibleAppend(a: String, b: String)
    ensures Visible(a + b) == Visible(a) + Visible(b)
  {
    if a == [] {
      assert a + b == b;
    } else {
      assert (a + b)[0] == a[0];
      assert (a + b)[1..] == a[1..] + b;
      VisibleAppend(a[1..], b);
    }
  }

  lemma {:induction false} VisibleEmptyIffAllSpace(s: String)
    ensures Visible(s) == [] <==> AllSpace(s)
  {
    if s != [] {
      VisibleEmptyIffAllSpace(s[1..]);
      assert AllSpace(s) <==> IsSpace(s[0]) && AllSpace(s[1..]) by {
        if IsSpace(s[0]) && AllSpace(s[1..]) {
          forall k | 0 <= k < |s| ensures IsSpace(s[k]) {
            if k > 0 { assert s[k] == s[1..][k - 1]; }
          }
        }
      }
    }
  }

  lemma {:induction false} VisibleOfSpaceFree(s: String)
    requires forall k | 0 <= k < |s| :: !IsSpace(s[k])
    ensures Visible(s) == s
  {
    if s != [] {
      assert forall k | 0 <= k < |s| - 1 :: s[1..][k] == s[k + 1];
      VisibleOfSpaceFree(s[1..]);
    }
  }

  // ---------------------------------------------------------------- strip

  /** The index of the first non-whitespace character at or after `from`, or `|s|`. */
  function SpaceEnd(s: String, from: nat): (r: nat)
    requires from <= |s|
    ensures from <= r <= |s|
    ensures r < |s| ==> !IsSpace(s[r])
    ensures forall k | from <= k < r :: IsSpace(s[k])
    decreases |s| - from
  {
    if from == |s| || !IsSpace(s[from]) then from else SpaceEnd(s, from + 1)
  }

  /** The start of the whitespace run that ends at `hi`, not going below `lo`. */
  function SpaceStart(s: String, lo: nat, hi: nat): (r: nat)
    requires lo <= hi <= |s|
    ensures lo <= r <= hi
    ensures lo < r ==> !IsSpace(s[r - 1])
    ensures forall k | r <= k < hi :: IsSpace(s[k])
    decreases hi
  {
    if hi == lo || !IsSpace(s[hi - 1]) then hi else SpaceStart(s, lo, hi - 1)
  }

  /** Python's `str.strip()` with no argument. */
  function Strip(s: String): (r: String)
    ensures r == [] || (!IsSpace(r[0]) && !IsSpace(r[|r| - 1]))
  {
    var i := SpaceEnd(s, 0);
    var j := SpaceStart(s, i, |s|);
    s[i..j]
  }

  /** The whitespace-only ends that `Strip` removes. */
  lemma StripBounds(s: String) returns (i: nat, j: nat)
    ensures i <= j <= |s| && Strip(s) == s[i..j]
    ensures AllSpace(s[..i]) && AllSpace(s[j..])
  {
    i := SpaceEnd(s, 0);
    j := SpaceStart(s, i, |s|);
    AllSpaceSlice(s, 0, i);
    AllSpaceSlice(s, j, |s|);
    assert s[0..i] == s[..i] && s[j..|s|] == s[j..];
  }

  lemma AllSpaceSlice(s: String, a: nat, b: nat)
    requires a <= b <= |s| && forall k | a <= k < b :: IsSpace(s[k])
    ensures AllSpace(s[a..b])
  {
    forall k | 0 <= k < b - a ensures IsSpace(s[a..b][k]) {
      assert s[a..b][k] == s[a + k];
    }
  }

  /** Stripping removes whitespace only, and leaves nothing exactly when there is nothing but whitespace. */
  lemma StripVisible(s: String)
    ensures Visible(Strip(s)) == Visible(s)
    ensures Strip(s) == [] <==> AllSpace(s)
  {
    var i, j := StripBounds(s);
    assert s == s[..i] + s[i..j] + s[j..];
    VisibleInside(s[..i], s[i..j], s[j..]);
    VisibleEmptyIffAllSpace(s);
    VisibleEmptyIffAllSpace(Strip(s));
  }

  /** Whitespace around a piece is invisible. */
  lemma VisibleInside(a: String, b: String, c: String)
    requires AllSpace(a) && AllSpace(c)
    ensures Visible(a + b + c) == Visible(b)
  {
    VisibleEmptyIffAllSpace(a);
    VisibleEmptyIffAllSpace(c);
    VisibleAppend(a + b, c);
    VisibleAppend(a, b);
  }

  /** Whitespace between two pieces is invisible. */
  lemma VisibleAround(a: String, b: String, c: String)
    requires AllSpace(b)
    ensures Visible(a + b + c) == Visible(a) + Visible(c)
  {
    VisibleEmptyIffAllSpace(b);
    VisibleAppend(a + b, c);
    VisibleAppend(a, b);
  }

  // ---------------------------------------------------------------- substrings

  /** `t` begins with `pat` (Python's `t.startswith(pat)`), compared one character at a time. */
  predicate StartsWith(t: String, pat: String)
    decreases |pat|
  {
    |pat| <= |t| && (|pat| == 0 || (t[0] == pat[0] && StartsWith(t[1..], pat[1..])))
  }

  lemma {:induction false} StartsWithIff(t: String, pat: String)
    ensures StartsWith(t, pat) <==> |pat| <= |t| && t[..|pat|] == pat
    decreases |pat|
  {
    if 0 < |pat| <= |t| {
      StartsWithIff(t[1..], pat[1..]);
      assert t[..|pat|] == [t[0]] + t[1..][..|pat| - 1];
      assert pat == [pat[0]] + pat[1..];
    }
  }

  /** `pat` occurs in `s` starting at index `k`. */
  predicate OccursAt(s: String, pat: String, k: int) {
    0 <= k <= |s| && StartsWith(s[k..], pat)
  }

  lemma OccursAtIff(s: String, pat: String, k: int)
    ensures OccursAt(s, pat, k) <==> 0 <= k && k + |pat| <= |s| && s[k..k + |pat|] == pat
  {
    if 0 <= k <= |s| {
      StartsWithIff(s[k..], pat);
      if k + |pat| <= |s| {
        assert s[k..][..|pat|] == s[k..k + |pat|];
      }
    }
  }

  /** Python's `pat in s`, JavaScript's `s.includes(pat)`. */
  predicate Contains(s: String, pat: String) {
    exists k | 0 <= k <= |s| - |pat| :: OccursAt(s, pat, k)
  }

  /** Every string contains the empty string. */
  lemma ContainsEmpty(s: String)
    ensures Contains(s, [])
  {
    assert OccursAt(s, [], 0);
  }

  /** A string containing `p + q` contains `p`. */
  lemma ContainsPrefix(s: String, p: String, q: String)
    requires Contains(s, p + q)
    ensures Contains(s, p)
  {
    var k :| 0 <= k <= |s| - |p + q| && OccursAt(s, p + q, k);
    OccursAtIff(s, p + q, k);
    OccursAtIff(s, p, k);
    assert s[k..k + |p|] == (p + q)[..|p|] == p;
  }

  /** The first occurrence of `pat` in `s` at or after `from`. */
  function IndexFrom(s: String, pat: String, from: nat): (r: Option<nat>)
    ensures r.Some? ==> from <= r.value && OccursAt(s, pat, r.value)
    decreases |s| - from
  {
    if from + |pat| > |s| then None
    else if OccursAt(s, pat, from) then Some(from)
    else IndexFrom(s, pat, from + 1)
  }

  /** `IndexFrom` finds the first occurrence, and finds none only when there is none. */
  lemma {:induction false} IndexFromFirst(s: String, pat: String, from: nat)
    ensures IndexFrom(s, pat, from).Some? ==> forall k | from <= k < IndexFrom(s, pat, from).value :: !OccursAt(s, pat, k)
    ensures IndexFrom(s, pat, from).None? ==> forall k | from <= k :: !OccursAt(s, pat, k)
    decreases |s| - from
  {
    if from + |pat| <= |s| && !OccursAt(s, pat, from) {
      IndexFromFirst(s, pat, from + 1);
    }
  }

  lemma OccursInPrefix(s: String, pat: String, i: nat, k: int)
    requires i <= |s| && OccursAt(s[..i], pat, k)
    ensures OccursAt(s, pat, k)
  {
    OccursAtIff(s[..i], pat, k);
    OccursAtIff(s, pat, k);
    assert s[..i][k..k + |pat|] == s[k..k + |pat|];
  }

  lemma OccursInSuffix(s: String, pat: String, j: nat, k: int)
    requires j <= |s| && OccursAt(s[j..], pat, k)
    ensures OccursAt(s, pat, j + k)
  {
    OccursAtIff(s[j..], pat, k);
    OccursAtIff(s, pat, j + k);
    assert s[j..][k..k + |pat|] == s[j + k..j + k + |pat|];
  }

  /** A substring of a slice is a substring of the whole. */
  lemma ContainsInSlice(s: String, i: nat, j: nat, pat: String)
    requires i <= j <= |s| && Contains(s[i..j], pat)
    ensures Contains(s, pat)
  {
    var k :| 0 <= k <= j - i - |pat| && OccursAt(s[i..j], pat, k);
    assert s[i..][..j - i] == s[i..j];
    OccursInPrefix(s[i..], pat, j - i, k);
    OccursInSuffix(s, pat, i, k);
  }

  /** A one-character pattern occurs exactly when the character does. */
  lemma ContainsChar(s: String, c: char)
    ensures Contains(s, [c]) <==> c in s
  {
    if c in s {
      var k :| 0 <= k < |s| && s[k] == c;
      OccursAtIff(s, [c], k);
      assert s[k..k + 1] == [c];
    }
    if Contains(s, [c]) {
      var k :| 0 <= k <= |s| - 1 && OccursAt(s, [c], k);
      OccursAtIff(s, [c], k);
      assert s[k] == s[k..k + 1][0] == c;
    }
  }

  /** Two spaces occur at `k` exactly when the characters at `k` and `k + 1` are spaces. */
  lemma DoubleSpaceAt(s: String, k: int)
    ensures OccursAt(s, "  ", k) <==> 0 <= k && k + 1 < |s| && s[k] == ' ' && s[k + 1] == ' '
  {
    OccursAtIff(s, "  ", k);
    if 0 <= k && k + 1 < |s| && s[k] == ' ' && s[k + 1] == ' ' {
      assert s[k..k + 2] == "  ";
    }
    if OccursAt(s, "  ", k) {
      assert s[k] == s[k..k + 2][0] && s[k + 1] == s[k..k + 2][1];
    }
  }

  // ---------------------------------------------------------------- join and split

  /** All pieces, one after another. */
  function Concat(ps: seq<String>): String {
    if ps == [] then [] else ps[0] + Concat(ps[1..])
  }

  /** Python's `sep.join(ps)`. */
  function Join(sep: String, ps: seq<String>): String {
    if |ps| == 0 then [] else if |ps| == 1 then ps[0] else ps[0] + sep + Join(sep, ps[1..])
  }

  lemma {:induction false} ConcatAppend(a: seq<String>, b: seq<String>)
    ensures Concat(a + b) == Concat(a) + Concat(b)
  {
    if a == [] {
      assert a + b == b;
    } else {
      assert (a + b)[0] == a[0];
      assert (a + b)[1..] == a[1..] + b;
      ConcatAppend(a[1..], b);
    }
  }

  /** A separator made of whitespace adds nothing but whitespace. */
  lemma {:induction false} JoinVisible(sep: String, ps: seq<String>)
    requires Visible(sep) == []
    ensures Visible(Join(sep, ps)) == Visible(Concat(ps))
  {
    if |ps| == 1 {
      assert ps[1..] == [];
      assert Concat(ps) == ps[0] + Concat(ps[1..]) == ps[0];
    } else if |ps| > 1 {
      JoinVisible(sep, ps[1..]);
      VisibleAppend(ps[0] + sep, Join(sep, ps[1..]));
      VisibleAppend(ps[0], sep);
      VisibleAppend(ps[0], Concat(ps[1..]));
    }
  }

  /** The pieces of `s[start..]` between non-overlapping occurrences of `sep`, found from the left. */
  function SplitFrom(s: String, sep: String, start: nat): (r: seq<String>)
    requires |sep| > 0 && start <= |s|
    ensures |r| >= 1
    decreases |s| - start
  {
    match IndexFrom(s, sep, start)
    case None => [s[start..]]
    case Some(i) => [s[start..i]] + SplitFrom(s, sep, i + |sep|)
  }

  /** Python's `s.split(sep)` for a non-empty separator. */
  function Split(s: String, sep: String): (r: seq<String>)
    requires |sep| > 0
    ensures |r| >= 1
  {
    SplitFrom(s, sep, 0)
  }

  /** Joining the pieces with the separator gives back the text. */
  lemma {:induction false} SplitFromJoin(s: String, sep: String, start: nat)
    requires |sep| > 0 && start <= |s|
    ensures Join(sep, SplitFrom(s, sep, start)) == s[start..]
    decreases |s| - start
  {
    match IndexFrom(s, sep, start)
    case None =>
      SplitFromNone(s, sep, start);
    case Some(i) =>
      var rest := SplitFrom(s, sep, i + |sep|);
      SplitFromSome(s, sep, start, i);
      SplitFromJoin(s, sep, i + |sep|);
      JoinAround(s, sep, start, i, rest);
  }

  /** Putting back an occurrence of the separator between a prefix and a joined remainder. */
  lemma JoinAround(s: String, sep: String, start: nat, i: nat, rest: seq<String>)
    requires start <= i && OccursAt(s, sep, i) && |rest| > 0 && Join(sep, rest) == s[i + |sep|..]
    ensures Join(sep, [s[start..i]] + rest) == s[start..]
  {
    JoinCons(sep, s[start..i], rest);
    AroundOccurrence(s, sep, start, i);
  }

  lemma SplitFromNone(s: String, sep: String, start: nat)
    requires |sep| > 0 && start <= |s| && IndexFrom(s, sep, start).None?
    ensures SplitFrom(s, sep, start) == [s[start..]]
  {
  }

  lemma SplitFromSome(s: String, sep: String, start: nat, i: nat)
    requires |sep| > 0 && start <= |s| && IndexFrom(s, sep, start) == Some(i)
    ensures SplitFrom(s, sep, start) == [s[start..i]] + SplitFrom(s, sep, i + |sep|)
  {
  }

  lemma JoinCons(sep: String, p: String, ps: seq<String>)
    requires |ps| > 0
    ensures Join(sep, [p] + ps) == p + sep + Join(sep, ps)
  {
    assert ([p] + ps)[0] == p && ([p] + ps)[1..] == ps;
  }

  /** An occurrence at `i` cuts `s[start..]` into what comes before it, itself and what follows it. */
  lemma AroundOccurrence(s: String, sep: String, start: nat, i: nat)
    requires start <= i && OccursAt(s, sep, i)
    ensures s[start..] == s[start..i] + sep + s[i + |sep|..]
  {
    OccursAtIff(s, sep, i);
    assert s[start..] == s[start..i] + s[i..i + |sep|] + s[i + |sep|..];
  }

  lemma SplitJoin(s: String, sep: String)
    requires |sep| > 0
    ensures Join(sep, Split(s, sep)) == s
  {
    SplitFromJoin(s, sep, 0);
    assert s[0..] == s;
  }

  /** A piece that ends before the first occurrence at or after its start holds no occurrence. */
  lemma PieceFree(s: String, sep: String, start: nat, end: nat)
    requires start <= end <= |s|
    requires forall k | start <= k && k + |sep| <= end :: !OccursAt(s, sep, k)
    ensures !Contains(s[start..end], sep)
  {
    if Contains(s[start..end], sep) {
      var k :| 0 <= k <= end - start - |sep| && OccursAt(s[start..end], sep, k);
      assert s[start..][..end - start] == s[start..end];
      OccursInPrefix(s[start..], sep, end - start, k);
      OccursInSuffix(s, sep, start, k);
      assert false;
    }
  }

  /** No element of `ps` contains `sep`. */
  predicate NoneContain(ps: seq<String>, sep: String) {
    ps == [] || (!Contains(ps[0], sep) && NoneContain(ps[1..], sep))
  }

  /** No piece contains the separator. */
  lemma {:induction false} SplitFromPieces(s: String, sep: String, start: nat)
    requires |sep| > 0 && start <= |s|
    ensures NoneContain(SplitFrom(s, sep, start), sep)
    decreases |s| - start
  {
    var r := SplitFrom(s, sep, start);
    IndexFromFirst(s, sep, start);
    match IndexFrom(s, sep, start)
    case None =>
      assert r == [s[start..]];
      PieceFree(s, sep, start, |s|);
      assert s[start..|s|] == s[start..];
    case Some(i) =>
      SplitFromPieces(s, sep, i + |sep|);
      PieceFree(s, sep, start, i);
      assert r[0] == s[start..i] && r[1..] == SplitFrom(s, sep, i + |sep|);
  }

  lemma SplitPieces(s: String, sep: String)
    requires |sep| > 0
    ensures NoneContain(Split(s, sep), sep)
  {
    SplitFromPieces(s, sep, 0);
  }

  /** There is one piece exactly when the separator does not occur. */
  lemma SplitSingle(s: String, sep: String)
    requires |sep| > 0
    ensures |Split(s, sep)| == 1 <==> !Contains(s, sep)
  {
    match IndexFrom(s, sep, 0)
    case None =>
      IndexFromFirst(s, sep, 0);
    case Some(i) =>
      assert Split(s, sep) == [s[..i]] + SplitFrom(s, sep, i + |sep|);
  }

  /** Each piece occurs in the concatenation right after the pieces before it. */
  lemma PieceAt(ps: seq<String>, i: nat) returns (k: nat)
    requires i < |ps|
    ensures k == |Concat(ps[..i])| && OccursAt(Concat(ps), ps[i], k)
  {
    assert ps == ps[..i] + [ps[i]] + ps[i + 1..];
    ConcatAppend(ps[..i] + [ps[i]], ps[i + 1..]);
    ConcatAppend(ps[..i], [ps[i]]);
    assert Concat([ps[i]]) == ps[i];
    var s := Concat(ps);
    k := |Concat(ps[..i])|;
    assert s == Concat(ps[..i]) + ps[i] + Concat(ps[i + 1..]);
    assert s[k..k + |ps[i]|] == ps[i];
    OccursAtIff(s, ps[i], k);
  }

  /** An occurrence in `b` is an occurrence in `a + b`, shifted by `|a|`. */
  lemma OccursAfter(a: String, b: String, pat: String, k: int)
    requires OccursAt(b, pat, k)
    ensures OccursAt(a + b, pat, |a| + k)
  {
    assert (a + b)[|a|..] == b;
    OccursInSuffix(a + b, pat, |a|, k);
  }

  /** No element of `ps` contains `sep`, the last one included. */
  lemma {:induction false} NoneContainLast(ps: seq<String>, sep: String)
    requires |ps| > 0 && NoneContain(ps, sep)
    ensures !Contains(ps[|ps| - 1], sep)
  {
    if |ps| > 1 {
      NoneContainLast(ps[1..], sep);
      assert ps[1..][|ps| - 2] == ps[|ps| - 1];
    }
  }

  /** Python's `r[-1]`. */
  function Last(r: seq<String>): String
    requires |r| > 0
  {
    r[|r| - 1]
  }

  /** Joining one more piece adds the separator and the piece at the end. */
  lemma {:induction false} JoinSnoc(sep: String, ps: seq<String>, p: String)
    requires ps != []
    ensures Join(sep, ps + [p]) == Join(sep, ps) + sep + p
  {
    if |ps| == 1 {
      assert ps + [p] == [ps[0], p];
      assert [ps[0], p][1..] == [p];
    } else {
      assert (ps + [p])[1..] == ps[1..] + [p];
      JoinSnoc(sep, ps[1..], p);
    }
  }

  /** When the separator occurs, the last piece is the text after an occurrence of it,
      whose position is returned. */
  lemma SplitLastPiece(s: String, sep: String) returns (k: nat)
    requires |sep| > 0 && Contains(s, sep)
    ensures OccursAt(s, sep, k)
    ensures Last(Split(s, sep)) == s[k + |sep|..]
  {
    var r := Split(s, sep);
    SplitJoin(s, sep);
    SplitSingle(s, sep);
    var ps := r[..|r| - 1];
    assert r == ps + [Last(r)];
    JoinSnoc(sep, ps, Last(r));
    var front := Join(sep, ps);
    k := |front|;
    assert s == front + sep + Last(r);
    assert s[k..k + |sep|] == sep;
    assert s[k + |sep|..] == Last(r);
    OccursAtIff(s, sep, k);
  }

  /** `s.split(sep)[-1]` is the text after an occurrence of `sep` that no later
      occurrence follows. */
  lemma SplitAfterLast(s: String, sep: String) returns (k: nat)
    requires |sep| > 0 && Contains(s, sep)
    ensures OccursAt(s, sep, k)
    ensures Last(Split(s, sep)) == s[k + |sep|..]
    ensures !Contains(s[k + |sep|..], sep)
  {
    k := SplitLastPiece(s, sep);
    SplitPieces(s, sep);
    NoneContainLast(Split(s, sep), sep);
  }

  /** The index of the first character at or after `from` that satisfies `IsLineBreak`, or `|s|`. */
  function LineBreakFrom(s: String, from: nat): (r: nat)
    requires from <= |s|
    ensures from <= r <= |s|
    ensures r < |s| ==> IsLineBreak(s[r])
    ensures forall k | from <= k < r :: !IsLineBreak(s[k])
    decreases |s| - from
  {
    if from == |s| || IsLineBreak(s[from]) then from else LineBreakFrom(s, from + 1)
  }

  /** Where the line after a break at `i` begins: "\r\n" is one break. */
  function AfterBreak(s: String, i: nat): (r: nat)
    requires i < |s|
    ensures i < r <= |s| && r <= i + 2
  {
    if s[i] == '\r' && i + 1 < |s| && s[i + 1] == '\n' then i + 2 else i + 1
  }

  /** The lines of `s[start..]`. */
  function LinesFrom(s: String, start: nat): seq<String>
    requires start <= |s|
    decreases |s| - start
  {
    if start == |s| then []
    else
      var i := LineBreakFrom(s, start);
      if i == |s| then [s[start..]]
      else [s[start..i]] + LinesFrom(s, AfterBreak(s, i))
  }

  /** Python's `s.splitlines()` on ASCII text: no trailing empty line, "\r\n" is one break. */
  function SplitLines(s: String): seq<String> {
    LinesFrom(s, 0)
  }

  lemma ConcatCons(p: String, ps: seq<String>)
    ensures Concat([p] + ps) == p + Concat(ps)
  {
    assert ([p] + ps)[0] == p && ([p] + ps)[1..] == ps;
  }

  /** A line break, one character or "\r\n", is invisible. */
  lemma BreakVisible(s: String, start: nat, i: nat)
    requires start <= i < |s| && IsLineBreak(s[i])
    ensures Visible(s[start..]) == Visible(s[start..i]) + Visible(s[AfterBreak(s, i)..])
  {
    var next := AfterBreak(s, i);
    assert s[start..] == s[start..i] + s[i..next] + s[next..];
    assert AllSpace(s[i..next]);
    VisibleAround(s[start..i], s[i..next], s[next..]);
  }

  lemma {:induction false} LinesFromVisible(s: String, start: nat)
    requires start <= |s|
    ensures Visible(Concat(LinesFrom(s, start))) == Visible(s[start..])
    decreases |s| - start
  {
    if start < |s| {
      var i := LineBreakFrom(s, start);
      if i == |s| {
        assert LinesFrom(s, start) == [s[start..]] + [];
        ConcatCons(s[start..], []);
        assert Concat([]) == [];
        assert s[start..] + [] == s[start..];
      } else {
        var next := AfterBreak(s, i);
        var rest := LinesFrom(s, next);
        LinesFromVisible(s, next);
        ConcatCons(s[start..i], rest);
        BreakVisible(s, start, i);
        VisibleAppend(s[start..i], Concat(rest));
      }
    }
  }

  /** Splitting into lines drops only whitespace. */
  lemma SplitLinesVisible(s: String)
    ensures Visible(Concat(SplitLines(s))) == Visible(s)
  {
    LinesFromVisible(s, 0);
    assert s[0..] == s;
  }

  /** The index of the first whitespace character at or after `from`, or `|s|`. */
  function SpaceFrom(s: String, from: nat): (r: nat)
    requires from <= |s|
    ensures from <= r <= |s|
    ensures r < |s| ==> IsSpace(s[r])
    ensures forall k | from <= k < r :: !IsSpace(s[k])
    decreases |s| - from
  {
    if from == |s| || IsSpace(s[from]) then from else SpaceFrom(s, from + 1)
  }

  /** A word of `s.split()`: non-empty, without whitespace. */
  predicate IsWord(w: String) {
    w != [] && forall k | 0 <= k < |w| :: !IsSpace(w[k])
  }

  /** Every element of `ws` is a word. */
  predicate AllWords(ws: seq<String>) {
    ws == [] || (IsWord(ws[0]) && AllWords(ws[1..]))
  }

  /** An element of a list of words is a word. */
  lemma {:induction false} AllWordsMembers(ws: seq<String>)
    requires AllWords(ws)
    ensures forall w | w in ws :: IsWord(w)
  {
    if ws != [] {
      AllWordsMembers(ws[1..]);
      assert forall w | w in ws :: w == ws[0] || w in ws[1..];
    }
  }

  /** The words of `s[from..]`. */
  function WordsFrom(s: String, from: nat): seq<String>
    requires from <= |s|
    decreases |s| - from
  {
    var i := SpaceEnd(s, from);
    if i == |s| then []
    else
      var n := SpaceFrom(s, i + 1);
      [s[i..n]] + WordsFrom(s, n)
  }

  /** Python's `s.split()` with no argument: the maximal runs of non-whitespace. */
  function Words(s: String): seq<String> {
    WordsFrom(s, 0)
  }

  /** The next word runs from the first non-whitespace character to the next whitespace. */
  lemma WordsFromUnfold(s: String, from: nat) returns (i: nat, n: nat)
    requires from <= |s| && SpaceEnd(s, from) < |s|
    ensures from <= i < n <= |s| && AllSpace(s[from..i]) && IsWord(s[i..n])
    ensures WordsFrom(s, from) == [s[i..n]] + WordsFrom(s, n)
  {
    i := SpaceEnd(s, from);
    n := SpaceFrom(s, i + 1);
    assert WordsFrom(s, from) == [s[i..n]] + WordsFrom(s, n);
    AllSpaceSlice(s, from, i);
    WordSlice(s, i, n);
  }

  lemma WordSlice(s: String, a: nat, b: nat)
    requires a < b <= |s| && forall k | a <= k < b :: !IsSpace(s[k])
    ensures IsWord(s[a..b])
  {
    forall k | 0 <= k < b - a ensures !IsSpace(s[a..b][k]) {
      assert s[a..b][k] == s[a + k];
    }
  }

  /** Leading whitespace and then a word: what is visible is the word and what follows it. */
  lemma WordVisible(s: String, from: nat, i: nat, n: nat)
    requires from <= i < n <= |s| && AllSpace(s[from..i]) && IsWord(s[i..n])
    ensures Visible(s[from..]) == s[i..n] + Visible(s[n..])
  {
    assert s[from..] == s[from..i] + s[i..n] + s[n..];
    VisibleEmptyIffAllSpace(s[from..i]);
    VisibleOfSpaceFree(s[i..n]);
    VisibleAppend(s[from..i] + s[i..n], s[n..]);
    VisibleAppend(s[from..i], s[i..n]);
  }

  lemma {:induction false} WordsFromAreWords(s: String, from: nat)
    requires from <= |s|
    ensures AllWords(WordsFrom(s, from))
    decreases |s| - from
  {
    if SpaceEnd(s, from) < |s| {
      var i, n := WordsFromUnfold(s, from);
      WordsFromAreWords(s, n);
      var ws := WordsFrom(s, from);
      assert ws[0] == s[i..n] && ws[1..] == WordsFrom(s, n);
    }
  }

  /** Every piece of `s.split()` is a non-empty run of non-whitespace. */
  lemma WordsAreWords(s: String)
    ensures AllWords(Words(s))
  {
    WordsFromAreWords(s, 0);
  }

  lemma {:induction false} WordsFromVisible(s: String, from: nat)
    requires from <= |s|
    ensures Concat(WordsFrom(s, from)) == Visible(s[from..])
    decreases |s| - from
  {
    if SpaceEnd(s, from) == |s| {
      AllSpaceSlice(s, from, |s|);
      assert s[from..|s|] == s[from..];
      VisibleEmptyIffAllSpace(s[from..]);
    } else {
      var i, n := WordsFromUnfold(s, from);
      WordsFromVisible(s, n);
      ConcatCons(s[i..n], WordsFrom(s, n));
      WordVisible(s, from, i, n);
    }
  }

  /** The words, put together, are exactly the non-whitespace characters of the text. */
  lemma WordsCoverVisible(s: String)
    ensures Concat(Words(s)) == Visible(s)
  {
    WordsFromVisible(s, 0);
    assert s[0..] == s;
  }
}
