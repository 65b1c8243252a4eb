/** The handful of Python `str` operations the scripts and tools rely on, over `seq<char>`. */
module Text {
  import opened Options

  /** Python's `s.startswith(p)`. */
  predicate StartsWith(s: string, p: string) {
    |p| <= |s| && s[..|p|] == p
  }

  /** Python's `s.endswith(p)`. */
  predicate EndsWith(s: string, p: string) {
    |p| <= |s| && s[|s| - |p|..] == p
  }

  /** `sub` occurs in `s` starting at index `i`. */
  predicate OccursAt(s: string, sub: string, i: int) {
    0 <= i && i + |sub| <= |s| && s[i..i + |sub|] == sub
  }

  lemma OccursAtTail(s: string, sub: string, j: int)
    requires |s| > 0 && 0 <= j
    ensures OccursAt(s[1..], sub, j) <==> OccursAt(s, sub, j + 1)
  {
    if j + |sub| <= |s[1..]| {
      assert s[1..][j..j + |sub|] == s[j + 1..j + 1 + |sub|];
    }
  }

  /** The index of the first occurrence of `sub` in `s` (Python's `s.find(sub)`, with None for -1). */
  function Find(s: string, sub: string): (r: Option<nat>)
    ensures r.Some? ==> OccursAt(s, sub, r.value)
    ensures r.Some? ==> forall j :: 0 <= j < r.value ==> !OccursAt(s, sub, j)
    ensures r.None? ==> forall j :: !OccursAt(s, sub, j)
    decreases |s|
  {
    if |sub| > |s| then None
    else if s[..|sub|] == sub then Some(0)
    else
      var rest := Find(s[1..], sub);
      assert !OccursAt(s, sub, 0) by { assert s[0..|sub|] == s[..|sub|]; }
      forall j | 1 <= j
        ensures OccursAt(s, sub, j) <==> OccursAt(s[1..], sub, j - 1)
      {
        OccursAtTail(s, sub, j - 1);
      }
      match rest
      case None => None
      case Some(i) => Some(i + 1)
  }

  /** Python's `sub in s`. */
  predicate Contains(s: string, sub: string) {
    Find(s, sub).Some?
  }

  lemma OccursInPrefix(s: string, sub: string, i: nat, j: int)
    requires i <= |s|
    ensures OccursAt(s[..i], sub, j) <==> (OccursAt(s, sub, j) && j + |sub| <= i)
  {
    if 0 <= j && j + |sub| <= i {
      assert s[..i][j..j + |sub|] == s[j..j + |sub|];
    }
  }

  /** No occurrence lies wholly before the first one. */
  lemma NoEarlierOccurrence(s: string, sub: string, i: nat)
    requires |sub| > 0 && Find(s, sub) == Some(i)
    ensures !Contains(s[..i], sub)
  {
    forall j ensures !OccursAt(s[..i], sub, j) {
      OccursInPrefix(s, sub, i, j);
    }
  }

  /** A one-character separator after a part without it is the first occurrence. */
  lemma FindAfterClean(x: string, sep: string, y: string)
    requires |sep| == 1 && !Contains(x, sep)
    ensures Find(x + sep + y, sep) == Some(|x|)
  {
    var s := x + sep + y;
    assert s[|x|..|x| + 1] == sep;
    forall j | 0 <= j < |x| ensures !OccursAt(s, sep, j) {
      assert s[j..j + 1] == x[j..j + 1];
      assert !OccursAt(x, sep, j);
    }
    assert OccursAt(s, sep, |x|);
    match Find(s, sep)
    case None =>
    case Some(i) =>
      if i < |x| {
        assert !OccursAt(s, sep, i);
      }
  }

  /** Python's `sep.join(parts)`. */
  function Join(sep: string, parts: seq<string>): string
    decreases |parts|
  {
    if |parts| == 0 then ""
    else if |parts| == 1 then parts[0]
    else parts[0] + sep + Join(sep, parts[1..])
  }

  /** A join starts with its first part, so it is non-empty when that part is. */
  lemma JoinKeepsFirst(sep: string, parts: seq<string>)
    requires |parts| > 0
    ensures StartsWith(Join(sep, parts), parts[0])
    ensures |Join(sep, parts)| >= |parts[0]|
  {
    if |parts| > 1 {
      assert Join(sep, parts) == parts[0] + (sep + Join(sep, parts[1..]));
    }
  }

  /** A join of two or more parts starts with the first two parts and the separator between them. */
  lemma JoinFirstTwo(sep: string, parts: seq<string>)
    requires |parts| >= 2
    ensures exists rest :: Join(sep, parts) == parts[0] + sep + parts[1] + rest
  {
    var tail := Join(sep, parts[1..]);
    JoinKeepsFirst(sep, parts[1..]);
    assert tail == parts[1] + tail[|parts[1]|..];
    assert Join(sep, parts) == parts[0] + sep + parts[1] + tail[|parts[1]|..];
  }

  /** Python's `s.split(sep)` for a non-empty separator: the fields between the occurrences of `sep`. */
  function Split(s: string, sep: string): (r: seq<string>)
    requires |sep| > 0
    ensures |r| >= 1
    decreases |s|
  {
    match Find(s, sep)
    case None => [s]
    case Some(i) => [s[..i]] + Split(s[i + |sep|..], sep)
  }

  /** A split has more than one field exactly when the separator occurs. */
  lemma SplitCount(s: string, sep: string)
    requires |sep| > 0
    ensures (|Split(s, sep)| == 1) == !Contains(s, sep)
  {
    match Find(s, sep)
    case None =>
    case Some(i) =>
      assert |Split(s, sep)| == 1 + |Split(s[i + |sep|..], sep)|;
  }

  /** No field of a split contains the separator. */
  lemma {:induction false} SplitFieldsClean(s: string, sep: string)
    requires |sep| > 0
    ensures forall k :: 0 <= k < |Split(s, sep)| ==> !Contains(Split(s, sep)[k], sep)
    decreases |s|
  {
    match Find(s, sep)
    case None =>
    case Some(i) =>
      NoEarlierOccurrence(s, sep, i);
      SplitFieldsClean(s[i + |sep|..], sep);
  }

  /** Joining a part in front of a non-empty list puts the separator between them. */
  lemma JoinCons(sep: string, head: string, parts: seq<string>)
    requires |parts| > 0
    ensures Join(sep, [head] + parts) == head + sep + Join(sep, parts)
  {
    assert ([head] + parts)[1..] == parts;
  }

  /** Splitting at the first occurrence gives the text before it, then the split of the rest. */
  lemma {:induction false} SplitStep(s: string, sep: string, i: nat)
    requires |sep| > 0 && Find(s, sep) == Some(i)
    ensures Split(s, sep) == [s[..i]] + Split(s[i + |sep|..], sep)
  {
  }

  /** A string is the text before an occurrence, the occurrence, and the text after it. */
  lemma AroundOccurrence(s: string, sub: string, i: nat)
    requires OccursAt(s, sub, i)
    ensures s == s[..i] + sub + s[i + |sub|..]
  {
    assert s == s[..i] + s[i..i + |sub|] + s[i + |sub|..];
  }

  /** Splitting and re-joining with the same separator gives back the original string. */
  lemma {:induction false} JoinSplit(s: string, sep: string)
    requires |sep| > 0
    ensures Join(sep, Split(s, sep)) == s
    decreases |s|
  {
    match Find(s, sep)
    case None =>
      assert Split(s, sep) == [s];
    case Some(i) =>
      var rest := s[i + |sep|..];
      SplitStep(s, sep, i);
      AroundOccurrence(s, sep, i);
      JoinSplit(rest, sep);
      JoinCons(sep, s[..i], Split(rest, sep));
  }

  /** The first field of a split is a prefix of the string: Python's `s.split(sep)[0]`. */
  lemma SplitHeadIsPrefix(s: string, sep: string)
    requires |sep| > 0
    ensures StartsWith(s, Split(s, sep)[0])
  {
  }

  /** Python's `s.split(sep, 1)` when `sep` occurs: the text before and after its first occurrence. */
  function SplitOnce(s: string, sep: string): (r: (string, string))
    requires |sep| > 0 && Contains(s, sep)
    ensures r.0 + sep + r.1 == s
    ensures !Contains(r.0, sep)
  {
    var i := Find(s, sep).value;
    NoEarlierOccurrence(s, sep, i);
    assert s == s[..i] + s[i..i + |sep|] + s[i + |sep|..];
    (s[..i], s[i + |sep|..])
  }

  /** Python's `s.replace(pat, rep)` for a non-empty `pat`: every non-overlapping occurrence, left to right. */
  function ReplaceAll(s: string, pat: string, rep: string): string
    requires |pat| > 0
    decreases |s|
  {
    if |s| < |pat| then s
    else if s[..|pat|] == pat then rep + ReplaceAll(s[|pat|..], pat, rep)
    else [s[0]] + ReplaceAll(s[1..], pat, rep)
  }

  /** Replacing a string that does not occur changes nothing. */
  lemma {:induction false} ReplaceAbsent(s: string, pat: string, rep: string)
    requires |pat| > 0 && !Contains(s, pat)
    ensures ReplaceAll(s, pat, rep) == s
    decreases |s|
  {
    if |s| >= |pat| {
      forall j | 0 <= j ensures !OccursAt(s[1..], pat, j) {
        OccursAtTail(s, pat, j);
      }
      assert s[..|pat|] == s[0..|pat|];
      ReplaceAbsent(s[1..], pat, rep);
    }
  }

  /** Replacing a string by itself changes nothing. */
  lemma {:induction false} ReplaceSame(s: string, pat: string)
    requires |pat| > 0
    ensures ReplaceAll(s, pat, pat) == s
    decreases |s|
  {
    if |s| >= |pat| {
      if s[..|pat|] == pat {
        ReplaceSame(s[|pat|..], pat);
        assert s == pat + s[|pat|..];
      } else {
        ReplaceSame(s[1..], pat);
        assert s == [s[0]] + s[1..];
      }
    }
  }

  /** When `pat` occurs, the replacement text occurs in the result. */
  lemma {:induction false} ReplaceIntroduces(s: string, pat: string, rep: string)
    requires |pat| > 0 && Contains(s, pat)
    ensures Contains(ReplaceAll(s, pat, rep), rep)
    decreases |s|
  {
    var r := ReplaceAll(s, pat, rep);
    if s[..|pat|] == pat {
      assert r[..|rep|] == rep;
      assert OccursAt(r, rep, 0);
    } else {
      assert !OccursAt(s, pat, 0);
      var i := Find(s, pat).value;
      OccursAtTail(s, pat, i - 1);
      assert Contains(s[1..], pat);
      ReplaceIntroduces(s[1..], pat, rep);
      var t := ReplaceAll(s[1..], pat, rep);
      var j := Find(t, rep).value;
      assert r == [s[0]] + t;
      OccursAtTail(r, rep, j);
    }
  }

  /** The whitespace characters Python's `str.strip()` removes. */
  predicate IsSpace(c: char) {
    ('\U{0009}' <= c <= '\U{000D}') || ('\U{001C}' <= c <= '\U{0020}')
    || c == '\U{0085}' || c == '\U{00A0}' || c == '\U{1680}'
    || ('\U{2000}' <= c <= '\U{200A}') || c == '\U{2028}' || c == '\U{2029}'
    || c == '\U{202F}' || c == '\U{205F}' || c == '\U{3000}'
  }

  predicate Blank(s: string) {
    forall k :: 0 <= k < |s| ==> IsSpace(s[k])
  }

  function StripStart(s: string): (r: string)
    ensures EndsWith(s, r)
    ensures |r| > 0 ==> !IsSpace(r[0])
    ensures Blank(s[..|s| - |r|])
    decreases |s|
  {
    if |s| > 0 && IsSpace(s[0]) then
      var r := StripStart(s[1..]);
      assert s[..|s| - |r|] == [s[0]] + s[1..][..|s| - 1 - |r|];
      r
    else s
  }

  function StripEnd(s: string): (r: string)
    ensures StartsWith(s, r)
    ensures |r| > 0 ==> !IsSpace(r[|r| - 1])
    ensures Blank(s[|r|..])
    decreases |s|
  {
    if |s| > 0 && IsSpace(s[|s| - 1]) then
      var r := StripEnd(s[..|s| - 1]);
      assert s[|r|..] == s[..|s| - 1][|r|..] + [s[|s| - 1]];
      r
    else s
  }

  /** Python's `s.strip()`: the longest middle part that neither starts nor ends with whitespace. */
  function Strip(s: string): (r: string)
    ensures |r| > 0 ==> !IsSpace(r[0]) && !IsSpace(r[|r| - 1])
    ensures r == "" <==> Blank(s)
    ensures |r| <= |s|
    ensures exists i :: Surrounds(s, r, i)
  {
    var t := StripStart(s);
    var r := StripEnd(t);
    assert |r| > 0 ==> r[0] == t[0];
    assert (r == "") == Blank(s) by {
      if |t| > 0 {
        assert t[0] == s[|s| - |t|];
      } else {
        assert s[..|s| - |t|] == s;
      }
    }
    StripSurrounded(s, t, r);
    r
  }

  /** `s` is `r` with only white space before it, from index `i`, and only white space after it. */
  predicate Surrounds(s: string, r: string, i: int) {
    0 <= i <= |s| - |r| && Blank(s[..i]) && s[i..i + |r|] == r && Blank(s[i + |r|..])
  }

  lemma {:induction false} StripSurrounded(s: string, t: string, r: string)
    requires t == StripStart(s) && r == StripEnd(t)
    ensures Surrounds(s, r, |s| - |t|)
  {
    var i := |s| - |t|;
    assert EndsWith(s, t) && StartsWith(t, r);
    assert Blank(s[..i]) && Blank(t[|r|..]);
    assert s[i..] == t;
    assert t[..|r|] == r;
    assert s[i..i + |r|] == t[..|r|];
    assert s[i + |r|..] == t[|r|..];
  }

  /** Python's `s.count(c)` for a single character. */
  function CountChar(s: string, c: char): nat
    decreases |s|
  {
    if |s| == 0 then 0 else (if s[0] == c then 1 else 0) + CountChar(s[1..], c)
  }

  lemma {:induction false} CountCharAppend(a: string, b: string, c: char)
    ensures CountChar(a + b, c) == CountChar(a, c) + CountChar(b, c)
    decreases |a|
  {
    if |a| > 0 {
      assert (a + b)[1..] == a[1..] + b;
      CountCharAppend(a[1..], b, c);
    } else {
      assert a + b == b;
    }
  }

  /** Python's `c * n` for a one-character string. */
  function Repeat(c: char, n: nat): (r: string)
    ensures |r| == n
    ensures forall k :: 0 <= k < n ==> r[k] == c
  {
    if n == 0 then "" else [c] + Repeat(c, n - 1)
  }

  lemma {:induction false} CountRepeat(c: char, d: char, n: nat)
    ensures CountChar(Repeat(c, n), d) == if c == d then n else 0
  {
    if n > 0 {
      assert Repeat(c, n)[1..] == Repeat(c, n - 1);
      CountRepeat(c, d, n - 1);
    }
  }

  /** Python's `s.lower()` restricted to ASCII letters. */
  function LowerAscii(s: string): (r: string)
    ensures |r| == |s|
    ensures forall k :: 0 <= k < |s| ==> r[k] == (if 'A' <= s[k] <= 'Z' then (s[k] - 'A' + 'a') as char else s[k])
  {
    seq(|s|, k requires 0 <= k < |s| => if 'A' <= s[k] <= 'Z' then (s[k] - 'A' + 'a') as char else s[k])
  }

  /** Python's `str(n)` for an integer. */
  function Decimal(n: int): (r: string)
    ensures |r| > 0
    decreases if n < 0 then 1 - n else n
  {
    if n < 0 then "-" + Decimal(-n)
    else if n < 10 then [('0' as int + n) as char]
    else Decimal(n / 10) + Decimal(n % 10)
  }
}
