/**
 The java.lang.String operations the search backend relies on, stated over
 `string` (a sequence of Unicode scalar values).

 Case mapping covers the ASCII letters only. `Split` is `String.split(regex)`
 with limit 0 for a regular expression that matches one literal text: an input
 without a match yields itself, otherwise trailing empty pieces are removed.
 */
module JavaString {
  import opened Nullable

  // ---------------------------------------------------------------------
  // Case mapping (ASCII letters)
  // ---------------------------------------------------------------------

  function LowerChar(c: char): char
  {
    if 'A' <= c <= 'Z' then (c as int + 32) as char else c
  }

  function UpperChar(c: char): char
  {
    if 'a' <= c <= 'z' then (c as int - 32) as char else c
  }

  /** `s.toLowerCase()` */
  function Lower(s: string): (r: string)
    ensures |r| == |s|
    ensures forall i :: 0 <= i < |s| ==> r[i] == LowerChar(s[i])
  {
    seq(|s|, i requires 0 <= i < |s| => LowerChar(s[i]))
  }

  /** `s.toUpperCase()` */
  function Upper(s: string): (r: string)
    ensures |r| == |s|
    ensures forall i :: 0 <= i < |s| ==> r[i] == UpperChar(s[i])
  {
    seq(|s|, i requires 0 <= i < |s| => UpperChar(s[i]))
  }

  /** `a.equalsIgnoreCase(b)` */
  predicate EqualsIgnoreCase(a: string, b: string)
  {
    Lower(a) == Lower(b)
  }

  /** Lower-casing distributes over concatenation. */
  lemma LowerAppend(a: string, b: string)
    ensures Lower(a + b) == Lower(a) + Lower(b)
  {
    assert forall i :: 0 <= i < |a + b| ==> Lower(a + b)[i] == (Lower(a) + Lower(b))[i];
  }

  /** Lower-casing twice is lower-casing once. */
  lemma LowerIdempotent(s: string)
    ensures Lower(Lower(s)) == Lower(s)
  {
  }

  // ---------------------------------------------------------------------
  // Substrings
  // ---------------------------------------------------------------------

  /** `sub` occurs in `s` starting at index `i`. */
  predicate OccursAt(s: string, sub: string, i: int)
  {
    0 <= i && i + |sub| <= |s| && s[i..i + |sub|] == sub
  }

  /** `s.contains(sub)` */
  predicate Contains(s: string, sub: string)
  {
    exists i | 0 <= i <= |s| :: OccursAt(s, sub, i)
  }

  /** Lower-casing neither creates nor removes a character that is not a letter. */
  lemma LowerKeepsChar(s: string, c: char)
    requires !('A' <= c <= 'Z') && !('a' <= c <= 'z')
    ensures Contains(Lower(s), [c]) <==> Contains(s, [c])
  {
    if Contains(Lower(s), [c]) {
      var i :| 0 <= i <= |Lower(s)| && OccursAt(Lower(s), [c], i);
      assert Lower(s)[i] == c;
      assert s[i] == c;
      assert s[i..i + 1] == [c];
      assert OccursAt(s, [c], i);
    }
    if Contains(s, [c]) {
      var i :| 0 <= i <= |s| && OccursAt(s, [c], i);
      assert s[i] == c;
      assert Lower(s)[i..i + 1] == [Lower(s)[i]];
      assert OccursAt(Lower(s), [c], i);
    }
  }

  /** `s.startsWith(p)` */
  predicate StartsWith(s: string, p: string)
  {
    p <= s
  }

  /** The first occurrence of `d` in `s` at or after index `k`: `s.indexOf(d, k)`. */
  function IndexFrom(s: string, d: string, k: nat): (r: Option<nat>)
    requires k <= |s|
    ensures r.Some? ==> k <= r.value && OccursAt(s, d, r.value)
    ensures r.Some? ==> forall j :: k <= j < r.value ==> !OccursAt(s, d, j)
    ensures r.None? ==> forall j :: k <= j ==> !OccursAt(s, d, j)
    decreases |s| - k
  {
    if k + |d| > |s| then None
    else if s[k..k + |d|] == d then Some(k)
    else if k == |s| then None
    else IndexFrom(s, d, k + 1)
  }

  lemma IndexFromContains(s: string, d: string)
    ensures IndexFrom(s, d, 0).Some? <==> Contains(s, d)
  {
    if Contains(s, d) {
      var i :| 0 <= i <= |s| && OccursAt(s, d, i);
    }
  }

  // ---------------------------------------------------------------------
  // Joining and splitting
  // ---------------------------------------------------------------------

  /** `String.join(sep, parts)` */
  function Join(sep: string, parts: seq<string>): string
  {
    if |parts| == 0 then ""
    else if |parts| == 1 then parts[0]
    else parts[0] + sep + Join(sep, parts[1..])
  }

  /** `d` repeated `k` times. */
  function Repeat(d: string, k: nat): string
  {
    if k == 0 then "" else d + Repeat(d, k - 1)
  }

  /** The pieces between the non-overlapping occurrences of `d`, scanning left to right, empty ones included. */
  function Pieces(s: string, d: string): (r: seq<string>)
    requires |d| > 0
    ensures |r| >= 1
    decreases |s|
  {
    match IndexFrom(s, d, 0)
    case None => [s]
    case Some(i) => [s[..i]] + Pieces(s[i + |d|..], d)
  }

  /** Drops the empty strings at the end of `xs`. */
  function DropTrailingEmpty(xs: seq<string>): (r: seq<string>)
    ensures r <= xs
    ensures |r| > 0 ==> r[|r| - 1] != ""
    ensures forall k :: |r| <= k < |xs| ==> xs[k] == ""
  {
    if |xs| > 0 && xs[|xs| - 1] == "" then DropTrailingEmpty(xs[..|xs| - 1]) else xs
  }

  /** `s.split(d)` for a pattern `d` that matches exactly the literal text `d`. */
  function Split(s: string, d: string): (r: seq<string>)
    requires |d| > 0
  {
    if IndexFrom(s, d, 0).None? then [s] else DropTrailingEmpty(Pieces(s, d))
  }

  /** `s.split(d)[0]`, which throws when the split is empty. */
  function SplitFirst(s: string, d: string): Outcome<string>
    requires |d| > 0
  {
    var parts := Split(s, d);
    if |parts| == 0 then Thrown("ArrayIndexOutOfBoundsException") else Ok(parts[0])
  }

  /** `s.split(d)[s.split(d).length - 1]`, which throws when the split is empty. */
  function SplitLast(s: string, d: string): Outcome<string>
    requires |d| > 0
  {
    var parts := Split(s, d);
    if |parts| == 0 then Thrown("ArrayIndexOutOfBoundsException") else Ok(parts[|parts| - 1])
  }

  lemma RepeatSnoc(d: string, k: nat)
    ensures Repeat(d, k) + d == Repeat(d, k + 1)
  {
    if k > 0 {
      RepeatSnoc(d, k - 1);
    }
  }

  /** Joining a list extended by an empty string adds one separator (none for an empty list). */
  lemma {:induction false} JoinAppendEmpty(d: string, xs: seq<string>)
    ensures Join(d, xs + [""]) == if |xs| == 0 then "" else Join(d, xs) + d
  {
    if |xs| >= 2 {
      assert (xs + [""])[1..] == xs[1..] + [""];
      JoinAppendEmpty(d, xs[1..]);
    } else if |xs| == 1 {
      assert (xs + [""])[1..] == [""];
    }
  }

  /** Removing trailing empty pieces removes a run of separators from the joined text. */
  lemma {:induction false} JoinDropTrailingEmpty(d: string, xs: seq<string>) returns (k: nat)
    ensures Join(d, xs) == Join(d, DropTrailingEmpty(xs)) + Repeat(d, k)
    decreases |xs|
  {
    if |xs| > 0 && xs[|xs| - 1] == "" {
      var ys := xs[..|xs| - 1];
      assert xs == ys + [""];
      JoinAppendEmpty(d, ys);
      var k' := JoinDropTrailingEmpty(d, ys);
      if |ys| == 0 {
        k := 0;
      } else {
        RepeatSnoc(d, k');
        k := k' + 1;
      }
    } else {
      k := 0;
    }
  }

  /** The pieces joined back with the delimiter give the original text. */
  lemma {:induction false} JoinPieces(s: string, d: string)
    requires |d| > 0
    ensures Join(d, Pieces(s, d)) == s
    decreases |s|
  {
    match IndexFrom(s, d, 0)
    case None =>
    case Some(i) =>
      var rest := Pieces(s[i + |d|..], d);
      JoinPieces(s[i + |d|..], d);
      assert Pieces(s, d) == [s[..i]] + rest;
      assert ([s[..i]] + rest)[1..] == rest;
      assert s == s[..i] + d + s[i + |d|..] by {
        assert s[i..i + |d|] == d;
      }
  }

  /** No piece contains the delimiter. */
  lemma {:induction false} PiecesAvoidDelimiter(s: string, d: string)
    requires |d| > 0
    ensures forall p :: p in Pieces(s, d) ==> !Contains(p, d)
    decreases |s|
  {
    match IndexFrom(s, d, 0)
    case None =>
    case Some(i) =>
      PiecesAvoidDelimiter(s[i + |d|..], d);
      var head := s[..i];
      forall j | 0 <= j <= |head|
        ensures !OccursAt(head, d, j)
      {
        if j + |d| <= |head| {
          assert head[j..j + |d|] == s[j..j + |d|];
          assert !OccursAt(s, d, j);
        }
      }
      assert Pieces(s, d) == [head] + Pieces(s[i + |d|..], d);
  }

  /** Every piece `s.split(d)` returns is free of the delimiter. */
  lemma SplitAvoidsDelimiter(s: string, d: string)
    requires |d| > 0
    ensures forall p :: p in Split(s, d) ==> !Contains(p, d)
  {
    if IndexFrom(s, d, 0).None? {
      IndexFromContains(s, d);
    } else {
      PiecesAvoidDelimiter(s, d);
    }
  }

  /** `s.split(d)` loses only a run of delimiters at the end of `s`. */
  lemma SplitRecovers(s: string, d: string) returns (k: nat)
    requires |d| > 0
    ensures s == Join(d, Split(s, d)) + Repeat(d, k)
  {
    if IndexFrom(s, d, 0).None? {
      k := 0;
    } else {
      JoinPieces(s, d);
      k := JoinDropTrailingEmpty(d, Pieces(s, d));
    }
  }

  /** `s.endsWith(p)` */
  predicate EndsWith(s: string, p: string)
  {
    |p| <= |s| && s[|s| - |p|..] == p
  }

  /** Joining a list of two or more is joining all but the last, a separator, and the last. */
  lemma {:induction false} JoinLast(d: string, parts: seq<string>)
    requires |parts| > 1
    ensures Join(d, parts) == Join(d, parts[..|parts| - 1]) + d + parts[|parts| - 1]
    decreases |parts|
  {
    if |parts| > 2 {
      JoinLast(d, parts[1..]);
      assert parts[1..][..|parts| - 2] == parts[..|parts| - 1][1..];
    }
  }

  /**
   The last piece of `s.split(d)` is a suffix of `s` free of the delimiter,
   preceded by nothing or by a delimiter, and followed by a run of delimiters.
   */
  lemma SplitLastSegment(s: string, d: string) returns (pre: string, k: nat)
    requires |d| > 0 && SplitLast(s, d).Ok?
    ensures !Contains(SplitLast(s, d).value, d)
    ensures s == pre + SplitLast(s, d).value + Repeat(d, k)
    ensures pre == "" || EndsWith(pre, d)
  {
    var parts := Split(s, d);
    SplitAvoidsDelimiter(s, d);
    k := SplitRecovers(s, d);
    var last := parts[|parts| - 1];
    assert last in parts;
    if |parts| == 1 {
      pre := "";
    } else {
      JoinLast(d, parts);
      pre := Join(d, parts[..|parts| - 1]) + d;
      assert pre[|pre| - |d|..] == d;
    }
  }

  /** The pieces of a run of delimiters are all empty. */
  lemma {:induction false} PiecesOfRepeat(d: string, k: nat)
    requires |d| > 0
    ensures forall i :: 0 <= i < |Pieces(Repeat(d, k), d)| ==> Pieces(Repeat(d, k), d)[i] == ""
  {
    if k > 0 {
      var s := Repeat(d, k);
      assert OccursAt(s, d, 0);
      assert IndexFrom(s, d, 0) == Some(0);
      assert s[|d|..] == Repeat(d, k - 1);
      PiecesOfRepeat(d, k - 1);
    }
  }

  lemma {:induction false} DropAllEmpty(xs: seq<string>)
    requires forall i :: 0 <= i < |xs| ==> xs[i] == ""
    ensures DropTrailingEmpty(xs) == []
    decreases |xs|
  {
    if |xs| > 0 {
      DropAllEmpty(xs[..|xs| - 1]);
    }
  }

  /** `s.split(d)` is empty exactly when `s` is one or more delimiters and nothing else. */
  lemma SplitEmptyIff(s: string, d: string)
    requires |d| > 0
    ensures Split(s, d) == [] <==> s != "" && exists k: nat :: s == Repeat(d, k)
  {
    if Split(s, d) == [] {
      var k := SplitRecovers(s, d);
      assert s == Repeat(d, k);
    }
    if s != "" && exists k: nat :: s == Repeat(d, k) {
      var k: nat :| s == Repeat(d, k);
      assert k > 0;
      assert OccursAt(s, d, 0);
      PiecesOfRepeat(d, k);
      DropAllEmpty(Pieces(s, d));
    }
  }

  // ---------------------------------------------------------------------
  // Replacement and trimming
  // ---------------------------------------------------------------------

  /** `s.replace(t, r)`: every non-overlapping occurrence of `t`, left to right, becomes `r`. */
  function Replace(s: string, t: string, r: string): string
    requires |t| > 0
    decreases |s|
  {
    if |s| < |t| then s
    else if s[..|t|] == t then r + Replace(s[|t|..], t, r)
    else [s[0]] + Replace(s[1..], t, r)
  }

  /** The characters `String.trim()` removes: code points up to U+0020. */
  predicate Blank(c: char)
  {
    c <= ' '
  }

  /** The first index at or after `i` holding a non-blank character, or `|s|`. */
  function FirstNonBlank(s: string, i: nat): (n: nat)
    requires i <= |s|
    ensures i <= n <= |s|
    ensures forall k :: i <= k < n ==> Blank(s[k])
    ensures n < |s| ==> !Blank(s[n])
    decreases |s| - i
  {
    if i == |s| || !Blank(s[i]) then i else FirstNonBlank(s, i + 1)
  }

  /** The end of the last non-blank character in `s[lo..j]`, or `lo`. */
  function EndOfNonBlank(s: string, lo: nat, j: nat): (n: nat)
    requires lo <= j <= |s|
    ensures lo <= n <= j
    ensures forall k :: n <= k < j ==> Blank(s[k])
    ensures n > lo ==> !Blank(s[n - 1])
    decreases j
  {
    if j == lo || !Blank(s[j - 1]) then j else EndOfNonBlank(s, lo, j - 1)
  }

  /** `s.trim()` */
  function Trim(s: string): (r: string)
    ensures |r| > 0 ==> !Blank(r[0]) && !Blank(r[|r| - 1])
    ensures |r| <= |s|
  {
    var a := FirstNonBlank(s, 0);
    s[a..EndOfNonBlank(s, a, |s|)]
  }

  /** `s.trim().isEmpty()`: every character is at most U+0020. */
  predicate IsBlankText(s: string)
  {
    Trim(s) == ""
  }

  /** The line terminators, which `.` does not match in a pattern compiled without `DOTALL`. */
  predicate LineTerminator(c: char)
  {
    c == '\n' || c == '\r' || c == '\U{85}' || c == '\U{2028}' || c == '\U{2029}'
  }

  /** No character of `s` is a line terminator. */
  predicate SingleLine(s: string)
  {
    forall i :: 0 <= i < |s| ==> !LineTerminator(s[i])
  }


  /** A trimmed text is its own trim. */
  lemma TrimIdempotent(s: string)
    ensures Trim(Trim(s)) == Trim(s)
  {
    var r := Trim(s);
    assert FirstNonBlank(r, 0) == 0;
    assert EndOfNonBlank(r, 0, |r|) == |r|;
  }

  /** Replacing every occurrence of a one-character target leaves no such character, if the replacement has none. */
  lemma {:induction false} ReplaceRemovesChar(s: string, c: char, r: string)
    requires c !in r
    ensures c !in Replace(s, [c], r)
    decreases |s|
  {
    if |s| >= 1 {
      ReplaceRemovesChar(s[1..], c, r);
    }
  }

  /** Text without the target is left as it is. */
  lemma {:induction false} ReplaceAbsent(s: string, t: string, r: string)
    requires |t| > 0
    requires !Contains(s, t)
    ensures Replace(s, t, r) == s
    decreases |s|
  {
    if |s| >= |t| {
      assert !OccursAt(s, t, 0);
      assert s[..|t|] != t;
      if Contains(s[1..], t) {
        var i :| 0 <= i <= |s[1..]| && OccursAt(s[1..], t, i);
        assert s[1..][i..i + |t|] == s[i + 1..i + 1 + |t|];
        assert OccursAt(s, t, i + 1);
      }
      ReplaceAbsent(s[1..], t, r);
      assert [s[0]] + s[1..] == s;
    }
  }

  /** Removing a suffix tag whose first character the text does not hold gives the text back. */
  lemma {:induction false} ReplaceDropsSuffix(x: string, t: string)
    requires |t| > 0 && t[0] !in x
    ensures Replace(x + t, t, "") == x
    decreases |x|
  {
    if |x| == 0 {
      assert (x + t)[..|t|] == t;
      assert (x + t)[|t|..] == "";
    } else {
      assert (x + t)[0] == x[0] != t[0];
      assert (x + t)[1..] == x[1..] + t;
      ReplaceDropsSuffix(x[1..], t);
      assert [x[0]] + x[1..] == x;
    }
  }

  /** Removing a prefix tag from a text that holds it nowhere else gives the rest. */
  lemma ReplaceDropsPrefix(t: string, y: string)
    requires |t| > 0 && !Contains(y, t)
    ensures Replace(t + y, t, "") == y
  {
    assert (t + y)[..|t|] == t;
    assert (t + y)[|t|..] == y;
    ReplaceAbsent(y, t, "");
  }

  /** The text before the first `d`: `s.split(d)[0]` is a prefix of `s` free of `d`, ending where `s` ends or where a `d` starts. */
  lemma SplitFirstPrefix(s: string, d: string)
    requires |d| > 0 && SplitFirst(s, d).Ok?
    ensures StartsWith(s, SplitFirst(s, d).value)
    ensures !Contains(SplitFirst(s, d).value, d)
    ensures SplitFirst(s, d).value == s || OccursAt(s, d, |SplitFirst(s, d).value|)
  {
    var v := SplitFirst(s, d).value;
    match IndexFrom(s, d, 0)
    case None =>
      IndexFromContains(s, d);
    case Some(i) =>
      var ps := Pieces(s, d);
      assert ps[0] == s[..i];
      assert v == ps[0] && |v| == i;
      forall j | 0 <= j <= |v| ensures !OccursAt(v, d, j) {
        if j + |d| <= |v| {
          assert v[j..j + |d|] == s[j..j + |d|];
          assert !OccursAt(s, d, j);
        }
      }
  }

  /** A text without the character does not contain it as a substring. */
  lemma CharAbsent(s: string, c: char)
    requires c !in s
    ensures !Contains(s, [c])
  {
    forall i | 0 <= i <= |s| ensures !OccursAt(s, [c], i) {
      if i + 1 <= |s| {
        assert s[i..i + 1] == [s[i]];
      }
    }
  }

  /** A one-character replacement by one character maps each character on its own. */
  lemma {:induction false} ReplaceCharMap(s: string, c: char, e: char)
    ensures |Replace(s, [c], [e])| == |s|
    ensures forall i :: 0 <= i < |s| ==> Replace(s, [c], [e])[i] == if s[i] == c then e else s[i]
    decreases |s|
  {
    if |s| >= 1 {
      ReplaceCharMap(s[1..], c, e);
      var rest := Replace(s[1..], [c], [e]);
      if s[..1] == [c] {
        assert Replace(s, [c], [e]) == [e] + rest;
      } else {
        assert Replace(s, [c], [e]) == [s[0]] + rest;
      }
    }
  }

  /** Joining texts free of a character with that character, then cutting at it, gives the texts back. */
  lemma {:induction false} PiecesOfJoin(c: char, ks: seq<string>)
    requires |ks| > 0
    requires forall i :: 0 <= i < |ks| ==> c !in ks[i]
    ensures Pieces(Join([c], ks), [c]) == ks
    decreases |ks|
  {
    var s := Join([c], ks);
    if |ks| == 1 {
      CharAbsent(ks[0], c);
      IndexFromContains(s, [c]);
    } else {
      var n := |ks[0]|;
      var rest := Join([c], ks[1..]);
      assert s == ks[0] + [c] + rest;
      assert s[n..n + 1] == [c];
      forall j | 0 <= j < n ensures !OccursAt(s, [c], j) {
        assert s[j..j + 1] == [ks[0][j]];
      }
      assert OccursAt(s, [c], n);
      var r := IndexFrom(s, [c], 0);
      assert r.Some? && r.value <= n;
      assert r.value == n;
      PiecesOfJoin(c, ks[1..]);
      assert s[..n] == ks[0];
      assert s[n + 1..] == rest;
      assert ks == [ks[0]] + ks[1..];
    }
  }

  /**
   `String.join` with a one-character separator and `split` at it are inverse when no text holds the
   separator and the last text is not empty (`split` drops trailing empty texts).
   */
  lemma SplitOfJoin(c: char, ks: seq<string>)
    requires |ks| > 0 && ks[|ks| - 1] != ""
    requires forall i :: 0 <= i < |ks| ==> c !in ks[i]
    ensures Split(Join([c], ks), [c]) == ks
  {
    PiecesOfJoin(c, ks);
    if IndexFrom(Join([c], ks), [c], 0).None? {
      assert Pieces(Join([c], ks), [c]) == [Join([c], ks)];
    }
  }

  /** A text trims to nothing exactly when every character of it is blank. */
  lemma TrimEmptyAllBlank(s: string)
    ensures Trim(s) == "" <==> forall k :: 0 <= k < |s| ==> Blank(s[k])
  {
    var a := FirstNonBlank(s, 0);
    var e := EndOfNonBlank(s, a, |s|);
    if Trim(s) == "" {
      assert e == a;
    }
  }

  // ---------------------------------------------------------------------
  // Booleans
  // ---------------------------------------------------------------------

  /** `Boolean.parseBoolean(s)`: true exactly for a non-null "true" in any letter case. */
  function ParseBoolean(s: Option<string>): bool
  {
    s.Some? && EqualsIgnoreCase(s.value, "true")
  }
}
