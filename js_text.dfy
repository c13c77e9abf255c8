/**
 * The JavaScript string built-ins the screens rely on: `indexOf`, `substring`,
 * `split` / `join`, `split(sep)[0]` and `trim`.
 */
module JsText {

  /** `s.indexOf(c)` for a one-character needle: the first index of `c`, or -1. */
  function IndexOf(s: string, c: char): (r: int)
    ensures -1 <= r < |s|
    ensures r == -1 <==> c !in s
    ensures r >= 0 ==> s[r] == c && c !in s[..r]
  {
    if |s| == 0 then -1
    else if s[0] == c then 0
    else
      var k := IndexOf(s[1..], c);
      if k == -1 then -1
      else
        assert s[..k + 1] == [s[0]] + s[1..][..k];
        k + 1
  }

  function Min(a: int, b: int): int { if a <= b then a else b }
  function Max(a: int, b: int): int { if a <= b then b else a }

  /** The index argument clamping of `substring`: negative becomes 0, past the end becomes the length. */
  function ClampIndex(i: int, n: nat): (r: nat)
    ensures r <= n
  {
    if i < 0 then 0 else if i > n then n else i
  }

  /**
   * `s.substring(a, b)`: both indices are clamped to [0, |s|] and swapped if out of order,
   * so it never fails.
   */
  function Substring(s: string, a: int, b: int): (r: string)
    ensures |r| <= |s|
  {
    var x := ClampIndex(a, |s|);
    var y := ClampIndex(b, |s|);
    s[Min(x, y)..Max(x, y)]
  }

  /** `substring(a, b)` with in-range, ordered indices is the ordinary slice. */
  lemma SubstringInRange(s: string, a: int, b: int)
    requires 0 <= a <= b <= |s|
    ensures Substring(s, a, b) == s[a..b]
  {
  }

  /** A negative end index is clamped to 0 and the pair swapped: the text before `a`. */
  lemma SubstringNegativeEnd(s: string, a: int, b: int)
    requires 0 <= a <= |s| && b < 0
    ensures Substring(s, a, b) == s[..a]
  {
  }

  /** `substring(0, n)` keeps at most the first `n` characters. */
  lemma SubstringPrefix(s: string, n: nat)
    ensures Substring(s, 0, n) == if n <= |s| then s[..n] else s
  {
  }

  // ---------------------------------------------------------------- split / join

  /** `s.split(sep)` for a one-character separator: the pieces between separators. */
  function Split(s: string, sep: char): (parts: seq<string>)
    ensures |parts| >= 1
    ensures forall k :: 0 <= k < |parts| ==> sep !in parts[k]
    decreases |s|
  {
    var i := IndexOf(s, sep);
    if i == -1 then [s] else [s[..i]] + Split(s[i + 1..], sep)
  }

  /** `parts.join(sep)`. */
  function Join(parts: seq<string>, sep: char): string
    requires |parts| >= 1
  {
    if |parts| == 1 then parts[0] else parts[0] + [sep] + Join(parts[1..], sep)
  }

  /** Joining the pieces of a split gives back the original text. */
  lemma {:induction false} JoinSplit(s: string, sep: char)
    ensures Join(Split(s, sep), sep) == s
    decreases |s|
  {
    var i := IndexOf(s, sep);
    if i != -1 {
      var rest := s[i + 1..];
      var parts := Split(s, sep);
      assert parts == [s[..i]] + Split(rest, sep);
      assert |parts| > 1 && parts[0] == s[..i] && parts[1..] == Split(rest, sep);
      assert Join(parts, sep) == parts[0] + [sep] + Join(parts[1..], sep);
      JoinSplit(rest, sep);
      assert s == s[..i] + [sep] + rest;
    }
  }

  /** Splitting a join of separator-free pieces gives back the pieces. */
  lemma {:induction false} SplitJoin(parts: seq<string>, sep: char)
    requires |parts| >= 1
    requires forall k :: 0 <= k < |parts| ==> sep !in parts[k]
    ensures Split(Join(parts, sep), sep) == parts
    decreases |parts|
  {
    if |parts| > 1 {
      var rest := Join(parts[1..], sep);
      var s := Join(parts, sep);
      assert s == parts[0] + [sep] + rest;
      IndexOfAfter(parts[0], sep, rest);
      assert s[..|parts[0]|] == parts[0];
      assert s[|parts[0]| + 1..] == rest;
      assert Split(s, sep) == [parts[0]] + Split(rest, sep);
      SplitJoin(parts[1..], sep);
      assert parts == [parts[0]] + parts[1..];
    }
  }

  /** The first `c` of `a + [c] + rest` is the one after `a` when `a` holds none. */
  lemma IndexOfAfter(a: string, c: char, rest: string)
    requires c !in a
    ensures IndexOf(a + [c] + rest, c) == |a|
  {
    var s := a + [c] + rest;
    var r := IndexOf(s, c);
    assert s[|a|] == c;
    assert forall k :: 0 <= k < |a| ==> s[k] == a[k];
    ElementInPrefix(s, |a|, r);
  }

  /** An element before index `j` is in the prefix of length `j`. */
  lemma ElementInPrefix(s: string, i: int, j: int)
    ensures 0 <= i < j <= |s| ==> s[i] in s[..j]
  {
    if 0 <= i < j <= |s| {
      assert s[..j][i] == s[i];
    }
  }

  /** Appending one more piece to a join. */
  lemma {:induction false} JoinSnoc(parts: seq<string>, p: string, sep: char)
    requires |parts| >= 1
    ensures Join(parts + [p], sep) == Join(parts, sep) + [sep] + p
    decreases |parts|
  {
    if |parts| > 1 {
      assert (parts + [p])[1..] == parts[1..] + [p];
      JoinSnoc(parts[1..], p, sep);
    }
  }

  // ---------------------------------------------------------------- split(sep)[0]

  /** `needle` starts at index `j` of `s`. */
  predicate OccursAt(s: string, needle: string, j: int) {
    0 <= j && j + |needle| <= |s| && s[j..j + |needle|] == needle
  }

  /** An occurrence at `j >= 1` is an occurrence at `j - 1` of the tail. */
  lemma OccursAtTail(s: string, needle: string, j: int)
    requires s != [] && 1 <= j
    ensures OccursAt(s, needle, j) <==> OccursAt(s[1..], needle, j - 1)
  {
    if j + |needle| <= |s| {
      var a, b := s[j..j + |needle|], s[1..][j - 1..j - 1 + |needle|];
      assert |a| == |b|;
      forall k | 0 <= k < |a|
        ensures a[k] == b[k]
      {
        assert a[k] == s[j + k];
        assert b[k] == s[1..][j - 1 + k];
      }
      assert a == b;
    }
  }

  /** An occurrence that ends within a prefix is an occurrence in the prefix. */
  lemma OccursAtPrefix(s: string, needle: string, i: nat, j: int)
    requires i <= |s| && 0 <= j && j + |needle| <= i
    ensures OccursAt(s[..i], needle, j) <==> OccursAt(s, needle, j)
  {
    assert s[..i][j..j + |needle|] == s[j..j + |needle|];
  }

  /** `s.indexOf(needle)` for a non-empty needle: the first occurrence, or -1. */
  function Find(s: string, needle: string): (r: int)
    requires |needle| > 0
    ensures -1 <= r <= |s|
    ensures r >= 0 ==> OccursAt(s, needle, r)
    ensures forall j :: 0 <= j && (r == -1 || j < r) ==> !OccursAt(s, needle, j)
    decreases |s|
  {
    if |s| < |needle| then -1
    else if s[..|needle|] == needle then 0
    else
      var k := Find(s[1..], needle);
      assert forall j :: 1 <= j ==> (OccursAt(s, needle, j) <==> OccursAt(s[1..], needle, j - 1)) by {
        forall j | 1 <= j {
          OccursAtTail(s, needle, j);
        }
      }
      if k == -1 then -1 else k + 1
  }

  /** `s.split(sep)[0]`: the text before the first occurrence of `sep`, or all of `s`. */
  function BeforeFirst(s: string, sep: string): (r: string)
    requires |sep| > 0
    ensures |r| <= |s| && r == s[..|r|]
    ensures forall j :: 0 <= j && j + |sep| <= |r| ==> !OccursAt(r, sep, j)
    ensures |r| < |s| ==> OccursAt(s, sep, |r|)
  {
    var i := Find(s, sep);
    if i == -1 then
      s
    else
      assert forall j :: 0 <= j && j + |sep| <= i ==> (OccursAt(s[..i], sep, j) <==> OccursAt(s, sep, j)) by {
        forall j | 0 <= j && j + |sep| <= i {
          OccursAtPrefix(s, sep, i, j);
        }
      }
      s[..i]
  }

  // ---------------------------------------------------------------- trim

  /** The characters `String.prototype.trim` removes: ECMAScript WhiteSpace and LineTerminator. */
  predicate IsJsSpace(c: char) {
    c == '\t' || c == '\n' || c == '\U{000B}' || c == '\U{000C}' || c == '\r' || c == ' '
    || c == '\U{00A0}' || c == '\U{1680}' || ('\U{2000}' <= c <= '\U{200A}')
    || c == '\U{2028}' || c == '\U{2029}' || c == '\U{202F}' || c == '\U{205F}'
    || c == '\U{3000}' || c == '\U{FEFF}'
  }

  /** Removes leading white space (also the first step of `parseInt` and `parseFloat`). */
  function TrimStart(s: string): (r: string)
    ensures |r| <= |s| && r == s[|s| - |r|..]
    ensures forall k :: 0 <= k < |s| - |r| ==> IsJsSpace(s[k])
    ensures r != [] ==> !IsJsSpace(r[0])
  {
    if s != [] && IsJsSpace(s[0]) then TrimStart(s[1..]) else s
  }

  /** Removes trailing white space. */
  function TrimEnd(s: string): (r: string)
    ensures |r| <= |s| && r == s[..|r|]
    ensures forall k :: |r| <= k < |s| ==> IsJsSpace(s[k])
    ensures r != [] ==> !IsJsSpace(r[|r| - 1])
  {
    if s != [] && IsJsSpace(s[|s| - 1]) then TrimEnd(s[..|s| - 1]) else s
  }

  /** `s.trim()`. */
  function Trim(s: string): (r: string)
    ensures |r| <= |s|
  {
    TrimEnd(TrimStart(s))
  }

  /** A trimmed value is empty exactly when the input held only white space. */
  lemma TrimEmptyIff(s: string)
    ensures Trim(s) == [] <==> forall k :: 0 <= k < |s| ==> IsJsSpace(s[k])
  {
  }

  /** How much leading white space `trim` drops. */
  function LeadingSpace(s: string): (i: nat)
    ensures i <= |s|
  {
    |s| - |TrimStart(s)|
  }

  /** The first `n` characters from `i` on. */
  lemma PrefixOfSuffix(s: string, i: nat, n: nat)
    requires i + n <= |s|
    ensures s[i..][..n] == s[i..i + n]
  {
    var a, b := s[i..][..n], s[i..i + n];
    forall k | 0 <= k < n ensures a[k] == b[k] {
      assert a[k] == s[i + k] == b[k];
    }
  }

  /** The trimmed text is the slice of the input after its leading white space. */
  lemma TrimSlice(s: string)
    ensures LeadingSpace(s) + |Trim(s)| <= |s|
    ensures Trim(s) == s[LeadingSpace(s)..LeadingSpace(s) + |Trim(s)|]
  {
    var t := TrimStart(s);
    var r := TrimEnd(t);
    assert t == s[LeadingSpace(s)..];
    PrefixOfSuffix(s, LeadingSpace(s), |r|);
  }

  /** Everything `trim` drops, before and after the slice it keeps, is white space. */
  lemma TrimDropsOnlySpace(s: string)
    ensures forall k :: 0 <= k < LeadingSpace(s) ==> IsJsSpace(s[k])
    ensures forall k :: LeadingSpace(s) + |Trim(s)| <= k < |s| ==> IsJsSpace(s[k])
  {
    var t := TrimStart(s);
    var i := LeadingSpace(s);
    assert t == s[i..];
    TrailingSpaceOfSuffix(s, i, t);
  }

  /** Trailing white space of a suffix is trailing white space of the whole. */
  lemma TrailingSpaceOfSuffix(s: string, i: nat, t: string)
    requires i <= |s| && t == s[i..]
    ensures forall k :: i + |TrimEnd(t)| <= k < |s| ==> IsJsSpace(s[k])
  {
    var n := |TrimEnd(t)|;
    forall k | i + n <= k < |s| ensures IsJsSpace(s[k]) {
      assert s[k] == t[k - i];
    }
  }

  /** Text with no white space at either end is its own trim. */
  lemma TrimOfUnpadded(s: string)
    requires s != [] && !IsJsSpace(s[0]) && !IsJsSpace(s[|s| - 1])
    ensures Trim(s) == s
  {
    assert TrimStart(s) == s;
  }

  /** A non-empty trimmed text starts and ends with a character that is not white space. */
  lemma TrimEnds(s: string)
    ensures Trim(s) != [] ==> !IsJsSpace(Trim(s)[0]) && !IsJsSpace(Trim(s)[|Trim(s)| - 1])
  {
    var t := TrimStart(s);
    var r := TrimEnd(t);
    if r != [] {
      assert r[0] == t[0];
    }
  }

  /** Trimming twice is trimming once. */
  lemma TrimIdempotent(s: string)
    ensures Trim(Trim(s)) == Trim(s)
  {
    var r := Trim(s);
    TrimEnds(s);
    if r != [] {
      assert TrimStart(r) == r;
      assert TrimEnd(r) == r;
    }
  }
}
