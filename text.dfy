/** String helpers shared by the backend (Python) and front-end (TypeScript) models.
    Strings are sequences of Unicode characters; stripping follows each language's own
    whitespace set, while case mapping is ASCII only. */
module Text {

  datatype Option<+T> = None | Some(value: T)

  /** Python's and JavaScript's truthiness of an optional string: absent or empty is falsy. */
  predicate Truthy(s: Option<string>) {
    s.Some? && s.value != ""
  }

  /** `s or d` (Python) / `s || d` (JavaScript) on an optional string. */
  function OrElse(s: Option<string>, d: string): (r: string)
    ensures Truthy(s) ==> r == s.value
    ensures !Truthy(s) ==> r == d
  {
    if Truthy(s) then s.value else d
  }

  /** The two languages whose whitespace rules the model follows. */
  datatype Language = Python | JavaScript

  /** Whitespace to both languages: tab to carriage return, space, no-break space, the
      Unicode space separators, and the line and paragraph separators. */
  predicate IsCommonSpace(c: char) {
    || '\t' <= c <= '\r' || c == ' ' || c == '\U{A0}' || c == '\U{1680}'
    || '\U{2000}' <= c <= '\U{200A}' || c == '\U{2028}' || c == '\U{2029}'
    || c == '\U{202F}' || c == '\U{205F}' || c == '\U{3000}'
  }

  /** What Python's `str.strip()` removes (`str.isspace()`: the common set plus the
      information separators U+001C to U+001F and U+0085), and what JavaScript's `trim()`
      removes (the common set plus the byte-order mark U+FEFF). */
  predicate IsSpace(lang: Language, c: char) {
    IsCommonSpace(c) ||
    (if lang == Python then '\U{1C}' <= c <= '\U{1F}' || c == '\U{85}' else c == '\U{FEFF}')
  }

  function TrimLeft(lang: Language, s: string): (r: string)
    ensures |r| <= |s| && r == s[|s| - |r|..]
    ensures r == [] || !IsSpace(lang, r[0])
  {
    if s != [] && IsSpace(lang, s[0]) then TrimLeft(lang, s[1..]) else s
  }

  function TrimRight(lang: Language, s: string): (r: string)
    ensures |r| <= |s| && r == s[..|r|]
    ensures r == [] || !IsSpace(lang, r[|r| - 1])
  {
    if s != [] && IsSpace(lang, s[|s| - 1]) then TrimRight(lang, s[..|s| - 1]) else s
  }

  /** TrimLeft removes whitespace only. */
  lemma {:induction false} TrimLeftRemovesSpace(lang: Language, s: string)
    ensures forall i :: 0 <= i < |s| - |TrimLeft(lang, s)| ==> IsSpace(lang, s[i])
  {
    if s != [] && IsSpace(lang, s[0]) {
      TrimLeftRemovesSpace(lang, s[1..]);
      assert forall i :: 1 <= i < |s| - |TrimLeft(lang, s)| ==> s[i] == s[1..][i - 1];
    }
  }

  /** TrimRight removes whitespace only. */
  lemma {:induction false} TrimRightRemovesSpace(lang: Language, s: string)
    ensures forall i :: |TrimRight(lang, s)| <= i < |s| ==> IsSpace(lang, s[i])
  {
    if s != [] && IsSpace(lang, s[|s| - 1]) {
      TrimRightRemovesSpace(lang, s[..|s| - 1]);
      assert forall i :: |TrimRight(lang, s)| <= i < |s| - 1 ==> s[i] == s[..|s| - 1][i];
    }
  }

  /** A string that has nothing to strip. */
  predicate IsStripped(lang: Language, s: string) {
    s == [] || (!IsSpace(lang, s[0]) && !IsSpace(lang, s[|s| - 1]))
  }

  /** Python's `str.strip()` or JavaScript's `trim()`: no leading or trailing whitespace is
      left, and the result is a contiguous piece of the input (StripRemovesSpace: what lies
      around it is whitespace). */
  function Strip(lang: Language, s: string): (r: string)
    ensures r == [] || (!IsSpace(lang, r[0]) && !IsSpace(lang, r[|r| - 1]))
    ensures |s| - |TrimLeft(lang, s)| + |r| <= |s|
    ensures r == s[|s| - |TrimLeft(lang, s)|..|s| - |TrimLeft(lang, s)| + |r|]
  {
    var l := TrimLeft(lang, s);
    var r := TrimRight(lang, l);
    SliceOfSuffix(s, |s| - |l|, |r|);
    assert r != [] ==> r[0] == l[0];
    r
  }

  lemma StripEmpty(lang: Language)
    ensures Strip(lang, "") == ""
  {
  }

  lemma SliceOfSuffix(s: string, k: nat, n: nat)
    requires k + n <= |s|
    ensures s[k..][..n] == s[k..k + n]
  {
  }

  /** What Strip removes, before and after the piece it keeps, is whitespace only. */
  lemma StripRemovesSpace(lang: Language, s: string)
    ensures var k := |s| - |TrimLeft(lang, s)|;
      (forall i :: 0 <= i < k ==> IsSpace(lang, s[i])) &&
      (forall i :: k + |Strip(lang, s)| <= i < |s| ==> IsSpace(lang, s[i]))
  {
    var l := TrimLeft(lang, s);
    var k := |s| - |l|;
    var r := TrimRight(lang, l);
    assert Strip(lang, s) == r;
    TrimLeftRemovesSpace(lang, s);
    TrimRightRemovesSpace(lang, l);
    forall i | k + |r| <= i < |s| ensures IsSpace(lang, s[i]) {
      assert s[i] == l[i - k];
    }
  }

  /** A text stripped to nothing is whitespace throughout. */
  lemma BlankIsAllSpace(lang: Language, s: string)
    requires Strip(lang, s) == ""
    ensures forall i :: 0 <= i < |s| ==> IsSpace(lang, s[i])
  {
    StripRemovesSpace(lang, s);
  }

  lemma StrippedFixed(lang: Language, s: string)
    requires IsStripped(lang, s)
    ensures Strip(lang, s) == s
  {
  }

  lemma StripIdempotent(lang: Language, s: string)
    ensures Strip(lang, Strip(lang, s)) == Strip(lang, s)
  {
    StrippedFixed(lang, Strip(lang, s));
  }

  function LowerChar(c: char): (r: char)
    ensures !('A' <= r <= 'Z')
  {
    if 'A' <= c <= 'Z' then (c as int + 32) as char else c
  }

  function UpperChar(c: char): (r: char)
    ensures !('a' <= r <= 'z')
  {
    if 'a' <= c <= 'z' then (c as int - 32) as char else c
  }

  /** ASCII `lower()` / `toLowerCase()`. */
  function Lower(s: string): (r: string)
    ensures |r| == |s|
    ensures forall i :: 0 <= i < |s| ==> r[i] == LowerChar(s[i])
  {
    seq(|s|, i requires 0 <= i < |s| => LowerChar(s[i]))
  }

  /** ASCII `upper()` / `toUpperCase()`. */
  function Upper(s: string): (r: string)
    ensures |r| == |s|
    ensures forall i {:trigger r[i]} :: 0 <= i < |s| ==> r[i] == UpperChar(s[i])
  {
    seq(|s|, i requires 0 <= i < |s| => UpperChar(s[i]))
  }

  lemma LowerIdempotent(s: string)
    ensures Lower(Lower(s)) == Lower(s)
  {
    assert forall i :: 0 <= i < |s| ==> LowerChar(LowerChar(s[i])) == LowerChar(s[i]);
  }

  lemma LowerOfLowercase(s: string)
    requires forall i :: 0 <= i < |s| ==> !('A' <= s[i] <= 'Z')
    ensures Lower(s) == s
  {
  }

  /** Lower-casing forgets an earlier upper-casing. */
  lemma LowerOfUpper(s: string)
    ensures Lower(Upper(s)) == Lower(s)
  {
    assert forall i :: 0 <= i < |s| ==> LowerChar(UpperChar(s[i])) == LowerChar(s[i]);
  }

  predicate StartsWith(s: string, prefix: string) {
    |prefix| <= |s| && s[..|prefix|] == prefix
  }

  predicate EndsWith(s: string, suffix: string) {
    |suffix| <= |s| && s[|s| - |suffix|..] == suffix
  }

  /** Python's `sub in s`. */
  predicate Contains(s: string, sub: string)
    decreases |s|
  {
    StartsWith(s, sub) || (s != [] && Contains(s[1..], sub))
  }

  /** The first position of `c` in `s`. */
  function IndexOf(s: string, c: char): (i: nat)
    requires c in s
    ensures i < |s| && s[i] == c && c !in s[..i]
  {
    if s[0] == c then 0 else 1 + IndexOf(s[1..], c)
  }

  /** A position holding `c` with no `c` before it is the first position of `c`. */
  lemma {:induction false} IndexOfFirst(s: string, c: char, j: nat)
    requires j < |s| && s[j] == c && c !in s[..j]
    ensures IndexOf(s, c) == j
  {
    if j > 0 {
      assert s[..j][0] == s[0];
      assert s[1..][..j - 1] == s[..j][1..];
      IndexOfFirst(s[1..], c, j - 1);
    }
  }

  /** The last position of `c` in `s`. */
  function LastIndexOf(s: string, c: char): (i: nat)
    requires c in s
    ensures i < |s| && s[i] == c && c !in s[i + 1..]
  {
    if s[|s| - 1] == c then |s| - 1 else LastIndexOf(s[..|s| - 1], c)
  }

  /** Python's `s.split(sep)` for a one-character separator: never empty, no piece holds `sep`. */
  function Split(s: string, sep: char): (parts: seq<string>)
    ensures |parts| >= 1
    ensures forall k :: 0 <= k < |parts| ==> sep !in parts[k]
    decreases |s|
  {
    if sep !in s then [s]
    else
      var i := IndexOf(s, sep);
      [s[..i]] + Split(s[i + 1..], sep)
  }

  /** The inverse of Split: the pieces glued back with the separator. */
  function Join(parts: seq<string>, sep: char): string
    requires |parts| >= 1
  {
    if |parts| == 1 then parts[0] else parts[0] + [sep] + Join(parts[1..], sep)
  }

  lemma {:induction false} JoinSplit(s: string, sep: char)
    ensures Join(Split(s, sep), sep) == s
    decreases |s|
  {
    if sep in s {
      var i := IndexOf(s, sep);
      var rest := s[i + 1..];
      var parts := Split(s, sep);
      assert parts == [s[..i]] + Split(rest, sep);
      assert |parts| >= 2 && parts[0] == s[..i] && parts[1..] == Split(rest, sep);
      JoinSplit(rest, sep);
      assert Join(parts, sep) == s[..i] + [sep] + Join(Split(rest, sep), sep);
      assert s == s[..i] + [sep] + rest;
    } else {
      assert Split(s, sep) == [s];
    }
  }

  /** Splitting at the first separator: the piece before it, then the pieces after it. */
  lemma SplitAt(s: string, sep: char, pre: string, post: string)
    requires s == pre + [sep] + post && sep !in pre
    ensures Split(s, sep) == [pre] + Split(post, sep)
  {
    assert s[..|pre|] == pre && s[|pre|] == sep && s[|pre| + 1..] == post;
    IndexOfFirst(s, sep, |pre|);
  }

  /** Splitting distributes over a separator: the pieces of `a`, then the pieces of `b`. */
  lemma {:induction false} SplitAppend(a: string, b: string, sep: char)
    ensures Split(a + [sep] + b, sep) == Split(a, sep) + Split(b, sep)
    decreases |a|
  {
    if sep !in a {
      SplitAt(a + [sep] + b, sep, a, b);
      assert Split(a, sep) == [a];
    } else {
      var i := IndexOf(a, sep);
      var pre, post := a[..i], a[i + 1..];
      assert a == pre + [sep] + post;
      SplitAppend(post, b, sep);
      SplitAppendStep(a, b, sep, pre, post);
    }
  }

  lemma SplitAppendStep(a: string, b: string, sep: char, pre: string, post: string)
    requires a == pre + [sep] + post && sep !in pre
    requires Split(post + [sep] + b, sep) == Split(post, sep) + Split(b, sep)
    ensures Split(a + [sep] + b, sep) == Split(a, sep) + Split(b, sep)
  {
    SplitAtGlued(a, b, sep, pre, post);
    SplitAt(a, sep, pre, post);
    ConsAppend(pre, Split(post, sep), Split(b, sep));
  }

  lemma SplitAtGlued(a: string, b: string, sep: char, pre: string, post: string)
    requires a == pre + [sep] + post && sep !in pre
    ensures Split(a + [sep] + b, sep) == [pre] + Split(post + [sep] + b, sep)
  {
    assert a + [sep] + b == pre + [sep] + (post + [sep] + b);
    SplitAt(a + [sep] + b, sep, pre, post + [sep] + b);
  }

  lemma ConsAppend<T>(h: T, p: seq<T>, q: seq<T>)
    ensures [h] + (p + q) == ([h] + p) + q
  {
  }

  predicate IsDigit(c: char) {
    '0' <= c <= '9'
  }

  /** The decimal rendering of a natural number, as Python's `str` / JavaScript's template literals give it. */
  function Decimal(n: nat): (r: string)
    ensures |r| >= 1
    ensures forall i :: 0 <= i < |r| ==> IsDigit(r[i])
  {
    if n < 10 then [('0' as int + n) as char]
    else Decimal(n / 10) + [('0' as int + n % 10) as char]
  }

  /** The decimal value of a string of digits. */
  function DigitsValue(s: string): nat
    requires forall i :: 0 <= i < |s| ==> IsDigit(s[i])
  {
    if s == [] then 0
    else
      assert IsDigit(s[|s| - 1]);
      10 * DigitsValue(s[..|s| - 1]) + (s[|s| - 1] as int - '0' as int)
  }

  /** Decimal loses nothing: the digits read back as the number. */
  lemma {:induction false} DecimalValue(n: nat)
    ensures DigitsValue(Decimal(n)) == n
  {
    if n >= 10 {
      DecimalValue(n / 10);
      var d := Decimal(n);
      assert d[..|d| - 1] == Decimal(n / 10);
    }
  }
}
