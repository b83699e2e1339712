/** Shared value types and the string operations of the two runtimes (ECMAScript in the
    browser, Python on the server) that the rest of the model uses. */
module Common {

  datatype Option<T> = None | Some(value: T)

  /** The two string runtimes differ in which characters count as white space. */
  datatype Runtime = Js | Py

  /** ECMAScript WhiteSpace and LineTerminator: what `String.prototype.trim` removes and what
      the regular-expression class `\s` matches (`\S` is its complement). Python's
      `str.isspace`, used by `str.strip()`, adds the separators U+001C..U+001F and U+0085 and
      does not count U+FEFF. */
  predicate IsSpace(rt: Runtime, c: char)
  {
    || c == ' ' || c == '\t' || c == '\n' || c == '\U{B}' || c == '\U{C}' || c == '\r'
    || c == '\U{A0}' || c == '\U{1680}' || ('\U{2000}' <= c <= '\U{200A}')
    || c == '\U{2028}' || c == '\U{2029}' || c == '\U{202F}' || c == '\U{205F}' || c == '\U{3000}'
    || (rt == Js && c == '\U{FEFF}')
    || (rt == Py && (('\U{1C}' <= c <= '\U{1F}') || c == '\U{85}'))
  }

  /** ECMAScript truthiness of a string that may be null: present and not empty. */
  predicate Truthy(v: Option<string>) { v.Some? && v.value != "" }

  predicate IsAsciiDigit(c: char) { '0' <= c <= '9' }

  predicate IsAsciiLower(c: char) { 'a' <= c <= 'z' }

  predicate IsAsciiUpper(c: char) { 'A' <= c <= 'Z' }

  predicate IsAsciiAlnum(c: char) { IsAsciiDigit(c) || IsAsciiLower(c) || IsAsciiUpper(c) }

  predicate AllDigits(s: string) { forall i :: 0 <= i < |s| ==> IsAsciiDigit(s[i]) }

  predicate StartsWith(s: string, prefix: string)
  {
    |prefix| <= |s| && s[..|prefix|] == prefix
  }

  /** Substring search: `sub in s` in Python, `s.includes(sub)` in ECMAScript. */
  predicate Contains(s: string, sub: string)
  {
    exists i | 0 <= i <= |s| - |sub| :: OccursAt(s, i, sub)
  }

  /** `sub` occurs in `s` starting at index `i`. */
  predicate OccursAt(s: string, i: int, sub: string)
  {
    0 <= i && i + |sub| <= |s| && s[i..i + |sub|] == sub
  }

  /** Length of the leading run of white space. */
  function LeadingSpace(rt: Runtime, s: string): (n: nat)
    ensures n <= |s|
    ensures forall i :: 0 <= i < n ==> IsSpace(rt, s[i])
    ensures n < |s| ==> !IsSpace(rt, s[n])
  {
    if s == [] || !IsSpace(rt, s[0]) then 0 else 1 + LeadingSpace(rt, s[1..])
  }

  /** Length of the trailing run of white space. */
  function TrailingSpace(rt: Runtime, s: string): (n: nat)
    ensures n <= |s|
    ensures forall i :: |s| - n <= i < |s| ==> IsSpace(rt, s[i])
    ensures n < |s| ==> !IsSpace(rt, s[|s| - n - 1])
  {
    if s == [] || !IsSpace(rt, s[|s| - 1]) then 0 else 1 + TrailingSpace(rt, s[..|s| - 1])
  }

  /** `trim()` (ECMAScript) or `strip()` (Python): the infix left after removing white space
      at both ends. */
  function Strip(rt: Runtime, s: string): (r: string)
    ensures exists i, j :: 0 <= i <= j <= |s| && r == s[i..j]
                           && (forall k :: 0 <= k < i ==> IsSpace(rt, s[k]))
                           && (forall k :: j <= k < |s| ==> IsSpace(rt, s[k]))
    ensures r != [] ==> !IsSpace(rt, r[0]) && !IsSpace(rt, r[|r| - 1])
    ensures r == [] <==> forall k :: 0 <= k < |s| ==> IsSpace(rt, s[k])
  {
    var i := LeadingSpace(rt, s);
    if i == |s| then
      assert s[i..i] == [];
      []
    else
      var t := TrailingSpace(rt, s[i..]);
      TrailingOfRest(rt, s, i, t);
      var r := s[i..|s| - t];
      assert r[0] == s[i] && r[|r| - 1] == s[|s| - t - 1];
      r
  }

  /** The trailing white space after a non-space character stops before it. */
  lemma TrailingOfRest(rt: Runtime, s: string, i: nat, t: nat)
    requires i < |s| && !IsSpace(rt, s[i]) && t == TrailingSpace(rt, s[i..])
    ensures i < |s| - t
    ensures forall k :: |s| - t <= k < |s| ==> IsSpace(rt, s[k])
    ensures !IsSpace(rt, s[|s| - t - 1])
  {
    var rest := s[i..];
    assert forall k :: 0 <= k < |rest| ==> rest[k] == s[i + k];
    assert !IsSpace(rt, rest[0]);
  }

  /** Stripping text with no white space at its ends, followed by white space, gives the
      text. */
  lemma StripTrailing(c: string, pad: string)
    requires c != [] && !IsSpace(Py, c[0]) && !IsSpace(Py, c[|c| - 1])
    requires forall i :: 0 <= i < |pad| ==> IsSpace(Py, pad[i])
    ensures Strip(Py, c + pad) == c
  {
    var s := c + pad;
    var r := Strip(Py, s);
    var i, j :| 0 <= i <= j <= |s| && r == s[i..j]
                && (forall k :: 0 <= k < i ==> IsSpace(Py, s[k]))
                && (forall k :: j <= k < |s| ==> IsSpace(Py, s[k]));
    assert s[0] == c[0];
    assert s[|c| - 1] == c[|c| - 1];
    assert i == 0;
    assert j >= |c|;
    assert r != [] by { assert !IsSpace(Py, s[0]); }
    assert s[..|c|] == c;
  }

  /** Python `str.split(sep)` for a one-character separator: the pieces between separators. */
  function Split(s: string, sep: char): (pieces: seq<string>)
    ensures |pieces| >= 1
    ensures forall p :: p in pieces ==> sep !in p
  {
    if sep !in s then [s]
    else
      var i := IndexOf(s, sep);
      [s[..i]] + Split(s[i + 1..], sep)
  }

  /** `sep.join(pieces)`. */
  function Join(pieces: seq<string>, sep: string): string
  {
    if pieces == [] then []
    else if |pieces| == 1 then pieces[0]
    else pieces[0] + sep + Join(pieces[1..], sep)
  }

  /** Splitting and joining again with the same separator gives back the original text. */
  lemma {:induction false} JoinSplit(s: string, sep: char)
    ensures Join(Split(s, sep), [sep]) == s
  {
    if sep in s {
      var i := IndexOf(s, sep);
      var tail := Split(s[i + 1..], sep);
      JoinSplit(s[i + 1..], sep);
      assert s == s[..i] + [sep] + s[i + 1..];
    }
  }

  /** Index of the first occurrence of `c`. */
  function IndexOf(s: string, c: char): (i: nat)
    requires c in s
    ensures i < |s| && s[i] == c && c !in s[..i]
  {
    if s[0] == c then 0 else 1 + IndexOf(s[1..], c)
  }

  /** Python `str.replace(old, new)` for a one-character `old`. */
  function ReplaceChar(s: string, c: char, rep: string): (r: string)
    ensures c !in rep ==> c !in r
    ensures forall d :: d != c && d !in rep ==> (d in r <==> d in s)
  {
    if s == [] then [] else (if s[0] == c then rep else [s[0]]) + ReplaceChar(s[1..], c, rep)
  }

  /** Python `str.lower()` restricted to ASCII: each upper-case letter becomes its
      lower-case twin and every other character stays. */
  function ToLowerAscii(s: string): (r: string)
    ensures |r| == |s|
    ensures forall i :: 0 <= i < |s| ==> !IsAsciiUpper(r[i])
    ensures forall i :: 0 <= i < |s| ==>
              r[i] == if IsAsciiUpper(s[i]) then (s[i] as int + 32) as char else s[i]
  {
    seq(|s|, i requires 0 <= i < |s| => if IsAsciiUpper(s[i]) then (s[i] as int + 32) as char else s[i])
  }

  /** Python `str.upper()` restricted to ASCII: each lower-case letter becomes its
      upper-case twin and every other character stays. */
  function ToUpperAscii(s: string): (r: string)
    ensures |r| == |s|
    ensures forall i :: 0 <= i < |s| ==> !IsAsciiLower(r[i])
    ensures forall i :: 0 <= i < |s| ==>
              r[i] == if IsAsciiLower(s[i]) then (s[i] as int - 32) as char else s[i]
  {
    seq(|s|, i requires 0 <= i < |s| => if IsAsciiLower(s[i]) then (s[i] as int - 32) as char else s[i])
  }

  /** Text without lower-case letters is its own upper-case form. */
  lemma UpperFixed(s: string)
    requires forall i :: 0 <= i < |s| ==> !IsAsciiLower(s[i])
    ensures ToUpperAscii(s) == s
  {
  }

  function DigitChar(d: nat): (c: char)
    requires d < 10
    ensures IsAsciiDigit(c)
  {
    ('0' as int + d) as char
  }

  /** Decimal rendering of a natural number, as ECMAScript template literals and Python
      f-strings produce it. */
  function NatToString(n: nat): (s: string)
    ensures s != [] && AllDigits(s)
    ensures DigitsValue(s) == n
  {
    if n < 10 then [DigitChar(n)] else NatToString(n / 10) + [DigitChar(n % 10)]
  }

  /** Numeric value of a string of ASCII digits. */
  function DigitsValue(s: string): nat
    requires AllDigits(s)
  {
    if s == [] then 0 else 10 * DigitsValue(s[..|s| - 1]) + (s[|s| - 1] as int - '0' as int)
  }

  /** The characters of `s` that are ASCII digits, in order. */
  function KeepDigits(s: string): (r: string)
    ensures AllDigits(r) && |r| <= |s|
    ensures forall c :: IsAsciiDigit(c) ==> multiset(r)[c] == multiset(s)[c]
  {
    if s == [] then []
    else
      assert s == [s[0]] + s[1..];
      (if IsAsciiDigit(s[0]) then [s[0]] else []) + KeepDigits(s[1..])
  }

  /** Filtering keeps order: the digits of `a + b` are those of `a`, then those of `b`. */
  lemma {:induction false} KeepDigitsAppend(a: string, b: string)
    ensures KeepDigits(a + b) == KeepDigits(a) + KeepDigits(b)
  {
    if a == [] {
      assert a + b == b;
    } else {
      var head := if IsAsciiDigit(a[0]) then [a[0]] else [];
      var ab := a + b;
      assert ab != [] && ab[0] == a[0] && ab[1..] == a[1..] + b;
      var rest, restA, restB := KeepDigits(a[1..] + b), KeepDigits(a[1..]), KeepDigits(b);
      assert KeepDigits(ab) == head + rest;
      assert KeepDigits(a) == head + restA;
      KeepDigitsAppend(a[1..], b);
      assert rest == restA + restB;
      ConcatAssoc(head, restA, restB);
    }
  }

  lemma ConcatAssoc<T>(x: seq<T>, y: seq<T>, z: seq<T>)
    ensures x + (y + z) == (x + y) + z
  {
  }

  lemma {:induction false} KeepDigitsOfDigits(s: string)
    requires AllDigits(s)
    ensures KeepDigits(s) == s
  {
    if s != [] { KeepDigitsOfDigits(s[1..]); }
  }

  function Min(a: int, b: int): int { if a <= b then a else b }
}
