/** Percent-encoding as the back-end writes it (Python's `urllib.parse.quote`) and as the
    browser reads it back (`URLSearchParams`, which applies the
    `application/x-www-form-urlencoded` decoding, and `decodeURIComponent`). */
module Uri {
  import opened Common

  predicate IsAscii(s: string)
  {
    forall i :: 0 <= i < |s| ==> s[i] as int < 0x80
  }

  predicate IsHexDigit(c: char)
  {
    IsAsciiDigit(c) || ('a' <= c <= 'f') || ('A' <= c <= 'F')
  }

  function HexValue(c: char): (v: nat)
    requires IsHexDigit(c)
    ensures v < 16
  {
    if IsAsciiDigit(c) then c as int - '0' as int
    else if 'a' <= c <= 'f' then c as int - 'a' as int + 10
    else c as int - 'A' as int + 10
  }

  /** Upper-case hexadecimal digit, as Python's `quote` writes it. */
  function HexDigitChar(v: nat): (c: char)
    requires v < 16
    ensures IsHexDigit(c) && HexValue(c) == v
  {
    if v < 10 then ('0' as int + v) as char else ('A' as int + v - 10) as char
  }

  /** UTF-8 encoding of one scalar value (section 3 of RFC 3629). */
  function Utf8(c: char): (bytes: seq<nat>)
    ensures 1 <= |bytes| <= 4
    ensures forall i :: 0 <= i < |bytes| ==> bytes[i] < 256
    ensures |bytes| == 1 <==> c as int < 0x80
    ensures |bytes| == 1 ==> bytes[0] == c as int
  {
    var v := c as int;
    if v < 0x80 then [v]
    else if v < 0x800 then [0xC0 + v / 0x40, 0x80 + v % 0x40]
    else if v < 0x1_0000 then [0xE0 + v / 0x1000, 0x80 + (v / 0x40) % 0x40, 0x80 + v % 0x40]
    else [0xF0 + v / 0x4_0000, 0x80 + (v / 0x1000) % 0x40, 0x80 + (v / 0x40) % 0x40, 0x80 + v % 0x40]
  }

  /** One byte written as `%XX` (section 2.1 of RFC 3986). */
  function PercentByte(b: nat): (r: string)
    requires b < 256
    ensures |r| == 3 && r[0] == '%' && IsHexDigit(r[1]) && IsHexDigit(r[2])
    ensures 16 * HexValue(r[1]) + HexValue(r[2]) == b
  {
    ['%', HexDigitChar(b / 16), HexDigitChar(b % 16)]
  }

  function PercentBytes(bytes: seq<nat>): (r: string)
    requires forall i :: 0 <= i < |bytes| ==> bytes[i] < 256
    ensures |r| == 3 * |bytes|
    ensures forall i :: 0 <= i < |r| ==> r[i] == '%' || IsHexDigit(r[i])
  {
    if bytes == [] then [] else PercentByte(bytes[0]) + PercentBytes(bytes[1..])
  }

  /** The characters `quote(s)` leaves alone with its default `safe='/'`: ASCII letters
      and digits, `_.-~` and `/`. */
  predicate QuoteSafe(c: char)
  {
    IsAsciiAlnum(c) || c == '_' || c == '.' || c == '-' || c == '~' || c == '/'
  }

  /** `urllib.parse.quote(s)`: every other character is written as the percent-escapes of
      its UTF-8 bytes. The result uses only safe characters and `%`. */
  function Quote(s: string): (r: string)
    ensures forall i :: 0 <= i < |r| ==> QuoteSafe(r[i]) || r[i] == '%'
  {
    if s == [] then []
    else (if QuoteSafe(s[0]) then [s[0]] else PercentBytes(Utf8(s[0]))) + Quote(s[1..])
  }

  /** The character a decoded byte stands for. Bytes of 0x80 and above belong to UTF-8
      sequences; the model does not reassemble those and yields U+FFFD for each. */
  function ByteChar(b: nat): (c: char)
    requires b < 256
    ensures b < 0x80 ==> c as int == b
  {
    if b < 0x80 then b as char else '\U{FFFD}'
  }

  /** The `application/x-www-form-urlencoded` value decoding `URLSearchParams` applies:
      `+` becomes a space, `%` followed by two hex digits becomes that byte, and any other
      `%` is kept as it is. */
  function FormDecode(s: string): (r: string)
    ensures |r| <= |s|
  {
    if s == [] then []
    else if s[0] == '+' then [' '] + FormDecode(s[1..])
    else if s[0] == '%' && |s| >= 3 && IsHexDigit(s[1]) && IsHexDigit(s[2]) then
      [ByteChar(16 * HexValue(s[1]) + HexValue(s[2]))] + FormDecode(s[3..])
    else [s[0]] + FormDecode(s[1..])
  }

  /** `decodeURIComponent(s)`: `None` where ECMAScript throws `URIError`, that is, for a `%`
      not followed by two hex digits. Escapes of bytes 0x80 and above are treated as
      failures (see ByteChar). */
  function DecodeUriComponent(s: string): (r: Option<string>)
    ensures r.Some? ==> |r.value| <= |s|
  {
    if s == [] then Some([])
    else if s[0] != '%' then
      match DecodeUriComponent(s[1..])
      case None => None
      case Some(rest) => Some([s[0]] + rest)
    else if |s| >= 3 && IsHexDigit(s[1]) && IsHexDigit(s[2]) && 16 * HexValue(s[1]) + HexValue(s[2]) < 0x80 then
      match DecodeUriComponent(s[3..])
      case None => None
      case Some(rest) => Some([(16 * HexValue(s[1]) + HexValue(s[2])) as char] + rest)
    else None
  }

  /** A character `quote` leaves alone is read back as itself. */
  lemma DecodeSafeStep(c: char, rest: string)
    requires QuoteSafe(c)
    ensures FormDecode([c] + rest) == [c] + FormDecode(rest)
  {
    var t := [c] + rest;
    assert t[0] == c && t[1..] == rest;
  }

  /** The escape of an ASCII character is read back as that character. */
  lemma DecodeEscapeStep(c: char, rest: string)
    requires c as int < 0x80
    ensures FormDecode(PercentBytes(Utf8(c)) + rest) == [c] + FormDecode(rest)
  {
    assert PercentBytes([c as int]) == PercentByte(c as int) + PercentBytes([]);
    var t := PercentByte(c as int) + rest;
    assert t[0] == '%' && t[1] == PercentByte(c as int)[1] && t[2] == PercentByte(c as int)[2];
    assert t[3..] == rest;
  }

  /** What `quote` wrote, form decoding reads back, for the ASCII text `json.dumps`
      produces. */
  lemma {:induction false} FormDecodeQuote(s: string)
    requires IsAscii(s)
    ensures FormDecode(Quote(s)) == s
  {
    if s != [] {
      var c := s[0];
      FormDecodeQuote(s[1..]);
      if QuoteSafe(c) {
        DecodeSafeStep(c, Quote(s[1..]));
      } else {
        DecodeEscapeStep(c, Quote(s[1..]));
      }
      assert [c] + s[1..] == s;
    }
  }

  /** Text without `%` passes through `decodeURIComponent` unchanged. */
  lemma {:induction false} DecodeWithoutPercent(s: string)
    requires '%' !in s
    ensures DecodeUriComponent(s) == Some(s)
  {
    if s != [] {
      assert s[0] in s;
      assert forall c :: c in s[1..] ==> c in s;
      DecodeWithoutPercent(s[1..]);
      assert [s[0]] + s[1..] == s;
    }
  }

  /** A `%` followed by something other than two hex digits makes `decodeURIComponent`
      throw, wherever it occurs. */
  lemma {:induction false} DecodeRejectsBareEscape(prefix: string, rest: string)
    requires '%' !in prefix
    requires rest == [] || !IsHexDigit(rest[0])
    ensures DecodeUriComponent(prefix + "%" + rest).None?
  {
    if prefix == [] {
      assert ("%" + rest)[1..] == rest;
    } else {
      assert (prefix + "%" + rest)[1..] == prefix[1..] + "%" + rest;
      assert prefix[0] in prefix;
      assert forall c :: c in prefix[1..] ==> c in prefix;
      DecodeRejectsBareEscape(prefix[1..], rest);
    }
  }

  /** `new URLSearchParams(search).get(name)`, on the name/value list the constructor
      builds: a leading `?` is dropped, the rest is cut at every `&`, empty pieces are
      skipped, and each piece splits at its first `=` (a value of "" when there is none),
      both halves form-decoded. */
  function ParseQuery(search: string): seq<(string, string)>
  {
    var q := if search != [] && search[0] == '?' then search[1..] else search;
    ParsePairs(Split(q, '&'))
  }

  function ParsePairs(pieces: seq<string>): (pairs: seq<(string, string)>)
    ensures |pairs| <= |pieces|
  {
    if pieces == [] then []
    else if pieces[0] == [] then ParsePairs(pieces[1..])
    else [ParsePair(pieces[0])] + ParsePairs(pieces[1..])
  }

  function ParsePair(piece: string): (string, string)
  {
    if '=' in piece then
      var i := IndexOf(piece, '=');
      (FormDecode(piece[..i]), FormDecode(piece[i + 1..]))
    else (FormDecode(piece), [])
  }

  /** The value of the first pair with the given name. */
  function GetParam(pairs: seq<(string, string)>, name: string): (v: Option<string>)
    ensures v.Some? <==> exists i :: 0 <= i < |pairs| && pairs[i].0 == name
    ensures v.Some? ==> exists i :: 0 <= i < |pairs| && pairs[i] == (name, v.value)
                                   && forall j :: 0 <= j < i ==> pairs[j].0 != name
  {
    if pairs == [] then None
    else if pairs[0].0 == name then Some(pairs[0].1)
    else
      var v := GetParam(pairs[1..], name);
      if v.Some? then
        ghost var i :| 0 <= i < |pairs[1..]| && pairs[1..][i] == (name, v.value)
                      && forall j :: 0 <= j < i ==> pairs[1..][j].0 != name;
        assert pairs[i + 1] == (name, v.value);
        v
      else v
  }

  /** Cutting at the first separator of `a + [sep] + b` when `a` has none. */
  lemma SplitAtFirst(a: string, sep: char, b: string)
    requires sep !in a
    ensures Split(a + [sep] + b, sep) == [a] + Split(b, sep)
  {
    var s := a + [sep] + b;
    assert s[|a|] == sep;
    var i := IndexOf(s, sep);
    assert s[..i] == a && s[i + 1..] == b;
  }

  /** A piece `name=value` whose name holds no `=`. */
  lemma PairOf(name: string, value: string)
    requires '=' !in name
    ensures ParsePair(name + "=" + value) == (FormDecode(name), FormDecode(value))
  {
    var p := name + "=" + value;
    assert p[|name|] == '=';
    var i := IndexOf(p, '=');
    assert p[..i] == name && p[i + 1..] == value;
  }

  lemma PairNoAmpersand(name: string, value: string)
    requires '&' !in name && '&' !in value
    ensures '&' !in name + "=" + value && name + "=" + value != []
  {
    assert (name + "=" + value)[|name|] == '=';
  }

  lemma SplitTwo(p1: string, p2: string)
    requires '&' !in p1 && '&' !in p2
    ensures Split(p1 + ['&'] + p2, '&') == [p1, p2]
  {
    SplitAtFirst(p1, '&', p2);
    assert Split(p2, '&') == [p2];
  }

  lemma ParseTwo(p1: string, p2: string)
    requires p1 != [] && p2 != []
    ensures ParsePairs([p1, p2]) == [ParsePair(p1), ParsePair(p2)]
  {
    var pieces := [p1, p2];
    assert pieces[1..] == [p2];
    assert ParsePairs([p2]) == [ParsePair(p2)] + ParsePairs([]);
  }

  lemma QueryTail(n1: string, v1: string, n2: string, v2: string)
    ensures var search := "?" + n1 + "=" + v1 + "&" + n2 + "=" + v2;
            search != [] && search[0] == '?' && search[1..] == (n1 + "=" + v1) + ['&'] + (n2 + "=" + v2)
  {
    var search := "?" + n1 + "=" + v1 + "&" + n2 + "=" + v2;
    assert search == ['?'] + ((n1 + "=" + v1) + ['&'] + (n2 + "=" + v2));
  }

  /** A query string of two `name=value` pairs, none of whose parts hold `&` nor whose
      names hold `=`, reads back as those two pairs, decoded. */
  lemma TwoPairQuery(n1: string, v1: string, n2: string, v2: string)
    requires '&' !in n1 && '&' !in v1 && '&' !in n2 && '&' !in v2
    requires '=' !in n1 && '=' !in n2
    ensures ParseQuery("?" + n1 + "=" + v1 + "&" + n2 + "=" + v2)
            == [(FormDecode(n1), FormDecode(v1)), (FormDecode(n2), FormDecode(v2))]
  {
    var p1 := n1 + "=" + v1;
    var p2 := n2 + "=" + v2;
    QueryTail(n1, v1, n2, v2);
    PairNoAmpersand(n1, v1);
    PairNoAmpersand(n2, v2);
    SplitTwo(p1, p2);
    ParseTwo(p1, p2);
    PairOf(n1, v1);
    PairOf(n2, v2);
  }

  /** Text made only of characters `quote` leaves alone passes through form decoding. */
  lemma {:induction false} FormDecodeSafe(s: string)
    requires forall i :: 0 <= i < |s| ==> QuoteSafe(s[i])
    ensures FormDecode(s) == s
  {
    if s != [] {
      FormDecodeSafe(s[1..]);
      assert [s[0]] + s[1..] == s;
    }
  }

  /** A token of URL-safe characters, as a JSON Web Token is. */
  predicate SafeToken(token: string)
  {
    token != "" && forall i :: 0 <= i < |token| ==> QuoteSafe(token[i])
  }

  lemma SafeTokenDecodes(token: string)
    requires SafeToken(token)
    ensures '&' !in token && FormDecode(token) == token
  {
    forall i | 0 <= i < |token| ensures token[i] != '&' {
      assert QuoteSafe(token[i]);
    }
    FormDecodeSafe(token);
  }

  lemma TokenNameDecodes()
    ensures FormDecode("token") == "token"
  {
    forall i | 0 <= i < |"token"| ensures QuoteSafe("token"[i]) {
    }
    FormDecodeSafe("token");
  }

  lemma UserNameDecodes()
    ensures FormDecode("user") == "user"
  {
    forall i | 0 <= i < |"user"| ensures QuoteSafe("user"[i]) {
    }
    FormDecodeSafe("user");
  }

  lemma QueryPairs(token: string, json: string)
    requires SafeToken(token)
    ensures ParseQuery("?" + "token" + "=" + token + "&" + "user" + "=" + Quote(json))
            == [(FormDecode("token"), FormDecode(token)), (FormDecode("user"), FormDecode(Quote(json)))]
  {
    SafeTokenDecodes(token);
    assert '&' !in Quote(json);
    TwoPairQuery("token", token, "user", Quote(json));
  }
}
