/**
 * The two URI-component builtins as ECMAScript defines them: a
 * `decodeURIComponent` that decodes every `%XX` escape, multi-byte UTF-8
 * sequences included, and fails (throws `URIError`) on a malformed one; and
 * `encodeURIComponent` restricted to ASCII text, as its partner.
 */
module Uri {
  import opened JsValues

  predicate IsHex(c: char) {
    ('0' <= c <= '9') || ('a' <= c <= 'f') || ('A' <= c <= 'F')
  }

  function HexValue(c: char): (v: nat)
    requires IsHex(c)
    ensures v < 16
  {
    if '0' <= c <= '9' then (c - '0') as nat
    else if 'a' <= c <= 'f' then (c - 'a') as nat + 10
    else (c - 'A') as nat + 10
  }

  /** The octet of a `%XX` escape at the start of `s`. */
  function ReadEscape(s: string): (b: Option<nat>)
    ensures b.Some? ==> b.value < 256 && |s| >= 3 && s[0] == '%'
  {
    if |s| >= 3 && s[0] == '%' && IsHex(s[1]) && IsHex(s[2]) then Some(16 * HexValue(s[1]) + HexValue(s[2]))
    else None
  }

  /** The six payload bits of the `i`-th escape of `s`, when it is a UTF-8
      continuation octet (`10xxxxxx`). */
  function Continuation(s: string, i: nat): (r: Option<nat>)
    ensures r.Some? ==> r.value < 64 && |s| >= 3 * i + 3
  {
    if |s| >= 3 * i + 3 then
      match ReadEscape(s[3 * i..])
      case Some(b) => if 0x80 <= b < 0xC0 then Some(b - 0x80) else None
      case None => None
    else None
  }

  /** One character from the escapes at the start of `s`, with the number of
      characters of `s` it takes: a lone octet below 0x80, or a two- to
      four-octet UTF-8 sequence that encodes a scalar value in its shortest
      form. Anything else is malformed. */
  function DecodeEscape(s: string): (r: Option<(char, nat)>)
    ensures r.Some? ==> 3 <= r.value.1 <= |s| && s[0] == '%'
  {
    match ReadEscape(s)
    case None => None
    case Some(b) =>
      if b < 0x80 then Some((b as char, 3))
      else if b < 0xC0 then None
      else if b < 0xE0 then
        match Continuation(s, 1)
        case None => None
        case Some(c1) =>
          var cp := (b - 0xC0) * 64 + c1;
          if cp < 0x80 then None else Some((cp as char, 6))
      else if b < 0xF0 then
        match (Continuation(s, 1), Continuation(s, 2))
        case (Some(c1), Some(c2)) =>
          var cp := (b - 0xE0) * 4096 + c1 * 64 + c2;
          if cp < 0x800 || (0xD800 <= cp < 0xE000) then None else Some((cp as char, 9))
        case _ => None
      else if b < 0xF8 then
        match (Continuation(s, 1), Continuation(s, 2), Continuation(s, 3))
        case (Some(c1), Some(c2), Some(c3)) =>
          var cp := (b - 0xF0) * 262144 + c1 * 4096 + c2 * 64 + c3;
          if cp < 0x10000 || cp > 0x10FFFF then None else Some((cp as char, 12))
        case _ => None
      else None
  }

  /** `decodeURIComponent`: `None` where the builtin throws. Every character
      that is not part of an escape is kept, so text without `%` decodes to
      itself, and every escape yields at least one character. */
  function Decode(s: string): (r: Option<string>)
    ensures '%' !in s ==> r == Some(s)
    ensures r.Some? ==> |r.value| <= |s| && (s != "" ==> r.value != "")
    decreases |s|
  {
    if s == [] then Some([])
    else if s[0] != '%' then
      assert s == [s[0]] + s[1..];
      match Decode(s[1..])
      case Some(rest) => Some([s[0]] + rest)
      case None => None
    else
      match DecodeEscape(s)
      case None => None
      case Some((c, n)) =>
        match Decode(s[n..])
        case Some(rest) => Some([c] + rest)
        case None => None
  }

  /** A `%` that does not start a valid escape makes decoding fail. */
  lemma LoneEscapeFails(s: string)
    requires |s| >= 1 && s[0] == '%' && DecodeEscape(s).None?
    ensures Decode(s).None?
  {
  }

  /** The characters `encodeURIComponent` leaves as they are. */
  predicate Unreserved(c: char) {
    ('A' <= c <= 'Z') || ('a' <= c <= 'z') || ('0' <= c <= '9')
    || c in {'-', '_', '.', '!', '~', '*', '\'', '(', ')'}
  }

  predicate IsAscii(s: string) {
    forall i :: 0 <= i < |s| ==> s[i] < 128 as char
  }

  function HexDigit(v: nat): (c: char)
    requires v < 16
    ensures IsHex(c) && HexValue(c) == v
  {
    if v < 10 then ('0' as int + v) as char else ('A' as int + v - 10) as char
  }

  /** `encodeURIComponent` on ASCII text: every reserved character becomes
      `%XX` with upper-case hex digits. */
  function EncodeAscii(s: string): (r: string)
    requires IsAscii(s)
    ensures s != [] ==> r != []
    ensures forall c :: c in r ==> Unreserved(c) || c == '%' || IsHex(c)
  {
    if s == [] then []
    else
      var c := s[0];
      var head := if Unreserved(c) then [c] else ['%', HexDigit(c as nat / 16), HexDigit(c as nat % 16)];
      assert IsAscii(s[1..]) by {
        forall i | 0 <= i < |s[1..]| ensures s[1..][i] < 128 as char {
          assert s[1..][i] == s[i + 1];
        }
      }
      head + EncodeAscii(s[1..])
  }

  /** Decoding undoes the encoding. */
  lemma {:induction false} DecodeEncodeAscii(s: string)
    requires IsAscii(s)
    ensures Decode(EncodeAscii(s)) == Some(s)
  {
    if s != [] {
      var c := s[0];
      assert IsAscii(s[1..]) by {
        forall i | 0 <= i < |s[1..]| ensures s[1..][i] < 128 as char {
          assert s[1..][i] == s[i + 1];
        }
      }
      DecodeEncodeAscii(s[1..]);
      assert s == [c] + s[1..];
      var rest := EncodeAscii(s[1..]);
      if Unreserved(c) {
        assert EncodeAscii(s) == [c] + rest;
        assert c != '%';
        DecodePlainHead(c, rest);
      } else {
        assert EncodeAscii(s) == ['%', HexDigit(c as nat / 16), HexDigit(c as nat % 16)] + rest;
        DecodeEscapedHead(c, rest);
      }
    }
  }

  lemma DecodePlainHead(c: char, rest: string)
    requires c != '%' && Decode(rest).Some?
    ensures Decode([c] + rest) == Some([c] + Decode(rest).value)
  {
    assert ([c] + rest)[1..] == rest;
  }

  lemma DecodeEscapedHead(c: char, rest: string)
    requires c < 128 as char && Decode(rest).Some?
    ensures Decode(['%', HexDigit(c as nat / 16), HexDigit(c as nat % 16)] + rest) == Some([c] + Decode(rest).value)
  {
    var e := ['%', HexDigit(c as nat / 16), HexDigit(c as nat % 16)] + rest;
    assert ReadEscape(e) == Some(16 * (c as nat / 16) + c as nat % 16);
    assert DecodeEscape(e) == Some((c, 3));
    assert e[3..] == rest;
  }
}
