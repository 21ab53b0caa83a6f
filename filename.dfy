// Making a download file name safe for a Content-Disposition header: keep
// only the last path component, drop control characters, and give both a
// printable-ASCII name and the UTF-8 name percent-encoded for the
// filename* parameter of RFC 5987.
module Filename {
  import opened Wrappers

  newtype byte = b: int | 0 <= b < 256

  // ------------------------------------------------------------ basename

  /** The position of the last occurrence of c in s. */
  function LastIndexOf(s: string, c: char): (r: Option<nat>)
    ensures r.None? <==> c !in s
    ensures r.Some? ==> r.value < |s| && s[r.value] == c && c !in s[r.value + 1..]
  {
    if s == [] then None
    else if s[|s| - 1] == c then Some(|s| - 1)
    else
      var r := LastIndexOf(s[..|s| - 1], c);
      assert s == s[..|s| - 1] + [s[|s| - 1]];
      assert r.Some? ==> s[r.value + 1..] == s[..|s| - 1][r.value + 1..] + [s[|s| - 1]];
      r
  }

  /**
   * `Path(name).name` for a POSIX path: the last component once empty
   * components (from repeated or trailing slashes) and "." components are
   * skipped, and "" when there is none.
   */
  function Basename(s: string): (r: string)
    ensures '/' !in r && r != "."
    ensures |r| <= |s|
    decreases |s|
  {
    match LastIndexOf(s, '/')
    case None => if s == "." then "" else s
    case Some(i) =>
      var tail := s[i + 1..];
      if tail == "" || tail == "." then Basename(s[..i]) else tail
  }

  /** A file name without slashes is its own basename, and whatever directories precede it are dropped. */
  lemma ParentIgnored(dir: string, name: string)
    requires '/' !in name && name != "" && name != "."
    ensures Basename(name) == name
    ensures Basename(dir + "/" + name) == name
  {
    var s := dir + "/" + name;
    assert s[|dir|] == '/';
    assert s[|dir| + 1..] == name;
    assert LastIndexOf(s, '/') == Some(|dir|);
  }

  // ---------------------------------------------------- character classes

  /** C0 controls, DEL and C1 controls: the characters `[\x00-\x1f\x7f-\x9f]`. */
  predicate IsControl(c: char)
  {
    c as int <= 0x1F || 0x7F <= c as int <= 0x9F
  }

  /** Printable ASCII, `[\x20-\x7e]`. */
  predicate IsPrintableAscii(c: char)
  {
    0x20 <= c as int <= 0x7E
  }

  /** `re.sub(r"[\x00-\x1f\x7f-\x9f]", "", s)`. */
  function StripControls(s: string): (r: string)
    ensures |r| <= |s|
    ensures forall k :: 0 <= k < |r| ==> !IsControl(r[k])
    ensures forall c :: c in r <==> c in s && !IsControl(c)
  {
    if s == [] then []
    else if IsControl(s[0]) then StripControls(s[1..])
    else [s[0]] + StripControls(s[1..])
  }

  /** A name without control characters goes through unchanged. */
  lemma {:induction false} StripControlsKeeps(s: string)
    requires forall k :: 0 <= k < |s| ==> !IsControl(s[k])
    ensures StripControls(s) == s
  {
    if s != [] {
      StripControlsKeeps(s[1..]);
      assert [s[0]] + s[1..] == s;
    }
  }

  /** `re.sub(r"[^\x20-\x7e]", "_", s)`: every other character becomes an underscore. */
  function AsciiReplace(s: string): (r: string)
    ensures |r| == |s|
    ensures forall k :: 0 <= k < |s| ==> r[k] == (if IsPrintableAscii(s[k]) then s[k] else '_')
  {
    if s == [] then [] else [if IsPrintableAscii(s[0]) then s[0] else '_'] + AsciiReplace(s[1..])
  }

  // ------------------------------------------------------------ UTF-8

  /** The UTF-8 encoding of one scalar value (section 3 of RFC 3629). */
  function EncodeChar(c: char): (r: seq<byte>)
    ensures 1 <= |r| <= 4
  {
    var n := c as int;
    if n < 0x80 then [n as byte]
    else if n < 0x800 then [(0xC0 + n / 64) as byte, (0x80 + n % 64) as byte]
    else if n < 0x10000 then [(0xE0 + n / 4096) as byte, (0x80 + (n / 64) % 64) as byte, (0x80 + n % 64) as byte]
    else [(0xF0 + n / 262144) as byte, (0x80 + (n / 4096) % 64) as byte, (0x80 + (n / 64) % 64) as byte, (0x80 + n % 64) as byte]
  }

  /** `s.encode("utf-8")`. */
  function Utf8Encode(s: string): (r: seq<byte>)
    ensures |s| <= |r| <= 4 * |s|
  {
    if s == [] then [] else EncodeChar(s[0]) + Utf8Encode(s[1..])
  }

  predicate IsContinuation(b: byte)
  {
    0x80 <= b < 0xC0
  }

  /** A decoded code point as a character, when it is a Unicode scalar value of the length its lead byte announced. */
  function ScalarOf(n: int, lo: int): Option<char>
  {
    if 0 <= lo <= n && (n < 0xD800 || 0xE000 <= n < 0x11_0000) then Some(n as char) else None
  }

  /** Decoding the first character of a UTF-8 byte string: the character and how many bytes it took. */
  function DecodeFirst(bs: seq<byte>): (r: Option<(char, nat)>)
    requires |bs| > 0
    ensures r.Some? ==> 1 <= r.value.1 <= |bs|
  {
    var b0 := bs[0] as int;
    if b0 < 0x80 then Some((b0 as char, 1))
    else if 0xC0 <= b0 < 0xE0 && |bs| >= 2 && IsContinuation(bs[1]) then
      match ScalarOf((b0 - 0xC0) * 64 + (bs[1] as int - 0x80), 0x80)
      case None => None
      case Some(c) => Some((c, 2))
    else if 0xE0 <= b0 < 0xF0 && |bs| >= 3 && IsContinuation(bs[1]) && IsContinuation(bs[2]) then
      match ScalarOf((b0 - 0xE0) * 4096 + (bs[1] as int - 0x80) * 64 + (bs[2] as int - 0x80), 0x800)
      case None => None
      case Some(c) => Some((c, 3))
    else if 0xF0 <= b0 < 0xF8 && |bs| >= 4 && IsContinuation(bs[1]) && IsContinuation(bs[2]) && IsContinuation(bs[3]) then
      match ScalarOf((b0 - 0xF0) * 262144 + (bs[1] as int - 0x80) * 4096 + (bs[2] as int - 0x80) * 64 + (bs[3] as int - 0x80), 0x10000)
      case None => None
      case Some(c) => Some((c, 4))
    else None
  }

  /** A strict UTF-8 decoder: None on any malformed, overlong or surrogate sequence. */
  function Utf8Decode(bs: seq<byte>): Option<string>
    decreases |bs|
  {
    if bs == [] then Some([])
    else match DecodeFirst(bs)
      case None => None
      case Some((c, k)) =>
        match Utf8Decode(bs[k..])
        case None => None
        case Some(rest) => Some([c] + rest)
  }

  lemma SplitBits(n: int)
    requires 0 <= n
    ensures n == (n / 64) * 64 + n % 64
    ensures n / 64 == (n / 4096) * 64 + (n / 64) % 64
    ensures n / 4096 == (n / 262144) * 64 + (n / 4096) % 64
  {
  }

  /** The encoding of one character decodes back to it, whatever follows. */
  lemma DecodeEncodedChar(c: char, rest: seq<byte>)
    ensures DecodeFirst(EncodeChar(c) + rest) == Some((c, |EncodeChar(c)|))
  {
    var n := c as int;
    if n < 0x80 {
    } else if n < 0x800 {
      DecodeTwoBytes(c, rest);
    } else if n < 0x10000 {
      DecodeThreeBytes(c, rest);
    } else {
      DecodeFourBytes(c, rest);
    }
  }

  lemma DecodeTwoBytes(c: char, rest: seq<byte>)
    requires 0x80 <= c as int < 0x800
    ensures DecodeFirst(EncodeChar(c) + rest) == Some((c, |EncodeChar(c)|))
  {
    var n := c as int;
    SplitBits(n);
    var bs := EncodeChar(c) + rest;
    assert bs[0] as int == 0xC0 + n / 64 && bs[1] as int == 0x80 + n % 64;
  }

  lemma DecodeThreeBytes(c: char, rest: seq<byte>)
    requires 0x800 <= c as int < 0x10000
    ensures DecodeFirst(EncodeChar(c) + rest) == Some((c, |EncodeChar(c)|))
  {
    var n := c as int;
    SplitBits(n);
    var bs := EncodeChar(c) + rest;
    assert bs[0] as int == 0xE0 + n / 4096 && bs[1] as int == 0x80 + (n / 64) % 64 && bs[2] as int == 0x80 + n % 64;
    assert (n / 4096) * 4096 + ((n / 64) % 64) * 64 + n % 64 == n;
  }

  lemma DecodeFourBytes(c: char, rest: seq<byte>)
    requires 0x10000 <= c as int
    ensures DecodeFirst(EncodeChar(c) + rest) == Some((c, |EncodeChar(c)|))
  {
    var n := c as int;
    SplitBits(n);
    var bs := EncodeChar(c) + rest;
    assert bs[0] as int == 0xF0 + n / 262144 && bs[1] as int == 0x80 + (n / 4096) % 64;
    assert bs[2] as int == 0x80 + (n / 64) % 64 && bs[3] as int == 0x80 + n % 64;
    assert (n / 262144) * 262144 + ((n / 4096) % 64) * 4096 + ((n / 64) % 64) * 64 + n % 64 == n;
  }

  /** UTF-8 decoding undoes UTF-8 encoding. */
  lemma {:induction false} Utf8RoundTrip(s: string)
    ensures Utf8Decode(Utf8Encode(s)) == Some(s)
  {
    if s != [] {
      var e := EncodeChar(s[0]);
      var rest := Utf8Encode(s[1..]);
      DecodeEncodedChar(s[0], rest);
      assert (e + rest)[|e|..] == rest;
      Utf8RoundTrip(s[1..]);
      assert [s[0]] + s[1..] == s;
    }
  }

  // --------------------------------------------------- percent-encoding

  /** The bytes `quote(..., safe="")` never escapes: ASCII letters, digits and `_.-~`. */
  predicate Unreserved(b: byte)
  {
    'A' as byte <= b <= 'Z' as byte || 'a' as byte <= b <= 'z' as byte || '0' as byte <= b <= '9' as byte
    || b == '_' as byte || b == '.' as byte || b == '-' as byte || b == '~' as byte
  }

  predicate UnreservedChar(c: char)
  {
    c as int < 256 && Unreserved(c as int as byte)
  }

  predicate IsUpperHex(c: char)
  {
    '0' <= c <= '9' || 'A' <= c <= 'F'
  }

  function HexDigit(d: int): (c: char)
    requires 0 <= d < 16
    ensures IsUpperHex(c)
  {
    if d < 10 then ('0' as int + d) as char else ('A' as int + d - 10) as char
  }

  function HexValue(c: char): int
  {
    if '0' <= c <= '9' then c as int - '0' as int
    else if 'A' <= c <= 'F' then c as int - 'A' as int + 10
    else if 'a' <= c <= 'f' then c as int - 'a' as int + 10
    else -1
  }

  /** One byte as `quote` writes it: itself when unreserved, otherwise `%XX` in upper-case hex. */
  function QuoteByte(b: byte): (r: string)
  {
    if Unreserved(b) then [b as int as char] else ['%', HexDigit(b as int / 16), HexDigit(b as int % 16)]
  }

  /** `urllib.parse.quote(bs, safe="")`. */
  function Quote(bs: seq<byte>): (r: string)
    ensures |bs| <= |r| <= 3 * |bs|
  {
    if bs == [] then [] else QuoteByte(bs[0]) + Quote(bs[1..])
  }

  /** Text made only of unreserved characters and `%XX` escapes with upper-case hex digits. */
  predicate PercentEncoded(s: string)
    decreases |s|
  {
    s == []
    || (UnreservedChar(s[0]) && PercentEncoded(s[1..]))
    || (|s| >= 3 && s[0] == '%' && IsUpperHex(s[1]) && IsUpperHex(s[2]) && PercentEncoded(s[3..]))
  }

  /** Percent-decoding, as `urllib.parse.unquote_to_bytes` does for well-formed input. */
  function Unquote(s: string): Option<seq<byte>>
    decreases |s|
  {
    if s == [] then Some([])
    else if s[0] == '%' then
      if |s| >= 3 && 0 <= HexValue(s[1]) && 0 <= HexValue(s[2]) then
        match Unquote(s[3..])
        case None => None
        case Some(rest) => Some([(HexValue(s[1]) * 16 + HexValue(s[2])) as byte] + rest)
      else None
    else if s[0] as int < 256 then
      match Unquote(s[1..])
      case None => None
      case Some(rest) => Some([s[0] as int as byte] + rest)
    else None
  }

  lemma HexRoundTrip(d: int)
    requires 0 <= d < 16
    ensures HexValue(HexDigit(d)) == d
  {
  }

  /** Every quoted text is made only of unreserved characters and escapes, and unquotes back to the bytes. */
  lemma {:induction false} QuoteRoundTrip(bs: seq<byte>)
    ensures PercentEncoded(Quote(bs))
    ensures Unquote(Quote(bs)) == Some(bs)
  {
    if bs != [] {
      var b := bs[0];
      var q := QuoteByte(b);
      var rest := Quote(bs[1..]);
      QuoteRoundTrip(bs[1..]);
      if Unreserved(b) {
        assert (q + rest)[0] == b as int as char && (q + rest)[1..] == rest;
      } else {
        HexRoundTrip(b as int / 16);
        HexRoundTrip(b as int % 16);
        assert (q + rest)[..3] == q && (q + rest)[3..] == rest;
        assert (HexValue(q[1]) * 16 + HexValue(q[2])) as byte == b;
      }
      assert [b] + bs[1..] == bs;
    }
  }

  // ------------------------------------------------------------ the names

  /** `sanitize_filename`: the ASCII-safe name and the percent-encoded UTF-8 name. */
  function SanitizeFilename(filename: string): (r: (string, string))
  {
    if filename == "" then ("file", "file")
    else
      var cleaned := StripControls(Basename(filename));
      var ascii := AsciiReplace(cleaned);
      (if ascii == "" || ascii[0] == '.' then "file" else ascii, Quote(Utf8Encode(cleaned)))
  }

  /** An empty name gives "file" twice. */
  lemma EmptyName()
    ensures SanitizeFilename("") == ("file", "file")
  {
  }

  /** Directories before the last component make no difference. */
  lemma DirectoriesDropped(dir: string, name: string)
    requires '/' !in name && name != "" && name != "."
    ensures SanitizeFilename(dir + "/" + name) == SanitizeFilename(name)
  {
    ParentIgnored(dir, name);
  }

  /** The ASCII name is non-empty printable ASCII without a leading dot or a slash, so it can hold no CR or LF. */
  lemma AsciiNameSafe(filename: string)
    ensures var a := SanitizeFilename(filename).0;
      && a != "" && a[0] != '.' && '/' !in a
      && forall k :: 0 <= k < |a| ==> IsPrintableAscii(a[k])
  {
    if filename != "" {
      var cleaned := StripControls(Basename(filename));
      assert forall k :: 0 <= k < |cleaned| ==> cleaned[k] != '/';
    }
  }

  /** The encoded name is percent-encoded text that decodes back to the cleaned name: no control character and nothing before the last slash. */
  lemma EncodedNameDecodes(filename: string)
    requires filename != ""
    ensures var e := SanitizeFilename(filename).1;
      && PercentEncoded(e)
      && Unquote(e).Some? && Utf8Decode(Unquote(e).value) == Some(StripControls(Basename(filename)))
  {
    var cleaned := StripControls(Basename(filename));
    QuoteRoundTrip(Utf8Encode(cleaned));
    Utf8RoundTrip(cleaned);
  }

  /** A name that is already printable ASCII, without slashes or a leading dot, is kept as it is. */
  lemma PlainNameKept(name: string)
    requires name != "" && name != "." && name[0] != '.' && '/' !in name
    requires forall k :: 0 <= k < |name| ==> IsPrintableAscii(name[k])
    ensures SanitizeFilename(name).0 == name
  {
    ParentIgnored("", name);
    StripControlsKeeps(name);
    var a := AsciiReplace(name);
    assert forall k :: 0 <= k < |a| ==> a[k] == name[k];
    assert a == name;
  }
}
