// The web app's security configuration: the Content-Security-Policy
// directives and extra response headers, the header text built from the
// directives, HTML-escaping of user input, and the JWT shape check.
module Security {
  import opened Wrappers
  import opened Text

  // ------------------------------------------------------ configuration

  const DefaultWorkerUrl := "http://localhost:8000"

  /** The script-src sources: 'unsafe-inline' is added outside production. */
  function ScriptSrc(isProduction: bool): seq<string>
  {
    ["'self'", "'unsafe-eval'"] + if isProduction then [] else ["'unsafe-inline'"]
  }

  /** The connect-src target: WORKER_BASE_URL unless it is unset or empty. */
  function WorkerUrl(env: Option<string>): string
  {
    if env.Some? && env.value != "" then env.value else DefaultWorkerUrl
  }

  /** The directives in declaration order. */
  function Directives(isProduction: bool, workerEnv: Option<string>): seq<(string, seq<string>)>
  {
    [ ("default-src", ["'self'"]),
      ("script-src", ScriptSrc(isProduction)),
      ("style-src", ["'self'", "'unsafe-inline'"]),
      ("img-src", ["'self'", "data:", "https:"]),
      ("font-src", ["'self'", "data:"]),
      ("connect-src", ["'self'", WorkerUrl(workerEnv)]),
      ("frame-ancestors", ["'none'"]),
      ("form-action", ["'self'"]),
      ("base-uri", ["'self'"]),
      ("object-src", ["'none'"]),
      ("script-src-attr", ["'none'"]) ]
  }

  /** The extra response headers, in declaration order. */
  const SecurityHeaders: seq<(string, string)> :=
    [ ("X-Content-Type-Options", "nosniff"),
      ("X-Frame-Options", "DENY"),
      ("X-XSS-Protection", "1; mode=block"),
      ("Referrer-Policy", "strict-origin-when-cross-origin"),
      ("Permissions-Policy", "camera=(), microphone=(), geolocation=()") ]

  /** Whether `'unsafe-inline'` is allowed for scripts: exactly outside production. */
  lemma UnsafeInlineOnlyInDevelopment(isProduction: bool, workerEnv: Option<string>)
    ensures var ds := Directives(isProduction, workerEnv);
      && ds[1].0 == "script-src"
      && ("'unsafe-inline'" in ds[1].1 <==> !isProduction)
      && "'unsafe-eval'" in ds[1].1
      && "'unsafe-inline'" in ds[2].1
  {
    var s := ScriptSrc(isProduction);
    assert s[0] == "'self'" && s[1] == "'unsafe-eval'";
    if !isProduction {
      assert s[2] == "'unsafe-inline'";
    } else {
      assert s == ["'self'", "'unsafe-eval'"];
      assert "'self'" != "'unsafe-inline'";
      assert "'unsafe-eval'" != "'unsafe-inline'";
    }
  }

  // --------------------------------------------------------- CSP header

  /** One directive's text: its name, a space, and its sources joined by spaces. */
  function DirectiveText(d: (string, seq<string>)): string
  {
    d.0 + " " + Join(d.1, " ")
  }

  /** `generateCSPHeader` over a list of directives. */
  function CspHeader(ds: seq<(string, seq<string>)>): string
  {
    Join(seq(|ds|, i requires 0 <= i < |ds| => DirectiveText(ds[i])), "; ")
  }

  /** `generateCSPHeader` with the configured directives. */
  function GenerateCspHeader(isProduction: bool, workerEnv: Option<string>): string
  {
    CspHeader(Directives(isProduction, workerEnv))
  }

  /** Splitting "a; b; ..." on ';' gives back each piece, all but the first with the space after the separator. */
  lemma {:induction false} SplitJoinedPieces(pieces: seq<string>)
    requires |pieces| >= 1
    requires forall k :: 0 <= k < |pieces| ==> ';' !in pieces[k]
    ensures var r := Split(Join(pieces, "; "), ';');
      |r| == |pieces| && r[0] == pieces[0]
      && forall k :: 1 <= k < |pieces| ==> r[k] == " " + pieces[k]
  {
    if |pieces| == 1 {
      SplitWithoutSeparator(pieces[0], ';');
    } else {
      var p0, rest := pieces[0], Join(pieces[1..], "; ");
      SplitJoinedPieces(pieces[1..]);
      JoinSemicolonCons(pieces);
      var b := [' '] + rest;
      SplitAfter(p0, b, ';');
      SplitCons(' ', rest, ';');
      var rr, tail := Split(rest, ';'), Split(b, ';');
      var r := Split(Join(pieces, "; "), ';');
      assert r == [p0] + tail;
      assert tail == [[' '] + rr[0]] + rr[1..];
      forall k | 1 <= k < |pieces|
        ensures r[k] == " " + pieces[k]
      {
        assert r[k] == tail[k - 1];
        assert pieces[1..][k - 1] == pieces[k];
        if k > 1 {
          assert tail[k - 1] == rr[k - 1];
        }
      }
    }
  }

  lemma JoinSemicolonCons(pieces: seq<string>)
    requires |pieces| >= 2
    ensures Join(pieces, "; ") == pieces[0] + [';'] + ([' '] + Join(pieces[1..], "; "))
  {
    var a, rest := pieces[0], Join(pieces[1..], "; ");
    assert Join(pieces, "; ") == a + "; " + rest;
    SeqAssoc3(a, [';'], [' '], rest);
    assert [';'] + [' '] == "; ";
  }

  lemma SeqAssoc3<T>(a: seq<T>, b: seq<T>, c: seq<T>, d: seq<T>)
    ensures a + (b + c) + d == a + b + (c + d)
  {
  }

  /**
   * The header lists the directives in order, "; "-separated: for names
   * and sources without ';', splitting it on ';' gives one piece per
   * directive, the name followed by its sources joined by spaces.
   */
  lemma CspHeaderPieces(ds: seq<(string, seq<string>)>)
    requires |ds| >= 1
    requires forall k :: 0 <= k < |ds| ==> ';' !in DirectiveText(ds[k])
    ensures var r := Split(CspHeader(ds), ';');
      |r| == |ds| && r[0] == DirectiveText(ds[0])
      && forall k :: 1 <= k < |ds| ==> r[k] == " " + ds[k].0 + " " + Join(ds[k].1, " ")
  {
    var pieces := seq(|ds|, i requires 0 <= i < |ds| => DirectiveText(ds[i]));
    SplitJoinedPieces(pieces);
  }

  // ------------------------------------------------------ sanitizeInput

  const Amp := "&amp;"
  const Lt := "&lt;"
  const Gt := "&gt;"
  const Quot := "&quot;"
  const Apos := "&#x27;"
  const Slash := "&#x2F;"

  /** The six replacements in the order they are applied. */
  const Replacements: seq<(char, string)> :=
    [('&', Amp), ('<', Lt), ('>', Gt), ('"', Quot), ('\'', Apos), ('/', Slash)]

  /** `s.replace(/c/g, rep)`. */
  function ReplaceChar(s: string, c: char, rep: string): (r: string)
    ensures c !in s ==> r == s
    ensures |rep| == 1 ==> |r| == |s|
  {
    if s == [] then [] else (if s[0] == c then rep else [s[0]]) + ReplaceChar(s[1..], c, rep)
  }

  /** A chain of `.replace` calls, applied left to right. */
  function ReplaceAll(s: string, rs: seq<(char, string)>): string
    decreases |rs|
  {
    if rs == [] then s else ReplaceAll(ReplaceChar(s, rs[0].0, rs[0].1), rs[1..])
  }

  /** The characters escaped besides `&`. */
  predicate Markup(c: char)
  {
    c == '<' || c == '>' || c == '"' || c == '\'' || c == '/'
  }

  /** The escape of one character. */
  function EscapeChar(c: char): (r: string)
    ensures |r| >= 1
    ensures forall i :: 0 <= i < |r| ==> !Markup(r[i])
    ensures (c == '&' || Markup(c)) <==> r[0] == '&'
    ensures !(c == '&' || Markup(c)) ==> r == [c]
    ensures forall i :: 1 <= i < |r| ==> r[i] != '&'
  {
    match c
    case '&' => Amp
    case '<' => Lt
    case '>' => Gt
    case '"' => Quot
    case '\'' => Apos
    case '/' => Slash
    case _ => [c]
  }

  /** Escaping character by character. */
  function Escape(s: string): (r: string)
    ensures forall i :: 0 <= i < |r| ==> !Markup(r[i])
  {
    if s == [] then [] else EscapeChar(s[0]) + Escape(s[1..])
  }

  lemma {:induction false} ReplaceConcat(a: string, b: string, c: char, rep: string)
    ensures ReplaceChar(a + b, c, rep) == ReplaceChar(a, c, rep) + ReplaceChar(b, c, rep)
  {
    if a != [] {
      assert (a + b)[0] == a[0] && (a + b)[1..] == a[1..] + b;
      ReplaceConcat(a[1..], b, c, rep);
    } else {
      assert a + b == b;
    }
  }

  lemma {:induction false} ReplaceAllConcat(a: string, b: string, rs: seq<(char, string)>)
    ensures ReplaceAll(a + b, rs) == ReplaceAll(a, rs) + ReplaceAll(b, rs)
    decreases |rs|
  {
    if rs != [] {
      ReplaceConcat(a, b, rs[0].0, rs[0].1);
      ReplaceAllConcat(ReplaceChar(a, rs[0].0, rs[0].1), ReplaceChar(b, rs[0].0, rs[0].1), rs[1..]);
    }
  }

  /** Replacements of characters a text does not hold leave it alone. */
  lemma {:induction false} ReplaceAllAbsent(e: string, rs: seq<(char, string)>)
    requires forall k :: 0 <= k < |rs| ==> rs[k].0 !in e
    ensures ReplaceAll(e, rs) == e
  {
    if rs != [] {
      ReplaceAllAbsent(e, rs[1..]);
    }
  }

  /** On a single character the chain applies the first replacement for it, and no later one touches what it produced. */
  lemma {:induction false} ReplaceAllSingle(c: char, rs: seq<(char, string)>, k: nat)
    requires k < |rs| && rs[k].0 == c
    requires forall j :: 0 <= j < k ==> rs[j].0 != c
    requires forall j :: k < j < |rs| ==> rs[j].0 !in rs[k].1
    ensures ReplaceAll([c], rs) == rs[k].1
  {
    assert [c][1..] == [];
    if k == 0 {
      assert ReplaceChar([c], rs[0].0, rs[0].1) == rs[0].1 + [] == rs[0].1;
      assert rs != [] && rs[0].0 == c;
      assert ReplaceAll([c], rs) == ReplaceAll(ReplaceChar([c], rs[0].0, rs[0].1), rs[1..]);
      forall j | 0 <= j < |rs[1..]| ensures rs[1..][j].0 !in rs[0].1 {
        assert rs[1..][j] == rs[j + 1];
      }
      ReplaceAllAbsent(rs[0].1, rs[1..]);
    } else {
      assert ReplaceChar([c], rs[0].0, rs[0].1) == [c] + [] == [c];
      ReplaceAllSingle(c, rs[1..], k - 1);
    }
  }

  lemma {:induction false} ReplaceAllOther(c: char, rs: seq<(char, string)>)
    requires forall j :: 0 <= j < |rs| ==> rs[j].0 != c
    ensures ReplaceAll([c], rs) == [c]
  {
    ReplaceAllAbsent([c], rs);
  }

  lemma NoMarkupIn(e: string)
    requires forall i :: 0 <= i < |e| ==> !Markup(e[i])
    ensures '<' !in e && '>' !in e && '"' !in e && '\'' !in e && '/' !in e
  {
  }

  /** On one character the chain is that character's escape. */
  lemma ChainChar(c: char)
    ensures ReplaceAll([c], Replacements) == EscapeChar(c)
  {
    var rs := Replacements;
    var e := EscapeChar(c);
    NoMarkupIn(e);
    if c == '&' {
      ReplaceAllSingle(c, rs, 0);
    } else if c == '<' {
      ReplaceAllSingle(c, rs, 1);
    } else if c == '>' {
      ReplaceAllSingle(c, rs, 2);
    } else if c == '"' {
      ReplaceAllSingle(c, rs, 3);
    } else if c == '\'' {
      ReplaceAllSingle(c, rs, 4);
    } else if c == '/' {
      ReplaceAllSingle(c, rs, 5);
    } else {
      ReplaceAllOther(c, rs);
    }
  }

  /** The chain of replacements escapes character by character. */
  lemma {:induction false} ChainIsEscape(s: string)
    ensures ReplaceAll(s, Replacements) == Escape(s)
  {
    if s != [] {
      assert s == [s[0]] + s[1..];
      ReplaceAllConcat([s[0]], s[1..], Replacements);
      ChainChar(s[0]);
      ChainIsEscape(s[1..]);
      assert ReplaceAll(s, Replacements) == ReplaceAll([s[0]], Replacements) + ReplaceAll(s[1..], Replacements);
      assert Escape(s) == EscapeChar(s[0]) + Escape(s[1..]);
    } else {
      ReplaceAllAbsent(s, Replacements);
    }
  }

  /** `SecurityUtils.sanitizeInput`; None stands for a value that is not a string. */
  function SanitizeInput(input: Option<string>): (r: string)
    ensures input.None? ==> r == ""
    ensures input.Some? ==> r == Escape(input.value)
  {
    if input.None? then "" else ChainIsEscape(input.value); ReplaceAll(input.value, Replacements)
  }

  /** Whether a text starts with one of the six entities. */
  predicate BeginsEntity(t: string)
  {
    exists k :: 0 <= k < |Replacements| && StartsWith(t, Replacements[k].1)
  }

  lemma PrefixStarts(a: string, b: string)
    ensures StartsWith(a + b, a)
  {
    assert (a + b)[..|a|] == a;
  }

  /** The escape of a character is its table entry. */
  lemma EscapeIsEntry(c: char) returns (k: nat)
    requires c == '&' || Markup(c)
    ensures k < |Replacements| && Replacements[k].0 == c && EscapeChar(c) == Replacements[k].1
  {
    k := if c == '&' then 0 else if c == '<' then 1 else if c == '>' then 2 else if c == '"' then 3 else if c == '\'' then 4 else 5;
  }

  /** The escaped text holds none of < > " ' /, and every & in it begins an entity. */
  lemma {:induction false} EscapedIsSafe(s: string)
    ensures var r := SanitizeInput(Some(s));
      && (forall i :: 0 <= i < |r| ==> !Markup(r[i]))
      && (forall i :: 0 <= i < |r| && r[i] == '&' ==> BeginsEntity(r[i..]))
  {
    if s != [] {
      EscapedIsSafe(s[1..]);
      var e, rest := EscapeChar(s[0]), Escape(s[1..]);
      var r := e + rest;
      assert Escape(s) == r;
      assert SanitizeInput(Some(s[1..])) == rest;
      assert forall j :: 0 <= j < |rest| && rest[j] == '&' ==> BeginsEntity(rest[j..]);
      forall i | 0 <= i < |r| && r[i] == '&'
        ensures BeginsEntity(r[i..])
      {
        if i < |e| {
          assert i == 0 && e[0] == '&';
          var k := EscapeIsEntry(s[0]);
          PrefixStarts(e, rest);
          assert r[0..] == r;
          assert StartsWith(r[i..], Replacements[k].1);
        } else {
          var j := i - |e|;
          assert 0 <= j < |rest| && r[i..] == rest[j..];
          assert rest[j] == r[i] == '&';
          assert BeginsEntity(rest[j..]);
        }
      }
    }
  }

  /** Text with none of the six characters is left as it is. */
  lemma {:induction false} PlainUnchanged(s: string)
    requires forall i :: 0 <= i < |s| ==> s[i] != '&' && !Markup(s[i])
    ensures SanitizeInput(Some(s)) == s
  {
    if s != [] {
      PlainUnchanged(s[1..]);
      assert Escape(s) == [s[0]] + Escape(s[1..]);
    }
  }

  lemma EscapeCons(c: char, t: string)
    ensures Escape([c] + t) == EscapeChar(c) + Escape(t)
  {
    assert ([c] + t)[0] == c && ([c] + t)[1..] == t;
  }

  lemma EscapeAmp()
    ensures Escape("&") == Amp
  {
    EscapeCons('&', []);
    assert "&" == ['&'] + [];
  }

  lemma EscapeAmpEntity()
    ensures Escape(Amp) == Amp + "amp;"
  {
    var tail := "amp;";
    PlainUnchanged(tail);
    EscapeCons('&', tail);
    assert Amp == ['&'] + tail;
  }

  /** Escaping is not idempotent: "&" becomes "&amp;", which becomes "&amp;amp;". */
  lemma NotIdempotent()
    ensures SanitizeInput(Some("&")) == "&amp;"
    ensures SanitizeInput(Some("&amp;")) == "&amp;amp;"
    ensures SanitizeInput(Some(SanitizeInput(Some("&")))) != SanitizeInput(Some("&"))
  {
    EscapeAmp();
    EscapeAmpEntity();
    assert Amp + "amp;" == "&amp;amp;";
  }

  /** The first entity a text starts with: the character it stands for and its length. */
  function EntityAt(t: string, es: seq<(char, string)>): (r: Option<(char, nat)>)
    ensures r.Some? ==> 1 <= r.value.1 <= |t|
  {
    if es == [] then None
    else if |es[0].1| >= 1 && StartsWith(t, es[0].1) then Some((es[0].0, |es[0].1|))
    else EntityAt(t, es[1..])
  }

  /** An HTML decoder of the six entities. */
  function Unescape(t: string): string
    decreases |t|
  {
    if t == [] then []
    else match EntityAt(t, Replacements)
      case Some((c, n)) => [c] + Unescape(t[n..])
      case None => [t[0]] + Unescape(t[1..])
  }

  /** Text starting with anything but `&` starts with no entity. */
  lemma {:induction false} NoEntityWithoutAmp(t: string, es: seq<(char, string)>)
    requires t != [] && t[0] != '&'
    requires forall k :: 0 <= k < |es| ==> |es[k].1| >= 1 && es[k].1[0] == '&'
    ensures EntityAt(t, es).None?
  {
    if es != [] {
      NoEntityWithoutAmp(t, es[1..]);
    }
  }

  /** Text starting with the k-th entity, where no earlier one is a prefix of it, decodes that entity first. */
  lemma {:induction false} EntityFound(t: string, es: seq<(char, string)>, k: nat)
    requires k < |es| && |es[k].1| >= 1 && StartsWith(t, es[k].1)
    requires forall j :: 0 <= j < k ==> |es[j].1| >= 1 && !StartsWith(t, es[j].1)
    ensures EntityAt(t, es) == Some((es[k].0, |es[k].1|))
  {
    if k > 0 {
      EntityFound(t, es[1..], k - 1);
    }
  }

  /** No entity is a prefix of a text starting with an earlier-listed entity: they differ at position 1, or at 4 for the two numeric ones. */
  lemma EntitiesDistinct(t: string, k: nat, j: nat)
    requires j < k < |Replacements| && StartsWith(t, Replacements[k].1)
    ensures !StartsWith(t, Replacements[j].1)
  {
    var ek, ej := Replacements[k].1, Replacements[j].1;
    assert t[..|ek|] == ek;
    if j == 4 {
      assert ek == Slash && t[4] == 'F' && ej[4] == '7';
    } else {
      assert t[1] == ek[1] && ej[1] != ek[1];
    }
  }

  lemma UnescapeChar(c: char, rest: string)
    ensures Unescape(EscapeChar(c) + rest) == [c] + Unescape(rest)
  {
    var e := EscapeChar(c);
    var t := e + rest;
    PrefixStarts(e, rest);
    assert t[|e|..] == rest;
    if c == '&' || Markup(c) {
      var k := EscapeIsEntry(c);
      forall j | 0 <= j < k ensures |Replacements[j].1| >= 1 && !StartsWith(t, Replacements[j].1) {
        EntitiesDistinct(t, k, j);
      }
      EntityFound(t, Replacements, k);
    } else {
      assert t[0] == c && t[1..] == rest;
      NoEntityWithoutAmp(t, Replacements);
    }
  }

  /** Decoding the escaped text gives the input back. */
  lemma UnescapeEscape(s: string)
    ensures Unescape(SanitizeInput(Some(s))) == s
  {
    UnescapeOfEscape(s);
  }

  lemma {:induction false} UnescapeOfEscape(s: string)
    ensures Unescape(Escape(s)) == s
  {
    if s != [] {
      var c, tl := s[0], s[1..];
      UnescapeOfEscape(tl);
      UnescapeChar(c, Escape(tl));
      assert Escape(s) == EscapeChar(c) + Escape(tl);
      assert s == [c] + tl;
    }
  }

  // --------------------------------------------------------- isValidJWT

  predicate IsAsciiWhitespace(c: char)
  {
    c == '\t' || c == '\n' || c == '\U{000C}' || c == '\r' || c == ' '
  }

  predicate IsBase64Char(c: char)
  {
    ('A' <= c <= 'Z') || ('a' <= c <= 'z') || ('0' <= c <= '9') || c == '+' || c == '/'
  }

  function RemoveWhitespace(s: string): (r: string)
    ensures forall i :: 0 <= i < |r| ==> !IsAsciiWhitespace(r[i])
    ensures (forall i :: 0 <= i < |s| ==> !IsAsciiWhitespace(s[i])) ==> r == s
  {
    if s == [] then [] else (if IsAsciiWhitespace(s[0]) then [] else [s[0]]) + RemoveWhitespace(s[1..])
  }

  /** The padding `=`s removed when the length is a multiple of four. */
  function Unpadded(d: string): string
  {
    if |d| % 4 != 0 then d
    else if |d| >= 2 && d[|d| - 2..] == "==" then d[..|d| - 2]
    else if |d| >= 1 && d[|d| - 1] == '=' then d[..|d| - 1]
    else d
  }

  /** Whether `atob` accepts a string: the forgiving-base64 decode of the HTML standard does not fail. */
  predicate AtobAccepts(s: string)
  {
    var d := Unpadded(RemoveWhitespace(s));
    |d| % 4 != 1 && forall i :: 0 <= i < |d| ==> IsBase64Char(d[i])
  }

  /** A part as `isValidJWT` hands it to `atob`: base64url's - and _ mapped to + and /. */
  function FromBase64Url(part: string): string
  {
    ReplaceChar(ReplaceChar(part, '-', "+"), '_', "/")
  }

  /** `SecurityUtils.isValidJWT`; None stands for a value that is not a string. */
  function IsValidJwt(token: Option<string>): (r: bool)
    ensures r ==> token.Some? && token.value != "" && |Split(token.value, '.')| == 3
    ensures r ==> forall k :: 0 <= k < 3 ==> AtobAccepts(FromBase64Url(Split(token.value, '.')[k]))
  {
    if token.None? || token.value == "" then false
    else
      var parts := Split(token.value, '.');
      |parts| == 3 && forall k :: 0 <= k < |parts| ==> AtobAccepts(FromBase64Url(parts[k]))
  }

  predicate IsBase64UrlChar(c: char)
  {
    ('A' <= c <= 'Z') || ('a' <= c <= 'z') || ('0' <= c <= '9') || c == '-' || c == '_'
  }

  /** An unpadded base64url segment as JWTs use them. */
  predicate Base64UrlSegment(p: string)
  {
    |p| % 4 != 1 && forall i :: 0 <= i < |p| ==> IsBase64UrlChar(p[i])
  }

  lemma {:induction false} FromBase64UrlChars(p: string)
    requires forall i :: 0 <= i < |p| ==> IsBase64UrlChar(p[i])
    ensures forall i :: 0 <= i < |p| ==> IsBase64Char(FromBase64Url(p)[i])
  {
    assert "+" == ['+'] && "/" == ['/'];
    var a := ReplaceChar(p, '-', "+");
    CharsReplaced(p, '-', '+');
    CharsReplaced(a, '_', '/');
  }

  lemma {:induction false} CharsReplaced(s: string, c: char, d: char)
    ensures |ReplaceChar(s, c, [d])| == |s|
    ensures forall i :: 0 <= i < |s| ==> ReplaceChar(s, c, [d])[i] == if s[i] == c then d else s[i]
  {
    if s != [] {
      CharsReplaced(s[1..], c, d);
    }
  }

  lemma SegmentAccepted(p: string)
    requires Base64UrlSegment(p)
    ensures AtobAccepts(FromBase64Url(p))
  {
    FromBase64UrlChars(p);
    var q := FromBase64Url(p);
    assert RemoveWhitespace(q) == q by {
      forall i | 0 <= i < |q| ensures !IsAsciiWhitespace(q[i]) {
        assert IsBase64Char(q[i]);
      }
    }
    if |q| % 4 == 0 && |q| >= 1 {
      assert q[|q| - 1] != '=' by { assert IsBase64Char(q[|q| - 1]); }
      if |q| >= 2 {
        assert q[|q| - 2..][1] == q[|q| - 1];
      }
    }
  }

  lemma NoDotIn(p: string)
    requires forall i :: 0 <= i < |p| ==> IsBase64UrlChar(p[i])
    ensures '.' !in p
  {
  }

  /** Three base64url segments joined by dots form a valid token. */
  lemma SegmentsFormToken(a: string, b: string, c: string)
    requires Base64UrlSegment(a) && Base64UrlSegment(b) && Base64UrlSegment(c)
    ensures IsValidJwt(Some(a + "." + b + "." + c))
  {
    var parts := [a, b, c];
    assert forall k :: 0 <= k < |parts| ==> '.' !in parts[k] by {
      NoDotIn(a);
      NoDotIn(b);
      NoDotIn(c);
    }
    assert Join(parts, ".") == a + "." + b + "." + c by {
      assert parts[1..] == [b, c];
      assert [b, c][1..] == [c];
      assert Join([c], ".") == c;
      assert Join([b, c], ".") == b + "." + c;
      assert Join(parts, ".") == a + "." + (b + "." + c);
    }
    SplitJoin(parts, '.');
    SegmentAccepted(a);
    SegmentAccepted(b);
    SegmentAccepted(c);
  }
}
