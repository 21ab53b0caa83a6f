// Parsing one Set-Cookie header received from the API so that the web
// server can set the same cookie on its own response: name and value,
// the recognised attributes, and the downgrade for plain-HTTP requests.
module Cookies {
  import opened Wrappers
  import opened Text

  // ------------------------------------------------- JavaScript strings

  /** What `String.prototype.trim` removes: the WhiteSpace and LineTerminator code points of ECMAScript. */
  predicate IsJsSpace(c: char)
  {
    c == '\t' || c == '\n' || c == '\U{000B}' || c == '\U{000C}' || c == '\r' || c == ' '
    || c == '\U{00A0}' || c == '\U{1680}' || '\U{2000}' <= c <= '\U{200A}' || c == '\U{2028}' || c == '\U{2029}'
    || c == '\U{202F}' || c == '\U{205F}' || c == '\U{3000}' || c == '\U{FEFF}'
  }

  function JsTrimStart(s: string): (r: string)
    ensures r == [] || !IsJsSpace(r[0])
    ensures |r| <= |s|
  {
    if s != [] && IsJsSpace(s[0]) then JsTrimStart(s[1..]) else s
  }

  function JsTrimEnd(s: string): (r: string)
    ensures r == [] || !IsJsSpace(r[|r| - 1])
    ensures |r| <= |s| && r == s[..|r|]
  {
    if s != [] && IsJsSpace(s[|s| - 1]) then JsTrimEnd(s[..|s| - 1]) else s
  }

  /** `s.trim()`. */
  function JsTrim(s: string): (r: string)
    ensures r == [] || (!IsJsSpace(r[0]) && !IsJsSpace(r[|r| - 1]))
  {
    JsTrimEnd(JsTrimStart(s))
  }

  /** `.map((part) => part.trim()).filter(Boolean)`. */
  function TrimmedNonEmpty(parts: seq<string>): (r: seq<string>)
    ensures |r| <= |parts|
    ensures forall k :: 0 <= k < |r| ==> r[k] != [] && r[k] == JsTrim(r[k])
  {
    if parts == [] then []
    else
      var t := JsTrim(parts[0]);
      JsTrimIdempotent(parts[0]);
      if t == [] then TrimmedNonEmpty(parts[1..]) else [t] + TrimmedNonEmpty(parts[1..])
  }

  lemma JsTrimIdempotent(s: string)
    ensures JsTrim(JsTrim(s)) == JsTrim(s)
  {
    var t := JsTrim(s);
    if t != [] {
      assert JsTrimStart(t) == t;
    }
  }

  lemma {:induction false} TrimmedNonEmptyConcat(x: seq<string>, y: seq<string>)
    ensures TrimmedNonEmpty(x + y) == TrimmedNonEmpty(x) + TrimmedNonEmpty(y)
  {
    if x == [] {
      assert x + y == y;
    } else {
      assert (x + y)[0] == x[0] && (x + y)[1..] == x[1..] + y;
      TrimmedNonEmptyConcat(x[1..], y);
      if JsTrim(x[0]) != [] {
        assert TrimmedNonEmpty(x + y) == [JsTrim(x[0])] + TrimmedNonEmpty(x[1..] + y);
      }
    }
  }

  /** The header's parts: split on every ";", trimmed, empty ones dropped. */
  function Parts(header: string): (r: seq<string>)
    ensures forall k :: 0 <= k < |r| ==> r[k] != [] && ';' !in r[k]
  {
    var split := Split(header, ';');
    var r := TrimmedNonEmpty(split);
    assert forall k :: 0 <= k < |r| ==> ';' !in r[k] by {
      TrimmedKeepsAbsent(split, ';');
    }
    r
  }

  lemma JsTrimKeepsAbsent(s: string, c: char)
    requires c !in s
    ensures c !in JsTrim(s)
  {
    var t := JsTrimStart(s);
    assert c !in t by { JsTrimStartSuffix(s); }
  }

  lemma {:induction false} JsTrimStartSuffix(s: string)
    ensures JsTrimStart(s) == s[|s| - |JsTrimStart(s)|..]
  {
    if s != [] && IsJsSpace(s[0]) {
      JsTrimStartSuffix(s[1..]);
    }
  }

  lemma {:induction false} TrimmedKeepsAbsent(parts: seq<string>, c: char)
    requires forall k :: 0 <= k < |parts| ==> c !in parts[k]
    ensures forall k :: 0 <= k < |TrimmedNonEmpty(parts)| ==> c !in TrimmedNonEmpty(parts)[k]
  {
    if parts != [] {
      JsTrimKeepsAbsent(parts[0], c);
      TrimmedKeepsAbsent(parts[1..], c);
    }
  }

  /** A ";" always separates parts, whatever surrounds it: quoted values are not kept together. */
  lemma PartsConcat(a: string, b: string)
    ensures Parts(a + ";" + b) == Parts(a) + Parts(b)
  {
    SplitConcat(a, b, ';');
    TrimmedNonEmptyConcat(Split(a, ';'), Split(b, ';'));
  }

  // ----------------------------------------------------- name and value

  /** The text before the first "=" (`s.split('=')[0]`). */
  function BeforeEq(s: string): string
  {
    Split(s, '=')[0]
  }

  /** The text after the first "=", which may itself hold "=" (`rest.join('=')`). */
  function AfterEq(s: string): string
  {
    Join(Split(s, '=')[1..], "=")
  }

  /** The two halves put back together give the text. */
  lemma EqHalves(s: string)
    ensures '=' !in BeforeEq(s)
    ensures '=' in s ==> s == BeforeEq(s) + "=" + AfterEq(s)
    ensures '=' !in s ==> BeforeEq(s) == s && AfterEq(s) == ""
  {
    var parts := Split(s, '=');
    JoinSplit(s, '=');
    if '=' !in s {
      SplitWithoutSeparator(s, '=');
    }
  }

  /** A name without "=" and any value split back into that name and value. */
  lemma EqOf(n: string, v: string)
    requires '=' !in n
    ensures BeforeEq(n + "=" + v) == n && AfterEq(n + "=" + v) == v
  {
    SplitAfter(n, v, '=');
    assert n + "=" + v == n + ['='] + v;
    JoinSplit(v, '=');
  }

  // ----------------------------------------------------------- options

  datatype SameSite = SameSiteLax | SameSiteStrict | SameSiteNone
  datatype Priority = PriorityLow | PriorityMedium | PriorityHigh

  /** The cookie options set on the response; a flag that is false is absent. */
  datatype CookieOptions = CookieOptions(
    path: Option<string>, domain: Option<string>, sameSite: Option<SameSite>,
    maxAge: Option<real>, expires: Option<int>, priority: Option<Priority>,
    partitioned: bool, httpOnly: bool, secure: bool)

  datatype ParsedCookie = ParsedCookie(name: string, value: string, options: CookieOptions)

  /** The options and the requested SameSite while the attributes are read. */
  datatype AttrState = AttrState(options: CookieOptions, requested: Option<SameSite>)

  const NoOptions := CookieOptions(None, None, None, None, None, None, false, false, false)
  const Initial := AttrState(NoOptions, None)

  /** `sameSite === 'lax' || 'strict' || 'none'` on the lower-cased value. */
  function SameSiteOf(v: string): (r: Option<SameSite>)
    ensures r == Some(SameSiteLax) <==> Lower(v) == "lax"
    ensures r == Some(SameSiteStrict) <==> Lower(v) == "strict"
    ensures r == Some(SameSiteNone) <==> Lower(v) == "none"
    ensures r.None? <==> Lower(v) != "lax" && Lower(v) != "strict" && Lower(v) != "none"
  {
    var l := Lower(v);
    if l == "lax" then Some(SameSiteLax) else if l == "strict" then Some(SameSiteStrict)
    else if l == "none" then Some(SameSiteNone) else None
  }

  /** `priority === 'low' || 'medium' || 'high'` on the lower-cased value. */
  function PriorityOf(v: string): (r: Option<Priority>)
    ensures r == Some(PriorityLow) <==> Lower(v) == "low"
    ensures r == Some(PriorityMedium) <==> Lower(v) == "medium"
    ensures r == Some(PriorityHigh) <==> Lower(v) == "high"
    ensures r.None? <==> Lower(v) != "low" && Lower(v) != "medium" && Lower(v) != "high"
  {
    var l := Lower(v);
    if l == "low" then Some(PriorityLow) else if l == "medium" then Some(PriorityMedium)
    else if l == "high" then Some(PriorityHigh) else None
  }

  /** The lower-case attribute value that names each SameSite setting. */
  function SameSiteName(s: SameSite): string
  {
    match s
    case SameSiteLax => "lax"
    case SameSiteStrict => "strict"
    case SameSiteNone => "none"
  }

  /** The lower-case attribute value that names each priority. */
  function PriorityName(p: Priority): string
  {
    match p
    case PriorityLow => "low"
    case PriorityMedium => "medium"
    case PriorityHigh => "high"
  }

  /** Reading a SameSite value ignores its case, reads every setting back from its name, and accepts nothing but a name in some case. */
  lemma SameSiteRoundTrip(v: string, s: SameSite)
    ensures SameSiteOf(Lower(v)) == SameSiteOf(v)
    ensures SameSiteOf(SameSiteName(s)) == Some(s)
    ensures SameSiteOf(v) == Some(s) <==> Lower(v) == SameSiteName(s)
  {
    LowerIdempotent(v);
    LowerOfLowerLiteral(SameSiteName(s));
  }

  /** Reading a priority ignores its case, reads every priority back from its name, and accepts nothing but a name in some case. */
  lemma PriorityRoundTrip(v: string, p: Priority)
    ensures PriorityOf(Lower(v)) == PriorityOf(v)
    ensures PriorityOf(PriorityName(p)) == Some(p)
    ensures PriorityOf(v) == Some(p) <==> Lower(v) == PriorityName(p)
  {
    LowerIdempotent(v);
    LowerOfLowerLiteral(PriorityName(p));
  }

  /** `attrValue || undefined`. */
  function NonEmpty(v: string): Option<string>
  {
    if v == "" then None else Some(v)
  }

  function AttrName(attribute: string): string
  {
    Lower(BeforeEq(attribute))
  }

  /**
   * One attribute read into the state; `toNumber` is JavaScript's Number()
   * (None for NaN) and `toDate` the time value of `new Date(s)` (None for
   * an invalid date).
   */
  function Apply(st: AttrState, attribute: string, toNumber: string -> Option<real>, toDate: string -> Option<int>): AttrState
  {
    var n := AttrName(attribute);
    var v := AfterEq(attribute);
    var o := st.options;
    if n == "path" then st.(options := o.(path := NonEmpty(v)))
    else if n == "domain" then st.(options := o.(domain := NonEmpty(v)))
    else if n == "samesite" then
      if v != "" && SameSiteOf(v).Some? then st.(requested := SameSiteOf(v)) else st
    else if n == "max-age" then
      if v != "" && toNumber(v).Some? then st.(options := o.(maxAge := toNumber(v))) else st
    else if n == "expires" then
      if v != "" && toDate(v).Some? then st.(options := o.(expires := toDate(v))) else st
    else if n == "priority" then
      if v != "" && PriorityOf(v).Some? then st.(options := o.(priority := PriorityOf(v))) else st
    else if n == "partitioned" then st.(options := o.(partitioned := true))
    else if n == "httponly" then st.(options := o.(httpOnly := true))
    else if n == "secure" then st.(options := o.(secure := true))
    else st
  }

  /** The attributes read one after the other, as the forEach does. */
  function Fold(st: AttrState, attributes: seq<string>, toNumber: string -> Option<real>, toDate: string -> Option<int>): AttrState
    decreases |attributes|
  {
    if attributes == [] then st else Fold(Apply(st, attributes[0], toNumber, toDate), attributes[1..], toNumber, toDate)
  }

  /** The options once the requested SameSite is applied, before any downgrade. */
  function Collected(st: AttrState): CookieOptions
  {
    if st.requested.Some? then st.options.(sameSite := st.requested) else st.options
  }

  /** The options returned: for a plain-HTTP request without `secure`, and SameSite none lowered to lax. */
  function Finish(st: AttrState, isSecureRequest: bool): CookieOptions
  {
    var o := Collected(st);
    if isSecureRequest then o
    else o.(secure := false, sameSite := if o.sameSite == Some(SameSiteNone) then Some(SameSiteLax) else o.sameSite)
  }

  /** `parseSetCookieHeader`, as a whole. */
  function Parse(header: string, isSecureRequest: bool, toNumber: string -> Option<real>, toDate: string -> Option<int>)
    : Option<ParsedCookie>
  {
    var parts := Parts(header);
    if parts == [] then None
    else Some(ParsedCookie(BeforeEq(parts[0]), AfterEq(parts[0]), Finish(Fold(Initial, parts[1..], toNumber, toDate), isSecureRequest)))
  }

  /** `parseSetCookieHeader`: the attribute loop. */
  method ParseSetCookieHeader(cookieHeader: string, isSecureRequest: bool,
                              toNumber: string -> Option<real>, toDate: string -> Option<int>)
    returns (r: Option<ParsedCookie>)
    ensures r == Parse(cookieHeader, isSecureRequest, toNumber, toDate)
  {
    var parts := Parts(cookieHeader);
    if parts == [] {
      return None;
    }
    var name := BeforeEq(parts[0]);
    var value := AfterEq(parts[0]);
    var attributes := parts[1..];
    var st := Initial;
    var i := 0;
    while i < |attributes|
      invariant 0 <= i <= |attributes|
      invariant Fold(st, attributes[i..], toNumber, toDate) == Fold(Initial, attributes, toNumber, toDate)
    {
      assert attributes[i..][1..] == attributes[i + 1..];
      st := Apply(st, attributes[i], toNumber, toDate);
      i := i + 1;
    }
    r := Some(ParsedCookie(name, value, Finish(st, isSecureRequest)));
  }

  // ----------------------------------------------------------- properties

  /** Null exactly when no non-empty part remains. */
  lemma NullIffNoParts(header: string, isSecureRequest: bool, toNumber: string -> Option<real>, toDate: string -> Option<int>)
    ensures Parse(header, isSecureRequest, toNumber, toDate).None? <==> Parts(header) == []
  {
  }

  /** The name is the text of the first part before its first "=", and the value all the rest. */
  lemma NameAndValue(header: string, isSecureRequest: bool, toNumber: string -> Option<real>, toDate: string -> Option<int>)
    requires Parse(header, isSecureRequest, toNumber, toDate).Some?
    ensures var c := Parse(header, isSecureRequest, toNumber, toDate).value;
      var first := Parts(header)[0];
      && '=' !in c.name
      && ('=' in first ==> first == c.name + "=" + c.value)
      && ('=' !in first ==> c.name == first && c.value == "")
  {
    EqHalves(Parts(header)[0]);
  }

  /** Attribute names are matched without regard to case. */
  lemma CaseInsensitiveNames(st: AttrState, n1: string, n2: string, v: string,
                             toNumber: string -> Option<real>, toDate: string -> Option<int>)
    requires '=' !in n1 && '=' !in n2 && Lower(n1) == Lower(n2)
    ensures Apply(st, n1 + "=" + v, toNumber, toDate) == Apply(st, n2 + "=" + v, toNumber, toDate)
  {
    EqOf(n1, v);
    EqOf(n2, v);
  }

  /** An attribute with none of the nine names changes nothing. */
  lemma UnknownIgnored(st: AttrState, a: string, toNumber: string -> Option<real>, toDate: string -> Option<int>)
    requires AttrName(a) !in {"path", "domain", "samesite", "max-age", "expires", "priority", "partitioned", "httponly", "secure"}
    ensures Apply(st, a, toNumber, toDate) == st
  {
  }

  /** Whether reading the attribute sets its option, whatever was there. */
  predicate Takes(a: string, toNumber: string -> Option<real>, toDate: string -> Option<int>)
  {
    var n := AttrName(a);
    var v := AfterEq(a);
    n in {"path", "domain", "partitioned", "httponly", "secure"}
    || (n == "samesite" && v != "" && SameSiteOf(v).Some?)
    || (n == "max-age" && v != "" && toNumber(v).Some?)
    || (n == "expires" && v != "" && toDate(v).Some?)
    || (n == "priority" && v != "" && PriorityOf(v).Some?)
  }

  /** A later attribute of the same name that takes overwrites the earlier one. */
  lemma LaterOverwrites(st: AttrState, a1: string, a2: string, toNumber: string -> Option<real>, toDate: string -> Option<int>)
    requires AttrName(a1) == AttrName(a2) && Takes(a2, toNumber, toDate)
    ensures Apply(Apply(st, a1, toNumber, toDate), a2, toNumber, toDate) == Apply(st, a2, toNumber, toDate)
  {
  }

  /** SameSite, Priority, Max-Age and Expires keep their earlier setting when the value is empty or not one they accept. */
  lemma RejectedValueKept(st: AttrState, a: string, toNumber: string -> Option<real>, toDate: string -> Option<int>)
    requires AttrName(a) in {"samesite", "max-age", "expires", "priority"} && !Takes(a, toNumber, toDate)
    ensures Apply(st, a, toNumber, toDate) == st
  {
  }

  /** SameSite is requested only as lax, strict or none, in any case; Priority only as low, medium or high. */
  lemma AcceptedValues(st: AttrState, a: string, toNumber: string -> Option<real>, toDate: string -> Option<int>)
    ensures AttrName(a) == "samesite" ==>
      Apply(st, a, toNumber, toDate).requested
      == (if Lower(AfterEq(a)) in {"lax", "strict", "none"} then SameSiteOf(AfterEq(a)) else st.requested)
    ensures AttrName(a) == "priority" ==>
      Apply(st, a, toNumber, toDate).options.priority
      == (if Lower(AfterEq(a)) in {"low", "medium", "high"} then PriorityOf(AfterEq(a)) else st.options.priority)
    ensures AttrName(a) == "max-age" ==>
      Apply(st, a, toNumber, toDate).options.maxAge
      == (if AfterEq(a) != "" && toNumber(AfterEq(a)).Some? then toNumber(AfterEq(a)) else st.options.maxAge)
  {
    LowerOfEmpty();
  }

  lemma LowerOfEmpty()
    ensures Lower("") == ""
  {
  }

  /** On a plain-HTTP request the cookie loses `secure` and SameSite none becomes lax; everything else, partitioned and domain included, is what a secure request gets. */
  lemma InsecureDowngrade(header: string, toNumber: string -> Option<real>, toDate: string -> Option<int>)
    requires Parts(header) != []
    ensures var s := Parse(header, true, toNumber, toDate).value.options;
      var o := Parse(header, false, toNumber, toDate).value.options;
      && !o.secure
      && o.sameSite == (if s.sameSite == Some(SameSiteNone) then Some(SameSiteLax) else s.sameSite)
      && o.sameSite != Some(SameSiteNone)
      && o.partitioned == s.partitioned && o.domain == s.domain && o.path == s.path
      && o.maxAge == s.maxAge && o.expires == s.expires && o.priority == s.priority && o.httpOnly == s.httpOnly
  {
  }

  /** On a secure request the options are exactly the attributes read, with the requested SameSite. */
  lemma SecureKeepsAll(header: string, toNumber: string -> Option<real>, toDate: string -> Option<int>)
    requires Parts(header) != []
    ensures Parse(header, true, toNumber, toDate).value.options == Collected(Fold(Initial, Parts(header)[1..], toNumber, toDate))
  {
  }
}
