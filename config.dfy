// The worker's settings: CORS origin normalisation, the security validators
// run when the settings load, and the derived database URL and CORS
// configuration.
module Config {
  import opened Wrappers
  import opened Text

  // ------------------------------------------------------------- urlsplit

  predicate AsciiLetter(c: char)
  {
    'a' <= c <= 'z' || 'A' <= c <= 'Z'
  }

  /** The characters a URL scheme may hold. */
  predicate SchemeChar(c: char)
  {
    AsciiLetter(c) || '0' <= c <= '9' || c == '+' || c == '-' || c == '.'
  }

  predicate Delimiter(c: char)
  {
    c == '/' || c == '?' || c == '#'
  }

  /** The position of the first '/', '?' or '#', or the length when there is none. */
  function FirstDelimiter(s: string): (r: nat)
    ensures r <= |s|
    ensures r < |s| ==> Delimiter(s[r])
    ensures forall k :: 0 <= k < r ==> !Delimiter(s[k])
  {
    if s == [] then 0
    else if Delimiter(s[0]) then 0
    else 1 + FirstDelimiter(s[1..])
  }

  /** The scheme step of `urlsplit`: the text before the first ':', lower-cased, when it is a letter followed by scheme characters; otherwise no scheme. The second component is what follows. */
  function SplitScheme(s: string): (r: (string, string))
    ensures |r.1| <= |s| && r.1 == s[|s| - |r.1|..]
  {
    match IndexOf(s, ':')
    case None => ("", s)
    case Some(i) =>
      if i > 0 && AsciiLetter(s[0]) && forall k :: 0 <= k < i ==> SchemeChar(s[k]) then (Lower(s[..i]), s[i + 1..])
      else ("", s)
  }

  /** The netloc step of `urlsplit`: after a leading "//", everything up to the first delimiter. */
  function SplitNetloc(rest: string): (r: (string, string))
    ensures forall k :: 0 <= k < |r.0| ==> !Delimiter(r.0[k])
    ensures ',' !in rest ==> ',' !in r.0
  {
    if |rest| >= 2 && rest[..2] == "//" then
      var d := 2 + FirstDelimiter(rest[2..]);
      assert forall k :: 0 <= k < d - 2 ==> rest[2..d][k] == rest[2..][k];
      (rest[2..d], rest[d..])
    else ("", rest)
  }

  /** The last step of `urlsplit`: the fragment after the first '#', then the query after the first '?'; what is left is the path. */
  function SplitQuery(tail: string): (r: (string, string, string))
    ensures tail == [] ==> r == ("", "", "")
  {
    var hash := IndexOf(tail, '#');
    var beforeHash := if hash.Some? then tail[..hash.value] else tail;
    var fragment := if hash.Some? then tail[hash.value + 1..] else "";
    var question := IndexOf(beforeHash, '?');
    (if question.Some? then beforeHash[..question.value] else beforeHash,
     if question.Some? then beforeHash[question.value + 1..] else "",
     fragment)
  }

  /** The five components of `urlsplit`. */
  datatype UrlParts = UrlParts(scheme: string, netloc: string, path: string, query: string, fragment: string)

  /** `urlsplit`. */
  function UrlSplit(s: string): (r: UrlParts)
    ensures forall k :: 0 <= k < |r.netloc| ==> !Delimiter(r.netloc[k])
    ensures ',' !in s ==> ',' !in r.netloc
  {
    var schemed := SplitScheme(s);
    var located := SplitNetloc(schemed.1);
    var rest := SplitQuery(located.1);
    UrlParts(schemed.0, located.0, rest.0, rest.1, rest.2)
  }

  // ------------------------------------------------------ normalize_origins

  /** What one comma-separated entry contributes. */
  datatype Entry = Skip | Wildcard | Valid(origin: string) | Invalid(text: string)

  /** The result of `normalize_origins`: "*" or a list. */
  datatype Origins = AnyOrigin | OriginList(origins: seq<string>)

  /** `{s!r}` for a string without quotes or escapes. */
  function Repr(s: string): string
  {
    "'" + s + "'"
  }

  /** An entry stripped of surrounding whitespace and then of trailing slashes. */
  function Stripped(o: string): (r: string)
    ensures ',' !in o ==> ',' !in r
  {
    TrimStartSuffix(o);
    TrimEndPrefix(TrimStart(o));
    RStrip(Trim(o), '/')
  }

  /** A netloc as it appears in the output: non-empty, lower-case, without delimiters. */
  predicate NetlocText(n: string)
  {
    n != [] && Lower(n) == n && forall k :: 0 <= k < |n| ==> !Delimiter(n[k])
  }

  /** The shape of a normalised origin: "http://" or "https://" and a netloc. */
  predicate OriginText(x: string)
  {
    (StartsWith(x, "http://") && NetlocText(x[7..])) || (StartsWith(x, "https://") && NetlocText(x[8..]))
  }

  /** One entry: empty is skipped, "*" is the wildcard, and otherwise it must be an http or https URL with a netloc and nothing after it. */
  function Classify(o: string): Entry
  {
    ClassifyStripped(Stripped(o))
  }

  function ClassifyStripped(s: string): Entry
  {
    if s == [] then Skip
    else if s == "*" then Wildcard
    else
      var p := UrlSplit(s);
      if (p.scheme != "http" && p.scheme != "https") || p.netloc == [] || p.path != [] || p.query != [] || p.fragment != [] then
        Invalid(s)
      else
        Valid(Lower(p.scheme) + "://" + Lower(p.netloc))
  }

  /** What each kind of entry is: an accepted origin has the normalised shape and keeps out any comma the entry did not have; an invalid one is reported as stripped. */
  lemma ClassifyShape(o: string)
    ensures Classify(o).Valid? ==> OriginText(Classify(o).origin)
    ensures Classify(o).Valid? && ',' !in o ==> ',' !in Classify(o).origin
    ensures Classify(o).Skip? <==> Stripped(o) == []
    ensures Classify(o).Wildcard? <==> Stripped(o) == "*"
    ensures Classify(o).Invalid? ==> Classify(o).text == Stripped(o)
  {
    var s := Stripped(o);
    assert Classify(o) == ClassifyStripped(s);
    if s != [] && s != "*" {
      var p := UrlSplit(s);
      if !((p.scheme != "http" && p.scheme != "https") || p.netloc == [] || p.path != [] || p.query != [] || p.fragment != []) {
        ValidShape(p.scheme, p.netloc);
      }
    }
  }

  lemma ValidShape(scheme: string, netloc: string)
    requires scheme == "http" || scheme == "https"
    requires netloc != [] && forall k :: 0 <= k < |netloc| ==> !Delimiter(netloc[k])
    ensures OriginText(Lower(scheme) + "://" + Lower(netloc))
    ensures ',' !in netloc ==> ',' !in Lower(scheme) + "://" + Lower(netloc)
  {
    LowerOfLowerLiteral(scheme);
    var n := Lower(netloc);
    LowerNetloc(netloc);
    OriginTextOf(scheme, n);
  }

  lemma LowerNetloc(netloc: string)
    requires netloc != [] && forall k :: 0 <= k < |netloc| ==> !Delimiter(netloc[k])
    ensures NetlocText(Lower(netloc))
    ensures ',' !in netloc ==> ',' !in Lower(netloc)
  {
    LowerIdempotent(netloc);
  }

  lemma OriginTextOf(scheme: string, n: string)
    requires scheme == "http" || scheme == "https"
    requires NetlocText(n)
    ensures OriginText(scheme + "://" + n)
  {
    var x := scheme + "://" + n;
    assert x[..|scheme| + 3] == scheme + "://";
    assert x[|scheme| + 3..] == n;
  }

  /** Every entry of a list, classified. */
  function Entries(parts: seq<string>): (r: seq<Entry>)
    ensures |r| == |parts|
  {
    if parts == [] then [] else [Classify(parts[0])] + Entries(parts[1..])
  }

  lemma {:induction false} EntriesAt(parts: seq<string>, k: nat)
    requires k < |parts|
    ensures Entries(parts)[k] == Classify(parts[k])
  {
    if k > 0 {
      EntriesAt(parts[1..], k - 1);
    }
  }

  /** The loop of `normalize_origins` from entry `i` on, with `cleaned` collected so far: the first "*" returns the wildcard at once, the first invalid entry raises, and at the end the collected origins are de-duplicated and sorted. */
  function Collect(es: seq<Entry>, i: nat, cleaned: seq<string>): Result<Origins, string>
    requires i <= |es|
    decreases |es| - i
  {
    if i == |es| then Ok(OriginList(Sort(Dedup(cleaned))))
    else match es[i]
      case Skip => Collect(es, i + 1, cleaned)
      case Wildcard => Ok(AnyOrigin)
      case Invalid(s) => Err("Invalid CORS origin: " + Repr(s))
      case Valid(x) => Collect(es, i + 1, cleaned + [x])
  }

  /** `normalize_origins`, as a function of the raw setting. */
  function Normalized(raw: string): Result<Origins, string>
  {
    Collect(Entries(Split(raw, ',')), 0, [])
  }

  /** `normalize_origins`. */
  method NormalizeOrigins(raw: string) returns (r: Result<Origins, string>)
    ensures r == Normalized(raw)
  {
    var parts := Split(raw, ',');
    ghost var es := Entries(parts);
    var cleaned: seq<string> := [];
    var i := 0;
    while i < |parts|
      invariant 0 <= i <= |parts|
      invariant Collect(es, i, cleaned) == Collect(es, 0, [])
    {
      var e := Classify(parts[i]);
      EntriesAt(parts, i);
      match e {
        case Skip =>
        case Wildcard => return Ok(AnyOrigin);
        case Invalid(s) => return Err("Invalid CORS origin: " + Repr(s));
        case Valid(x) => cleaned := cleaned + [x];
      }
      i := i + 1;
    }
    r := Ok(OriginList(Sort(Dedup(cleaned))));
  }

  /** The origins of the valid entries, in order. */
  function ValidOrigins(es: seq<Entry>): (r: seq<string>)
    ensures |r| <= |es|
  {
    if es == [] then []
    else (if es[0].Valid? then [es[0].origin] else []) + ValidOrigins(es[1..])
  }

  /** Without a wildcard or an invalid entry the result is the valid origins collected, each once, sorted. */
  lemma {:induction false} CollectList(es: seq<Entry>, i: nat, cleaned: seq<string>)
    requires i <= |es|
    requires forall k :: i <= k < |es| ==> es[k].Skip? || es[k].Valid?
    ensures Collect(es, i, cleaned) == Ok(OriginList(Sort(Dedup(cleaned + ValidOrigins(es[i..])))))
    decreases |es| - i
  {
    if i == |es| {
      assert es[i..] == [];
      assert cleaned + [] == cleaned;
    } else {
      var tail := es[i..];
      assert tail[0] == es[i] && tail[1..] == es[i + 1..];
      var head := if es[i].Valid? then [es[i].origin] else [];
      assert ValidOrigins(tail) == head + ValidOrigins(es[i + 1..]);
      assert cleaned + head + ValidOrigins(es[i + 1..]) == cleaned + ValidOrigins(tail);
      CollectList(es, i + 1, cleaned + head);
      if es[i].Skip? {
        assert cleaned + head == cleaned;
      }
    }
  }

  /** A wildcard with no invalid entry before it gives "*", whatever follows it. */
  lemma {:induction false} WildcardFirst(es: seq<Entry>, k: nat, i: nat, cleaned: seq<string>)
    requires i <= k < |es| && es[k] == Wildcard
    requires forall m :: i <= m < k ==> !es[m].Invalid?
    ensures Collect(es, i, cleaned) == Ok(AnyOrigin)
    decreases k - i
  {
    if i < k {
      match es[i]
      case Skip => WildcardFirst(es, k, i + 1, cleaned);
      case Wildcard =>
      case Valid(x) => WildcardFirst(es, k, i + 1, cleaned + [x]);
    }
  }

  /** An invalid entry with no wildcard or invalid entry before it raises, naming that entry, whatever follows it. */
  lemma {:induction false} InvalidFirst(es: seq<Entry>, k: nat, i: nat, cleaned: seq<string>)
    requires i <= k < |es| && es[k].Invalid?
    requires forall m :: i <= m < k ==> es[m].Skip? || es[m].Valid?
    ensures Collect(es, i, cleaned) == Err("Invalid CORS origin: " + Repr(es[k].text))
    decreases k - i
  {
    if i < k {
      match es[i]
      case Skip => InvalidFirst(es, k, i + 1, cleaned);
      case Valid(x) => InvalidFirst(es, k, i + 1, cleaned + [x]);
    }
  }

  /** A list result is sorted, holds each origin once, and every origin has the normalised shape and no comma. */
  lemma {:induction false} CollectShape(es: seq<Entry>, i: nat, cleaned: seq<string>)
    requires i <= |es|
    requires forall k :: 0 <= k < |es| && es[k].Valid? ==> OriginText(es[k].origin) && ',' !in es[k].origin
    requires forall x :: x in cleaned ==> OriginText(x) && ',' !in x
    ensures var r := Collect(es, i, cleaned);
      r.Ok? && r.value.OriginList? ==>
        && Sorted(r.value.origins) && NoDuplicates(r.value.origins)
        && forall x :: x in r.value.origins ==> OriginText(x) && ',' !in x
    decreases |es| - i
  {
    if i == |es| {
      var d := Dedup(cleaned);
      SortSorted(d);
      SortDistinct(d);
      forall x | x in Sort(d)
        ensures x in cleaned
      {
        assert x in multiset(Sort(d));
      }
    } else {
      match es[i]
      case Skip => CollectShape(es, i + 1, cleaned);
      case Wildcard =>
      case Invalid(s) =>
      case Valid(x) => CollectShape(es, i + 1, cleaned + [x]);
    }
  }

  lemma NormalizedShape(raw: string)
    ensures var r := Normalized(raw);
      r.Ok? && r.value.OriginList? ==>
        && Sorted(r.value.origins) && NoDuplicates(r.value.origins)
        && forall x :: x in r.value.origins ==> OriginText(x) && ',' !in x
  {
    var parts := Split(raw, ',');
    var es := Entries(parts);
    forall k | 0 <= k < |es| && es[k].Valid?
      ensures OriginText(es[k].origin) && ',' !in es[k].origin
    {
      EntriesAt(parts, k);
      ClassifyShape(parts[k]);
    }
    CollectShape(es, 0, []);
  }

  /** Splitting text that ends in the separator gives one more, empty, part. */
  lemma {:induction false} SplitTrailingSeparator(s: string, sep: char)
    ensures Split(s + [sep], sep) == Split(s, sep) + [[]]
  {
    if s == [] {
      assert [sep][1..] == [];
    } else {
      SplitTrailingSeparator(s[1..], sep);
      assert (s + [sep])[1..] == s[1..] + [sep];
    }
  }

  /** A trailing comma changes nothing. */
  lemma TrailingCommaIgnored(raw: string)
    ensures Normalized(raw + ",") == Normalized(raw)
  {
    SplitTrailingSeparator(raw, ',');
    var parts := Split(raw, ',');
    var es := Entries(parts);
    var es2 := Entries(parts + [[]]);
    forall k | 0 <= k < |es2|
      ensures es2[k] == (es + [Skip])[k]
    {
      EntriesAt(parts + [[]], k);
      if k < |es| {
        EntriesAt(parts, k);
      }
    }
    assert es2 == es + [Skip];
    SkipAppended(es, 0, []);
  }

  lemma {:induction false} SkipAppended(es: seq<Entry>, i: nat, cleaned: seq<string>)
    requires i <= |es|
    ensures Collect(es + [Skip], i, cleaned) == Collect(es, i, cleaned)
    decreases |es| - i
  {
    var all := es + [Skip];
    if i == |es| {
      assert all[i] == Skip;
    } else {
      assert all[i] == es[i];
      match es[i]
      case Skip => SkipAppended(es, i + 1, cleaned);
      case Wildcard =>
      case Invalid(s) =>
      case Valid(x) => SkipAppended(es, i + 1, cleaned + [x]);
    }
  }

  // ------------------------------------------------------ accepted origins

  lemma SchemeOfOrigin(scheme: string, rest: string)
    requires scheme == "http" || scheme == "https"
    ensures SplitScheme(scheme + ":" + rest) == (scheme, rest)
  {
    var s, i := scheme + ":" + rest, |scheme|;
    IndexOfAfter(scheme, ':', rest);
    assert s[..i] == scheme;
    assert s[i + 1..] == rest;
    SchemeLetters(scheme);
    assert forall k :: 0 <= k < i ==> SchemeChar(s[k]) by {
      forall k | 0 <= k < i ensures SchemeChar(s[k]) {
        assert s[k] == scheme[k];
      }
    }
    LowerOfLowerLiteral(scheme);
  }

  lemma SchemeLetters(scheme: string)
    requires scheme == "http" || scheme == "https"
    ensures |scheme| > 0 && AsciiLetter(scheme[0])
    ensures forall k :: 0 <= k < |scheme| ==> SchemeChar(scheme[k]) && !('A' <= scheme[k] <= 'Z')
    ensures ':' !in scheme
  {
  }

  lemma NetlocOfOrigin(n: string)
    requires NetlocText(n)
    ensures SplitNetloc("//" + n) == (n, "")
  {
    var rest := "//" + n;
    assert rest[2..] == n;
    assert rest[..2] == "//";
    assert FirstDelimiter(n) == |n|;
    assert rest[2..2 + |n|] == n && rest[2 + |n|..] == [];
  }

  lemma UrlSplitOrigin(scheme: string, n: string)
    requires scheme == "http" || scheme == "https"
    requires NetlocText(n)
    ensures UrlSplit(scheme + "://" + n) == UrlParts(scheme, n, "", "", "")
  {
    assert scheme + "://" + n == scheme + ":" + ("//" + n);
    SchemeOfOrigin(scheme, "//" + n);
    NetlocOfOrigin(n);
  }

  lemma AcceptOrigin(scheme: string, n: string)
    requires scheme == "http" || scheme == "https"
    requires NetlocText(n)
    ensures ClassifyStripped(scheme + "://" + n) == Valid(scheme + "://" + n)
  {
    var s := scheme + "://" + n;
    assert |s| > 1;
    UrlSplitOrigin(scheme, n);
    SchemeLetters(scheme);
    LowerOfLowerLiteral(scheme);
    var p := UrlSplit(s);
    assert p.scheme == scheme && p.netloc == n;
    assert Lower(p.scheme) == scheme && Lower(p.netloc) == n;
  }

  /** An entry that strips to an http or https scheme, "://" and a netloc becomes that origin. */
  lemma ClassifyOrigin(o: string, scheme: string, n: string)
    requires scheme == "http" || scheme == "https"
    requires NetlocText(n)
    requires Stripped(o) == scheme + "://" + n
    ensures Classify(o) == Valid(scheme + "://" + n)
  {
    AcceptOrigin(scheme, n);
  }

  /** A normalised origin strips to itself unless it ends in whitespace. */
  lemma StrippedOrigin(x: string)
    requires OriginText(x) && !IsSpace(x[|x| - 1])
    ensures Stripped(x) == x
  {
    assert x[0] == 'h';
    assert TrimStart(x) == x;
    assert Trim(x) == x;
    var n := if StartsWith(x, "https://") then x[8..] else x[7..];
    assert x[|x| - 1] == n[|n| - 1];
  }

  /** A normalised origin, unless it ends in whitespace, classifies as itself. */
  lemma ClassifyNormalised(x: string)
    requires OriginText(x) && !IsSpace(x[|x| - 1])
    ensures Classify(x) == Valid(x)
  {
    StrippedOrigin(x);
    if StartsWith(x, "https://") {
      assert x == "https" + "://" + x[8..];
      ClassifyOrigin(x, "https", x[8..]);
    } else {
      assert x == "http" + "://" + x[7..];
      ClassifyOrigin(x, "http", x[7..]);
    }
  }

  lemma {:induction false} ValidOriginsOfValid(es: seq<Entry>, xs: seq<string>)
    requires |es| == |xs| && forall k :: 0 <= k < |xs| ==> es[k] == Valid(xs[k])
    ensures ValidOrigins(es) == xs
  {
    if es != [] {
      ValidOriginsOfValid(es[1..], xs[1..]);
      assert [xs[0]] + xs[1..] == xs;
    }
  }

  /** Every normalised origin that does not end in whitespace is accepted as itself. */
  lemma {:induction false} NormalisedEntries(xs: seq<string>)
    requires forall x :: x in xs ==> OriginText(x) && !IsSpace(x[|x| - 1])
    ensures forall k :: 0 <= k < |xs| ==> Entries(xs)[k] == Valid(xs[k])
  {
    forall k | 0 <= k < |xs|
      ensures Entries(xs)[k] == Valid(xs[k])
    {
      EntriesAt(xs, k);
      ClassifyNormalised(xs[k]);
    }
  }

  /** An empty setting gives an empty list. */
  lemma NormalizedEmpty()
    ensures Normalized("") == Ok(OriginList([]))
  {
    assert Split("", ',') == [""];
    EntriesAt([""], 0);
    assert Stripped("") == [];
  }

  lemma {:induction false} ListNormalises(xs: seq<string>)
    requires Sorted(xs) && NoDuplicates(xs)
    requires forall x :: x in xs ==> OriginText(x) && !IsSpace(x[|x| - 1])
    ensures Collect(Entries(xs), 0, []) == Ok(OriginList(xs))
  {
    NormalisedEntries(xs);
    var es := Entries(xs);
    CollectList(es, 0, []);
    assert es[0..] == es;
    ValidOriginsOfValid(es, xs);
    assert [] + xs == xs;
    SortOfSorted(xs);
  }

  /** A sorted list of distinct normalised origins, none ending in whitespace, comes back from its comma-joined text. */
  lemma JoinedListNormalises(xs: seq<string>)
    requires xs != [] && Sorted(xs) && NoDuplicates(xs)
    requires forall x :: x in xs ==> OriginText(x) && ',' !in x && !IsSpace(x[|x| - 1])
    ensures Normalized(Join(xs, ",")) == Ok(OriginList(xs))
  {
    SplitJoin(xs, ',');
    ListNormalises(xs);
  }

  /** Normalising the comma-joined output again gives the same list, provided no origin ends in whitespace. */
  lemma NormalizeIdempotent(raw: string)
    requires Normalized(raw).Ok? && Normalized(raw).value.OriginList?
    requires forall x :: x in Normalized(raw).value.origins ==> x == [] || !IsSpace(x[|x| - 1])
    ensures Normalized(Join(Normalized(raw).value.origins, ",")) == Normalized(raw)
  {
    NormalizedShape(raw);
    var xs := Normalized(raw).value.origins;
    if xs == [] {
      NormalizedEmpty();
    } else {
      JoinedListNormalises(xs);
    }
  }

  lemma StrippedTrailingSlash()
    ensures Stripped("http://a /") == "http://a "
  {
    assert TrimStart("http://a /") == "http://a /";
    assert Trim("http://a /") == "http://a /";
    assert "http://a /"[..9] == "http://a ";
  }

  lemma StrippedTrailingSpace()
    ensures Stripped("http://a ") == "http://a"
  {
    assert TrimStart("http://a ") == "http://a ";
    assert "http://a "[..8] == "http://a";
    assert Trim("http://a ") == "http://a";
  }

  /** Without that proviso it fails: "http://a /" is accepted as "http://a ", whose netloc keeps the space, */
  lemma TrailingSpaceKept()
    ensures Classify("http://a /") == Valid("http://a ")
  {
    StrippedTrailingSlash();
    LowerOfLowerLiteral("a ");
    ClassifyOrigin("http://a /", "http", "a ");
  }

  /** and "http://a " is accepted as "http://a", so normalising twice differs from normalising once. */
  lemma TrailingSpaceDropped()
    ensures Classify("http://a ") == Valid("http://a")
  {
    StrippedTrailingSpace();
    LowerOfLowerLiteral("a");
    ClassifyOrigin("http://a ", "http", "a");
  }

  lemma CollectSingle(e: Entry)
    requires e.Valid?
    ensures Collect([e], 0, []) == Ok(OriginList([e.origin]))
  {
    assert Dedup([e.origin]) == [e.origin];
    assert Sort([e.origin]) == [e.origin];
  }

  /** A setting with one accepted entry and no comma gives just that origin. */
  lemma SingleOrigin(o: string)
    requires ',' !in o && Classify(o).Valid?
    ensures Normalized(o) == Ok(OriginList([Classify(o).origin]))
  {
    SplitWithoutSeparator(o, ',');
    EntriesAt([o], 0);
    assert Entries([o]) == [Classify(o)];
    CollectSingle(Classify(o));
  }

  /** An entry accepted as x, where x itself is accepted as a different y, makes normalisation differ from its repetition; "http://a /" with x = "http://a " and y = "http://a" is one. */
  lemma NotIdempotentWhenReaccepted(raw: string, x: string, y: string)
    requires ',' !in raw && ',' !in x
    requires Classify(raw) == Valid(x) && Classify(x) == Valid(y) && x != y
    ensures Normalized(raw) == Ok(OriginList([x]))
    ensures Normalized(Join(Normalized(raw).value.origins, ",")) == Ok(OriginList([y]))
    ensures Normalized(Join(Normalized(raw).value.origins, ",")) != Normalized(raw)
  {
    SingleOrigin(raw);
    assert Join([x], ",") == x;
    SingleOrigin(x);
  }

  // ------------------------------------------------------------ settings

  const DefaultSecretKey := "dev-secret-key-change-in-production"
  const SecretKeyMinLength := 32
  const MinutesPerDay := 24 * 60

  /** The settings the validators read. */
  datatype Settings = Settings(debug: bool, secretKey: string, corsAllowOrigins: string, socketioCors: string,
                               accessTokenExpireMinutes: int, refreshTokenExpireDays: int,
                               cookieSecure: bool, cookieSameSite: Option<string>,
                               databaseUrl: string, steelApiKey: Option<string>)

  /** `_validate_secret_key`. */
  function ValidateSecretKey(s: Settings): (r: Option<string>)
    ensures r.None? <==> Trim(s.secretKey) != [] && (s.debug || (|s.secretKey| >= SecretKeyMinLength && s.secretKey != DefaultSecretKey))
  {
    if Trim(s.secretKey) == [] then Some("SECRET_KEY must be set and non-empty")
    else if !s.debug && |s.secretKey| < SecretKeyMinLength then Some("SECRET_KEY must be at least 32 characters in production")
    else if !s.debug && s.secretKey == DefaultSecretKey then Some("SECRET_KEY must be set in production; set DEBUG=true for local dev")
    else None
  }

  const CorsWildcard := "CORS_ALLOW_ORIGINS cannot contain '*' in production; set explicit origins"
  const SocketioWildcard := "SOCKETIO_CORS cannot contain '*' in production; set explicit origins"
  const CorsEmpty := "CORS_ALLOW_ORIGINS cannot be empty (or commas-only) in production"
  const SocketioEmpty := "SOCKETIO_CORS cannot be empty (or commas-only) in production"

  /** The checks of `_validate_cors_settings` on the two normalised settings: an error from either normalisation first, then, outside debug, no "*" in either (the allowed origins checked first), then no empty list in either. */
  function CorsError(cors: Result<Origins, string>, sio: Result<Origins, string>, debug: bool): (r: Option<string>)
    ensures cors.Err? ==> r == Some(cors.error)
    ensures cors.Ok? && sio.Err? ==> r == Some(sio.error)
    ensures r.None? <==> cors.Ok? && sio.Ok? && (debug || (cors.value.OriginList? && cors.value.origins != []
                                                        && sio.value.OriginList? && sio.value.origins != []))
    ensures cors.Ok? && sio.Ok? && !debug && cors.value == AnyOrigin ==> r == Some(CorsWildcard)
  {
    match cors
    case Err(e) => Some(e)
    case Ok(c) =>
      match sio
      case Err(e) => Some(e)
      case Ok(io) =>
        if !debug && c == AnyOrigin then Some(CorsWildcard)
        else if !debug && io == AnyOrigin then Some(SocketioWildcard)
        else if !debug && c == OriginList([]) then Some(CorsEmpty)
        else if !debug && io == OriginList([]) then Some(SocketioEmpty)
        else
          assert !debug ==> c == OriginList(c.origins) && io == OriginList(io.origins);
          None
  }

  /** `_validate_cors_settings`: both settings are normalised (after stripping) before any check. */
  function ValidateCors(s: Settings): Option<string>
  {
    CorsError(Normalized(Trim(s.corsAllowOrigins)), Normalized(Trim(s.socketioCors)), s.debug)
  }

  /** `_validate_token_expiry`: the refresh lifetime in minutes must strictly exceed the access lifetime. */
  function ValidateTokenExpiry(s: Settings): (r: Option<string>)
    ensures r.None? <==> s.refreshTokenExpireDays * MinutesPerDay > s.accessTokenExpireMinutes
  {
    var refreshMinutes := s.refreshTokenExpireDays * MinutesPerDay;
    if refreshMinutes <= s.accessTokenExpireMinutes then
      Some("REFRESH_TOKEN_EXPIRE_DAYS must be strictly greater than ACCESS_TOKEN_EXPIRE_MINUTES/1440 (got "
           + IntToString(s.refreshTokenExpireDays) + "d = " + IntToString(refreshMinutes) + "m vs "
           + IntToString(s.accessTokenExpireMinutes) + "m)")
    else None
  }

  /** Within the field bounds (1 to 120 minutes, 1 to 30 days) the expiry check always passes. */
  lemma ExpiryWithinBoundsPasses(s: Settings)
    requires 1 <= s.accessTokenExpireMinutes <= 120 && 1 <= s.refreshTokenExpireDays <= 30
    ensures ValidateTokenExpiry(s).None?
  {
    assert s.refreshTokenExpireDays * MinutesPerDay >= MinutesPerDay;
  }

  /** `(cookie_samesite or "lax").lower()`. */
  function SameSite(s: Settings): string
  {
    Lower(if s.cookieSameSite.None? || s.cookieSameSite.value == [] then "lax" else s.cookieSameSite.value)
  }

  /** `_validate_cookie_settings`. */
  function ValidateCookies(s: Settings): (r: Option<string>)
    ensures r.None? <==> (SameSite(s) == "lax" || SameSite(s) == "strict" || SameSite(s) == "none")
                         && (s.debug || SameSite(s) != "none" || s.cookieSecure)
  {
    var sameSite := SameSite(s);
    if sameSite != "lax" && sameSite != "strict" && sameSite != "none" then Some("COOKIE_SAMESITE must be one of: lax, strict, none")
    else if !s.debug && sameSite == "none" && !s.cookieSecure then Some("COOKIE_SECURE must be true when COOKIE_SAMESITE=none in production")
    else None
  }

  /** `validate_security`: the four validators in order, the first error winning. */
  function ValidateSecurity(s: Settings): (r: Option<string>)
    ensures r.None? <==> ValidateSecretKey(s).None? && ValidateCors(s).None? && ValidateTokenExpiry(s).None? && ValidateCookies(s).None?
    ensures ValidateSecretKey(s).Some? ==> r == ValidateSecretKey(s)
  {
    if ValidateSecretKey(s).Some? then ValidateSecretKey(s)
    else if ValidateCors(s).Some? then ValidateCors(s)
    else if ValidateTokenExpiry(s).Some? then ValidateTokenExpiry(s)
    else ValidateCookies(s)
  }

  /** Settings that load outside debug have a real secret of at least 32 characters, explicit non-empty origin lists, and a secure cookie whenever SameSite is none. */
  lemma ProductionSettings(s: Settings)
    requires !s.debug && ValidateSecurity(s).None?
    ensures |s.secretKey| >= 32 && s.secretKey != DefaultSecretKey
    ensures Normalized(Trim(s.corsAllowOrigins)).Ok? && Normalized(Trim(s.corsAllowOrigins)).value.OriginList?
    ensures Normalized(Trim(s.corsAllowOrigins)).value.origins != []
    ensures Normalized(Trim(s.socketioCors)).Ok? && Normalized(Trim(s.socketioCors)).value.OriginList?
    ensures Normalized(Trim(s.socketioCors)).value.origins != []
    ensures SameSite(s) == "none" ==> s.cookieSecure
  {
  }

  const SqlitePrefix := "sqlite:"
  const AsyncSqlitePrefix := "sqlite+aiosqlite:"

  /** `get_database_url`: a plain SQLite URL gets the async driver; any other URL is kept. */
  function GetDatabaseUrl(url: string): (r: string)
    ensures StartsWith(url, SqlitePrefix) && !StartsWith(url, AsyncSqlitePrefix) ==>
      r == AsyncSqlitePrefix + url[|SqlitePrefix|..]
    ensures !(StartsWith(url, SqlitePrefix) && !StartsWith(url, AsyncSqlitePrefix)) ==> r == url
  {
    if StartsWith(url, SqlitePrefix) && !StartsWith(url, AsyncSqlitePrefix) then AsyncSqlitePrefix + url[|SqlitePrefix|..]
    else url
  }

  /** Rewriting twice is rewriting once. */
  lemma DatabaseUrlIdempotent(url: string)
    ensures GetDatabaseUrl(GetDatabaseUrl(url)) == GetDatabaseUrl(url)
  {
    var r := GetDatabaseUrl(url);
    if r != url {
      assert r[..|AsyncSqlitePrefix|] == AsyncSqlitePrefix;
      assert StartsWith(r, AsyncSqlitePrefix);
    }
  }

  /** After the rewrite no URL names the plain sqlite scheme: a sqlite URL keeps everything after its scheme under the aiosqlite driver, and any other URL is left alone. */
  lemma SqliteUrlsUseAsyncDriver(url: string)
    ensures !StartsWith(GetDatabaseUrl(url), SqlitePrefix)
    ensures StartsWith(url, SqlitePrefix) ==>
      StartsWith(GetDatabaseUrl(url), AsyncSqlitePrefix) && GetDatabaseUrl(url)[|AsyncSqlitePrefix|..] == url[|SqlitePrefix|..]
    ensures StartsWith(url, SqlitePrefix) <==> GetDatabaseUrl(url) != url
  {
    var r := GetDatabaseUrl(url);
    if StartsWith(url, SqlitePrefix) {
      assert url[6] == ':';
      assert r[..|AsyncSqlitePrefix|] == AsyncSqlitePrefix;
      assert r[6] != url[6];
    }
  }

  /** The default URL becomes the async one. */
  lemma DefaultDatabaseUrl()
    ensures GetDatabaseUrl("sqlite:///yeetflow.db") == "sqlite+aiosqlite:///yeetflow.db"
  {
    assert StartsWith("sqlite:///yeetflow.db", SqlitePrefix);
    assert !StartsWith("sqlite:///yeetflow.db", AsyncSqlitePrefix) by {
      assert "sqlite:///yeetflow.db"[6] != AsyncSqlitePrefix[6];
    }
  }

  /** `is_development_mode`: debug, or no Steel key. */
  function IsDevelopmentMode(s: Settings): (r: bool)
    ensures r <==> s.debug || s.steelApiKey.None? || s.steelApiKey.value == []
  {
    s.debug || s.steelApiKey.None? || s.steelApiKey.value == []
  }

  /** Development mode depends on nothing but debug and the Steel key; debug or a missing key forces it, and settings outside it that load pass every production check. */
  lemma DevelopmentModeFrame(s: Settings, t: Settings)
    ensures s.debug == t.debug && s.steelApiKey == t.steelApiKey ==> IsDevelopmentMode(s) == IsDevelopmentMode(t)
    ensures IsDevelopmentMode(s.(debug := true)) && IsDevelopmentMode(s.(steelApiKey := None))
    ensures !IsDevelopmentMode(s) && ValidateSecurity(s).None? ==>
      |s.secretKey| >= SecretKeyMinLength && s.secretKey != DefaultSecretKey && s.steelApiKey.Some? && s.steelApiKey.value != []
  {
    if !IsDevelopmentMode(s) && ValidateSecurity(s).None? {
      ProductionSettings(s);
    }
  }

  // ----------------------------------------------------------- CORS config

  const AllowedMethods: seq<string> := ["GET", "POST", "PUT", "DELETE", "PATCH", "OPTIONS", "HEAD"]
  const AllowedHeaders: seq<string> := ["Authorization", "Content-Type", "Accept", "Accept-Language"]
  const ExposeHeaders: seq<string> := ["WWW-Authenticate", "Authorization"]
  const CorsMaxAge := 86400

  /** The CORS configuration the middleware reads. */
  datatype CorsConfig = CorsConfig(allowOrigins: seq<string>, allowCredentials: bool, allowMethods: seq<string>,
                                   allowHeaders: seq<string>, exposeHeaders: seq<string>, maxAge: nat)

  /** `get_cors_config`: the wildcard disables credentials, an explicit list enables them. */
  function GetCorsConfig(corsAllowOrigins: string): (r: Result<CorsConfig, string>)
    ensures Normalized(Trim(corsAllowOrigins)).Err? <==> r.Err?
    ensures r.Ok? ==> r.value.allowMethods == AllowedMethods && r.value.allowHeaders == AllowedHeaders
                      && r.value.exposeHeaders == ExposeHeaders && r.value.maxAge == CorsMaxAge
    ensures r.Ok? && Normalized(Trim(corsAllowOrigins)).value == AnyOrigin ==> r.value.allowOrigins == ["*"] && !r.value.allowCredentials
    ensures r.Ok? && Normalized(Trim(corsAllowOrigins)).value.OriginList? ==>
      r.value.allowOrigins == Normalized(Trim(corsAllowOrigins)).value.origins && r.value.allowCredentials
  {
    match Normalized(Trim(corsAllowOrigins))
    case Err(e) => Err(e)
    case Ok(AnyOrigin) => Ok(CorsConfig(["*"], false, AllowedMethods, AllowedHeaders, ExposeHeaders, CorsMaxAge))
    case Ok(OriginList(xs)) => Ok(CorsConfig(xs, true, AllowedMethods, AllowedHeaders, ExposeHeaders, CorsMaxAge))
  }

  /** The middleware's allow-all test (`allow_origins == ["*"]`) holds exactly for the wildcard, and then credentials are off. */
  lemma AllowAllIffWildcard(corsAllowOrigins: string)
    requires GetCorsConfig(corsAllowOrigins).Ok?
    ensures var c := GetCorsConfig(corsAllowOrigins).value;
      (c.allowOrigins == ["*"] <==> Normalized(Trim(corsAllowOrigins)) == Ok(AnyOrigin))
      && (c.allowOrigins == ["*"] ==> !c.allowCredentials)
  {
    NormalizedShape(Trim(corsAllowOrigins));
    var c := GetCorsConfig(corsAllowOrigins).value;
    assert !OriginText("*");
  }
}
