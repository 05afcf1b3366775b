/** The WWW-Authenticate header: printing a challenge, parsing it back, in Rust and in TypeScript. */
module Headers {
  import opened Text
  import opened AuthParams

  datatype PaymentChallenge = PaymentChallenge(
    id: string,
    realm: string,
    methodName: string,
    intent: string,
    request: string,
    expires: Option<string>,
    description: Option<string>,
    digest: Option<string>,
    correlation: Option<string>)

  datatype HeaderError =
    | LineBreak | NoScheme | NoSpace | DuplicateParam(key: string) | Missing(name: string)
    | EmptyId | BadMethod | BadRequest | BadDigest

  // ---------- The nine parameters, in print order ----------

  function Name(k: nat): (s: string)
    requires k < 9
  {
    if k == 0 then "id" else if k == 1 then "realm" else if k == 2 then "method" else if k == 3 then "intent"
    else if k == 4 then "request" else if k == 5 then "expires" else if k == 6 then "description"
    else if k == 7 then "digest" else "opaque"
  }

  function Field(c: PaymentChallenge, k: nat): Option<string>
    requires k < 9
  {
    if k == 0 then Some(c.id) else if k == 1 then Some(c.realm) else if k == 2 then Some(c.methodName)
    else if k == 3 then Some(c.intent) else if k == 4 then Some(c.request) else if k == 5 then c.expires
    else if k == 6 then c.description else if k == 7 then c.digest else c.correlation
  }

  /** The first `n` parameters that are present. */
  function Parts(c: PaymentChallenge, n: nat): seq<Pair>
    requires n <= 9
  {
    if n == 0 then []
    else Parts(c, n - 1) + (if Field(c, n - 1).Some? then [(Name(n - 1), Field(c, n - 1).value)] else [])
  }

  /** No present field holds a line break. */
  predicate Printable(c: PaymentChallenge) {
    forall k | 0 <= k < 9 :: Field(c, k).Some? ==> !HasLineBreak(Field(c, k).value)
  }

  function Format(c: PaymentChallenge): Result<string, HeaderError> {
    if Printable(c) then Ok("Payment " + Joined(Parts(c, 9))) else Err(LineBreak)
  }

  method FormatWwwAuthenticate(c: PaymentChallenge) returns (r: Result<string, HeaderError>)
    ensures r == Format(c)
  {
    var parts: seq<Pair> := [];
    var k := 0;
    while k < 9
      invariant 0 <= k <= 9
      invariant parts == Parts(c, k)
      invariant forall j | 0 <= j < k :: Field(c, j).Some? ==> !HasLineBreak(Field(c, j).value)
    {
      var field := Field(c, k);
      if field.Some? {
        if HasLineBreak(field.value) { return Err(LineBreak); }
        parts := parts + [(Name(k), field.value)];
      }
      k := k + 1;
    }
    return Ok("Payment " + Joined(parts));
  }

  // ---------- Parsing ----------

  function Get(m: Params, name: string): Option<string> {
    if name in m then Some(m[name]) else None
  }

  predicate ValidDigest(d: Option<string>) {
    d.Some? ==> "sha-256=" <= d.value
  }

  /** The checks on the scanned parameters. `validRequest` says which texts are base64url of JSON. */
  function FromParams(validRequest: string -> bool, m: Params): Result<PaymentChallenge, HeaderError> {
    if "id" !in m then Err(Missing("id"))
    else if m["id"] == "" then Err(EmptyId)
    else if "realm" !in m then Err(Missing("realm"))
    else if "method" !in m then Err(Missing("method"))
    else if !IsName(m["method"]) then Err(BadMethod)
    else if "intent" !in m then Err(Missing("intent"))
    else if "request" !in m then Err(Missing("request"))
    else if !validRequest(m["request"]) then Err(BadRequest)
    else if !ValidDigest(Get(m, "digest")) then Err(BadDigest)
    else
      Ok(PaymentChallenge(m["id"], m["realm"], Lower(m["method"]), Lower(m["intent"]), m["request"], Get(m, "expires"),
                          Get(m, "description"), Get(m, "digest"), Get(m, "opaque")))
  }

  function StripScheme(header: string): Option<string> {
    var h := TrimStart(header);
    if |h| >= 7 && Lower(h[..7]) == "payment" then Some(h[7..]) else None
  }

  function ParseWwwAuthenticate(validRequest: string -> bool, header: string): Result<PaymentChallenge, HeaderError> {
    match StripScheme(header)
    case None => Err(NoScheme)
    case Some(rest) =>
      if rest == "" || (rest[0] != ' ' && rest[0] != '\t') then Err(NoSpace)
      else
        match Scan(RustBlank(), TrimStart(rest[1..]), map[])
        case Err(Duplicate(key)) => Err(DuplicateParam(key))
        case Ok(m) => FromParams(validRequest, m)
  }

  /** What the ECMAScript `trimStart` removes. */
  predicate IsJsWhitespace(c: char) {
    (IsWhitespace(c) && c != '\U{85}') || c == '\U{FEFF}'
  }

  function TrimStartJs(s: string): (r: string)
    ensures s != "" && !IsJsWhitespace(s[0]) ==> r == s
  {
    if s != "" && IsJsWhitespace(s[0]) then TrimStartJs(s[1..]) else s
  }

  // ---------- The printed list read back ----------

  /** A name's place in print order, told from its length and first letter. */
  function NameRank(s: string): nat {
    if s == "" then 9
    else if |s| == 2 then 0
    else if |s| == 5 then 1
    else if |s| == 6 then (if s[0] == 'm' then 2 else if s[0] == 'i' then 3 else if s[0] == 'd' then 7 else 8)
    else if |s| == 7 then (if s[0] == 'r' then 4 else 5)
    else 6
  }

  lemma NamesDiffer(k: nat)
    requires k < 9
    ensures IsName(Name(k)) && NameRank(Name(k)) == k
  {
  }

  lemma {:induction false} AsMapAppend(ps: seq<Pair>, p: Pair)
    ensures AsMap(ps + [p]) == AsMap(ps)[p.0 := p.1]
  {
    if ps == [] {
      assert [p][1..] == [];
    } else {
      assert (ps + [p])[1..] == ps[1..] + [p];
      AsMapAppend(ps[1..], p);
    }
  }

  lemma PartsGrow(c: PaymentChallenge, n: nat)
    requires n < 9
    ensures AsMap(Parts(c, n + 1)) ==
            if Field(c, n).Some? then AsMap(Parts(c, n))[Name(n) := Field(c, n).value] else AsMap(Parts(c, n))
  {
    hide Name, Field;
    if Field(c, n).Some? {
      AsMapAppend(Parts(c, n), (Name(n), Field(c, n).value));
    } else {
      assert Parts(c, n) + [] == Parts(c, n);
    }
  }

  ghost predicate Ranked(ps: seq<Pair>, n: nat) {
    && (forall i | 0 <= i < |ps| :: IsName(ps[i].0) && NameRank(ps[i].0) < n)
    && (forall i, j | 0 <= i < j < |ps| :: NameRank(ps[i].0) < NameRank(ps[j].0))
  }

  lemma {:induction false} PartsRanked(c: PaymentChallenge, n: nat)
    requires n <= 9
    ensures Ranked(Parts(c, n), n)
  {
    hide Name, Field, NameRank, IsName;
    if n == 0 {
    } else {
      PartsRanked(c, n - 1);
      NamesDiffer(n - 1);
    }
  }

  lemma PartsDistinct(c: PaymentChallenge)
    ensures Distinct(Parts(c, 9))
  {
    hide Parts, NameRank, IsName;
    PartsRanked(c, 9);
  }

  lemma {:induction false} PartsGet(c: PaymentChallenge, n: nat, k: nat)
    requires n <= 9 && k < 9
    ensures Get(AsMap(Parts(c, n)), Name(k)) == if k < n then Field(c, k) else None
  {
    hide Name, Field, NameRank;
    if n == 0 {
    } else {
      PartsGet(c, n - 1, k);
      PartsGrow(c, n - 1);
      NamesDiffer(k);
      NamesDiffer(n - 1);
    }
  }

  lemma AllGet(c: PaymentChallenge)
    ensures var m := AsMap(Parts(c, 9));
            && Get(m, "id") == Some(c.id) && Get(m, "realm") == Some(c.realm)
            && Get(m, "method") == Some(c.methodName) && Get(m, "intent") == Some(c.intent)
            && Get(m, "request") == Some(c.request) && Get(m, "expires") == c.expires
            && Get(m, "description") == c.description && Get(m, "digest") == c.digest
            && Get(m, "opaque") == c.correlation
  {
    hide Parts, AsMap, Get;
    PartsGet(c, 9, 0);
    PartsGet(c, 9, 1);
    PartsGet(c, 9, 2);
    PartsGet(c, 9, 3);
    PartsGet(c, 9, 4);
    PartsGet(c, 9, 5);
    PartsGet(c, 9, 6);
    PartsGet(c, 9, 7);
    PartsGet(c, 9, 8);
  }

  lemma PrintedScans(c: PaymentChallenge)
    ensures var ps := Parts(c, 9);
            && TrimStart(Joined(ps)) == Joined(ps) && TrimStartJs(Joined(ps)) == Joined(ps)
            && Scan(RustBlank(), Joined(ps), map[]) == Ok(AsMap(ps))
            && Scan(TsBlank(), Joined(ps), map[]) == Ok(AsMap(ps))
  {
    hide Parts, AsMap, Scan, Joined, Sensible, Distinct;
    var ps := Parts(c, 9);
    PartsDistinct(c);
    BothSensible();
    PartsNonEmpty(c);
    JoinedStartsPlain(RustBlank(), ps);
    JoinedStartsName(ps);
    ScanJoined(RustBlank(), ps, map[]);
    ScanJoined(TsBlank(), ps, map[]);
    assert map[] + AsMap(ps) == AsMap(ps);
  }

  lemma JoinedStartsName(ps: seq<Pair>)
    requires Distinct(ps) && ps != []
    ensures Joined(ps) != "" && IsLowerLetter(Joined(ps)[0])
  {
    hide Escape;
    assert IsName(ps[0].0);
    assert Joined(ps)[0] == ps[0].0[0];
  }

  lemma ParsePrinted(validRequest: string -> bool, c: PaymentChallenge)
    ensures ParseWwwAuthenticate(validRequest, "Payment " + Joined(Parts(c, 9)))
            == FromParams(validRequest, AsMap(Parts(c, 9)))
  {
    hide Parts, AsMap, FromParams, Scan, Joined, TrimStart, StripScheme;
    var text := Joined(Parts(c, 9));
    SchemeStripped(text);
    PrintedScans(c);
    assert (" " + text)[1..] == text;
  }

  lemma SchemeStripped(text: string)
    ensures StripScheme("Payment " + text) == Some(" " + text)
  {
    var h := "Payment " + text;
    assert !IsWhitespace(h[0]);
    assert h[..7] == "Payment" && h[7..] == " " + text;
    assert Lower("Payment") == "payment";
  }

  lemma PartsNonEmpty(c: PaymentChallenge)
    ensures Parts(c, 9) != []
  {
    AllGet(c);
  }

  // ---------- Round trip ----------

  /** What the parser insists on. */
  ghost predicate WellFormed(validRequest: string -> bool, c: PaymentChallenge) {
    && c.id != "" && IsLowerName(c.methodName) && Lower(c.intent) == c.intent
    && validRequest(c.request) && (c.digest.Some? ==> "sha-256=" <= c.digest.value)
  }

  predicate IsLowerName(s: string) {
    s != "" && forall i | 0 <= i < |s| :: 'a' <= s[i] <= 'z'
  }

  lemma SameNames(s: string)
    ensures IsName(s) <==> IsLowerName(s)
  {
  }

  lemma LowerName(s: string)
    requires IsName(s)
    ensures Lower(s) == s
  {
    assert forall i | 0 <= i < |s| :: IsLowerLetter(s[i]);
  }

  lemma FromPartsExactly(validRequest: string -> bool, c: PaymentChallenge)
    ensures FromParams(validRequest, AsMap(Parts(c, 9))) == Ok(c) <==> WellFormed(validRequest, c)
  {
    hide Parts, AsMap, IsName, IsLowerName, Lower;
    AllGet(c);
    SameNames(c.methodName);
    if IsName(c.methodName) {
      LowerName(c.methodName);
    }
  }

  predicate Unbroken(s: string) {
    '\r' !in s && '\n' !in s
  }

  predicate UnbrokenIfAny(o: Option<string>) {
    o.Some? ==> Unbroken(o.value)
  }

  lemma PrintsUnbroken(c: PaymentChallenge)
    ensures Format(c).Ok? <==>
            && Unbroken(c.id) && Unbroken(c.realm) && Unbroken(c.methodName) && Unbroken(c.intent)
            && Unbroken(c.request)
            && UnbrokenIfAny(c.expires) && UnbrokenIfAny(c.description) && UnbrokenIfAny(c.digest)
            && UnbrokenIfAny(c.correlation)
  {
    hide Joined, Parts, Name;
    if Printable(c) {
      forall k: nat | k < 9 && Field(c, k).Some? ensures Unbroken(Field(c, k).value) {
        assert !HasLineBreak(Field(c, k).value);
      }
      assert Field(c, 0).Some? && Field(c, 1).Some? && Field(c, 2).Some? && Field(c, 3).Some? && Field(c, 4).Some?;
      assert Field(c, 5) == c.expires && Field(c, 6) == c.description && Field(c, 7) == c.digest
             && Field(c, 8) == c.correlation;
    }
  }

  // ---------- The printed text ----------

  function Printed(name: string, value: string): string {
    name + "=\"" + Escape(value) + "\""
  }

  function PrintedIfAny(name: string, value: Option<string>): string {
    if value.Some? then ", " + Printed(name, value.value) else ""
  }

  lemma {:induction false} JoinedAppend(ps: seq<Pair>, p: Pair)
    requires ps != []
    ensures Joined(ps + [p]) == Joined(ps) + ", " + Printed(p.0, p.1)
  {
    hide Escape;
    assert (ps + [p])[0] == ps[0];
    if |ps| == 1 {
      assert (ps + [p])[1..] == [p];
    } else {
      assert (ps + [p])[1..] == ps[1..] + [p];
      JoinedAppend(ps[1..], p);
    }
  }

  lemma OneMorePrinted(c: PaymentChallenge, n: nat)
    requires 1 <= n < 9
    ensures Parts(c, n) != []
    ensures Joined(Parts(c, n + 1)) == Joined(Parts(c, n)) + PrintedIfAny(Name(n), Field(c, n))
  {
    hide Joined, Printed, Name;
    FirstPart(c, n);
    if Field(c, n).Some? {
      JoinedAppend(Parts(c, n), (Name(n), Field(c, n).value));
    } else {
      assert Parts(c, n) + [] == Parts(c, n);
    }
  }

  lemma {:induction false} FirstPart(c: PaymentChallenge, n: nat)
    requires 1 <= n <= 9
    ensures Parts(c, n) != [] && Parts(c, 1) == [("id", c.id)]
  {
    if n == 1 {
      assert Parts(c, 0) == [];
    } else {
      FirstPart(c, n - 1);
    }
  }

  /** The header, written out: five parameters always, four when present, in this order. */
  lemma HeaderText(c: PaymentChallenge)
    requires Format(c).Ok?
    ensures Format(c).value ==
            "Payment " + Printed("id", c.id) + PrintedIfAny("realm", Some(c.realm))
            + PrintedIfAny("method", Some(c.methodName)) + PrintedIfAny("intent", Some(c.intent))
            + PrintedIfAny("request", Some(c.request)) + PrintedIfAny("expires", c.expires)
            + PrintedIfAny("description", c.description) + PrintedIfAny("digest", c.digest)
            + PrintedIfAny("opaque", c.correlation)
  {
    hide Printable, Parts, Joined, PrintedIfAny, Printed;
    FirstPrinted(c);
    OneMorePrinted(c, 1);
    OneMorePrinted(c, 2);
    OneMorePrinted(c, 3);
    OneMorePrinted(c, 4);
    OneMorePrinted(c, 5);
    OneMorePrinted(c, 6);
    OneMorePrinted(c, 7);
    OneMorePrinted(c, 8);
    Prefixed("Payment ", Printed("id", c.id), PrintedIfAny("realm", Some(c.realm)),
             PrintedIfAny("method", Some(c.methodName)), PrintedIfAny("intent", Some(c.intent)),
             PrintedIfAny("request", Some(c.request)), PrintedIfAny("expires", c.expires),
             PrintedIfAny("description", c.description), PrintedIfAny("digest", c.digest),
             PrintedIfAny("opaque", c.correlation));
  }

  lemma FirstPrinted(c: PaymentChallenge)
    ensures Joined(Parts(c, 1)) == Printed("id", c.id)
  {
    hide Escape;
    FirstPart(c, 1);
    assert [("id", c.id)][1..] == [];
  }

  lemma Prefixed(a: string, b: string, c: string, d: string, e: string, f: string, g: string, h: string, i: string,
                 j: string)
    ensures a + (b + c + d + e + f + g + h + i + j) == a + b + c + d + e + f + g + h + i + j
  {
    Regroup(a, b, c);
    Regroup(a, b + c, d);
    Regroup(a, b + c + d, e);
    Regroup(a, b + c + d + e, f);
    Regroup(a, b + c + d + e + f, g);
    Regroup(a, b + c + d + e + f + g, h);
    Regroup(a, b + c + d + e + f + g + h, i);
    Regroup(a, b + c + d + e + f + g + h + i, j);
  }

  // ---------- What the parser takes ----------

  predicate AllBlank(s: string) {
    forall k | 0 <= k < |s| :: IsWhitespace(s[k])
  }

  lemma {:induction false} TrimStartOf(lead: string, s: string)
    requires AllBlank(lead) && (s != "" ==> !IsWhitespace(s[0]))
    ensures TrimStart(lead + s) == s
  {
    hide IsWhitespace;
    if lead == "" {
      assert lead + s == s;
      if s == "" {
        assert TrimStart(s) == "";
      }
    } else {
      assert (lead + s)[1..] == lead[1..] + s;
      TrimStartOf(lead[1..], s);
    }
  }

  lemma SchemeFound(lead: string, scheme: string, rest: string)
    requires AllBlank(lead) && Lower(scheme) == "payment"
    ensures StripScheme(lead + scheme + rest) == Some(rest)
  {
    hide IsWhitespace, LowerChar, Lower, AllBlank, TrimStart;
    SchemeIsNoBlank(scheme);
    assert lead + scheme + rest == lead + (scheme + rest);
    TrimStartOf(lead, scheme + rest);
    assert (scheme + rest)[..7] == scheme && (scheme + rest)[7..] == rest;
  }

  /** The scheme name is found in any case, after any white space. */
  lemma StripSchemeExactly(header: string, rest: string)
    ensures StripScheme(header) == Some(rest) <==>
            exists lead, scheme ::
              header == lead + scheme + rest && AllBlank(lead) && Lower(scheme) == "payment"
  {
    hide IsWhitespace, LowerChar;
    if StripScheme(header) == Some(rest) {
      var h := TrimStart(header);
      var lead, scheme := header[..|header| - |h|], h[..7];
      assert header == lead + scheme + rest && AllBlank(lead) && Lower(scheme) == "payment";
    } else if lead, scheme :| header == lead + scheme + rest && AllBlank(lead) && Lower(scheme) == "payment" {
      SchemeFound(lead, scheme, rest);
    }
  }

  lemma SchemeIsNoBlank(scheme: string)
    requires Lower(scheme) == "payment"
    ensures |scheme| == 7 && !IsWhitespace(scheme[0])
  {
    assert LowerChar(scheme[0]) == Lower(scheme)[0] == 'p';
  }

  /** After the scheme name one space or tab is due; the list that follows decides the rest. */
  lemma ParseMeans(validRequest: string -> bool, lead: string, scheme: string, rest: string)
    requires AllBlank(lead) && Lower(scheme) == "payment"
    ensures var r := ParseWwwAuthenticate(validRequest, lead + scheme + rest);
            if rest != "" && (rest[0] == ' ' || rest[0] == '\t') then
              match Scan(RustBlank(), TrimStart(rest[1..]), map[])
              case Err(Duplicate(key)) => r == Err(DuplicateParam(key))
              case Ok(m) => r == FromParams(validRequest, m)
            else r == Err(NoSpace)
  {
    hide TrimStart, Scan, FromParams, StripScheme, AllBlank;
    SchemeFound(lead, scheme, rest);
  }

  /** Complete parameters: the five required names, a non-empty id, a lower-case method, a request and a
      digest of the right form. */
  predicate Complete(validRequest: string -> bool, m: Params) {
    && "id" in m && "realm" in m && "method" in m && "intent" in m && "request" in m
    && m["id"] != "" && IsLowerName(m["method"]) && validRequest(m["request"])
    && ("digest" in m ==> "sha-256=" <= m["digest"])
  }

  /** The parameters make a challenge exactly when they are complete, and then it holds them, the intent
      in lower case; otherwise the refusal names something that is wrong with them. */
  lemma FromParamsMeans(validRequest: string -> bool, m: Params)
    ensures var r := FromParams(validRequest, m);
            && (r.Ok? <==> Complete(validRequest, m))
            && (r.Ok? ==>
                  var c := r.value;
                  && c.id == m["id"] && c.realm == m["realm"] && c.methodName == m["method"]
                  && c.intent == Lower(m["intent"]) && c.request == m["request"]
                  && c.expires == Get(m, "expires") && c.description == Get(m, "description")
                  && c.digest == Get(m, "digest") && c.correlation == Get(m, "opaque"))
            && (r.Err? ==>
                  match r.error
                  case Missing(name) => name !in m && name in ["id", "realm", "method", "intent", "request"]
                  case EmptyId => "id" in m && m["id"] == ""
                  case BadMethod => "method" in m && !IsLowerName(m["method"])
                  case BadRequest => "request" in m && !validRequest(m["request"])
                  case BadDigest => "digest" in m && !("sha-256=" <= m["digest"])
                  case _ => false)
  {
    hide IsName, IsLowerName, Lower;
    if "method" in m {
      SameNames(m["method"]);
      if IsName(m["method"]) {
        LowerName(m["method"]);
      }
    }
  }

  lemma NeverNoScheme(validRequest: string -> bool, m: Params)
    ensures FromParams(validRequest, m) != Err(NoScheme)
  {
    hide IsName, Lower;
  }

  lemma NoSchemeExactly(validRequest: string -> bool, header: string)
    ensures ParseWwwAuthenticate(validRequest, header) == Err(NoScheme) <==> StripScheme(header).None?
  {
    hide Scan, TrimStart, StripScheme, FromParams, RustBlank;
    forall m ensures FromParams(validRequest, m) != Err(NoScheme) {
      NeverNoScheme(validRequest, m);
    }
  }

  /** A challenge prints unless a field holds a line break, and its header parses back to exactly
      that challenge, absent and present-but-empty optionals kept apart, precisely when it is well
      formed. */
  lemma HeaderRoundTrip(validRequest: string -> bool, c: PaymentChallenge)
    ensures Format(c).Ok? <==> Printable(c)
    ensures Format(c).Ok? ==>
              (ParseWwwAuthenticate(validRequest, Format(c).value) == Ok(c) <==> WellFormed(validRequest, c))
  {
    hide Printable, ParseWwwAuthenticate, FromParams, WellFormed, Parts, Joined;
    ParsePrinted(validRequest, c);
    FromPartsExactly(validRequest, c);
  }

  // ---------- The TypeScript parser on the Rust header ----------

  /** An optional parameter that is present but empty counts as absent. */
  function Truthy(o: Option<string>): Option<string> {
    if o == Some("") then None else o
  }

  function FromParamsTs(validRequest: string -> bool, m: Params): Result<PaymentChallenge, HeaderError> {
    if Truthy(Get(m, "id")).None? then Err(Missing("id"))
    else if Truthy(Get(m, "realm")).None? then Err(Missing("realm"))
    else if Truthy(Get(m, "method")).None? then Err(Missing("method"))
    else if !IsName(m["method"]) then Err(BadMethod)
    else if Truthy(Get(m, "intent")).None? then Err(Missing("intent"))
    else if Truthy(Get(m, "request")).None? then Err(Missing("request"))
    else if !validRequest(m["request"]) then Err(BadRequest)
    else if !ValidDigest(Truthy(Get(m, "digest"))) then Err(BadDigest)
    else
      Ok(PaymentChallenge(m["id"], m["realm"], m["method"], m["intent"], m["request"], Truthy(Get(m, "expires")),
                          Truthy(Get(m, "description")), Truthy(Get(m, "digest")), Truthy(Get(m, "opaque"))))
  }

  function ParseWwwAuthenticateTs(validRequest: string -> bool, header: string): Result<PaymentChallenge, HeaderError> {
    var h := TrimStartJs(header);
    if |h| < 8 || Lower(h[..8]) != "payment " then Err(NoScheme)
    else
      match Scan(TsBlank(), TrimStartJs(h[8..]), map[])
      case Err(Duplicate(key)) => Err(DuplicateParam(key))
      case Ok(m) => FromParamsTs(validRequest, m)
  }

  ghost predicate WellFormedTs(validRequest: string -> bool, c: PaymentChallenge) {
    && c.id != "" && c.realm != "" && IsLowerName(c.methodName) && c.intent != "" && c.request != ""
    && validRequest(c.request) && (c.digest.Some? ==> "sha-256=" <= c.digest.value)
    && c.expires != Some("") && c.description != Some("") && c.digest != Some("") && c.correlation != Some("")
  }

  lemma ParsePrintedTs(validRequest: string -> bool, c: PaymentChallenge)
    ensures ParseWwwAuthenticateTs(validRequest, "Payment " + Joined(Parts(c, 9)))
            == FromParamsTs(validRequest, AsMap(Parts(c, 9)))
  {
    hide Parts, AsMap, FromParamsTs, Scan, Joined, TrimStartJs;
    SchemeStrippedTs(Joined(Parts(c, 9)));
    PrintedScans(c);
  }

  lemma SchemeStrippedTs(text: string)
    ensures var h := "Payment " + text; TrimStartJs(h) == h && |h| >= 8 && Lower(h[..8]) == "payment " && h[8..] == text
  {
    var h := "Payment " + text;
    assert !IsJsWhitespace(h[0]);
    assert h[..8] == "Payment ";
    assert Lower("Payment ") == "payment ";
  }

  /** The TypeScript client reads a header printed by the Rust server as the same challenge exactly
      when no field is empty; it takes present-but-empty optionals for absent ones. */
  lemma TsReadsRust(validRequest: string -> bool, c: PaymentChallenge)
    requires Format(c).Ok?
    ensures ParseWwwAuthenticateTs(validRequest, Format(c).value) == Ok(c) <==> WellFormedTs(validRequest, c)
  {
    hide Printable, ParseWwwAuthenticateTs, FromParamsTs, WellFormedTs, Parts, Joined;
    ParsePrintedTs(validRequest, c);
    FromPartsExactlyTs(validRequest, c);
  }

  lemma FromPartsExactlyTs(validRequest: string -> bool, c: PaymentChallenge)
    ensures FromParamsTs(validRequest, AsMap(Parts(c, 9))) == Ok(c) <==> WellFormedTs(validRequest, c)
  {
    hide Parts, AsMap;
    AllGet(c);
    SameNames(c.methodName);
  }

  predicate AllBlankJs(s: string) {
    forall k | 0 <= k < |s| :: IsJsWhitespace(s[k])
  }

  lemma {:induction false} TrimStartOfJs(lead: string, s: string)
    requires AllBlankJs(lead) && (s != "" ==> !IsJsWhitespace(s[0]))
    ensures TrimStartJs(lead + s) == s
  {
    hide IsJsWhitespace;
    if lead == "" {
      assert lead + s == s;
      if s == "" {
        assert TrimStartJs(s) == "";
      }
    } else {
      assert (lead + s)[1..] == lead[1..] + s;
      TrimStartOfJs(lead[1..], s);
    }
  }

  /** The TypeScript parser wants the scheme name, in any case, and a space after any white space. */
  lemma ParseTsMeans(validRequest: string -> bool, lead: string, scheme: string, gap: string, list: string)
    requires AllBlankJs(lead) && Lower(scheme) == "payment"
    requires AllBlankJs(gap) && (list != "" ==> !IsJsWhitespace(list[0]))
    ensures ParseWwwAuthenticateTs(validRequest, lead + (scheme + " " + (gap + list))) ==
            match Scan(TsBlank(), list, map[])
            case Err(Duplicate(key)) => Err(DuplicateParam(key))
            case Ok(m) => FromParamsTs(validRequest, m)
  {
    hide IsJsWhitespace, TrimStartJs, Scan, FromParamsTs;
    var h := scheme + " " + (gap + list);
    SchemeIsNoBlankJs(scheme);
    TrimStartOfJs(lead, h);
    TrimStartOfJs(gap, list);
    assert h[..8] == scheme + " " && h[8..] == gap + list;
    LowerWithSpace(scheme);
  }

  lemma LowerWithSpace(scheme: string)
    requires Lower(scheme) == "payment"
    ensures Lower(scheme + " ") == "payment "
  {
    assert Lower(scheme + " ") == Lower(scheme) + " ";
  }

  lemma SchemeIsNoBlankJs(scheme: string)
    requires Lower(scheme) == "payment"
    ensures |scheme| == 7 && !IsJsWhitespace(scheme[0])
  {
    assert LowerChar(scheme[0]) == Lower(scheme)[0] == 'p';
  }

  lemma NoSchemeTs(validRequest: string -> bool, header: string)
    ensures ParseWwwAuthenticateTs(validRequest, header) == Err(NoScheme)
            <==> !("payment " <= Lower(TrimStartJs(header)))
  {
    hide TrimStartJs, LowerChar, Scan;
    var h := TrimStartJs(header);
    assert |h| >= 8 ==> Lower(h[..8]) == Lower(h)[..8];
  }

  predicate Filled(m: Params, name: string) {
    name in m && m[name] != ""
  }

  /** What the TypeScript parser asks of the parameters, and what it makes of them. */
  lemma FromParamsTsMeans(validRequest: string -> bool, m: Params)
    ensures var r := FromParamsTs(validRequest, m);
            && (r.Ok? <==>
                && Filled(m, "id") && Filled(m, "realm") && Filled(m, "method") && Filled(m, "intent")
                && Filled(m, "request") && IsLowerName(m["method"]) && validRequest(m["request"])
                && (Filled(m, "digest") ==> "sha-256=" <= m["digest"]))
            && (r.Ok? ==>
                  var c := r.value;
                  && c.id == m["id"] && c.realm == m["realm"] && c.methodName == m["method"]
                  && c.intent == m["intent"] && c.request == m["request"]
                  && c.expires == (if Filled(m, "expires") then Some(m["expires"]) else None)
                  && c.description == (if Filled(m, "description") then Some(m["description"]) else None)
                  && c.digest == (if Filled(m, "digest") then Some(m["digest"]) else None)
                  && c.correlation == (if Filled(m, "opaque") then Some(m["opaque"]) else None))
            && (r.Err? ==>
                  match r.error
                  case Missing(name) => !Filled(m, name) && name in ["id", "realm", "method", "intent", "request"]
                  case BadMethod => Filled(m, "method") && !IsLowerName(m["method"])
                  case BadRequest => Filled(m, "request") && !validRequest(m["request"])
                  case BadDigest => Filled(m, "digest") && !("sha-256=" <= m["digest"])
                  case _ => false)
  {
    hide IsName, IsLowerName;
    if "method" in m {
      SameNames(m["method"]);
    }
  }
}
