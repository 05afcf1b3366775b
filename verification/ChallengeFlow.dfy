/** From issuing a challenge to accepting the credential that answers it. */
module ChallengeFlow {
  import opened Text
  import opened Base64Url
  import opened Headers
  import opened ChallengeId

  datatype Credential = Credential(challenge: ChallengeEcho, payload: string)

  datatype AuthError = NoPaymentScheme | TokenTooLong | BadBase64 | BadJson | BadDigestFormat

  datatype VerifyError = IdMismatch | InvalidExpires | Expired

  /** The issuing server. Times are nanoseconds; `parseTime` and `formatTime` are the RFC 3339
      reader and writer. */
  datatype Mpp = Mpp(mac: Mac, secretKey: string, realm: string, parseTime: string -> Option<int>,
                     formatTime: int -> Option<string>)

  /** The JSON codec of credentials. */
  datatype Codec = Codec(write: Credential -> Octets, read: Octets -> Option<Credential>)

  const METHOD_NAME := "movement"
  const INTENT_CHARGE := "charge"
  const INTENT_SESSION := "session"
  const DEFAULT_EXPIRES_NANOSECONDS := 5 * 60 * 1_000_000_000
  const MAX_TOKEN_LEN: nat := 16 * 1024

  /** The writer's texts read back, and the reader takes no empty input. */
  ghost predicate Inverse(codec: Codec) {
    (forall c :: codec.read(codec.write(c)) == Some(c)) && codec.read([]).None?
  }

  ghost predicate HashesTo32(mac: Mac) {
    forall key, text :: |mac(key, text)| == 32
  }

  // ---------- Issuing ----------

  /** A challenge of either intent; without an explicit expiry it lives five minutes. None stands
      for a default expiry that cannot be written as text. */
  function Issue(mpp: Mpp, intent: string, request: string, expires: Option<string>, description: Option<string>,
                 now: int): Option<PaymentChallenge>
  {
    var until := if expires.Some? then expires else mpp.formatTime(now + DEFAULT_EXPIRES_NANOSECONDS);
    if until.None? then None
    else
      var echo := ChallengeEcho("", mpp.realm, METHOD_NAME, intent, request, until, None, None);
      Some(PaymentChallenge(ComputeId(mpp.mac, mpp.secretKey, mpp.realm, echo), mpp.realm, METHOD_NAME, intent, request,
                            until, description, None, None))
  }

  /** What an issued challenge says: it carries what it was asked for, under the server's realm, and
      expires when told to or after 300 seconds. */
  lemma IssueMeans(mpp: Mpp, intent: string, request: string, expires: Option<string>, description: Option<string>,
                   now: int)
    ensures var r := Issue(mpp, intent, request, expires, description, now);
            && (r.None? <==> expires.None? && mpp.formatTime(now + 300_000_000_000).None?)
            && (r.Some? ==>
                  var c := r.value;
                  && c.realm == mpp.realm && c.methodName == "movement" && c.intent == intent && c.request == request
                  && c.expires == (if expires.Some? then expires else mpp.formatTime(now + 300_000_000_000))
                  && c.description == description && c.digest.None? && c.correlation.None?
                  && Verifies(mpp.mac, mpp.secretKey, c))
  {
    hide Encode, Join;
  }

  // ---------- The Authorization header ----------

  function Split(s: string, separator: char): (parts: seq<string>)
    ensures parts != []
  {
    var k := FirstIndex(s, separator);
    if k == |s| then [s] else [s[..k]] + Split(s[k + 1..], separator)
  }

  predicate IsPaymentPart(s: string) {
    |s| >= 8 && Lower(s[..8]) == "payment "
  }

  function FindPayment(parts: seq<string>): Option<string> {
    if parts == [] then None
    else if IsPaymentPart(Trim(parts[0])) then Some(Trim(parts[0]))
    else FindPayment(parts[1..])
  }

  function ExtractPaymentScheme(header: string): Option<string> {
    FindPayment(Split(header, ','))
  }

  // ---------- Which part of a mixed header is taken ----------

  function Commas(parts: seq<string>): string
    requires parts != []
  {
    if |parts| == 1 then parts[0] else parts[0] + "," + Commas(parts[1..])
  }

  ghost predicate CommaFree(parts: seq<string>) {
    forall i | 0 <= i < |parts| :: ',' !in parts[i]
  }

  lemma SplitsFirst(first: string, rest: string)
    requires ',' !in first
    ensures Split(first, ',') == [first]
    ensures Split(first + "," + rest, ',') == [first] + Split(rest, ',')
  {
    assert first[..|first|] == first;
    FirstIndexAt(first, ',', |first|);
    var s := first + "," + rest;
    assert s[..|first|] == first && s[|first| + 1..] == rest;
    FirstIndexAt(s, ',', |first|);
  }

  lemma {:induction false} SplitOfCommas(parts: seq<string>)
    requires parts != [] && CommaFree(parts)
    ensures Split(Commas(parts), ',') == parts
  {
    hide Split;
    if |parts| == 1 {
      SplitsFirst(parts[0], "");
    } else {
      SplitsFirst(parts[0], Commas(parts[1..]));
      SplitOfCommas(parts[1..]);
    }
    assert parts == [parts[0]] + parts[1..];
  }

  /** Every header is comma-free parts joined by commas. */
  lemma {:induction false} CommasOfSplit(s: string)
    ensures CommaFree(Split(s, ',')) && Commas(Split(s, ',')) == s
  {
    var k := FirstIndex(s, ',');
    if k == |s| {
      assert s[..k] == s;
    } else {
      CommasOfSplit(s[k + 1..]);
      var parts := Split(s, ',');
      assert parts[1..] == Split(s[k + 1..], ',');
      assert s == s[..k] + "," + s[k + 1..];
    }
  }

  /** The scheme name in any case, then a space. */
  predicate OfPayment(part: string) {
    "payment " <= Lower(Trim(part))
  }

  lemma OfPaymentIsPart(part: string)
    ensures OfPayment(part) <==> IsPaymentPart(Trim(part))
  {
    var t := Trim(part);
    hide Trim, LowerChar;
    assert |t| >= 8 ==> Lower(t[..8]) == Lower(t)[..8];
  }

  lemma {:induction false} FindsFirst(parts: seq<string>, i: nat)
    requires i <= |parts| && (forall k | 0 <= k < i :: !OfPayment(parts[k]))
    requires i < |parts| ==> OfPayment(parts[i])
    ensures FindPayment(parts) == if i < |parts| then Some(Trim(parts[i])) else None
  {
    hide OfPayment, IsPaymentPart, Trim;
    if parts == [] {
    } else {
      OfPaymentIsPart(parts[0]);
      if i > 0 {
        FindsFirst(parts[1..], i - 1);
      }
    }
  }

  /** Of a header's comma-separated parts the first Payment part is taken, trimmed; there is none exactly
      when no part is of that scheme. Here `i` is its place, or the number of parts. */
  lemma ExtractsFirst(parts: seq<string>, i: nat)
    requires parts != [] && CommaFree(parts)
    requires i <= |parts| && (forall k | 0 <= k < i :: !OfPayment(parts[k]))
    requires i < |parts| ==> OfPayment(parts[i])
    ensures ExtractPaymentScheme(Commas(parts)) == if i < |parts| then Some(Trim(parts[i])) else None
  {
    hide OfPayment, Trim, FindPayment, Split;
    SplitOfCommas(parts);
    FindsFirst(parts, i);
  }

  function FormatAuthorization(codec: Codec, credential: Credential): string {
    "Payment " + Encode(codec.write(credential))
  }

  function ParseAuthorization(codec: Codec, header: string): Result<Credential, AuthError> {
    match ExtractPaymentScheme(header)
    case None => Err(NoPaymentScheme)
    case Some(part) =>
      var token := if |part| >= 8 then Trim(part[8..]) else "";
      if Utf8Length(token) > MAX_TOKEN_LEN then Err(TokenTooLong)
      else
        match DecodeStrict(token)
        case None => Err(BadBase64)
        case Some(octets) =>
          match codec.read(octets)
          case None => Err(BadJson)
          case Some(credential) =>
            if ValidDigest(credential.challenge.digest) then Ok(credential) else Err(BadDigestFormat)
  }

  predicate Plain(c: char) {
    !IsWhitespace(c) && c != ',' && c < '\U{80}'
  }

  lemma AlphabetIsPlain(c: char)
    requires InAlphabet(c)
    ensures Plain(c)
  {
  }

  /** Text of plain characters is its own trimmed form, has no comma, and is as long as its UTF-8. */
  lemma PlainText(s: string)
    requires forall k | 0 <= k < |s| :: Plain(s[k])
    ensures Utf8Length(s) == |s| && Trim(s) == s && ',' !in s
  {
    hide IsWhitespace;
    Utf8LengthAscii(s);
    TrimKeeps(s);
  }

  lemma EncodedIsPlain(data: Octets)
    ensures forall k | 0 <= k < |Encode(data)| :: Plain(Encode(data)[k])
  {
    hide Encode, Plain, InAlphabet;
    EncodeShape(data);
    var s := Encode(data);
    forall k | 0 <= k < |s| ensures Plain(s[k]) {
      AlphabetIsPlain(s[k]);
    }
  }

  lemma NoCommaInHeader(token: string)
    requires forall k | 0 <= k < |token| :: Plain(token[k])
    ensures ',' !in "Payment " + token
  {
    forall k | 0 <= k < |token| ensures token[k] != ',' {
      assert Plain(token[k]);
    }
  }

  lemma PIsNoBlank()
    ensures !IsWhitespace('P')
  {
  }

  /** What a header answers once its Payment part is found: the first check that fails decides. */
  lemma ParsesPart(codec: Codec, header: string, part: string)
    requires ExtractPaymentScheme(header) == Some(part) && |part| >= 8
    ensures var r := ParseAuthorization(codec, header);
            var token := Trim(part[8..]);
            && (Utf8Length(token) > 16384 ==> r == Err(TokenTooLong))
            && (Utf8Length(token) <= 16384 && !Strict(token) ==> r == Err(BadBase64))
            && (forall octets | Utf8Length(token) <= 16384 && token == Encode(octets) ::
                  && (codec.read(octets).None? ==> r == Err(BadJson))
                  && (codec.read(octets).Some? ==>
                        var credential := codec.read(octets).value;
                        if credential.challenge.digest.Some? && !("sha-256=" <= credential.challenge.digest.value)
                        then r == Err(BadDigestFormat) else r == Ok(credential)))
  {
    hide ExtractPaymentScheme, Trim, Utf8Length, Encode, Strict, Octetize;
    var token := Trim(part[8..]);
    forall octets | token == Encode(octets) ensures DecodeStrict(token) == Some(octets) {
      DecodeStrictExact(token, octets);
    }
  }

  lemma NoPaymentPart(codec: Codec, header: string)
    requires ExtractPaymentScheme(header).None?
    ensures ParseAuthorization(codec, header) == Err(NoPaymentScheme)
  {
  }

  /** A printed credential parses back exactly, unless its token is longer than 16384 characters or its
      digest is malformed; also between parts of other schemes, and with blanks around it. */
  lemma CredentialRoundTrip(codec: Codec, credential: Credential, parts: seq<string>, i: nat)
    requires Inverse(codec) && i < |parts| && CommaFree(parts) && (forall k | 0 <= k < i :: !OfPayment(parts[k]))
    requires Trim(parts[i]) == FormatAuthorization(codec, credential)
    ensures var digest := credential.challenge.digest;
            ParseAuthorization(codec, Commas(parts)) ==
            if |Encode(codec.write(credential))| > 16384 then Err(TokenTooLong)
            else if digest.Some? && !("sha-256=" <= digest.value) then Err(BadDigestFormat) else Ok(credential)
  {
    hide Encode, ExtractPaymentScheme, Trim, Utf8Length, Strict, ParseAuthorization, Commas, Plain;
    var octets := codec.write(credential);
    var token := Encode(octets);
    assert octets != [] by { assert codec.read(octets).Some?; }
    EncodeShape(octets);
    EncodedIsPlain(octets);
    PlainText(token);
    StartsPayment(parts[i], token);
    ExtractsFirst(parts, i);
    assert ("Payment " + token)[8..] == token;
    ParsesPart(codec, Commas(parts), "Payment " + token);
  }

  lemma StartsPayment(part: string, token: string)
    requires Trim(part) == "Payment " + token
    ensures OfPayment(part)
  {
    hide Trim;
    assert ("Payment " + token)[..8] == "Payment " && Lower("Payment ") == "payment ";
    assert Lower("Payment " + token)[..8] == Lower("Payment ");
  }

  lemma PrintedAlone(codec: Codec, credential: Credential)
    requires Inverse(codec)
    ensures var header := FormatAuthorization(codec, credential);
            CommaFree([header]) && Commas([header]) == header && Trim(header) == header
  {
    hide Encode, IsWhitespace, Trim, Plain;
    var octets := codec.write(credential);
    var header := "Payment " + Encode(octets);
    assert octets != [] by { assert codec.read(octets).Some?; }
    EncodeShape(octets);
    EncodedIsPlain(octets);
    NoCommaInHeader(Encode(octets));
    PIsNoBlank();
    assert header[|header| - 1] == Encode(octets)[|Encode(octets)| - 1];
    PlainIsNoBlank(Encode(octets)[|Encode(octets)| - 1]);
    TrimKeeps(header);
  }

  lemma PlainIsNoBlank(c: char)
    requires Plain(c)
    ensures !IsWhitespace(c)
  {
  }

  // ---------- Acceptance ----------

  function VerifyHmacAndExpiry(mpp: Mpp, credential: Credential, now: int): Result<(), VerifyError> {
    var echo := credential.challenge;
    if echo.id != ComputeId(mpp.mac, mpp.secretKey, mpp.realm, echo) then Err(IdMismatch)
    else if echo.expires.None? then Ok(())
    else
      match mpp.parseTime(echo.expires.value)
      case None => Err(InvalidExpires)
      case Some(expiresAt) => if expiresAt <= now then Err(Expired) else Ok(())
  }

  /** An echo is accepted exactly when its id is the one of its fields under the server's key and realm,
      and it has no expiry or one that reads and is not reached; else the first failing check answers. */
  lemma VerifyMeans(mpp: Mpp, credential: Credential, now: int)
    ensures var r := VerifyHmacAndExpiry(mpp, credential, now);
            var e := credential.challenge;
            var bound := e.id == Encode(mpp.mac(mpp.secretKey, Preimage(mpp.realm, e)));
            && (!bound ==> r == Err(IdMismatch))
            && (bound && e.expires.None? ==> r == Ok(()))
            && (bound && e.expires.Some? ==>
                  match mpp.parseTime(e.expires.value)
                  case None => r == Err(InvalidExpires)
                  case Some(t) => r == if now < t then Ok(()) else Err(Expired))
  {
    hide Encode, Join;
    PreimageText(mpp.realm, credential.challenge);
  }

  lemma IssuedVerifies(mpp: Mpp, intent: string, request: string, expires: Option<string>, description: Option<string>,
                       now: int, payload: string, later: int)
    requires Issue(mpp, intent, request, expires, description, now).Some?
    ensures var c := Issue(mpp, intent, request, expires, description, now).value;
            VerifyHmacAndExpiry(mpp, Credential(ToEcho(c), payload), later) ==
            match mpp.parseTime(c.expires.value)
            case None => Err(InvalidExpires)
            case Some(t) => if later < t then Ok(()) else Err(Expired)
  {
    hide Encode, Join;
  }

  lemma IssuedParses(mpp: Mpp, validRequest: string -> bool, intent: string, request: string, expires: Option<string>,
                     description: Option<string>, now: int)
    requires HashesTo32(mpp.mac) && (intent == "charge" || intent == "session") && validRequest(request)
    requires Issue(mpp, intent, request, expires, description, now).Some?
    requires Printable(Issue(mpp, intent, request, expires, description, now).value)
    ensures var c := Issue(mpp, intent, request, expires, description, now).value;
            Format(c).Ok? && ParseWwwAuthenticate(validRequest, Format(c).value) == Ok(c)
  {
    hide Encode, Join, Printable, Format, ParseWwwAuthenticate;
    var c := Issue(mpp, intent, request, expires, description, now).value;
    HeaderRoundTrip(validRequest, c);
    EncodeShape(mpp.mac(mpp.secretKey, Join(Hashed(mpp.realm, ToEcho(c)))));
    assert Lower("charge") == "charge" && Lower("session") == "session";
  }

  /** Every charge or session challenge the server issues and can print is read back unchanged; the
      echo of it, sent as a token of at most 16384 characters, is read back unchanged; and the
      server accepts it strictly before its expiry and refuses it from then on. A longer token is
      refused as such. */
  lemma IssuedIsAccepted(mpp: Mpp, codec: Codec, validRequest: string -> bool, intent: string, request: string,
                         expires: Option<string>, description: Option<string>, now: int, payload: string, later: int)
    requires HashesTo32(mpp.mac) && Inverse(codec)
    requires (intent == "charge" || intent == "session") && validRequest(request)
    requires Issue(mpp, intent, request, expires, description, now).Some?
    requires Printable(Issue(mpp, intent, request, expires, description, now).value)
    ensures var c := Issue(mpp, intent, request, expires, description, now).value;
            var parsed := ParseWwwAuthenticate(validRequest, Format(c).value);
            && parsed.Ok?
            && var credential := Credential(ToEcho(parsed.value), payload);
               var sent := ParseAuthorization(codec, FormatAuthorization(codec, credential));
               && (sent.Ok? <==> |Encode(codec.write(credential))| <= 16384)
               && (sent.Ok? ==>
                     (VerifyHmacAndExpiry(mpp, sent.value, later).Ok? <==>
                        mpp.parseTime(c.expires.value).Some? && later < mpp.parseTime(c.expires.value).value))
  {
    hide Format, ParseWwwAuthenticate, ParseAuthorization, FormatAuthorization, VerifyHmacAndExpiry, ComputeId, Encode;
    var c := Issue(mpp, intent, request, expires, description, now).value;
    IssuedParses(mpp, validRequest, intent, request, expires, description, now);
    PrintedAlone(codec, Credential(ToEcho(c), payload));
    var header := FormatAuthorization(codec, Credential(ToEcho(c), payload));
    CredentialRoundTrip(codec, Credential(ToEcho(c), payload), [header], 0);
    IssuedVerifies(mpp, intent, request, expires, description, now, payload, later);
  }

  /** Issued without an expiry of its own, a challenge lives 300 seconds to the nanosecond. */
  lemma DefaultLifetime(mpp: Mpp, intent: string, request: string, description: Option<string>, now: int,
                        payload: string, later: int)
    requires mpp.formatTime(now + 300_000_000_000).Some?
    requires mpp.parseTime(mpp.formatTime(now + 300_000_000_000).value) == Some(now + 300_000_000_000)
    ensures var c := Issue(mpp, intent, request, None, description, now);
            c.Some? && (VerifyHmacAndExpiry(mpp, Credential(ToEcho(c.value), payload), later).Ok?
                        <==> later < now + 300_000_000_000)
  {
    hide VerifyHmacAndExpiry, ComputeId;
    IssueMeans(mpp, intent, request, None, description, now);
    IssuedVerifies(mpp, intent, request, None, description, now, payload, later);
  }

  /** What the server accepts under an issued id is what it issued: unless the two hash inputs
      collide, and with no pipe in the issued fields, nothing the id covers can have been altered, up
      to an absent optional turning into an empty one. */
  lemma AcceptedIsIssued(mpp: Mpp, issued: ChallengeEcho, credential: Credential, now: int)
    requires var x, y := Join(Hashed(mpp.realm, issued)), Join(Hashed(mpp.realm, credential.challenge));
             mpp.mac(mpp.secretKey, x) == mpp.mac(mpp.secretKey, y) ==> x == y
    requires PipeFree(Echoed(issued))
    requires credential.challenge.id == ComputeId(mpp.mac, mpp.secretKey, mpp.realm, issued)
    requires VerifyHmacAndExpiry(mpp, credential, now).Ok?
    ensures var e := credential.challenge;
            && e.methodName == issued.methodName && e.intent == issued.intent && e.request == issued.request
            && OrEmpty(e.expires) == OrEmpty(issued.expires) && OrEmpty(e.digest) == OrEmpty(issued.digest)
            && OrEmpty(e.correlation) == OrEmpty(issued.correlation)
    ensures issued.expires.Some? && credential.challenge.expires.Some? ==>
              mpp.parseTime(issued.expires.value).Some? && now < mpp.parseTime(issued.expires.value).value
  {
    hide Encode, Join;
    var e := credential.challenge;
    var x, y := Join(Hashed(mpp.realm, issued)), Join(Hashed(mpp.realm, e));
    OctetizeEncode(mpp.mac(mpp.secretKey, x));
    OctetizeEncode(mpp.mac(mpp.secretKey, y));
    assert x == y;
    IdBindsExactly(mpp.realm, issued);
    var fs, gs := Echoed(issued), Echoed(e);
    assert fs[0] == gs[0] && fs[1] == gs[1] && fs[2] == gs[2] && fs[3] == gs[3] && fs[4] == gs[4] && fs[5] == gs[5];
  }
}
