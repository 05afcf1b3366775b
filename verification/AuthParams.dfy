/** The auth-param list: the hand-written scanner, the escaping printer, and why the first undoes
    the second (quoted-string: section 5.6.4 of RFC 9110).

    The Rust and the TypeScript scanner differ only in what counts as a blank, `blank` below. */
module AuthParams {
  import opened Text

  type Params = map<string, string>

  datatype ScanError = Duplicate(key: string)

  // ---------- What the scanner reads ----------

  /** Index of the first character satisfying `stop`, or |s|. */
  function First(s: string, stop: char -> bool): (i: nat)
    ensures i <= |s|
    ensures forall k | 0 <= k < i :: !stop(s[k])
    ensures i < |s| ==> stop(s[i])
  {
    if s == "" || stop(s[0]) then 0 else 1 + First(s[1..], stop)
  }

  lemma {:induction false} FirstAt(s: string, stop: char -> bool, i: nat)
    requires i <= |s| && (forall k | 0 <= k < i :: !stop(s[k])) && (i < |s| ==> stop(s[i]))
    ensures First(s, stop) == i
  {
    if i == 0 {
    } else {
      assert !stop(s[0]);
      FirstAt(s[1..], stop, i - 1);
    }
  }

  /** The value after an opening quote, and what follows its closing quote. A backslash takes the
      next character literally unless it is the last one. */
  function Quoted(s: string): (r: (string, string))
    ensures |r.1| <= |s|
  {
    if s == "" then ("", "")
    else if s[0] == '"' then ("", s[1..])
    else if s[0] == '\\' && |s| > 1 then
      var (value, rest) := Quoted(s[2..]);
      ([s[1]] + value, rest)
    else
      var (value, rest) := Quoted(s[1..]);
      ([s[0]] + value, rest)
  }

  /** One round of the scanner: the text ends, a token without a value is skipped, or a parameter is
      read; `rest` is the text after it. */
  datatype Round = End | Skipped(rest: string) | Read(key: string, value: string, rest: string)

  // Where the index loops stop.

  function Gap(blank: char -> bool): char -> bool { c => blank(c) || c == ',' }

  function NoGap(blank: char -> bool): char -> bool { c => !(blank(c) || c == ',') }

  function EqualsOrBlank(blank: char -> bool): char -> bool { c => c == '=' || blank(c) }

  function FirstGap(blank: char -> bool, s: string): nat {
    First(s, Gap(blank))
  }

  function KeyEnd(blank: char -> bool, s: string): nat {
    First(s, EqualsOrBlank(blank))
  }

  /** The text from its first character that is neither blank nor a comma. */
  function SkipGap(blank: char -> bool, s: string): (r: string)
    ensures |r| <= |s|
    ensures r != "" ==> !blank(r[0]) && r[0] != ','
  {
    s[First(s, NoGap(blank))..]
  }

  function ReadValue(blank: char -> bool, after: string): (r: (string, string))
    requires after != ""
    ensures |r.1| <= |after|
  {
    if after[0] == '"' then Quoted(after[1..])
    else (after[..FirstGap(blank, after)], after[FirstGap(blank, after)..])
  }

  /** A round on text that starts with neither blank nor comma. */
  function RoundAt(blank: char -> bool, rest: string): (r: Round)
    requires rest != "" && !blank(rest[0])
    ensures !r.End? ==> |r.rest| < |rest|
  {
    var k := KeyEnd(blank, rest);
    if k == |rest| || rest[k] != '=' then Skipped(rest[k..][FirstGap(blank, rest[k..])..])
    else if k + 1 == |rest| then End
    else
      var (value, remaining) := ReadValue(blank, rest[k + 1..]);
      Read(rest[..k], value, remaining)
  }

  function NextRound(blank: char -> bool, s: string): (r: Round)
    ensures !r.End? ==> |r.rest| < |s|
  {
    var rest := SkipGap(blank, s);
    if rest == "" then End else RoundAt(blank, rest)
  }

  function Scan(blank: char -> bool, s: string, params: Params): Result<Params, ScanError>
    decreases |s|
  {
    match NextRound(blank, s)
    case End => Ok(params)
    case Skipped(rest) => Scan(blank, rest, params)
    case Read(key, value, rest) =>
      if key in params then Err(Duplicate(key)) else Scan(blank, rest, params[key := value])
  }

  // ---------- The scanner ----------

  method SkipUntil(chars: string, start: nat, stop: char -> bool) returns (i: nat)
    requires start <= |chars|
    ensures start <= i <= |chars| && i == start + First(chars[start..], stop)
  {
    i := start;
    while i < |chars| && !stop(chars[i])
      invariant start <= i <= |chars|
      invariant forall k | start <= k < i :: !stop(chars[k])
    {
      i := i + 1;
    }
    FirstAt(chars[start..], stop, i - start);
  }

  method ReadQuoted(chars: string, start: nat) returns (value: string, i: nat)
    requires start <= |chars|
    ensures start <= i <= |chars| && Quoted(chars[start..]) == (value, chars[i..])
  {
    i := start;
    value := "";
    while i < |chars| && chars[i] != '"'
      invariant start <= i <= |chars|
      invariant value + Quoted(chars[i..]).0 == Quoted(chars[start..]).0
      invariant Quoted(chars[i..]).1 == Quoted(chars[start..]).1
    {
      ghost var s := chars[i..];
      if chars[i] == '\\' && i + 1 < |chars| {
        i := i + 1;
        assert s[2..] == chars[i + 1..] && s[1] == chars[i];
      } else {
        assert s[1..] == chars[i + 1..] && s[0] == chars[i];
      }
      Regroup(value, [chars[i]], Quoted(chars[i + 1..]).0);
      value := value + [chars[i]];
      i := i + 1;
    }
    assert value + "" == value;
    if i < |chars| {
      assert chars[i..][1..] == chars[i + 1..];
      i := i + 1;
    } else {
      assert chars[i..] == "";
    }
  }

  method ReadValueAt(blank: char -> bool, chars: string, start: nat) returns (value: string, i: nat)
    requires start < |chars|
    ensures start <= i <= |chars| && ReadValue(blank, chars[start..]) == (value, chars[i..])
  {
    hide First, Quoted;
    if chars[start] == '"' {
      Cut(chars, start, start + 1);
      value, i := ReadQuoted(chars, start + 1);
    } else {
      i := SkipUntil(chars, start, Gap(blank));
      Cut(chars, start, i);
      value := chars[start..i];
    }
  }

  method ScanToken(blank: char -> bool, chars: string, keyStart: nat) returns (round: Round, i: nat)
    requires keyStart < |chars| && !blank(chars[keyStart])
    ensures round == RoundAt(blank, chars[keyStart..])
    ensures !round.End? ==> keyStart < i <= |chars| && round.rest == chars[i..]
  {
    hide First, ReadValue;
    i := SkipUntil(chars, keyStart, EqualsOrBlank(blank));
    ghost var rest := chars[keyStart..];
    ghost var k := i - keyStart;
    assert k == KeyEnd(blank, rest);
    Cut(chars, keyStart, i);
    if i >= |chars| || chars[i] != '=' {
      ghost var gap := i;
      i := SkipUntil(chars, i, Gap(blank));
      Cut(chars, gap, i);
      return Skipped(chars[i..]), i;
    }
    var key := chars[keyStart..i];
    i := i + 1;
    Cut(chars, keyStart, i);
    if i >= |chars| { return End, i; }
    assert rest[k + 1..] == chars[i..] && rest[..k] == key;
    var value, next := ReadValueAt(blank, chars, i);
    return Read(key, value, chars[next..]), next;
  }

  /** The body of the scanner's loop: one round from index `start`, and where it leaves the index. */
  method ScanRound(blank: char -> bool, chars: string, start: nat) returns (round: Round, i: nat)
    requires start < |chars|
    ensures round == NextRound(blank, chars[start..])
    ensures !round.End? ==> start < i <= |chars| && round.rest == chars[i..]
  {
    hide First, RoundAt;
    i := SkipUntil(chars, start, NoGap(blank));
    Cut(chars, start, i);
    if i >= |chars| { return End, i; }
    round, i := ScanToken(blank, chars, i);
  }

  /** One index walks the text and rises at every round, so the scanner ends on every input. */
  method ParseAuthParams(blank: char -> bool, chars: string) returns (r: Result<Params, ScanError>)
    ensures r == Scan(blank, chars, map[])
  {
    var params: Params := map[];
    var i := 0;
    assert chars[0..] == chars;
    while i < |chars|
      invariant 0 <= i <= |chars|
      invariant Scan(blank, chars[i..], params) == Scan(blank, chars, map[])
    {
      var round, next := ScanRound(blank, chars, i);
      match round {
        case End => return Ok(params);
        case Skipped(_) =>
        case Read(key, value, _) =>
          if key in params { return Err(Duplicate(key)); }
          params := params[key := value];
      }
      i := next;
    }
    return Ok(params);
  }

  // ---------- The printer ----------

  function Replace(s: string, c: char, to: string): string {
    if s == "" then "" else (if s[0] == c then to else [s[0]]) + Replace(s[1..], c, to)
  }

  /** Backslashes are doubled first, then quotes get a backslash. */
  function Escape(s: string): string {
    Replace(Replace(s, '\\', "\\\\"), '"', "\\\"")
  }

  predicate HasLineBreak(s: string) {
    '\r' in s || '\n' in s
  }

  lemma {:induction false} ReplaceAppend(a: string, b: string, c: char, to: string)
    ensures Replace(a + b, c, to) == Replace(a, c, to) + Replace(b, c, to)
  {
    if a == "" {
      assert a + b == b;
    } else {
      assert (a + b)[1..] == a[1..] + b;
      ReplaceAppend(a[1..], b, c, to);
    }
  }

  function EscapedChar(c: char): string {
    if c == '\\' then "\\\\" else if c == '"' then "\\\"" else [c]
  }

  /** The two passes together escape character by character. */
  lemma EscapeStep(s: string)
    requires s != ""
    ensures Escape(s) == EscapedChar(s[0]) + Escape(s[1..])
  {
    var first := if s[0] == '\\' then "\\\\" else [s[0]];
    ReplaceAppend(first, Replace(s[1..], '\\', "\\\\"), '"', "\\\"");
    if s[0] == '\\' {
      assert first[1..] == "\\";
      assert first[1..][1..] == "";
    } else {
      assert first[1..] == "";
    }
  }

  /** Scanning a quoted value undoes escaping it, whatever follows. */
  lemma {:induction false} QuotedOfEscape(value: string, rest: string)
    ensures Quoted(Escape(value) + "\"" + rest) == (value, rest)
  {
    var text := Escape(value) + "\"" + rest;
    if value == "" {
      assert text[1..] == rest;
    } else {
      EscapeStep(value);
      var tail := Escape(value[1..]) + "\"" + rest;
      var e := EscapedChar(value[0]);
      QuotedOfEscape(value[1..], rest);
      assert text == e + tail;
      assert text[|e|..] == tail;
      assert [value[0]] + value[1..] == value;
    }
  }

  type Pair = (string, string)

  function Param(p: Pair): string {
    p.0 + "=\"" + Escape(p.1) + "\""
  }

  function Joined(ps: seq<Pair>): string {
    if ps == [] then "" else if |ps| == 1 then Param(ps[0]) else Param(ps[0]) + ", " + Joined(ps[1..])
  }

  function AsMap(ps: seq<Pair>): Params {
    if ps == [] then map[] else map[ps[0].0 := ps[0].1] + AsMap(ps[1..])
  }

  predicate IsName(s: string) {
    s != "" && forall i | 0 <= i < |s| :: IsLowerLetter(s[i])
  }

  /** A blank test under which a space is blank and names, '=' and quotes are not. */
  ghost predicate Sensible(blank: char -> bool) {
    blank(' ') && !blank('=') && !blank('"') && forall c | IsLowerLetter(c) :: !blank(c)
  }

  ghost predicate Distinct(ps: seq<Pair>) {
    && (forall i | 0 <= i < |ps| :: IsName(ps[i].0))
    && (forall i, j | 0 <= i < j < |ps| :: ps[i].0 != ps[j].0)
  }

  /** One printed parameter is one round of the scanner. */
  lemma RoundOfParam(blank: char -> bool, p: Pair, tail: string)
    requires Sensible(blank) && IsName(p.0)
    ensures NextRound(blank, Param(p) + tail) == Read(p.0, p.1, tail)
  {
    hide Escape, Quoted, First;
    var text := Param(p) + tail;
    var after := "\"" + Escape(p.1) + "\"" + tail;
    assert text == p.0 + "=" + after;
    assert IsLowerLetter(text[0]) by { assert text[0] == p.0[0]; }
    FirstAt(text, NoGap(blank), 0);
    assert SkipGap(blank, text) == text;
    forall k | 0 <= k < |p.0| ensures !EqualsOrBlank(blank)(text[k]) {
      assert text[k] == p.0[k] && IsLowerLetter(p.0[k]);
    }
    FirstAt(text, EqualsOrBlank(blank), |p.0|);
    assert text[..|p.0|] == p.0 && text[|p.0| + 1..] == after;
    QuotedOfEscape(p.1, tail);
    assert after[1..] == Escape(p.1) + "\"" + tail;
  }

  /** A separator in front changes nothing. */
  lemma RoundAfterSeparator(blank: char -> bool, s: string)
    requires blank(' ') && s != "" && !blank(s[0]) && s[0] != ','
    ensures NextRound(blank, ", " + s) == NextRound(blank, s)
  {
    hide RoundAt, First;
    var text := ", " + s;
    FirstAt(text, NoGap(blank), 2);
    FirstAt(s, NoGap(blank), 0);
    assert text[2..] == s && s[0..] == s;
  }

  lemma JoinedStartsPlain(blank: char -> bool, ps: seq<Pair>)
    requires Sensible(blank) && Distinct(ps) && ps != []
    ensures Joined(ps) != "" && !blank(Joined(ps)[0]) && Joined(ps)[0] != ','
  {
    hide Escape;
    assert IsName(ps[0].0);
    assert Joined(ps)[0] == ps[0].0[0];
  }

  lemma ScanNothing(blank: char -> bool, params: Params)
    ensures Scan(blank, "", params) == Ok(params)
  {
  }

  lemma ScanRead(blank: char -> bool, s: string, params: Params, p: Pair, tail: string)
    requires NextRound(blank, s) == Read(p.0, p.1, tail) && p.0 !in params
    ensures Scan(blank, s, params) == Scan(blank, tail, params[p.0 := p.1])
  {
    hide NextRound;
  }

  lemma ScanSame(blank: char -> bool, s: string, t: string, params: Params)
    requires NextRound(blank, s) == NextRound(blank, t)
    ensures Scan(blank, s, params) == Scan(blank, t, params)
  {
    hide NextRound;
  }

  /** Scanning a printed list gives back exactly its pairs. */
  lemma {:induction false} ScanJoined(blank: char -> bool, ps: seq<Pair>, params: Params)
    requires Sensible(blank) && Distinct(ps)
    requires forall i | 0 <= i < |ps| :: ps[i].0 !in params
    ensures Scan(blank, Joined(ps), params) == Ok(params + AsMap(ps))
  {
    hide Scan, NextRound, Sensible, Param, IsName;
    if ps == [] {
      ScanNothing(blank, params);
      assert params + map[] == params;
    } else {
      var p, rest, next := ps[0], ps[1..], params[ps[0].0 := ps[0].1];
      var tail := if rest == [] then "" else ", " + Joined(rest);
      assert Joined(ps) == Param(p) + tail;
      RoundOfParam(blank, p, tail);
      ScanRead(blank, Joined(ps), params, p, tail);
      ScanJoined(blank, rest, next);
      if rest != [] {
        JoinedStartsPlain(blank, rest);
        BlankSpace(blank);
        RoundAfterSeparator(blank, Joined(rest));
        ScanSame(blank, tail, Joined(rest), next);
      }
      assert next + AsMap(rest) == params + AsMap(ps);
    }
  }

  lemma BlankSpace(blank: char -> bool)
    requires Sensible(blank)
    ensures blank(' ')
  {
  }

  // ---------- The two scanners ----------

  function RustBlank(): char -> bool { c => IsWhitespace(c) }

  function TsBlank(): char -> bool { c => c == ' ' || c == '\t' }

  lemma BothSensible()
    ensures Sensible(RustBlank()) && Sensible(TsBlank())
  {
  }

  ghost predicate SameBlanks(s: string) {
    forall i | 0 <= i < |s| :: RustBlank()(s[i]) == TsBlank()(s[i])
  }

  lemma {:induction false} FirstSame(s: string, p: char -> bool, q: char -> bool)
    requires forall i | 0 <= i < |s| :: p(s[i]) == q(s[i])
    ensures First(s, p) == First(s, q)
  {
    if s != "" && !p(s[0]) {
      FirstSame(s[1..], p, q);
    }
  }

  lemma {:induction false} QuotedSuffix(s: string)
    ensures Quoted(s).1 == s[|s| - |Quoted(s).1|..]
  {
    if s != "" && s[0] != '"' {
      QuotedSuffix(s[if s[0] == '\\' && |s| > 1 then 2 else 1..]);
    }
  }

  lemma ValueSame(after: string)
    requires SameBlanks(after) && after != ""
    ensures ReadValue(RustBlank(), after) == ReadValue(TsBlank(), after)
    ensures var rest := ReadValue(RustBlank(), after).1; rest == after[|after| - |rest|..]
  {
    hide First, Quoted;
    FirstSame(after, Gap(RustBlank()), Gap(TsBlank()));
    QuotedSuffix(after[1..]);
  }

  lemma EndsSame(s: string)
    requires SameBlanks(s)
    ensures KeyEnd(RustBlank(), s) == KeyEnd(TsBlank(), s)
    ensures FirstGap(RustBlank(), s) == FirstGap(TsBlank(), s)
  {
    hide First, RustBlank, TsBlank;
    FirstSame(s, EqualsOrBlank(RustBlank()), EqualsOrBlank(TsBlank()));
    FirstSame(s, Gap(RustBlank()), Gap(TsBlank()));
  }

  lemma RoundAtSame(rest: string)
    requires SameBlanks(rest) && rest != "" && !RustBlank()(rest[0])
    ensures RoundAt(RustBlank(), rest) == RoundAt(TsBlank(), rest)
    ensures var r := RoundAt(RustBlank(), rest); !r.End? ==> r.rest == rest[|rest| - |r.rest|..]
  {
    hide First, ReadValue, RustBlank, TsBlank;
    EndsSame(rest);
    var k := KeyEnd(RustBlank(), rest);
    EndsSame(rest[k..]);
    if k + 1 < |rest| {
      ValueSame(rest[k + 1..]);
    }
  }

  lemma RoundSame(s: string)
    requires SameBlanks(s)
    ensures NextRound(RustBlank(), s) == NextRound(TsBlank(), s)
    ensures var r := NextRound(RustBlank(), s); !r.End? ==> r.rest == s[|s| - |r.rest|..]
  {
    hide First, RoundAt, RustBlank, TsBlank;
    FirstSame(s, NoGap(RustBlank()), NoGap(TsBlank()));
    var rest := SkipGap(RustBlank(), s);
    if rest != "" {
      RoundAtSame(rest);
    }
  }

  lemma {:induction false} SameScan(s: string, params: Params)
    requires SameBlanks(s)
    ensures Scan(RustBlank(), s, params) == Scan(TsBlank(), s, params)
    decreases |s|
  {
    hide NextRound;
    RoundSame(s);
    var r := NextRound(RustBlank(), s);
    if r.Skipped? {
      SameScan(r.rest, params);
    } else if r.Read? && r.key !in params {
      SameScan(r.rest, params[r.key := r.value]);
    }
  }

  /** The TypeScript scanner is the Rust one on every text whose white space is spaces and tabs only. */
  lemma ScannersAgree(s: string)
    requires forall i | 0 <= i < |s| :: IsWhitespace(s[i]) ==> s[i] == ' ' || s[i] == '\t'
    ensures Scan(RustBlank(), s, map[]) == Scan(TsBlank(), s, map[])
  {
    hide Scan;
    forall i | 0 <= i < |s| ensures RustBlank()(s[i]) == TsBlank()(s[i]) {
      assert IsWhitespace(' ') && IsWhitespace('\t');
    }
    SameScan(s, map[]);
  }
}
