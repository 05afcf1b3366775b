/** Which texts the auth-param scanner reads as which pairs, and when it refuses them. */
module AuthGrammar {
  import opened Text
  import opened AuthParams

  // ---------- The pairs in a text, repeated names included ----------

  function Pairs(blank: char -> bool, s: string): seq<Pair>
    decreases |s|
  {
    match NextRound(blank, s)
    case End => []
    case Skipped(rest) => Pairs(blank, rest)
    case Read(key, value, rest) => [(key, value)] + Pairs(blank, rest)
  }

  /** The name of pair `i` was read before. */
  ghost predicate Repeats(ps: seq<Pair>, i: nat)
    requires i < |ps|
  {
    exists j | 0 <= j < i :: ps[j].0 == ps[i].0
  }

  lemma {:induction false} ScanFrom(blank: char -> bool, s: string, params: Params, i: nat)
    requires i <= |Pairs(blank, s)|
    requires forall j | 0 <= j < i :: Pairs(blank, s)[j].0 !in params && !Repeats(Pairs(blank, s), j)
    requires i < |Pairs(blank, s)| ==> Pairs(blank, s)[i].0 in params || Repeats(Pairs(blank, s), i)
    ensures Scan(blank, s, params) ==
            if i < |Pairs(blank, s)| then Err(Duplicate(Pairs(blank, s)[i].0)) else Ok(params + AsMap(Pairs(blank, s)))
    decreases |s|
  {
    hide NextRound;
    var ps := Pairs(blank, s);
    match NextRound(blank, s)
    case End => assert params + map[] == params;
    case Skipped(rest) => ScanFrom(blank, rest, params, i);
    case Read(key, value, rest) =>
      var tail := Pairs(blank, rest);
      assert ps == [(key, value)] + tail && ps[1..] == tail;
      if i == 0 {
        assert !Repeats(ps, 0);
      } else {
        var next := params[key := value];
        assert !Repeats(ps, 0) && ps[0].0 !in params;
        forall j | 0 <= j < |tail|
          ensures tail[j].0 in next || Repeats(tail, j) <==> ps[j + 1].0 in params || Repeats(ps, j + 1)
        {
          RepeatsShift(ps, j);
        }
        forall j | 0 <= j < i - 1 ensures tail[j].0 !in next && !Repeats(tail, j) {
          assert ps[j + 1].0 !in params && !Repeats(ps, j + 1);
        }
        ScanFrom(blank, rest, next, i - 1);
        assert next + AsMap(tail) == params + AsMap(ps);
      }
  }

  lemma RepeatsShift(ps: seq<Pair>, j: nat)
    requires j + 1 < |ps|
    ensures Repeats(ps, j + 1) <==> ps[j + 1].0 == ps[0].0 || Repeats(ps[1..], j)
  {
    var tail := ps[1..];
    if Repeats(ps, j + 1) {
      var k :| 0 <= k < j + 1 && ps[k].0 == ps[j + 1].0;
      assert k > 0 ==> tail[k - 1].0 == tail[j].0;
    }
    if Repeats(tail, j) {
      var k :| 0 <= k < j && tail[k].0 == tail[j].0;
      assert ps[k + 1].0 == ps[j + 1].0;
    }
  }

  ghost predicate NamesDiffer(ps: seq<Pair>) {
    forall i | 0 <= i < |ps| :: !Repeats(ps, i)
  }

  /** The scan succeeds exactly when no two of the pairs it reads have one name, and then returns them;
      else it names the first that repeats another. */
  lemma ScanExactly(blank: char -> bool, s: string)
    ensures var ps := Pairs(blank, s);
            && (Scan(blank, s, map[]).Ok? <==> NamesDiffer(ps))
            && (NamesDiffer(ps) ==> Scan(blank, s, map[]) == Ok(AsMap(ps)))
            && (forall i | 0 <= i < |ps| && Repeats(ps, i) && (forall j | 0 <= j < i :: !Repeats(ps, j)) ::
                  Scan(blank, s, map[]) == Err(Duplicate(ps[i].0)))
  {
    hide Scan, NextRound, Pairs, AsMap;
    var ps := Pairs(blank, s);
    forall i | 0 <= i < |ps| && Repeats(ps, i) && (forall j | 0 <= j < i :: !Repeats(ps, j))
      ensures Scan(blank, s, map[]) == Err(Duplicate(ps[i].0))
    {
      ScanFrom(blank, s, map[], i);
    }
    if NamesDiffer(ps) {
      ScanFrom(blank, s, map[], |ps|);
      assert map[] + AsMap(ps) == AsMap(ps);
    } else {
      var i := FirstRepeat(ps, 0);
    }
  }

  lemma FirstRepeat(ps: seq<Pair>, from: nat) returns (i: nat)
    requires from <= |ps| && !NamesDiffer(ps) && forall j | 0 <= j < from :: !Repeats(ps, j)
    ensures i < |ps| && Repeats(ps, i) && forall j | 0 <= j < i :: !Repeats(ps, j)
    decreases |ps| - from
  {
    if from < |ps| && Repeats(ps, from) {
      i := from;
    } else {
      i := FirstRepeat(ps, from + 1);
    }
  }

  // ---------- Quoted values ----------

  /** `text` spells `value` inside quotes: a backslash may stand before any character, and must stand
      before a quote or a backslash. */
  predicate Spells(text: string, value: string) {
    if value == "" then text == ""
    else if text != "" && text[0] == '\\' then |text| > 1 && text[1] == value[0] && Spells(text[2..], value[1..])
    else text != "" && text[0] == value[0] && value[0] != '"' && Spells(text[1..], value[1..])
  }

  lemma {:induction false} EscapeSpells(value: string)
    ensures Spells(Escape(value), value)
  {
    if value == "" {
    } else {
      EscapeStep(value);
      EscapeSpells(value[1..]);
      assert Escape(value)[|EscapedChar(value[0])|..] == Escape(value[1..]);
    }
  }

  /** One character of a spelling is one step of the reader, whatever follows the spelling. */
  lemma QuotedStep(text: string, value: string, after: string)
    requires Spells(text, value) && value != ""
    ensures var n := if text[0] == '\\' then 2 else 1;
            && n <= |text| && Spells(text[n..], value[1..])
            && Quoted(text + after) ==
               ([value[0]] + Quoted(text[n..] + after).0, Quoted(text[n..] + after).1)
  {
    var n := if text[0] == '\\' then 2 else 1;
    assert (text + after)[n..] == text[n..] + after;
  }

  /** However it is spelled, the value is read up to the closing quote. */
  lemma {:induction false} QuotedOfSpelling(text: string, value: string, rest: string)
    requires Spells(text, value)
    ensures Quoted(text + ("\"" + rest)) == (value, rest)
    decreases |text|
  {
    if value == "" {
      assert text + ("\"" + rest) == "\"" + rest && ("\"" + rest)[1..] == rest;
    } else {
      hide Quoted, Spells;
      QuotedStep(text, value, "\"" + rest);
      QuotedOfSpelling(text[if text[0] == '\\' then 2 else 1..], value[1..], rest);
      assert value == [value[0]] + value[1..];
    }
  }

  /** Without a closing quote it is read to the end. */
  lemma {:induction false} QuotedOpen(text: string, value: string)
    requires Spells(text, value)
    ensures Quoted(text) == (value, "")
    decreases |text|
  {
    if value == "" {
    } else {
      hide Quoted, Spells;
      QuotedStep(text, value, "");
      var n := if text[0] == '\\' then 2 else 1;
      QuotedOpen(text[n..], value[1..]);
      assert text + "" == text && text[n..] + "" == text[n..];
      assert value == [value[0]] + value[1..];
    }
  }

  /** There a last lone backslash stands for itself. */
  lemma {:induction false} LoneBackslash(text: string, value: string)
    requires Spells(text, value)
    ensures Quoted(text + "\\") == (value + "\\", "")
    decreases |text|
  {
    if value == "" {
      assert text + "\\" == "\\" && "\\"[1..] == "" && ['\\'] + "" == "\\" && value + "\\" == "\\";
    } else {
      hide Quoted, Spells;
      QuotedStep(text, value, "\\");
      LoneBackslash(text[if text[0] == '\\' then 2 else 1..], value[1..]);
      assert value + "\\" == [value[0]] + (value[1..] + "\\");
    }
  }

  // ---------- Lists ----------

  /** What may stand in a list: a parameter with a quoted value, one with a bare value, or a word. */
  datatype Item =
    | InQuotes(key: string, spelling: string, value: string)
    | Bare(key: string, value: string)
    | Word(text: string)

  ghost predicate IsKey(blank: char -> bool, key: string) {
    key != "" && key[0] != ',' && forall k | 0 <= k < |key| :: !blank(key[k]) && key[k] != '='
  }

  ghost predicate Proper(blank: char -> bool, item: Item) {
    match item
    case InQuotes(key, spelling, value) => IsKey(blank, key) && Spells(spelling, value)
    case Bare(key, value) =>
      IsKey(blank, key) && value != "" && value[0] != '"' && forall k | 0 <= k < |value| :: !Gap(blank)(value[k])
    case Word(text) => IsKey(blank, text)
  }

  function ItemText(item: Item): string {
    match item
    case InQuotes(key, spelling, _) => key + "=" + ("\"" + spelling + "\"")
    case Bare(key, value) => key + "=" + value
    case Word(text) => text
  }

  /** What must follow an item for it to end there: anything after a closing quote, a blank or a comma
      after a bare value, a blank after a word; or the end. */
  ghost predicate EndsBefore(blank: char -> bool, item: Item, tail: string) {
    tail != "" ==>
      match item
      case InQuotes(_, _, _) => true
      case Bare(_, _) => Gap(blank)(tail[0])
      case Word(_) => blank(tail[0])
  }

  function RoundOf(item: Item, tail: string): Round {
    match item
    case InQuotes(key, _, value) => Read(key, value, tail)
    case Bare(key, value) => Read(key, value, tail)
    case Word(_) => Skipped(tail)
  }

  ghost predicate IsGap(blank: char -> bool, gap: string) {
    forall k | 0 <= k < |gap| :: Gap(blank)(gap[k])
  }

  lemma GapSkipped(blank: char -> bool, gap: string, s: string)
    requires IsGap(blank, gap) && (s != "" ==> NoGap(blank)(s[0]))
    ensures SkipGap(blank, gap + s) == s
  {
    hide First;
    assert (gap + s)[|gap|..] == s;
    FirstAt(gap + s, NoGap(blank), |gap|);
  }

  lemma KeyEndAt(blank: char -> bool, key: string, after: string)
    requires IsKey(blank, key) && (after != "" ==> EqualsOrBlank(blank)(after[0]))
    ensures KeyEnd(blank, key + after) == |key|
  {
    hide First;
    FirstAt(key + after, EqualsOrBlank(blank), |key|);
  }

  lemma BareEnds(blank: char -> bool, value: string, tail: string)
    requires (forall k | 0 <= k < |value| :: !Gap(blank)(value[k])) && (tail != "" ==> Gap(blank)(tail[0]))
    ensures FirstGap(blank, value + tail) == |value|
  {
    hide First;
    FirstAt(value + tail, Gap(blank), |value|);
  }

  lemma ParamRound(blank: char -> bool, key: string, after: string, value: string, tail: string)
    requires IsKey(blank, key) && !blank('=') && after != "" && ReadValue(blank, after) == (value, tail)
    ensures RoundAt(blank, key + "=" + after) == Read(key, value, tail)
  {
    hide First, ReadValue;
    var text := key + "=" + after;
    assert text == key + ("=" + after);
    KeyEndAt(blank, key, "=" + after);
    assert text[|key|] == '=' && text[..|key|] == key && text[|key| + 1..] == after;
  }

  /** One item is one round of the scanner. */
  lemma RoundOfItem(blank: char -> bool, item: Item, tail: string)
    requires !blank('=') && Proper(blank, item) && EndsBefore(blank, item, tail)
    ensures var text := ItemText(item) + tail;
            text != "" && NoGap(blank)(text[0]) && RoundAt(blank, text) == RoundOf(item, tail)
  {
    hide First, Quoted, Spells, RoundAt;
    match item
    case InQuotes(key, spelling, value) =>
      var after := "\"" + spelling + "\"" + tail;
      assert ItemText(item) + tail == key + "=" + after;
      QuotedOfSpelling(spelling, value, tail);
      assert after[1..] == spelling + ("\"" + tail);
      ParamRound(blank, key, after, value, tail);
    case Bare(key, value) =>
      var after := value + tail;
      assert ItemText(item) + tail == key + "=" + after;
      BareEnds(blank, value, tail);
      assert after[..|value|] == value && after[|value|..] == tail;
      ParamRound(blank, key, after, value, tail);
    case Word(text) => WordRound(blank, text, tail);
  }

  lemma WordRound(blank: char -> bool, text: string, tail: string)
    requires IsKey(blank, text) && (tail != "" ==> blank(tail[0])) && !blank('=')
    ensures RoundAt(blank, text + tail) == Skipped(tail)
  {
    hide First;
    var s := text + tail;
    KeyEndAt(blank, text, tail);
    assert s[|text|..] == tail;
    FirstAt(tail, Gap(blank), 0);
    assert tail[0..] == tail;
  }

  /** A list: every item with the gap after it. */
  function Written(items: seq<(Item, string)>): string {
    if items == [] then "" else ItemText(items[0].0) + items[0].1 + Written(items[1..])
  }

  ghost predicate ProperList(blank: char -> bool, items: seq<(Item, string)>) {
    items != [] ==>
      && Proper(blank, items[0].0) && IsGap(blank, items[0].1)
      && EndsBefore(blank, items[0].0, items[0].1 + Written(items[1..]))
      && ProperList(blank, items[1..])
  }

  function PairsOf(items: seq<(Item, string)>): seq<Pair> {
    if items == [] then []
    else
      var rest := PairsOf(items[1..]);
      match items[0].0
      case InQuotes(key, _, value) => [(key, value)] + rest
      case Bare(key, value) => [(key, value)] + rest
      case Word(_) => rest
  }

  lemma StartsPlain(blank: char -> bool, items: seq<(Item, string)>)
    requires !blank('=') && ProperList(blank, items)
    ensures Written(items) != "" ==> NoGap(blank)(Written(items)[0])
    ensures items == [] <==> Written(items) == ""
  {
    hide RoundAt;
    if items != [] {
      var tail := items[0].1 + Written(items[1..]);
      RoundOfItem(blank, items[0].0, tail);
      assert Written(items) == ItemText(items[0].0) + tail;
    }
  }

  /** The scanner reads the parameters of a list, quoted and bare, in order, whatever gaps separate them
      and whatever words stand between them. */
  lemma {:induction false} PairsOfList(blank: char -> bool, gap: string, items: seq<(Item, string)>)
    requires !blank('=') && IsGap(blank, gap) && ProperList(blank, items)
    ensures Pairs(blank, gap + Written(items)) == PairsOf(items)
    decreases |items|
  {
    hide RoundAt, SkipGap, IsGap, Proper, EndsBefore;
    StartsPlain(blank, items);
    GapSkipped(blank, gap, Written(items));
    if items == [] {
    } else {
      var tail := items[0].1 + Written(items[1..]);
      RoundOfItem(blank, items[0].0, tail);
      assert Written(items) == ItemText(items[0].0) + tail;
      PairsOfList(blank, items[0].1, items[1..]);
    }
  }

  /** A last name with an equals sign and nothing after it is dropped. */
  lemma LastNameDropped(blank: char -> bool, gap: string, key: string)
    requires !blank('=') && IsGap(blank, gap) && IsKey(blank, key)
    ensures Pairs(blank, gap + (key + "=")) == []
  {
    hide First;
    GapSkipped(blank, gap, key + "=");
    KeyEndAt(blank, key, "=");
  }

  /** A last value without its closing quote is read to the end of the text. */
  lemma LastQuoteOpen(blank: char -> bool, gap: string, key: string, spelling: string, value: string)
    requires !blank('=') && IsGap(blank, gap) && IsKey(blank, key) && Spells(spelling, value)
    ensures Pairs(blank, gap + (key + "=" + ("\"" + spelling))) == [(key, value)]
  {
    hide First, Quoted, RoundAt, SkipGap, IsGap;
    var after := "\"" + spelling;
    QuotedOpen(spelling, value);
    assert after[1..] == spelling;
    ParamRound(blank, key, after, value, "");
    GapSkipped(blank, gap, key + "=" + after);
    NothingLeft(blank);
  }

  lemma NothingLeft(blank: char -> bool)
    ensures Pairs(blank, "") == []
  {
  }

  // ---------- Printed lists ----------

  function Items(ps: seq<Pair>): seq<(Item, string)> {
    if ps == [] then []
    else
      [(InQuotes(ps[0].0, Escape(ps[0].1), ps[0].1), if |ps| == 1 then "" else ", ")] + Items(ps[1..])
  }

  lemma NameIsKey(blank: char -> bool, name: string)
    requires Sensible(blank) && IsName(name)
    ensures IsKey(blank, name)
  {
    assert forall k | 0 <= k < |name| :: IsLowerLetter(name[k]);
  }

  lemma {:induction false} PrintedIsProper(blank: char -> bool, ps: seq<Pair>)
    requires Sensible(blank) && forall i | 0 <= i < |ps| :: IsName(ps[i].0)
    ensures ProperList(blank, Items(ps)) && PairsOf(Items(ps)) == ps
  {
    hide Escape, Spells, Written, IsKey, IsName;
    if ps == [] {
    } else {
      PrintedIsProper(blank, ps[1..]);
      EscapeSpells(ps[0].1);
      NameIsKey(blank, ps[0].0);
      assert Items(ps)[1..] == Items(ps[1..]);
      assert [ps[0]] + ps[1..] == ps;
    }
  }

  lemma {:induction false} PrintedIsWritten(ps: seq<Pair>)
    ensures Written(Items(ps)) == Joined(ps)
  {
    hide Escape;
    if ps == [] {
    } else {
      PrintedIsWritten(ps[1..]);
      assert Items(ps)[1..] == Items(ps[1..]);
      assert ItemText(Items(ps)[0].0) == Param(ps[0]);
    }
  }

  /** A printed list, repeated names included, reads as its pairs, so it is refused exactly when a name
      is repeated. */
  lemma PrintedRepeats(blank: char -> bool, ps: seq<Pair>)
    requires Sensible(blank) && forall i | 0 <= i < |ps| :: IsName(ps[i].0)
    ensures Pairs(blank, Joined(ps)) == ps
    ensures Scan(blank, Joined(ps), map[]).Ok? <==> NamesDiffer(ps)
  {
    hide Scan, Pairs, Joined, Written, ProperList, Items, PairsOf;
    PrintedIsProper(blank, ps);
    PrintedIsWritten(ps);
    PairsOfList(blank, "", Items(ps));
    assert "" + Joined(ps) == Joined(ps);
    ScanExactly(blank, Joined(ps));
  }
}
