/** The streaming client: cutting the response into events, and paying until the deposit is gone. */
module SseClient {
  import opened Text

  // ---------- Events ----------

  /** Position of the first blank line, that is of two line breaks in a row, or |s|. */
  function FirstBlank(s: string): (k: nat)
    ensures k == |s| || (k + 1 < |s| && s[k] == '\n' && s[k + 1] == '\n')
    ensures forall i | 0 <= i < k && i + 1 < |s| :: !(s[i] == '\n' && s[i + 1] == '\n')
  {
    if |s| < 2 then |s| else if s[0] == '\n' && s[1] == '\n' then 0 else 1 + FirstBlank(s[1..])
  }

  /** The left-to-right split of a whole text: its events and the unfinished rest. */
  function Split(s: string): (seq<string>, string) {
    var k := FirstBlank(s);
    if k == |s| then ([], s)
    else
      var (events, rest) := Split(s[k + 2..]);
      ([s[..k]] + events, rest)
  }

  function Concat(chunks: seq<string>): string {
    if chunks == [] then "" else Concat(chunks[..|chunks| - 1]) + chunks[|chunks| - 1]
  }

  lemma {:induction false} FirstBlankAt(s: string, k: nat)
    requires k + 1 < |s| && s[k] == '\n' && s[k + 1] == '\n'
    requires forall i | 0 <= i < k :: !(s[i] == '\n' && s[i + 1] == '\n')
    ensures FirstBlank(s) == k
  {
    if k == 0 {
    } else {
      FirstBlankAt(s[1..], k - 1);
    }
  }

  /** Splitting a text is splitting its beginning, then the unfinished rest with what follows. */
  lemma {:induction false} SplitResumes(a: string, b: string)
    ensures var (events, rest) := Split(a);
            var (more, last) := Split(rest + b);
            Split(a + b) == (events + more, last)
    decreases |a|
  {
    var k := FirstBlank(a);
    if k < |a| {
      FirstBlankAt(a + b, k);
      assert (a + b)[..k] == a[..k] && (a + b)[k + 2..] == a[k + 2..] + b;
      SplitResumes(a[k + 2..], b);
      var (events, rest) := Split(a[k + 2..]);
      Regroup([a[..k]], events, Split(rest + b).0);
    } else {
      assert [] + Split(a + b).0 == Split(a + b).0;
    }
  }

  /** Takes all finished events off the buffer. */
  method TakeEvents(text: string) returns (events: seq<string>, buffer: string)
    ensures (events, buffer) == Split(text)
  {
    events, buffer := [], text;
    assert [] + Split(text).0 == Split(text).0;
    while FirstBlank(buffer) < |buffer|
      invariant Split(text) == (events + Split(buffer).0, Split(buffer).1)
      decreases |buffer|
    {
      var pos := FirstBlank(buffer);
      Regroup(events, [buffer[..pos]], Split(buffer[pos + 2..]).0);
      events := events + [buffer[..pos]];
      buffer := buffer[pos + 2..];
    }
    assert events + [] == events;
  }

  /** The chunks of a response, each appended to the buffer from which all finished events are taken
      at once: the events are those of the whole text, wherever it was cut. */
  method ReadEvents(chunks: seq<string>) returns (events: seq<string>, buffer: string)
    ensures (events, buffer) == Split(Concat(chunks))
  {
    hide Split, FirstBlank;
    events, buffer := [], "";
    EmptySplit();
    var i := 0;
    while i < |chunks|
      invariant 0 <= i <= |chunks|
      invariant (events, buffer) == Split(Concat(chunks[..i]))
    {
      SplitResumes(Concat(chunks[..i]), chunks[i]);
      assert chunks[..i + 1][..i] == chunks[..i];
      var more;
      more, buffer := TakeEvents(buffer + chunks[i]);
      events := events + more;
      i := i + 1;
    }
    assert chunks[..i] == chunks;
  }

  lemma EmptySplit()
    ensures Split("") == ([], "")
  {
  }

  // ---------- What the split means ----------

  predicate NoBlank(s: string) {
    forall i | 0 <= i < |s| - 1 :: !(s[i] == '\n' && s[i + 1] == '\n')
  }

  /** A text the splitter takes whole: no blank line in it, nor one made with the line break that
      follows it. */
  predicate Whole(event: string) {
    NoBlank(event) && (event != "" ==> event[|event| - 1] != '\n')
  }

  /** The server's framing. */
  function Framed(events: seq<string>, rest: string): string {
    if events == [] then rest else events[0] + "\n\n" + Framed(events[1..], rest)
  }

  lemma HeadIsWhole(text: string)
    ensures FirstBlank(text) == |text| ==> NoBlank(text)
    ensures Whole(text[..FirstBlank(text)]) || FirstBlank(text) == |text|
  {
  }

  lemma {:induction false} FramedOfSplit(text: string)
    ensures text == Framed(Split(text).0, Split(text).1)
    ensures NoBlank(Split(text).1) && forall e | e in Split(text).0 :: Whole(e)
    decreases |text|
  {
    hide FirstBlank, NoBlank, Whole;
    HeadIsWhole(text);
    var k := FirstBlank(text);
    if k < |text| {
      var (events, rest) := Split(text[k + 2..]);
      FramedOfSplit(text[k + 2..]);
      assert ([text[..k]] + events)[1..] == events;
      assert text[k..][..2] == "\n\n";
      assert text == text[..k] + "\n\n" + text[k + 2..];
    }
  }

  lemma FirstEvent(event: string, tail: string)
    requires Whole(event)
    ensures var text := event + "\n\n" + tail;
            FirstBlank(text) == |event| < |text| && text[..|event|] == event && text[|event| + 2..] == tail
  {
    var text := event + "\n\n" + tail;
    assert text[..|event|] == event && text[|event| + 2..] == tail;
    FirstBlankAt(text, |event|);
  }

  lemma NoneLeft(rest: string)
    requires NoBlank(rest)
    ensures FirstBlank(rest) == |rest|
  {
  }

  lemma {:induction false} SplitOfFramed(events: seq<string>, rest: string)
    requires NoBlank(rest) && forall e | e in events :: Whole(e)
    ensures Split(Framed(events, rest)) == (events, rest)
  {
    hide FirstBlank, NoBlank, Whole;
    if events == [] {
      NoneLeft(rest);
    } else {
      assert Whole(events[0]);
      FirstEvent(events[0], Framed(events[1..], rest));
      SplitOfFramed(events[1..], rest);
      assert [events[0]] + events[1..] == events;
    }
  }

  /** The split inverts the server's framing, and nothing else does: a text splits into these events
      and this rest exactly when it is the events, each closed by a blank line, then the rest, with no
      blank line left inside any of them. */
  lemma SplitExactly(text: string, events: seq<string>, rest: string)
    ensures Split(text) == (events, rest) <==>
            text == Framed(events, rest) && NoBlank(rest) && forall e | e in events :: Whole(e)
  {
    FramedOfSplit(text);
    if text == Framed(events, rest) && NoBlank(rest) && forall e | e in events :: Whole(e) {
      SplitOfFramed(events, rest);
    }
  }

  // ---------- Paying ----------

  /** What `vouchers` payments of `delta` amount to. */
  function Total(vouchers: nat, delta: nat): nat {
    vouchers * delta
  }

  lemma TotalGrows(vouchers: nat, delta: nat)
    ensures Total(0, delta) == 0 && Total(vouchers + 1, delta) == Total(vouchers, delta) + delta
  {
  }

  /** The voucher loop: pays `delta` more at a time while the deposit lasts and the server accepts. A
      server takes growing totals only; `accepts` is what it makes of one that grows. The sum wraps at
      2^64. Accepted payments never exceed the deposit; without a refusal they stop only when the next
      one would; and a refusal comes from `accepts` unless the total has wrapped. */
  method PayUntilExhausted(deposit: U64, delta: U64, accepts: U64 -> bool)
    returns (cumulative: U64, vouchers: nat, refused: bool)
    requires delta > 0
    ensures cumulative == Total(vouchers, delta) % TWO_64 && cumulative <= deposit && (refused ==> vouchers > 0)
    ensures !refused ==> cumulative == Total(vouchers, delta) <= deposit < cumulative + delta
    ensures forall i | 0 < i < vouchers :: Total(i, delta) <= deposit && accepts(Total(i, delta))
    ensures !refused && vouchers > 0 ==> accepts(Total(vouchers, delta))
    ensures refused ==> Total(vouchers - 1, delta) <= deposit
                        && (Total(vouchers, delta) >= TWO_64 || !accepts(Total(vouchers, delta)))
  {
    hide Total;
    TotalGrows(0, delta);
    cumulative, vouchers, refused := 0, 0, false;
    while true
      invariant cumulative == Total(vouchers, delta) <= deposit
      invariant forall i | 0 < i <= vouchers :: Total(i, delta) <= deposit && accepts(Total(i, delta))
      decreases deposit - cumulative
    {
      var next := (cumulative + delta) % TWO_64;
      if next > deposit {
        return;
      }
      var held := cumulative;
      TotalGrows(vouchers, delta);
      cumulative := next;
      vouchers := vouchers + 1;
      if next <= held || !accepts(next) {
        refused := true;
        return;
      }
    }
  }
}
