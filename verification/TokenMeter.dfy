/** Pay-per-token accounting of the streaming server: vouchers are accepted by the request handler,
    settled in the background and corrected when a stream ends short. */
module TokenMeter {
  import opened Text
  import opened Voucher

  const TWO_32: nat := 0x1_0000_0000
  const SETTLE_EVERY: nat := 5

  type U32 = n: nat | n < TWO_32

  datatype ChannelSession = ChannelSession(
    authorizedPubkey: Bytes,
    highest: U64,
    highestSignature: Bytes,
    tokensDelivered: U64,
    voucherCount: U32,
    settled: U64,
    settleTxs: seq<string>)

  datatype ChatAnswer =
    | MustIncrease(highest: U64)
    | PubkeyNot32Bytes
    | BadSignature
    | DeltaTooSmall
    | Streaming(bought: U64, offset: U64, settle: bool)

  datatype CloseAnswer = NotFound | NothingToSettle | Closing(amount: U64, signature: Bytes, refund: U64)

  function NewSession(pubkey: Option<string>): (s: ChannelSession)
    ensures s == ChannelSession(s.authorizedPubkey, 0, [], 0, 0, 0, [])
    ensures pubkey.Some? && ParseHexBytes(pubkey.value).Some? ==>
              Some(s.authorizedPubkey) == ParseHexBytes(pubkey.value)
    ensures pubkey.None? || ParseHexBytes(pubkey.value).None? ==> s.authorizedPubkey == []
  {
    var key := if pubkey.Some? then ParseHexBytes(pubkey.value) else Some([]);
    ChannelSession(if key.Some? then key.value else [], 0, [], 0, 0, 0, [])
  }

  /** How many whole tokens a payment buys. */
  function TokensFor(delta: U64, price: U64): U64
    requires price > 0
  {
    delta / price
  }

  /** What a payment leaves over after its whole tokens. */
  function Leftover(delta: U64, price: U64): nat
    requires price > 0
  {
    delta % price
  }

  function Cost(price: nat, tokens: nat): nat {
    price * tokens
  }

  lemma MulAtLeast(q: nat, p: nat)
    requires q >= 1
    ensures q * p >= p
  {
    assert q * p == (q - 1) * p + p;
  }

  /** A voucher for `cumulative`, from a session that exists by now. Machine sums wrap. */
  function Accept(c: Ed25519, price: U64, id: Bytes, s: ChannelSession, cumulative: U64, signature: Bytes):
      (ChannelSession, ChatAnswer)
    requires price > 0
  {
    if cumulative <= s.highest then (s, MustIncrease(s.highest))
    else if |s.authorizedPubkey| != 32 then (s, PubkeyNot32Bytes)
    else if !VerifyVoucher(c, id, cumulative, signature, s.authorizedPubkey, s.authorizedPubkey) then (s, BadSignature)
    else
      var bought := TokensFor(cumulative - s.highest, price);
      var s' := s.(highest := cumulative,
                   highestSignature := signature,
                   voucherCount := (s.voucherCount + 1) % TWO_32,
                   tokensDelivered := (s.tokensDelivered + bought) % TWO_64);
      if bought == 0 then (s', DeltaTooSmall)
      else
        (s', Streaming(bought, s.tokensDelivered, s'.voucherCount % SETTLE_EVERY == 0 && cumulative > s.settled))
  }

  /** A payment is the cost of its whole tokens and what is left over, which is less than a token. */
  lemma TokensFit(delta: U64, price: U64)
    requires price > 0
    ensures delta == Cost(price, TokensFor(delta, price)) + Leftover(delta, price)
    ensures Leftover(delta, price) < price
    ensures TokensFor(delta, price) == 0 <==> delta < price
  {
    var q := delta / price;
    assert delta == price * q + delta % price;
    if q >= 1 {
      MulAtLeast(q, price);
    }
  }

  /** A voucher the session can take: larger than the last, and signed by its 32-byte key. */
  predicate GoodVoucher(c: Ed25519, id: Bytes, s: ChannelSession, cumulative: U64, signature: Bytes) {
    && cumulative > s.highest && |s.authorizedPubkey| == 32
    && VerifyVoucher(c, id, cumulative, signature, s.authorizedPubkey, s.authorizedPubkey)
  }

  /** What a good voucher changes: everything but the key and the settlements. */
  predicate Taken(price: U64, s: ChannelSession, cumulative: U64, signature: Bytes, after: ChannelSession)
    requires price > 0 && cumulative > s.highest
  {
    && after.highest == cumulative && after.highestSignature == signature
    && after.voucherCount == (s.voucherCount + 1) % TWO_32
    && after.tokensDelivered == (s.tokensDelivered + TokensFor(cumulative - s.highest, price)) % TWO_64
    && after.authorizedPubkey == s.authorizedPubkey && after.settled == s.settled && after.settleTxs == s.settleTxs
  }

  /** A voucher is taken exactly when it is good. It then streams the tokens it pays, after those
      delivered before, exactly when it pays one; every fifth voucher above the settled amount settles.
      Otherwise the session stays and the first failing check answers. */
  lemma AcceptMeans(c: Ed25519, price: U64, id: Bytes, s: ChannelSession, cumulative: U64, signature: Bytes)
    requires price > 0
    ensures var (after, answer) := Accept(c, price, id, s, cumulative, signature);
            if GoodVoucher(c, id, s, cumulative, signature) then
              var delta := cumulative - s.highest;
              && Taken(price, s, cumulative, signature, after)
              && (delta < price ==> answer == DeltaTooSmall)
              && (delta >= price ==>
                    && answer.Streaming? && answer.bought == TokensFor(delta, price)
                    && answer.offset == s.tokensDelivered
                    && (answer.settle <==> after.voucherCount % 5 == 0 && cumulative > s.settled))
            else
              && after == s
              && answer == if cumulative <= s.highest then MustIncrease(s.highest)
                           else if |s.authorizedPubkey| != 32 then PubkeyNot32Bytes else BadSignature
  {
    hide VerifyVoucher, TokensFor, Leftover, Cost;
    if cumulative > s.highest {
      TokensFit(cumulative - s.highest, price);
    }
  }

  function Settled(s: ChannelSession, amount: U64, tx: string): ChannelSession {
    s.(settled := amount, settleTxs := s.settleTxs + [tx])
  }

  function Corrected(s: ChannelSession, bought: U64, streamed: U64): ChannelSession
    requires streamed <= bought
  {
    var overshoot := bought - streamed;
    s.(tokensDelivered := if s.tokensDelivered >= overshoot then s.tokensDelivered - overshoot else 0)
  }

  function CloseOf(price: U64, s: ChannelSession): CloseAnswer {
    if s.highest == 0 then NothingToSettle
    else
      var fair := (s.tokensDelivered * price) % TWO_64;
      var amount := if fair < s.highest then fair else s.highest;
      Closing(amount, s.highestSignature, s.highest - amount)
  }

  // ---------- The server ----------

  class ChatServer {
    var channels: map<string, ChannelSession>
    const price: U64
    const scheme: Ed25519

    constructor (price: U64, scheme: Ed25519)
      ensures channels == map[] && this.price == price && this.scheme == scheme
    {
      channels := map[];
      this.price, this.scheme := price, scheme;
    }

    /** Any request about a channel creates its session, whatever becomes of the voucher. */
    method Chat(channelId: string, id: Bytes, cumulative: U64, signature: Bytes, pubkey: Option<string>)
      returns (answer: ChatAnswer)
      requires price > 0
      modifies this
      ensures var before := if channelId in old(channels) then old(channels)[channelId] else NewSession(pubkey);
              var (after, reply) := Accept(scheme, price, id, before, cumulative, signature);
              channels == old(channels)[channelId := after] && answer == reply
      ensures var before := if channelId in old(channels) then old(channels)[channelId] else NewSession(pubkey);
              && channels == old(channels)[channelId := channels[channelId]]
              && (GoodVoucher(scheme, id, before, cumulative, signature) ==>
                    && Taken(price, before, cumulative, signature, channels[channelId])
                    && (cumulative - before.highest < price <==> answer == DeltaTooSmall)
                    && (cumulative - before.highest >= price <==> answer.Streaming?)
                    && (answer.Streaming? ==> answer.bought == TokensFor(cumulative - before.highest, price)))
              && (!GoodVoucher(scheme, id, before, cumulative, signature) ==>
                    && channels[channelId] == before
                    && !answer.DeltaTooSmall? && !answer.Streaming?)
    {
      hide VerifyVoucher, NewSession, TokensFor;
      AcceptMeans(scheme, price, id, if channelId in channels then channels[channelId] else NewSession(pubkey),
                  cumulative, signature);
      if channelId !in channels {
        channels := channels[channelId := NewSession(pubkey)];
      }
      var session := channels[channelId];
      if cumulative <= session.highest {
        return MustIncrease(session.highest);
      }
      if |session.authorizedPubkey| != 32 {
        return PubkeyNot32Bytes;
      }
      if !VerifyVoucher(scheme, id, cumulative, signature, session.authorizedPubkey, session.authorizedPubkey) {
        return BadSignature;
      }
      var delta := cumulative - session.highest;
      var tokensBought := TokensFor(delta, price);
      session := session.(highest := cumulative, highestSignature := signature);
      session := session.(voucherCount := (session.voucherCount + 1) % TWO_32);
      var tokenOffset := session.tokensDelivered;
      session := session.(tokensDelivered := (session.tokensDelivered + tokensBought) % TWO_64);
      channels := channels[channelId := session];
      var shouldSettle := session.voucherCount % SETTLE_EVERY == 0;
      if tokensBought == 0 {
        return DeltaTooSmall;
      }
      return Streaming(tokensBought, tokenOffset, shouldSettle && cumulative > session.settled);
    }

    method SettleLanded(channelId: string, amount: U64, tx: string)
      modifies this
      ensures channels == if channelId in old(channels)
                          then old(channels)[channelId := Settled(old(channels)[channelId], amount, tx)]
                          else old(channels)
      ensures channelId in old(channels) ==>
                channels == old(channels)[channelId :=
                              old(channels)[channelId].(settled := amount,
                                                        settleTxs := old(channels)[channelId].settleTxs + [tx])]
    {
      if channelId in channels {
        var session := channels[channelId];
        session := session.(settled := amount);
        session := session.(settleTxs := session.settleTxs + [tx]);
        channels := channels[channelId := session];
      }
    }

    method StreamEnded(channelId: string, bought: U64, streamed: U64)
      requires streamed <= bought
      modifies this
      ensures channels == if channelId in old(channels)
                          then old(channels)[channelId := Corrected(old(channels)[channelId], bought, streamed)]
                          else old(channels)
      ensures channelId in old(channels) ==>
                && channelId in channels
                && var before, after := old(channels)[channelId], channels[channelId];
                   && after == before.(tokensDelivered := after.tokensDelivered)
                   && (before.tokensDelivered >= bought - streamed ==>
                         after.tokensDelivered + bought == before.tokensDelivered + streamed)
                   && (before.tokensDelivered < bought - streamed ==> after.tokensDelivered == 0)
    {
      if channelId in channels {
        var overshoot := bought - streamed;
        var session := channels[channelId];
        if overshoot > 0 {
          channels := channels[channelId := session.(tokensDelivered :=
            if session.tokensDelivered >= overshoot then session.tokensDelivered - overshoot else 0)];
        }
      }
    }

    method CloseChannel(channelId: string) returns (answer: CloseAnswer)
      ensures answer == if channelId in channels then CloseOf(price, channels[channelId]) else NotFound
      ensures answer == NotFound <==> channelId !in channels
      ensures channelId in channels ==>
                var s := channels[channelId];
                && (answer == NothingToSettle <==> s.highest == 0)
                && (s.highest > 0 ==>
                      && answer.Closing? && answer.signature == s.highestSignature
                      && answer.amount + answer.refund == s.highest
                      && answer.amount <= (s.tokensDelivered * price) % TWO_64
                      && (answer.amount == s.highest || answer.amount == (s.tokensDelivered * price) % TWO_64))
    {
      if channelId !in channels {
        return NotFound;
      }
      var session := channels[channelId];
      if session.highest == 0 {
        return NothingToSettle;
      }
      var fair: U64 := (session.tokensDelivered * price) % TWO_64;
      var amount := if fair < session.highest then fair else session.highest;
      return Closing(amount, session.highestSignature, session.highest - amount);
    }
  }

  // ---------- One channel under concurrency ----------

  datatype Stream = Stream(bought: U64, streamed: U64)

  datatype Settle = Settle(amount: U64, signature: Bytes)

  /** The session with the tasks in flight. `finished` and `corrected` total the tokens that ended
      streams handed out and gave back; `dust` totals what vouchers paid beyond whole tokens. A
      stream whose client went away stays in flight for ever. */
  datatype Meter = Meter(
    session: ChannelSession,
    settles: seq<Settle>,
    streams: seq<Stream>,
    finished: nat,
    corrected: nat,
    dust: nat)

  datatype Event =
    | VoucherArrives(cumulative: U64, signature: Bytes)
    | TokenSent(i: nat)
    | StreamEnds(i: nat)
    | SettleEnds(i: nat, tx: Option<string>)

  function Without<T>(s: seq<T>, i: nat): seq<T>
    requires i < |s|
  {
    s[..i] + s[i + 1..]
  }

  function Step(c: Ed25519, price: U64, id: Bytes, m: Meter, e: Event): Meter
    requires price > 0
  {
    match e
    case VoucherArrives(cumulative, signature) =>
      var (s, answer) := Accept(c, price, id, m.session, cumulative, signature);
      if s == m.session then m
      else
        m.(session := s,
           dust := m.dust + Leftover(cumulative - m.session.highest, price),
           streams := if answer.Streaming? then m.streams + [Stream(answer.bought, 0)] else m.streams,
           settles := if answer.Streaming? && answer.settle
                      then m.settles + [Settle(cumulative, signature)] else m.settles)
    case TokenSent(i) =>
      if i < |m.streams| && m.streams[i].streamed < m.streams[i].bought
      then m.(streams := m.streams[i := m.streams[i].(streamed := m.streams[i].streamed + 1)])
      else m
    case StreamEnds(i) =>
      if i < |m.streams| && m.streams[i].streamed <= m.streams[i].bought then
        var t := m.streams[i];
        m.(session := Corrected(m.session, t.bought, t.streamed),
           streams := Without(m.streams, i),
           finished := m.finished + t.streamed,
           corrected := m.corrected + (t.bought - t.streamed))
      else m
    case SettleEnds(i, tx) =>
      if i < |m.settles| then
        m.(session := if tx.Some? then Settled(m.session, m.settles[i].amount, tx.value) else m.session,
           settles := Without(m.settles, i))
      else m
  }

  function Run(c: Ed25519, price: U64, id: Bytes, m: Meter, es: seq<Event>): Meter
    requires price > 0
  {
    if es == [] then m else Step(c, price, id, Run(c, price, id, m, es[..|es| - 1]), es[|es| - 1])
  }

  function Start(pubkey: Option<string>): Meter {
    Meter(NewSession(pubkey), [], [], 0, 0, 0)
  }

  // ---------- The books ----------

  function Bought(streams: seq<Stream>): nat {
    if streams == [] then 0 else Bought(streams[..|streams| - 1]) + streams[|streams| - 1].bought
  }

  function Sent(streams: seq<Stream>): nat {
    if streams == [] then 0 else Sent(streams[..|streams| - 1]) + streams[|streams| - 1].streamed
  }

  lemma {:induction false} Totals(a: seq<Stream>, b: seq<Stream>)
    ensures Bought(a + b) == Bought(a) + Bought(b) && Sent(a + b) == Sent(a) + Sent(b)
  {
    if b == [] {
      assert a + b == a;
    } else {
      Totals(a, b[..|b| - 1]);
      assert (a + b)[..|a + b| - 1] == a + b[..|b| - 1];
    }
  }

  lemma TotalsOne(t: Stream)
    ensures Bought([t]) == t.bought && Sent([t]) == t.streamed
  {
    assert [t][..0] == [];
  }

  /** Taking one stream out of the totals. */
  lemma TotalsSplit(streams: seq<Stream>, i: nat)
    requires i < |streams|
    ensures Bought(streams) == Bought(Without(streams, i)) + streams[i].bought
    ensures Sent(streams) == Sent(Without(streams, i)) + streams[i].streamed
  {
    hide Bought, Sent;
    var t := streams[i];
    assert streams == streams[..i] + ([t] + streams[i + 1..]);
    Totals(streams[..i], [t] + streams[i + 1..]);
    Totals([t], streams[i + 1..]);
    TotalsOne(t);
    Totals(streams[..i], streams[i + 1..]);
  }

  ghost predicate Signed(c: Ed25519, id: Bytes, s: ChannelSession, amount: U64, signature: Bytes) {
    VerifyVoucher(c, id, amount, signature, s.authorizedPubkey, s.authorizedPubkey)
  }

  /** Every paid unit is accounted for: delivered tokens are those handed out and those still in
      flight, and the highest amount is their price, what was given back and the dust. */
  ghost predicate Balanced(price: U64, m: Meter) {
    && m.session.tokensDelivered == m.finished + Bought(m.streams)
    && m.session.highest == Cost(price, m.session.tokensDelivered + m.corrected) + m.dust
    && (forall i | 0 <= i < |m.streams| :: m.streams[i].streamed <= m.streams[i].bought)
  }

  /** Every recorded amount, in the session or in flight, is signed and not above the highest. */
  ghost predicate Backed(c: Ed25519, id: Bytes, m: Meter) {
    && m.session.settled <= m.session.highest
    && (m.session.highest > 0 ==> Signed(c, id, m.session, m.session.highest, m.session.highestSignature))
    && (forall i | 0 <= i < |m.settles| ::
          && m.settles[i].amount <= m.session.highest
          && Signed(c, id, m.session, m.settles[i].amount, m.settles[i].signature))
  }

  /** A count whose price the highest amount covers fits the machine word. */
  lemma CountFits(price: U64, count: nat)
    requires price > 0
    ensures count <= Cost(price, count)
  {
    assert price * count == (price - 1) * count + count;
  }

  lemma CostAdds(price: nat, a: nat, b: nat)
    ensures Cost(price, a + b) == Cost(price, a) + Cost(price, b)
  {
  }

  /** An accepted voucher: the sum of tokens does not wrap. */
  lemma Accepts(c: Ed25519, price: U64, id: Bytes, s: ChannelSession, cumulative: U64, signature: Bytes,
                corrected: nat, dust: nat)
    requires price > 0 && s.highest == Cost(price, s.tokensDelivered + corrected) + dust
    requires Accept(c, price, id, s, cumulative, signature).0 != s
    ensures var (s', answer) := Accept(c, price, id, s, cumulative, signature);
            && cumulative > s.highest
            && var bought := TokensFor(cumulative - s.highest, price);
               && s'.tokensDelivered == s.tokensDelivered + bought
               && s' == s.(highest := cumulative, highestSignature := signature, voucherCount := s'.voucherCount,
                           tokensDelivered := s'.tokensDelivered)
               && (if bought == 0 then answer == DeltaTooSmall
                   else answer.Streaming? && answer.bought == bought)
               && (answer.Streaming? ==> (answer.settle <==> s'.voucherCount % 5 == 0 && cumulative > s.settled))
               && cumulative == Cost(price, s'.tokensDelivered + corrected)
                                + (dust + Leftover(cumulative - s.highest, price))
               && Signed(c, id, s, cumulative, signature)
  {
    hide VerifyVoucher, TokensFor, Leftover, Cost, Accept;
    AcceptMeans(c, price, id, s, cumulative, signature);
    var delta := cumulative - s.highest;
    var bought := TokensFor(delta, price);
    TokensFit(delta, price);
    CostAdds(price, s.tokensDelivered + corrected, bought);
    CountFits(price, s.tokensDelivered + corrected + bought);
    assert s.tokensDelivered + corrected + bought == s.tokensDelivered + bought + corrected;
  }

  lemma VoucherBalanced(c: Ed25519, price: U64, id: Bytes, m: Meter, cumulative: U64, signature: Bytes)
    requires price > 0 && Balanced(price, m)
    ensures Balanced(price, Step(c, price, id, m, VoucherArrives(cumulative, signature)))
  {
    hide VerifyVoucher, Accept, Signed, Cost, Leftover, TokensFor;
    var s := m.session;
    if Accept(c, price, id, s, cumulative, signature).0 != s {
      Accepts(c, price, id, s, cumulative, signature, m.corrected, m.dust);
      var bought := TokensFor(cumulative - s.highest, price);
      Totals(m.streams, [Stream(bought, 0)]);
      TotalsOne(Stream(bought, 0));
    }
  }

  lemma TokenBalanced(c: Ed25519, price: U64, id: Bytes, m: Meter, i: nat)
    requires price > 0 && Balanced(price, m)
    ensures Balanced(price, Step(c, price, id, m, TokenSent(i)))
  {
    hide VerifyVoucher, Accept, Corrected, Cost, Leftover;
    if i < |m.streams| && m.streams[i].streamed < m.streams[i].bought {
      var streams := Step(c, price, id, m, TokenSent(i)).streams;
      TotalsSplit(m.streams, i);
      TotalsSplit(streams, i);
      assert Without(streams, i) == Without(m.streams, i);
    }
  }

  lemma EndBalanced(c: Ed25519, price: U64, id: Bytes, m: Meter, i: nat)
    requires price > 0 && Balanced(price, m)
    ensures Balanced(price, Step(c, price, id, m, StreamEnds(i)))
  {
    hide VerifyVoucher, Accept, Cost, Leftover;
    if i < |m.streams| {
      TotalsSplit(m.streams, i);
    }
  }

  lemma StepBalanced(c: Ed25519, price: U64, id: Bytes, m: Meter, e: Event)
    requires price > 0 && Balanced(price, m)
    ensures Balanced(price, Step(c, price, id, m, e))
  {
    hide VerifyVoucher, Accept, Corrected, Cost, Leftover;
    match e
    case VoucherArrives(cumulative, signature) => VoucherBalanced(c, price, id, m, cumulative, signature);
    case TokenSent(i) => TokenBalanced(c, price, id, m, i);
    case StreamEnds(i) => EndBalanced(c, price, id, m, i);
    case SettleEnds(i, tx) =>
  }

  lemma StepBacked(c: Ed25519, price: U64, id: Bytes, m: Meter, e: Event)
    requires price > 0 && Balanced(price, m) && Backed(c, id, m)
    ensures Backed(c, id, Step(c, price, id, m, e))
  {
    hide VerifyVoucher, Accept, Cost, Leftover, TokensFor;
    if e.VoucherArrives? && Accept(c, price, id, m.session, e.cumulative, e.signature).0 != m.session {
      Accepts(c, price, id, m.session, e.cumulative, e.signature, m.corrected, m.dust);
    }
  }

  /** The books hold over every run, so no sum wraps and no correction saturates. */
  lemma {:induction false} RunKeepsBooks(c: Ed25519, price: U64, id: Bytes, pubkey: Option<string>, es: seq<Event>)
    requires price > 0
    ensures var m := Run(c, price, id, Start(pubkey), es);
            Balanced(price, m) && Backed(c, id, m)
  {
    hide Step, VerifyVoucher;
    if es == [] {
    } else {
      var m := Run(c, price, id, Start(pubkey), es[..|es| - 1]);
      RunKeepsBooks(c, price, id, pubkey, es[..|es| - 1]);
      StepBalanced(c, price, id, m, es[|es| - 1]);
      StepBacked(c, price, id, m, es[|es| - 1]);
    }
  }

  // ---------- Closing ----------

  /** The signature covers one amount of the channel only. */
  ghost predicate SignsOneAmount(c: Ed25519, id: Bytes, key: Bytes, signature: Bytes) {
    forall a: U64, b: U64 ::
      VerifyVoucher(c, id, a, signature, key, key) && VerifyVoucher(c, id, b, signature, key, key) ==> a == b
  }

  /** What closing a channel asks for, in every reachable state with a voucher: the price of the
      tokens delivered, in true arithmetic, and a refund of the rest. That is the price of the tokens
      handed out plus those still owed to streams in flight. */
  lemma CloseExact(c: Ed25519, price: U64, id: Bytes, pubkey: Option<string>, es: seq<Event>)
    requires price > 0
    ensures var m := Run(c, price, id, Start(pubkey), es);
            var answer := CloseOf(price, m.session);
            && (answer == NothingToSettle <==> m.session.highest == 0)
            && (answer.Closing? ==>
                  && answer.amount == price * m.session.tokensDelivered
                  && answer.amount == price * (m.finished + Bought(m.streams))
                  && answer.refund == price * m.corrected + m.dust
                  && answer.amount + answer.refund == m.session.highest
                  && price * (m.finished + Sent(m.streams)) <= answer.amount
                  && (m.streams == [] ==> answer.amount == price * m.finished))
  {
    hide Step, VerifyVoucher;
    var m := Run(c, price, id, Start(pubkey), es);
    RunKeepsBooks(c, price, id, pubkey, es);
    if m.session.highest > 0 {
      CloseSums(price, m);
      SentCovered(price, m);
    }
  }

  lemma {:induction false} SentWithinBought(streams: seq<Stream>)
    requires forall i | 0 <= i < |streams| :: streams[i].streamed <= streams[i].bought
    ensures Sent(streams) <= Bought(streams)
  {
    if streams == [] {
    } else {
      SentWithinBought(streams[..|streams| - 1]);
    }
  }

  lemma CloseSums(price: U64, m: Meter)
    requires price > 0 && Balanced(price, m) && m.session.highest > 0
    ensures var answer := CloseOf(price, m.session);
            && answer.amount == Cost(price, m.session.tokensDelivered)
            && answer.refund == Cost(price, m.corrected) + m.dust
  {
    hide Bought, Cost;
    CostAdds(price, m.session.tokensDelivered, m.corrected);
    CostIs(price, m.session.tokensDelivered);
  }

  lemma CostIs(price: nat, tokens: nat)
    ensures tokens * price == price * tokens == Cost(price, tokens)
  {
  }

  lemma SentCovered(price: U64, m: Meter)
    requires price > 0 && Balanced(price, m)
    ensures Cost(price, m.finished + Sent(m.streams)) <= Cost(price, m.session.tokensDelivered)
  {
    hide Cost;
    SentWithinBought(m.streams);
    CostAdds(price, m.finished + Sent(m.streams), Bought(m.streams) - Sent(m.streams));
  }

  /** Closing submits the signature of the highest amount with the amount of the close. The two form
      a verifying pair exactly when there is nothing to refund: no stream ended short and no voucher
      paid for a fraction of a token. */
  lemma ClosePairVerifies(c: Ed25519, price: U64, id: Bytes, pubkey: Option<string>, es: seq<Event>)
    requires price > 0
    requires var m := Run(c, price, id, Start(pubkey), es);
             m.session.highest > 0 && SignsOneAmount(c, id, m.session.authorizedPubkey, m.session.highestSignature)
    ensures var m := Run(c, price, id, Start(pubkey), es);
            var answer := CloseOf(price, m.session);
            Signed(c, id, m.session, answer.amount, answer.signature) <==> m.corrected == 0 && m.dust == 0
  {
    hide Step, VerifyVoucher;
    var m := Run(c, price, id, Start(pubkey), es);
    RunKeepsBooks(c, price, id, pubkey, es);
    CloseSums(price, m);
  }

  /** A settle is started exactly on every fifth voucher that buys a token: the comparison with what
      was settled before never stops one. */
  lemma SettlesEveryFifth(c: Ed25519, price: U64, id: Bytes, pubkey: Option<string>, es: seq<Event>,
                          cumulative: U64, signature: Bytes)
    requires price > 0
    ensures var m := Run(c, price, id, Start(pubkey), es);
            var (s', answer) := Accept(c, price, id, m.session, cumulative, signature);
            answer.Streaming? ==> (answer.settle <==> s'.voucherCount % 5 == 0)
  {
    hide Step, VerifyVoucher;
    RunKeepsBooks(c, price, id, pubkey, es);
  }
}
