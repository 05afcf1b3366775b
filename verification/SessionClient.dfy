/** The paying side: one running total a channel, signed afresh at every request. */
module SessionClient {
  import opened Text
  import opened Voucher
  import opened SessionMethod

  // ---------- The provider ----------

  datatype ClientError = InvalidAmount | NoRecipient | NoDeposit | OpenFailed

  datatype ChannelEntry = ChannelEntry(
    channelId: Bytes,
    salt: Bytes,
    cumulativeAmount: U64,
    moduleAddress: string,
    isOpen: bool,
    authorizedPubkey: Bytes,
    highestSignature: Bytes)

  type Entries = map<string, ChannelEntry>

  datatype SessionRequest = SessionRequest(
    amount: string,
    recipient: Option<string>,
    currency: string,
    moduleAddress: Option<string>,
    suggestedDeposit: Option<string>)

  /** What the wallet and the chain answer when a channel is opened. */
  datatype Opening = Opening(txHash: string, channelId: Bytes, salt: Bytes)

  /** The signing key, seen from outside: its public half and what it signs. */
  datatype Signer = Signer(publicKey: Bytes, sign: Bytes -> Bytes)

  datatype Limits = Limits(maxDeposit: Option<U64>, defaultDeposit: Option<U64>, defaultModule: string)

  /** A readable suggestion counts up to the cap; without one the cap itself is deposited, and without
      either the default. */
  function ResolveDeposit(limits: Limits, suggested: Option<string>): (r: Result<U64, ClientError>)
    ensures var readable := suggested.Some? && ParseU64(suggested.value).Some?;
            && (r.Err? <==> !readable && limits.maxDeposit.None? && limits.defaultDeposit.None?)
            && (r.Ok? && limits.maxDeposit.Some? ==> r.value <= limits.maxDeposit.value)
            && (r.Ok? && readable ==>
                  && r.value <= ParseU64(suggested.value).value
                  && (r.value == ParseU64(suggested.value).value || Some(r.value) == limits.maxDeposit))
            && (r.Ok? && !readable ==>
                  Some(r.value) == if limits.maxDeposit.Some? then limits.maxDeposit else limits.defaultDeposit)
  {
    var parsed := if suggested.Some? then ParseU64(suggested.value) else None;
    match (parsed, limits.maxDeposit, limits.defaultDeposit)
    case (Some(s), Some(max), _) => Ok(if s <= max then s else max)
    case (Some(s), None, _) => Ok(s)
    case (None, Some(max), _) => Ok(max)
    case (None, None, Some(d)) => Ok(d)
    case (None, None, None) => Err(NoDeposit)
  }

  function EntryKey(payee: string, currency: string, moduleAddress: string): string {
    Lower(payee) + ":" + Lower(currency) + ":" + Lower(moduleAddress)
  }

  /** The module a request is paid under. */
  function ModuleOf(limits: Limits, request: SessionRequest): (m: string)
    ensures request.moduleAddress.Some? ==> m == request.moduleAddress.value
    ensures request.moduleAddress.None? ==> m == limits.defaultModule
  {
    if request.moduleAddress.Some? then request.moduleAddress.value else limits.defaultModule
  }

  function SignedAmount(signer: Signer, channelId: Bytes, amount: U64): Bytes {
    signer.sign(VoucherBytes(channelId, amount))
  }

  function VoucherFor(signer: Signer, channelId: Bytes, total: U64): Payload {
    VoucherPayload(PrintHexBytes(channelId), ToDecimal(total), PrintHexBytes(SignedAmount(signer, channelId, total)))
  }

  function OpenFor(signer: Signer, opening: Opening, amount: U64): Payload {
    Open(opening.txHash, PrintHexBytes(opening.channelId), ToDecimal(amount),
         PrintHexBytes(SignedAmount(signer, opening.channelId, amount)), Some(PrintHexBytes(signer.publicKey)))
  }

  function CloseFor(signer: Signer, channelId: Bytes, total: U64): Payload {
    Close(PrintHexBytes(channelId), ToDecimal(total), PrintHexBytes(SignedAmount(signer, channelId, total)))
  }

  /** What a request asks for, once its fields are read. */
  datatype Order = Order(key: string, amount: U64, moduleAddress: string)

  function ReadOrder(limits: Limits, request: SessionRequest): Result<Order, ClientError> {
    match ParseU64(request.amount)
    case None => Err(InvalidAmount)
    case Some(amount) =>
      if request.recipient.None? then Err(NoRecipient)
      else
        var m := ModuleOf(limits, request);
        Ok(Order(EntryKey(request.recipient.value, request.currency, m), amount, m))
  }

  /** The entry of the paid channel after the request; the total wraps at 2^64. */
  function Paid(signer: Signer, entries: Entries, order: Order, opening: Opening): ChannelEntry {
    if order.key in entries && entries[order.key].isOpen then
      var entry := entries[order.key];
      var total := (entry.cumulativeAmount + order.amount) % TWO_64;
      entry.(cumulativeAmount := total, highestSignature := SignedAmount(signer, entry.channelId, total))
    else
      ChannelEntry(opening.channelId, opening.salt, order.amount, order.moduleAddress, true, signer.publicKey,
                   SignedAmount(signer, opening.channelId, order.amount))
  }

  // ---------- Which requests share a channel ----------

  /** The text after the last `c`, or all of it. */
  function AfterLast(s: string, c: char): string
    decreases |s|
  {
    var k := FirstIndex(s, c);
    if k == |s| then s else AfterLast(s[k + 1..], c)
  }

  lemma {:induction false} AfterLastOf(before: string, last: string, c: char)
    requires c !in last
    ensures AfterLast(before + [c] + last, c) == last
    decreases |before|
  {
    var s := before + [c] + last;
    var k := FirstIndex(before, c);
    assert s[..k] == before[..k];
    FirstIndexAt(s, c, k);
    if k == |before| {
      assert s[k + 1..] == last;
      NotThere(last, c);
    } else {
      assert s[k + 1..] == before[k + 1..] + [c] + last;
      AfterLastOf(before[k + 1..], last, c);
    }
  }

  lemma NotThere(s: string, c: char)
    requires c !in s
    ensures AfterLast(s, c) == s
  {
    assert s[..|s|] == s;
    FirstIndexAt(s, c, |s|);
  }

  lemma FirstAndMiddle(a: string, b: string, c: string)
    requires ':' !in a && ':' !in c
    ensures var s := a + ":" + b + ":" + c;
            && FirstIndex(s, ':') == |a| && AfterLast(s, ':') == c
            && s[..|a|] == a && s[|a| + 1..|s| - |c| - 1] == b
  {
    hide AfterLast, FirstIndex;
    var s := a + ":" + b + ":" + c;
    AfterLastOf(a + ":" + b, c, ':');
    assert s == a + (":" + b + ":" + c);
    assert s[..|a|] == a && s[|a|] == ':';
    FirstIndexAt(s, ':', |a|);
    Middle(a, b, c);
  }

  lemma Middle(a: string, b: string, c: string)
    ensures (a + ":" + b + ":" + c)[|a| + 1..|a| + 1 + |b|] == b
  {
  }

  /** Three texts joined by colons, the outer two without one, are determined by the joined text. */
  lemma ColonsSplit(a: string, b: string, c: string, x: string, y: string, z: string)
    requires ':' !in a && ':' !in c && ':' !in x && ':' !in z
    requires a + ":" + b + ":" + c == x + ":" + y + ":" + z
    ensures a == x && b == y && c == z
  {
    hide AfterLast, FirstIndex;
    FirstAndMiddle(a, b, c);
    FirstAndMiddle(x, y, z);
  }

  lemma LowerKeepsColons(s: string)
    ensures ':' in Lower(s) <==> ':' in s
  {
    if ':' in s {
      var i :| 0 <= i < |s| && s[i] == ':';
      assert Lower(s)[i] == ':';
    }
    if ':' in Lower(s) {
      var i :| 0 <= i < |s| && Lower(s)[i] == ':';
      assert s[i] == ':';
    }
  }

  /** Two requests share a channel exactly when payee, currency and module are the same but for case,
      as long as payees and modules have no colon. */
  lemma EntryKeyExactly(payee: string, currency: string, m: string, payee': string, currency': string, m': string)
    requires ':' !in payee && ':' !in m && ':' !in payee' && ':' !in m'
    ensures EntryKey(payee, currency, m) == EntryKey(payee', currency', m') <==>
            Lower(payee) == Lower(payee') && Lower(currency) == Lower(currency') && Lower(m) == Lower(m')
  {
    hide Lower;
    LowerKeepsColons(payee);
    LowerKeepsColons(m);
    LowerKeepsColons(payee');
    LowerKeepsColons(m');
    if EntryKey(payee, currency, m) == EntryKey(payee', currency', m') {
      ColonsSplit(Lower(payee), Lower(currency), Lower(m), Lower(payee'), Lower(currency'), Lower(m'));
    }
  }

  /** With a colon inside, what stands around it can move: the keys are then the same. */
  lemma ColonsCollide(a: string, b: string, c: string, m: string)
    ensures EntryKey(a + ":" + b, c, m) == EntryKey(a, b + ":" + c, m)
  {
    assert Lower(a + ":" + b) == Lower(a) + ":" + Lower(b);
    assert Lower(b + ":" + c) == Lower(b) + ":" + Lower(c);
    assert Lower(a) + ":" + Lower(b) + ":" + Lower(c) == Lower(a) + ":" + (Lower(b) + ":" + Lower(c));
  }

  // ---------- What a request does ----------

  /** The entries after a request and what it answers: without a readable amount or a recipient, or
      without a channel and means to open one, nothing changes. */
  function Answered(signer: Signer, limits: Limits, entries: Entries, request: SessionRequest,
                    outcome: Result<Opening, ClientError>): (Entries, Result<Payload, ClientError>)
  {
    match ReadOrder(limits, request)
    case Err(e) => (entries, Err(e))
    case Ok(order) =>
      if order.key in entries && entries[order.key].isOpen then
        var entry := Paid(signer, entries, order, Opening("", [], []));
        (entries[order.key := entry], Ok(VoucherFor(signer, entry.channelId, entry.cumulativeAmount)))
      else
        match ResolveDeposit(limits, request.suggestedDeposit)
        case Err(e) => (entries, Err(e))
        case Ok(_) =>
          match outcome
          case Err(e) => (entries, Err(e))
          case Ok(opening) =>
            (entries[order.key := Paid(signer, entries, order, opening)], Ok(OpenFor(signer, opening, order.amount)))
  }

  /** Refusals, in the order of their checks. */
  lemma RefusedMeans(signer: Signer, limits: Limits, entries: Entries, request: SessionRequest,
                     outcome: Result<Opening, ClientError>)
    ensures var (after, r) := Answered(signer, limits, entries, request, outcome);
            && (r.Err? ==> after == entries)
            && (ParseU64(request.amount).None? ==> r == Err(InvalidAmount))
            && (ParseU64(request.amount).Some? && request.recipient.None? ==> r == Err(NoRecipient))
            && (ParseU64(request.amount).Some? && request.recipient.Some? ==>
                  var key := EntryKey(request.recipient.value, request.currency, ModuleOf(limits, request));
                  if key in entries && entries[key].isOpen then r.Ok?
                  else
                    var deposit := ResolveDeposit(limits, request.suggestedDeposit);
                    && (deposit.Err? ==> r == Err(NoDeposit))
                    && (deposit.Ok? && outcome.Err? ==> r == Err(outcome.error))
                    && (deposit.Ok? && outcome.Ok? ==> r.Ok?))
  {
    hide ParseU64, EntryKey, OpenFor, VoucherFor, Paid;
  }

  /** A request on an open entry raises its total by the amount, signs the new total and touches nothing
      else; any other request that is answered records a new channel with its amount signed. */
  lemma AnsweredMeans(signer: Signer, limits: Limits, entries: Entries, request: SessionRequest,
                      outcome: Result<Opening, ClientError>)
    requires Answered(signer, limits, entries, request, outcome).1.Ok?
    ensures ParseU64(request.amount).Some? && request.recipient.Some?
    ensures var (after, r) := Answered(signer, limits, entries, request, outcome);
            var amount := ParseU64(request.amount).value;
            var key := EntryKey(request.recipient.value, request.currency, ModuleOf(limits, request));
            if key in entries && entries[key].isOpen then
              var before := entries[key];
              var total := (before.cumulativeAmount + amount) % TWO_64;
              var signature := signer.sign(VoucherBytes(before.channelId, total));
              && after == entries[key := before.(cumulativeAmount := total, highestSignature := signature)]
              && r.value == VoucherPayload(PrintHexBytes(before.channelId), ToDecimal(total), PrintHexBytes(signature))
            else
              && outcome.Ok?
              && var o := outcome.value;
                 var signature := signer.sign(VoucherBytes(o.channelId, amount));
                 && after == entries[key := ChannelEntry(o.channelId, o.salt, amount, ModuleOf(limits, request), true,
                                                         signer.publicKey, signature)]
                 && r.value == Open(o.txHash, PrintHexBytes(o.channelId), ToDecimal(amount), PrintHexBytes(signature),
                                    Some(PrintHexBytes(signer.publicKey)))
  {
    hide ParseU64, EntryKey, PrintHexBytes, ToDecimal, VoucherBytes;
  }

  /** A request with what the chain answers should it open a channel. */
  datatype Paying = Paying(request: SessionRequest, outcome: Result<Opening, ClientError>)

  function PaidAll(signer: Signer, limits: Limits, payings: seq<Paying>): Entries {
    if payings == [] then map[]
    else
      var last := payings[|payings| - 1];
      Answered(signer, limits, PaidAll(signer, limits, payings[..|payings| - 1]), last.request, last.outcome).0
  }

  /** The same payee, currency and module but for case. */
  predicate SameChannel(limits: Limits, r: SessionRequest, q: SessionRequest) {
    && r.recipient.Some? && q.recipient.Some?
    && Lower(r.recipient.value) == Lower(q.recipient.value) && Lower(r.currency) == Lower(q.currency)
    && Lower(ModuleOf(limits, r)) == Lower(ModuleOf(limits, q))
  }

  predicate ColonFree(limits: Limits, r: SessionRequest) {
    (r.recipient.Some? ==> ':' !in r.recipient.value) && ':' !in ModuleOf(limits, r)
  }

  lemma {:induction false} EntryWasNamed(signer: Signer, limits: Limits, payings: seq<Paying>, request: SessionRequest)
    requires request.recipient.Some? && ColonFree(limits, request)
    requires forall k | 0 <= k < |payings| :: ColonFree(limits, payings[k].request)
    requires EntryKey(request.recipient.value, request.currency, ModuleOf(limits, request))
             in PaidAll(signer, limits, payings)
    ensures exists k | 0 <= k < |payings| :: SameChannel(limits, payings[k].request, request)
  {
    hide EntryKey, SameChannel, ColonFree, Answered, ModuleOf;
    if payings == [] {
    } else {
      var front, last := payings[..|payings| - 1], payings[|payings| - 1];
      var key := EntryKey(request.recipient.value, request.currency, ModuleOf(limits, request));
      if key in PaidAll(signer, limits, front) {
        EntryWasNamed(signer, limits, front, request);
        var k :| 0 <= k < |front| && SameChannel(limits, front[k].request, request);
        assert SameChannel(limits, payings[k].request, request);
      } else {
        OnlyItsKey(signer, limits, PaidAll(signer, limits, front), last.request, last.outcome, key);
        KeyIsChannel(limits, last.request, request);
        assert SameChannel(limits, payings[|payings| - 1].request, request);
      }
    }
  }

  lemma OnlyItsKey(signer: Signer, limits: Limits, entries: Entries, request: SessionRequest,
                   outcome: Result<Opening, ClientError>, key: string)
    requires key !in entries && key in Answered(signer, limits, entries, request, outcome).0
    ensures request.recipient.Some?
    ensures key == EntryKey(request.recipient.value, request.currency, ModuleOf(limits, request))
  {
    hide ParseU64, EntryKey, PrintHexBytes, ToDecimal, VoucherBytes;
  }

  lemma KeyIsChannel(limits: Limits, r: SessionRequest, q: SessionRequest)
    requires r.recipient.Some? && q.recipient.Some? && ColonFree(limits, r) && ColonFree(limits, q)
    ensures EntryKey(r.recipient.value, r.currency, ModuleOf(limits, r)) ==
            EntryKey(q.recipient.value, q.currency, ModuleOf(limits, q))
            <==> SameChannel(limits, r, q)
  {
    hide EntryKey;
    EntryKeyExactly(r.recipient.value, r.currency, ModuleOf(limits, r),
                    q.recipient.value, q.currency, ModuleOf(limits, q));
  }

  /** A request is paid on an existing channel only if an earlier one named the same payee, currency and
      module, but for case. */
  lemma PaidOnOwnChannel(signer: Signer, limits: Limits, payings: seq<Paying>, paying: Paying)
    requires ColonFree(limits, paying.request)
    requires forall k | 0 <= k < |payings| :: ColonFree(limits, payings[k].request)
    ensures var r := Answered(signer, limits, PaidAll(signer, limits, payings), paying.request, paying.outcome).1;
            r.Ok? && r.value.VoucherPayload? ==>
              exists k | 0 <= k < |payings| :: SameChannel(limits, payings[k].request, paying.request)
  {
    hide EntryKey, SameChannel, ColonFree, Answered, ModuleOf, PaidAll;
    var r := Answered(signer, limits, PaidAll(signer, limits, payings), paying.request, paying.outcome).1;
    if r.Ok? && r.value.VoucherPayload? {
      AnsweredMeans(signer, limits, PaidAll(signer, limits, payings), paying.request, paying.outcome);
      EntryWasNamed(signer, limits, payings, paying.request);
    }
  }

  class SessionProvider {
    const signer: Signer
    const limits: Limits
    var channels: Entries

    constructor (signer: Signer, limits: Limits)
      ensures this.signer == signer && this.limits == limits && channels == map[]
    {
      this.signer := signer;
      this.limits := limits;
      channels := map[];
    }

    /** Pays one request: a larger voucher on an open channel, or a new channel. */
    method Pay(request: SessionRequest, outcome: Result<Opening, ClientError>) returns (r: Result<Payload, ClientError>)
      modifies this
      ensures (channels, r) == Answered(signer, limits, old(channels), request, outcome)
    {
      var parsed := ParseU64(request.amount);
      if parsed.None? { return Err(InvalidAmount); }
      var amount := parsed.value;
      if request.recipient.None? { return Err(NoRecipient); }
      var moduleAddress := ModuleOf(limits, request);
      var key := EntryKey(request.recipient.value, request.currency, moduleAddress);
      if key in channels && channels[key].isOpen {
        var entry := channels[key];
        var cumulative := (entry.cumulativeAmount + amount) % TWO_64;
        var signature := SignedAmount(signer, entry.channelId, cumulative);
        channels := channels[key := entry.(cumulativeAmount := cumulative, highestSignature := signature)];
        return Ok(VoucherPayload(PrintHexBytes(entry.channelId), ToDecimal(cumulative), PrintHexBytes(signature)));
      }
      var deposit := ResolveDeposit(limits, request.suggestedDeposit);
      if deposit.Err? { return Err(deposit.error); }
      if outcome.Err? { return Err(outcome.error); }
      var o := outcome.value;
      var signature := SignedAmount(signer, o.channelId, amount);
      var entry := ChannelEntry(o.channelId, o.salt, amount, moduleAddress, true, signer.publicKey, signature);
      channels := channels[key := entry];
      return Ok(Open(o.txHash, PrintHexBytes(o.channelId), ToDecimal(amount), PrintHexBytes(signature),
                     Some(PrintHexBytes(signer.publicKey))));
    }

    /** Asks the server to close some open channel, if there is one, at its current total. */
    method Close() returns (r: Option<Payload>)
      ensures r.None? <==> forall key | key in channels :: !channels[key].isOpen
      ensures r.Some? ==> exists key | key in channels && channels[key].isOpen ::
                            r.value == CloseFor(signer, channels[key].channelId, channels[key].cumulativeAmount)
    {
      if key :| key in channels && channels[key].isOpen {
        return Some(CloseFor(signer, channels[key].channelId, channels[key].cumulativeAmount));
      }
      return None;
    }
  }
}
