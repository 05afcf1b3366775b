/** The server's four channel actions. Each reads a snapshot (of the store, of the chain, or both),
    checks it, and then hands one update to the store. */
module SessionMethod {
  import opened Text
  import opened Voucher
  import opened ChannelStore

  /** The fields of a credential, still as text. */
  datatype Payload =
    | Open(txHash: string, channelId: string, cumulativeAmount: string, signature: string,
           authorizedSigner: Option<string>)
    | TopUp(txHash: string, channelId: string, additionalDeposit: string)
    | VoucherPayload(channelId: string, cumulativeAmount: string, signature: string)
    | Close(channelId: string, cumulativeAmount: string, signature: string)

  datatype Details = Details(moduleAddress: string, registryAddress: Option<string>, minVoucherDelta: Option<string>)

  datatype OnChainChannel = OnChainChannel(payer: string, payee: string, token: string, deposit: U64, finalized: bool)

  /** What the chain's REST interface answered: about a transaction, and about a channel. */
  type TxReply = Result<(), VerificationError>
  type ChannelReply = Result<OnChainChannel, VerificationError>

  datatype Config = Config(crypto: Ed25519, minVoucherDelta: U64)

  function PlaceOf(details: Details): Place {
    Place(details.moduleAddress,
          if details.registryAddress.Some? then details.registryAddress.value else details.moduleAddress)
  }

  function MinDelta(config: Config, details: Details): (r: U64)
    ensures details.minVoucherDelta.Some? && ParseU64(details.minVoucherDelta.value).Some? ==>
              Some(r) == ParseU64(details.minVoucherDelta.value)
    ensures details.minVoucherDelta.None? || ParseU64(details.minVoucherDelta.value).None? ==>
              r == config.minVoucherDelta
  {
    match details.minVoucherDelta
    case Some(text) => if ParseU64(text).Some? then ParseU64(text).value else config.minVoucherDelta
    case None => config.minVoucherDelta
  }

  /** A voucher as the signature check takes it: 64 signature bytes over this channel and amount. */
  predicate Authentic(config: Config, id: string, amount: U64, signature: Bytes, signer: Bytes) {
    && ParseHexBytes(id).Some?
    && |signature| == 64 && |signer| == 32
    && VerifyVoucher(config.crypto, ParseHexBytes(id).value, amount, signature, signer, signer)
  }

  /** The text is that of a signature which verifies. */
  predicate Signs(config: Config, id: string, amount: U64, signatureText: string, signer: Bytes) {
    ParseHexBytes(signatureText).Some?
    && Authentic(config, id, amount, ParseHexBytes(signatureText).value, signer)
  }

  /** The texts and the key have the shape of an id, a signature and a key. */
  predicate WellShaped(id: string, signatureText: string, signer: Bytes) {
    && ParseHexBytes(id).Some? && ParseHexBytes(signatureText).Some?
    && |ParseHexBytes(signatureText).value| == 64 && |signer| == 32
  }

  /** The shape checks that precede the signature check, and the check itself. */
  function CheckSignature(config: Config, id: string, amount: U64, signatureText: string, signer: Bytes)
    : (r: Result<Bytes, VerificationError>)
    ensures r.Ok? <==> Signs(config, id, amount, signatureText, signer)
    ensures r.Ok? ==> ParseHexBytes(signatureText) == Some(r.value) && Authentic(config, id, amount, r.value, signer)
    ensures r.Err? ==> r.error == if WellShaped(id, signatureText, signer) then InvalidSignature else InvalidPayload
  {
    match (ParseHexBytes(id), ParseHexBytes(signatureText))
    case (Some(idBytes), Some(signature)) =>
      if |signature| != 64 || |signer| != 32 then Err(InvalidPayload)
      else if VerifyVoucher(config.crypto, idBytes, amount, signature, signer, signer) then Ok(signature)
      else Err(InvalidSignature)
    case _ => Err(InvalidPayload)
  }

  // ---------- What each handler decides ----------

  function OpenVerdict(config: Config, p: Payload, details: Details, tx: TxReply, reply: ChannelReply, now: string)
    : Result<ChannelState, VerificationError>
    requires p.Open?
  {
    if tx.Err? then Err(tx.error)
    else if ParseHexBytes(p.channelId).None? then Err(InvalidPayload)
    else if reply.Err? then Err(reply.error)
    else
      var onChain := reply.value;
      if onChain.deposit == 0 then Err(ChannelNotFound)
      else if onChain.finalized then Err(ChannelClosed)
      else
        match ParseU64(p.cumulativeAmount)
        case None => Err(InvalidPayload)
        case Some(amount) =>
          if amount > onChain.deposit then Err(AmountExceedsDeposit(amount, onChain.deposit))
          else
            var signer := if p.authorizedSigner.Some? then ParseHexBytes(p.authorizedSigner.value) else Some([]);
            if signer.None? then Err(InvalidPayload)
            else
              match CheckSignature(config, p.channelId, amount, p.signature, signer.value)
              case Err(e) => Err(e)
              case Ok(signature) =>
                Ok(ChannelState(p.channelId, PlaceOf(details), onChain.payer, onChain.payee, onChain.token,
                                signer.value, onChain.deposit, 0, amount, Some(signature), 0, 0, false, now))
  }

  /** The deposit to write, from the one read on chain. */
  function TopUpVerdict(snapshot: Option<ChannelState>, id: string, tx: TxReply, reply: ChannelReply)
    : Result<U64, VerificationError>
  {
    if snapshot.None? then Err(ChannelNotFound)
    else if tx.Err? then Err(tx.error)
    else if ParseHexBytes(id).None? then Err(InvalidPayload)
    else if reply.Err? then Err(reply.error)
    else if reply.value.deposit <= snapshot.value.deposit then
      Err(DepositNotIncreased(reply.value.deposit, snapshot.value.deposit))
    else Ok(reply.value.deposit)
  }

  /** A voucher that is fine is either acknowledged as it stands (an old or repeated one) or goes
      on to the store. */
  datatype Acceptance = Acknowledged(amount: U64) | Raise(amount: U64, signature: Bytes)

  function VoucherVerdict(config: Config, minDelta: U64, snapshot: Option<ChannelState>, p: Payload)
    : Result<Acceptance, VerificationError>
    requires p.VoucherPayload?
  {
    if snapshot.None? then Err(ChannelNotFound)
    else
      var channel := snapshot.value;
      if channel.finalized then Err(ChannelClosed)
      else
        match ParseU64(p.cumulativeAmount)
        case None => Err(InvalidPayload)
        case Some(amount) =>
          if amount > channel.deposit then Err(AmountExceedsDeposit(amount, channel.deposit))
          else if amount <= channel.highestAmount then
            (match ParseHexBytes(p.signature)
             case None => Err(InvalidPayload)
             case Some(signature) =>
               if channel.highestSignature == Some(signature) && amount == channel.highestAmount then
                 Ok(Acknowledged(amount))
               else
                 (match CheckSignature(config, p.channelId, amount, p.signature, channel.authorizedSigner)
                  case Ok(_) => Ok(Acknowledged(amount))
                  case Err(e) => Err(e)))
          else if amount - channel.highestAmount < minDelta then
            Err(DeltaTooSmall(amount - channel.highestAmount, minDelta))
          else
            match CheckSignature(config, p.channelId, amount, p.signature, channel.authorizedSigner)
            case Ok(signature) => Ok(Raise(amount, signature))
            case Err(e) => Err(e)
  }

  function CloseVerdict(config: Config, snapshot: Option<ChannelState>, p: Payload)
    : Result<(U64, Bytes), VerificationError>
    requires p.Close?
  {
    if snapshot.None? then Err(ChannelNotFound)
    else
      var channel := snapshot.value;
      if channel.finalized then Err(ChannelClosed)
      else
        match ParseU64(p.cumulativeAmount)
        case None => Err(InvalidPayload)
        case Some(amount) =>
          if amount < channel.highestAmount then Err(CloseBelowHighest(amount, channel.highestAmount))
          else
            match CheckSignature(config, p.channelId, amount, p.signature, channel.authorizedSigner)
            case Ok(signature) => Ok((amount, signature))
            case Err(e) => Err(e)
  }

  // ---------- What the decisions mean ----------

  /** The key an opening names; none counts as the empty key. */
  function KeyOf(p: Payload): Option<Bytes>
    requires p.Open?
  {
    if p.authorizedSigner.Some? then ParseHexBytes(p.authorizedSigner.value) else Some([])
  }

  /** A funded, live channel whose deposit covers a first voucher signed by the key the opening names. */
  predicate GoodOpening(config: Config, p: Payload, tx: TxReply, reply: ChannelReply)
    requires p.Open?
  {
    && tx.Ok? && ParseHexBytes(p.channelId).Some?
    && reply.Ok? && reply.value.deposit > 0 && !reply.value.finalized
    && ParseU64(p.cumulativeAmount).Some? && ParseU64(p.cumulativeAmount).value <= reply.value.deposit
    && KeyOf(p).Some?
    && Signs(config, p.channelId, ParseU64(p.cumulativeAmount).value, p.signature, KeyOf(p).value)
  }

  /** The record of a good opening. */
  function OpenedRecord(p: Payload, details: Details, onChain: OnChainChannel, now: string): (c: ChannelState)
    requires p.Open? && ParseU64(p.cumulativeAmount).Some? && KeyOf(p).Some? && ParseHexBytes(p.signature).Some?
    ensures c.channelId == p.channelId && c.createdAt == now && !c.finalized
    ensures c.payer == onChain.payer && c.payee == onChain.payee && c.token == onChain.token
    ensures c.deposit == onChain.deposit && c.spent == c.units == c.settledOnChain == 0
    ensures c.place.moduleAddress == details.moduleAddress
    ensures details.registryAddress.Some? ==> c.place.registryAddress == details.registryAddress.value
    ensures details.registryAddress.None? ==> c.place.registryAddress == details.moduleAddress
    ensures Some(c.highestAmount) == ParseU64(p.cumulativeAmount)
    ensures Some(c.authorizedSigner) == KeyOf(p) && c.highestSignature == ParseHexBytes(p.signature)
  {
    ChannelState(p.channelId, PlaceOf(details), onChain.payer, onChain.payee, onChain.token, KeyOf(p).value,
                 onChain.deposit, 0, ParseU64(p.cumulativeAmount).value, Some(ParseHexBytes(p.signature).value),
                 0, 0, false, now)
  }

  lemma OpenMeans(config: Config, p: Payload, details: Details, tx: TxReply, reply: ChannelReply, now: string)
    requires p.Open?
    ensures var r := OpenVerdict(config, p, details, tx, reply, now);
            && (r.Ok? <==> GoodOpening(config, p, tx, reply))
            && (r.Ok? ==> r.value == OpenedRecord(p, details, reply.value, now))
  {
    hide ParseU64, ParseHexBytes, Authentic, CheckSignature;
  }

  /** Which refusal an opening gets: the first check that fails decides. */
  lemma OpenRefusals(config: Config, p: Payload, details: Details, tx: TxReply, reply: ChannelReply, now: string)
    requires p.Open?
    ensures var r := OpenVerdict(config, p, details, tx, reply, now);
            && (tx.Err? ==> r == Err(tx.error))
            && (tx.Ok? && ParseHexBytes(p.channelId).None? ==> r == Err(InvalidPayload))
            && (tx.Ok? && ParseHexBytes(p.channelId).Some? ==>
                  && (reply.Err? ==> r == Err(reply.error))
                  && (reply.Ok? ==>
                        var deposit := reply.value.deposit;
                        && (deposit == 0 ==> r == Err(ChannelNotFound))
                        && (deposit > 0 && reply.value.finalized ==> r == Err(ChannelClosed))
                        && (deposit > 0 && !reply.value.finalized ==>
                              match ParseU64(p.cumulativeAmount)
                              case None => r == Err(InvalidPayload)
                              case Some(amount) =>
                                && (amount > deposit ==> r == Err(AmountExceedsDeposit(amount, deposit)))
                                && (amount <= deposit && r.Err? ==>
                                      (r.error == InvalidSignature
                                       <==> KeyOf(p).Some? && WellShaped(p.channelId, p.signature, KeyOf(p).value))
                                      && (r.error == InvalidSignature || r.error == InvalidPayload)))))
  {
    hide ParseU64, ParseHexBytes, Authentic, CheckSignature;
  }

  /** A top-up is taken exactly when the channel is known, its id reads, transaction and chain answered,
      and the chain holds more than the record; what it writes is what the chain holds. */
  lemma TopUpMeans(snapshot: Option<ChannelState>, id: string, tx: TxReply, reply: ChannelReply)
    ensures var r := TopUpVerdict(snapshot, id, tx, reply);
            && (r.Ok? <==> snapshot.Some? && ParseHexBytes(id).Some? && tx.Ok? && reply.Ok?
                           && reply.value.deposit > snapshot.value.deposit)
            && (r.Ok? ==> r.value == reply.value.deposit)
            && (snapshot.None? ==> r == Err(ChannelNotFound))
            && (snapshot.Some? && tx.Err? ==> r == Err(tx.error))
            && (snapshot.Some? && tx.Ok? && ParseHexBytes(id).None? ==> r == Err(InvalidPayload))
            && (snapshot.Some? && tx.Ok? && ParseHexBytes(id).Some? && reply.Err? ==> r == Err(reply.error))
            && (snapshot.Some? && tx.Ok? && ParseHexBytes(id).Some? && reply.Ok?
                && reply.value.deposit <= snapshot.value.deposit ==>
                  r == Err(DepositNotIncreased(reply.value.deposit, snapshot.value.deposit)))
  {
    hide ParseHexBytes;
  }

  /** The recorded amount with the recorded signature. */
  predicate Repeats(c: ChannelState, p: Payload)
    requires p.VoucherPayload?
  {
    && ParseU64(p.cumulativeAmount) == Some(c.highestAmount)
    && ParseHexBytes(p.signature).Some? && c.highestSignature == ParseHexBytes(p.signature)
  }

  /** A voucher within the deposit of a live channel that repeats the recorded one, or is signed and
      either not above it or a large enough step above it. */
  predicate GoodVoucher(config: Config, minDelta: U64, c: ChannelState, p: Payload)
    requires p.VoucherPayload?
  {
    !c.finalized
    && match ParseU64(p.cumulativeAmount)
       case None => false
       case Some(amount) =>
         && amount <= c.deposit
         && (|| Repeats(c, p)
             || (&& (amount <= c.highestAmount || amount - c.highestAmount >= minDelta)
                 && Signs(config, p.channelId, amount, p.signature, c.authorizedSigner)))
  }

  /** A voucher is taken exactly when it is good, and goes to the store exactly when it is larger than
      the record. */
  lemma VoucherMeans(config: Config, minDelta: U64, snapshot: Option<ChannelState>, p: Payload)
    requires p.VoucherPayload?
    ensures var r := VoucherVerdict(config, minDelta, snapshot, p);
            && (r.Ok? <==> snapshot.Some? && GoodVoucher(config, minDelta, snapshot.value, p))
            && (r.Ok? ==> Some(r.value.amount) == ParseU64(p.cumulativeAmount))
            && (r.Ok? ==> (r.value.Raise? <==> r.value.amount > snapshot.value.highestAmount))
            && (r.Ok? && r.value.Raise? ==> Some(r.value.signature) == ParseHexBytes(p.signature))
  {
    hide ParseU64, ParseHexBytes, Authentic, CheckSignature;
  }

  /** Which refusal a voucher gets. */
  lemma VoucherRefusals(config: Config, minDelta: U64, snapshot: Option<ChannelState>, p: Payload)
    requires p.VoucherPayload?
    ensures var r := VoucherVerdict(config, minDelta, snapshot, p);
            && (snapshot.None? ==> r == Err(ChannelNotFound))
            && (snapshot.Some? && snapshot.value.finalized ==> r == Err(ChannelClosed))
            && (snapshot.Some? && !snapshot.value.finalized ==>
                  var c := snapshot.value;
                  match ParseU64(p.cumulativeAmount)
                  case None => r == Err(InvalidPayload)
                  case Some(amount) =>
                    && (amount > c.deposit ==> r == Err(AmountExceedsDeposit(amount, c.deposit)))
                    && (c.highestAmount < amount <= c.deposit && amount - c.highestAmount < minDelta ==>
                          r == Err(DeltaTooSmall(amount - c.highestAmount, minDelta)))
                    && (amount <= c.deposit && (amount <= c.highestAmount || amount - c.highestAmount >= minDelta)
                        && r.Err? ==>
                          r.error == if WellShaped(p.channelId, p.signature, c.authorizedSigner)
                                     then InvalidSignature else InvalidPayload))
  {
    hide ParseU64, ParseHexBytes, Authentic, CheckSignature;
  }

  /** A close is taken exactly when the record is live and not above its amount, and the amount is signed. */
  lemma CloseMeans(config: Config, snapshot: Option<ChannelState>, p: Payload)
    requires p.Close?
    ensures var r := CloseVerdict(config, snapshot, p);
            && (r.Ok? <==>
                && snapshot.Some? && !snapshot.value.finalized && ParseU64(p.cumulativeAmount).Some?
                && ParseU64(p.cumulativeAmount).value >= snapshot.value.highestAmount
                && Signs(config, p.channelId, ParseU64(p.cumulativeAmount).value, p.signature,
                         snapshot.value.authorizedSigner))
            && (r.Ok? ==> Some(r.value.0) == ParseU64(p.cumulativeAmount)
                          && Some(r.value.1) == ParseHexBytes(p.signature))
            && (snapshot.None? ==> r == Err(ChannelNotFound))
            && (snapshot.Some? && snapshot.value.finalized ==> r == Err(ChannelClosed))
            && (snapshot.Some? && !snapshot.value.finalized ==>
                  var c := snapshot.value;
                  match ParseU64(p.cumulativeAmount)
                  case None => r == Err(InvalidPayload)
                  case Some(amount) =>
                    && (amount < c.highestAmount ==> r == Err(CloseBelowHighest(amount, c.highestAmount)))
                    && (amount >= c.highestAmount && r.Err? ==>
                          r.error == if WellShaped(p.channelId, p.signature, c.authorizedSigner)
                                     then InvalidSignature else InvalidPayload))
  {
    hide ParseU64, ParseHexBytes, Authentic, CheckSignature;
  }

  // ---------- The handlers ----------

  /** The records with one of them raised to `amount`, if that is a raise. */
  function Raised(channels: Channels, id: string, amount: U64, signature: Option<Bytes>): Channels
    requires id in channels
  {
    if amount > channels[id].highestAmount
    then channels[id := channels[id].(highestAmount := amount, highestSignature := signature)]
    else channels
  }

  /** The receipt's reference, or the refusal. */
  type Outcome = Result<string, VerificationError>

  /** `others` are the updates that land while a handler waits between its reads and its own
      update: the checks see the store before them, the update meets the store after them. */
  class Handler {
    const config: Config
    const store: InMemoryChannelStore

    constructor (config: Config, store: InMemoryChannelStore)
      ensures this.config == config && this.store == store
    {
      this.config := config;
      this.store := store;
    }

    method HandleOpen(p: Payload, details: Details, tx: TxReply, reply: ChannelReply, now: string,
                      others: seq<Landing>) returns (r: Outcome)
      requires p.Open?
      modifies store
      ensures match OpenVerdict(config, p, details, tx, reply, now)
              case Ok(state) =>
                && r == Ok(p.txHash)
                && store.channels == LandAll(old(store.channels), others)[p.channelId := state]
              case Err(e) => r == Err(e) && store.channels == old(store.channels)
      ensures r.Ok? <==> GoodOpening(config, p, tx, reply)
      ensures r.Ok? ==>
                store.channels == LandAll(old(store.channels), others)[p.channelId :=
                                                                       OpenedRecord(p, details, reply.value, now)]
    {
      hide ParseU64, ParseHexBytes, Authentic, CheckSignature;
      OpenMeans(config, p, details, tx, reply, now);
      if tx.Err? { return Err(tx.error); }
      if ParseHexBytes(p.channelId).None? { return Err(InvalidPayload); }
      if reply.Err? { return Err(reply.error); }
      var onChain := reply.value;
      if onChain.deposit == 0 { return Err(ChannelNotFound); }
      if onChain.finalized { return Err(ChannelClosed); }
      var parsed := ParseU64(p.cumulativeAmount);
      if parsed.None? { return Err(InvalidPayload); }
      var amount := parsed.value;
      if amount > onChain.deposit { return Err(AmountExceedsDeposit(amount, onChain.deposit)); }
      var signer := if p.authorizedSigner.Some? then ParseHexBytes(p.authorizedSigner.value) else Some([]);
      if signer.None? { return Err(InvalidPayload); }
      var checked := CheckSignature(config, p.channelId, amount, p.signature, signer.value);
      if checked.Err? { return Err(checked.error); }
      var state := ChannelState(p.channelId, PlaceOf(details), onChain.payer, onChain.payee, onChain.token,
                                signer.value, onChain.deposit, 0, amount, Some(checked.value), 0, 0, false, now);
      store.Interleave(others);
      var answer := store.UpdateChannel(p.channelId, existing => Updated(OpenCommit(state), existing));
      return Ok(p.txHash);
    }

    method HandleTopUp(p: Payload, tx: TxReply, reply: ChannelReply, others: seq<Landing>) returns (r: Outcome)
      requires p.TopUp?
      modifies store
      ensures match TopUpVerdict(Lookup(old(store.channels), p.channelId), p.channelId, tx, reply)
              case Ok(deposit) =>
                var met := LandAll(old(store.channels), others);
                && r == (if p.channelId in met then Ok(p.txHash) else Err(ChannelNotFound))
                && store.channels == Land(met, Landing(p.channelId, TopUpCommit(deposit)))
              case Err(e) => r == Err(e) && store.channels == old(store.channels)
      ensures var met := LandAll(old(store.channels), others);
              && (r.Ok? <==>
                  && p.channelId in old(store.channels) && p.channelId in met && ParseHexBytes(p.channelId).Some?
                  && tx.Ok? && reply.Ok? && reply.value.deposit > old(store.channels)[p.channelId].deposit)
              && (r.Ok? ==>
                    store.channels == met[p.channelId := met[p.channelId].(deposit := reply.value.deposit)])
    {
      TopUpMeans(Lookup(store.channels, p.channelId), p.channelId, tx, reply);
      var channel := store.GetChannel(p.channelId);
      if channel.None? { return Err(ChannelNotFound); }
      if tx.Err? { return Err(tx.error); }
      if ParseHexBytes(p.channelId).None? { return Err(InvalidPayload); }
      if reply.Err? { return Err(reply.error); }
      var deposit := reply.value.deposit;
      if deposit <= channel.value.deposit { return Err(DepositNotIncreased(deposit, channel.value.deposit)); }
      store.Interleave(others);
      var answer := store.UpdateChannel(p.channelId, current => Updated(TopUpCommit(deposit), current));
      if answer.Err? { return Err(answer.error); }
      return Ok(p.txHash);
    }

    method HandleVoucher(p: Payload, details: Details, others: seq<Landing>) returns (r: Outcome)
      requires p.VoucherPayload?
      modifies store
      ensures match VoucherVerdict(config, MinDelta(config, details), Lookup(old(store.channels), p.channelId), p)
              case Ok(Acknowledged(_)) =>
                r == Ok(old(store.channels)[p.channelId].channelId) && store.channels == old(store.channels)
              case Ok(Raise(amount, signature)) =>
                var met := LandAll(old(store.channels), others);
                && r == (if p.channelId in met then Ok(met[p.channelId].channelId) else Err(ChannelNotFound))
                && store.channels == Land(met, Landing(p.channelId, VoucherCommit(amount, signature)))
              case Err(e) => r == Err(e) && store.channels == old(store.channels)
      ensures r.Ok? ==> p.channelId in old(store.channels)
                        && GoodVoucher(config, MinDelta(config, details), old(store.channels)[p.channelId], p)
      ensures p.channelId in old(store.channels)
              && GoodVoucher(config, MinDelta(config, details), old(store.channels)[p.channelId], p) ==>
                var met := LandAll(old(store.channels), others);
                var amount := ParseU64(p.cumulativeAmount).value;
                if amount <= old(store.channels)[p.channelId].highestAmount then
                  r.Ok? && store.channels == old(store.channels)
                else if p.channelId !in met then
                  r == Err(ChannelNotFound) && store.channels == met
                else
                  r.Ok? && store.channels == Raised(met, p.channelId, amount, ParseHexBytes(p.signature))
    {
      VoucherMeans(config, MinDelta(config, details), Lookup(store.channels, p.channelId), p);
      var snapshot := store.GetChannel(p.channelId);
      if snapshot.None? { return Err(ChannelNotFound); }
      var channel := snapshot.value;
      if channel.finalized { return Err(ChannelClosed); }
      var parsed := ParseU64(p.cumulativeAmount);
      if parsed.None? { return Err(InvalidPayload); }
      r := VerifyAndAcceptVoucher(p, channel, parsed.value, MinDelta(config, details), others);
    }

    method VerifyAndAcceptVoucher(p: Payload, channel: ChannelState, amount: U64, minDelta: U64,
                                  others: seq<Landing>) returns (r: Outcome)
      requires p.VoucherPayload? && ParseU64(p.cumulativeAmount) == Some(amount) && !channel.finalized
      modifies store
      ensures match VoucherVerdict(config, minDelta, Some(channel), p)
              case Ok(Acknowledged(_)) => r == Ok(channel.channelId) && store.channels == old(store.channels)
              case Ok(Raise(a, signature)) =>
                var met := LandAll(old(store.channels), others);
                && r == (if p.channelId in met then Ok(met[p.channelId].channelId) else Err(ChannelNotFound))
                && store.channels == Land(met, Landing(p.channelId, VoucherCommit(a, signature)))
              case Err(e) => r == Err(e) && store.channels == old(store.channels)
      ensures r.Ok? ==> GoodVoucher(config, minDelta, channel, p)
      ensures GoodVoucher(config, minDelta, channel, p) ==>
                r.Ok? || (amount > channel.highestAmount && p.channelId !in LandAll(old(store.channels), others))
    {
      hide ParseU64, ParseHexBytes, Authentic, CheckSignature;
      VoucherMeans(config, minDelta, Some(channel), p);
      if amount > channel.deposit { return Err(AmountExceedsDeposit(amount, channel.deposit)); }
      if amount <= channel.highestAmount {
        var signature := ParseHexBytes(p.signature);
        if signature.None? { return Err(InvalidPayload); }
        if channel.highestSignature == signature && amount == channel.highestAmount { return Ok(channel.channelId); }
        var verified := CheckSignature(config, p.channelId, amount, p.signature, channel.authorizedSigner);
        if verified.Err? { return Err(verified.error); }
        return Ok(channel.channelId);
      }
      var delta := amount - channel.highestAmount;
      if delta < minDelta { return Err(DeltaTooSmall(delta, minDelta)); }
      var checked := CheckSignature(config, p.channelId, amount, p.signature, channel.authorizedSigner);
      if checked.Err? { return Err(checked.error); }
      var signature := checked.value;
      store.Interleave(others);
      var answer := store.UpdateChannel(p.channelId, current => Updated(VoucherCommit(amount, signature), current));
      if answer.Err? { return Err(answer.error); }
      return Ok(answer.value.value.channelId);
    }

    method HandleClose(p: Payload, others: seq<Landing>) returns (r: Outcome)
      requires p.Close?
      modifies store
      ensures match CloseVerdict(config, Lookup(old(store.channels), p.channelId), p)
              case Ok((amount, signature)) =>
                && r == Ok(p.channelId)
                && store.channels ==
                   Land(LandAll(old(store.channels), others), Landing(p.channelId, CloseCommit(amount, signature)))
              case Err(e) => r == Err(e) && store.channels == old(store.channels)
      ensures r.Ok? <==>
              && p.channelId in old(store.channels) && !old(store.channels)[p.channelId].finalized
              && ParseU64(p.cumulativeAmount).Some?
              && ParseU64(p.cumulativeAmount).value >= old(store.channels)[p.channelId].highestAmount
              && Signs(config, p.channelId, ParseU64(p.cumulativeAmount).value, p.signature,
                       old(store.channels)[p.channelId].authorizedSigner)
      ensures r.Ok? ==>
                var met := LandAll(old(store.channels), others);
                store.channels ==
                if p.channelId in met then
                  met[p.channelId := met[p.channelId].(highestAmount := ParseU64(p.cumulativeAmount).value,
                                                       highestSignature := ParseHexBytes(p.signature),
                                                       finalized := true)]
                else met
    {
      hide ParseU64, ParseHexBytes, Authentic, CheckSignature;
      CloseMeans(config, Lookup(store.channels, p.channelId), p);
      var snapshot := store.GetChannel(p.channelId);
      if snapshot.None? { return Err(ChannelNotFound); }
      var channel := snapshot.value;
      if channel.finalized { return Err(ChannelClosed); }
      var parsed := ParseU64(p.cumulativeAmount);
      if parsed.None? { return Err(InvalidPayload); }
      var amount := parsed.value;
      if amount < channel.highestAmount { return Err(CloseBelowHighest(amount, channel.highestAmount)); }
      var checked := CheckSignature(config, p.channelId, amount, p.signature, channel.authorizedSigner);
      if checked.Err? { return Err(checked.error); }
      var signature := checked.value;
      store.Interleave(others);
      var answer := store.UpdateChannel(p.channelId, current => Updated(CloseCommit(amount, signature), current));
      return Ok(p.channelId);
    }
  }
}
