/** The client and the server joined: first by a network that may lose, repeat, reorder and invent
    requests, then by one that delivers each request once and in order. */
module JointSession {
  import opened Text
  import opened Voucher
  import opened ChannelStore
  import opened SessionMethod
  import opened SessionProtocol
  import opened SessionClient

  // ---------- Any network ----------

  /** `signed` holds every (channel, amount) the client has put its signature to. */
  datatype Joint = Joint(server: System, client: Entries, signed: set<(Bytes, U64)>)

  datatype JointEvent =
    | ClientPays(order: Order, opening: Opening)
    | ClientCloses(key: string)
    | ServerSteps(e: Event)

  /** The voucher a request presents: the channel, the amount and the signature as sent. */
  function Presented(e: Event): Option<(string, U64, Bytes)> {
    match e
    case BeginOpen(p, _, _, _, _) => PresentedBy(p)
    case BeginVoucher(p, _) => PresentedBy(p)
    case BeginClose(p) => PresentedBy(p)
    case _ => None
  }

  function PresentedBy(p: Payload): Option<(string, U64, Bytes)> {
    if p.TopUp? then None
    else
      match (ParseU64(p.cumulativeAmount), ParseHexBytes(p.signature))
      case (Some(amount), Some(signature)) => Some((p.channelId, amount, signature))
      case _ => None
  }

  ghost predicate Signed(signed: set<(Bytes, U64)>, id: string, amount: U64) {
    ParseHexBytes(id).Some? && (ParseHexBytes(id).value, amount) in signed
  }

  /** Signatures cannot be forged: what verifies under the client's key was signed by the client. */
  ghost predicate Unforged(config: Config, publicKey: Bytes, signed: set<(Bytes, U64)>, e: Event) {
    match Presented(e)
    case Some((id, amount, signature)) =>
      Authentic(config, id, amount, signature, publicKey) ==> Signed(signed, id, amount)
    case None => true
  }

  ghost predicate Fresh(client: Entries, order: Order, opening: Opening) {
    (order.key in client && client[order.key].isOpen)
    || forall key | key in client :: client[key].channelId != opening.channelId
  }

  ghost function JointStep(config: Config, signer: Signer, j: Joint, je: JointEvent): Joint {
    match je
    case ClientPays(order, opening) =>
      if !Fresh(j.client, order, opening) then j
      else
        var entry := Paid(signer, j.client, order, opening);
        Joint(j.server, j.client[order.key := entry], j.signed + {(entry.channelId, entry.cumulativeAmount)})
    case ClientCloses(key) =>
      if key !in j.client then j
      else j.(signed := j.signed + {(j.client[key].channelId, j.client[key].cumulativeAmount)})
    case ServerSteps(e) =>
      if Unforged(config, signer.publicKey, j.signed, e) then j.(server := Step(config, j.server, e)) else j
  }

  ghost function JointRun(config: Config, signer: Signer, j: Joint, jes: seq<JointEvent>): Joint {
    if jes == [] then j
    else JointStep(config, signer, JointRun(config, signer, j, jes[..|jes| - 1]), jes[|jes| - 1])
  }

  function JointStart(chain: map<ChainKey, OnChainChannel>): Joint {
    Joint(Started(chain), map[], {})
  }

  /** The client's channels `mine` are only ever opened at the server under the client's key. */
  ghost predicate OpenedAsMine(mine: set<Bytes>, publicKey: Bytes, je: JointEvent) {
    je.ServerSteps? && je.e.BeginOpen? && je.e.p.Open?
    && ParseHexBytes(je.e.p.channelId).Some? && ParseHexBytes(je.e.p.channelId).value in mine ==>
      je.e.p.authorizedSigner.Some? && ParseHexBytes(je.e.p.authorizedSigner.value) == Some(publicKey)
  }

  /** The client's total stays below 2^64. */
  ghost predicate NoWrap(client: Entries, je: JointEvent) {
    je.ClientPays? && je.order.key in client && client[je.order.key].isOpen ==>
      client[je.order.key].cumulativeAmount + je.order.amount < TWO_64
  }

  ghost predicate Mine(mine: set<Bytes>, id: string) {
    ParseHexBytes(id).Some? && ParseHexBytes(id).value in mine
  }

  // The server's side of the invariant.

  ghost predicate MineCommit(publicKey: Bytes, signed: set<(Bytes, U64)>, id: string, commit: Commit) {
    match commit
    case OpenCommit(state) => state.authorizedSigner == publicKey && Signed(signed, id, state.highestAmount)
    case VoucherCommit(amount, _) => Signed(signed, id, amount)
    case CloseCommit(amount, _) => Signed(signed, id, amount)
    case _ => true
  }

  ghost predicate ServerHoldsSigned(mine: set<Bytes>, publicKey: Bytes, s: System, signed: set<(Bytes, U64)>) {
    && (forall id | id in s.channels && Mine(mine, id) ::
          s.channels[id].authorizedSigner == publicKey && Signed(signed, id, s.channels[id].highestAmount))
    && (forall landing | Ready(landing) in s.pending && Mine(mine, landing.id) ::
          MineCommit(publicKey, signed, landing.id, landing.commit))
  }

  lemma AddedHoldsSigned(config: Config, mine: set<Bytes>, publicKey: Bytes, s: System, signed: set<(Bytes, U64)>,
                         e: Event, landing: Landing)
    requires ServerHoldsSigned(mine, publicKey, s, signed) && OpenedAsMine(mine, publicKey, ServerSteps(e))
    requires Unforged(config, publicKey, signed, e)
    requires Added(config, s, e) == Some(Ready(landing)) && Mine(mine, landing.id)
    ensures MineCommit(publicKey, signed, landing.id, landing.commit)
  {
    hide ParseU64, ParseHexBytes, Authentic, Signed;
  }

  lemma LandHoldsSigned(mine: set<Bytes>, publicKey: Bytes, s: System, signed: set<(Bytes, U64)>, landing: Landing,
                        id: string)
    requires ServerHoldsSigned(mine, publicKey, s, signed)
    requires Mine(mine, landing.id) ==> MineCommit(publicKey, signed, landing.id, landing.commit)
    requires id in Land(s.channels, landing) && Mine(mine, id)
    ensures var c := Land(s.channels, landing)[id];
            c.authorizedSigner == publicKey && Signed(signed, id, c.highestAmount)
  {
    hide Signed, ParseHexBytes;
    assert Lookup(Land(s.channels, landing), id) == Some(Land(s.channels, landing)[id]);
    if id != landing.id {
      assert Lookup(Land(s.channels, landing), id) == Lookup(s.channels, id);
    }
  }

  lemma StepHoldsSigned(config: Config, mine: set<Bytes>, publicKey: Bytes, s: System, signed: set<(Bytes, U64)>,
                        e: Event)
    requires ServerHoldsSigned(mine, publicKey, s, signed)
    requires OpenedAsMine(mine, publicKey, ServerSteps(e)) && Unforged(config, publicKey, signed, e)
    ensures ServerHoldsSigned(mine, publicKey, Step(config, s, e), signed)
  {
    hide MineCommit, Mine, Added, Enabled, Unforged, OpenedAsMine, Land, Signed;
    if Enabled(s, e) {
      var s' := Step(config, s, e);
      if LandingOf(e).Some? {
        var landing := LandingOf(e).value;
        if e.Lands? { LandsPending(s, landing); }
        assert Mine(mine, landing.id) ==> MineCommit(publicKey, signed, landing.id, landing.commit) by {
          DeductIsMine(publicKey, signed, landing.id, landing.commit);
        }
        forall id | id in s'.channels && Mine(mine, id)
          ensures s'.channels[id].authorizedSigner == publicKey && Signed(signed, id, s'.channels[id].highestAmount)
        {
          LandHoldsSigned(mine, publicKey, s, signed, landing, id);
        }
      }
      forall landing | Ready(landing) in s'.pending && Mine(mine, landing.id)
        ensures MineCommit(publicKey, signed, landing.id, landing.commit)
      {
        if Ready(landing) !in s.pending {
          AddedHoldsSigned(config, mine, publicKey, s, signed, e, landing);
        }
      }
    }
  }

  lemma DeductIsMine(publicKey: Bytes, signed: set<(Bytes, U64)>, id: string, commit: Commit)
    ensures commit.DeductCommit? ==> MineCommit(publicKey, signed, id, commit)
  {
  }

  lemma MoreSigned(mine: set<Bytes>, publicKey: Bytes, s: System, signed: set<(Bytes, U64)>, more: set<(Bytes, U64)>)
    requires ServerHoldsSigned(mine, publicKey, s, signed) && signed <= more
    ensures ServerHoldsSigned(mine, publicKey, s, more)
  {
    hide ParseHexBytes;
    forall landing | Ready(landing) in s.pending && Mine(mine, landing.id)
      ensures MineCommit(publicKey, more, landing.id, landing.commit)
    {
      assert MineCommit(publicKey, signed, landing.id, landing.commit);
    }
  }

  // The client's side of the invariant.

  /** Every signed amount belongs to an entry, is at most its running total, and the total itself is
      signed; different entries are different channels. */
  ghost predicate ClientTotals(client: Entries, signed: set<(Bytes, U64)>) {
    && (forall key | key in client ::
          client[key].isOpen && (client[key].channelId, client[key].cumulativeAmount) in signed)
    && (forall key, key' | key in client && key' in client && key != key' ::
          client[key].channelId != client[key'].channelId)
    && (forall v | v in signed ::
          exists key | key in client :: client[key].channelId == v.0 && v.1 <= client[key].cumulativeAmount)
  }

  lemma PayKeepsTotals(signer: Signer, j: Joint, order: Order, opening: Opening)
    requires ClientTotals(j.client, j.signed) && Fresh(j.client, order, opening)
    requires NoWrap(j.client, ClientPays(order, opening))
    ensures var entry := Paid(signer, j.client, order, opening);
            ClientTotals(j.client[order.key := entry], j.signed + {(entry.channelId, entry.cumulativeAmount)})
  {
    hide SignedAmount;
    var entry := Paid(signer, j.client, order, opening);
    var client := j.client[order.key := entry];
    var now := (entry.channelId, entry.cumulativeAmount);
    forall v | v in j.signed + {now}
      ensures exists key | key in client :: client[key].channelId == v.0 && v.1 <= client[key].cumulativeAmount
    {
      if v == now {
        assert client[order.key].channelId == v.0;
      } else {
        var key :| key in j.client && j.client[key].channelId == v.0 && v.1 <= j.client[key].cumulativeAmount;
        assert client[key].channelId == v.0 && v.1 <= client[key].cumulativeAmount;
      }
    }
  }

  ghost predicate JointInv(mine: set<Bytes>, publicKey: Bytes, j: Joint) {
    ServerHoldsSigned(mine, publicKey, j.server, j.signed) && ClientTotals(j.client, j.signed)
  }

  lemma JointStepInv(config: Config, signer: Signer, mine: set<Bytes>, j: Joint, je: JointEvent)
    requires JointInv(mine, signer.publicKey, j)
    requires OpenedAsMine(mine, signer.publicKey, je) && NoWrap(j.client, je)
    ensures JointInv(mine, signer.publicKey, JointStep(config, signer, j, je))
  {
    hide Step, ServerHoldsSigned, OpenedAsMine, Unforged, Paid, NoWrap, Fresh;
    match je {
      case ClientPays(order, opening) =>
        if Fresh(j.client, order, opening) {
          hide ClientTotals;
          PayKeepsTotals(signer, j, order, opening);
          MoreSigned(mine, signer.publicKey, j.server, j.signed, JointStep(config, signer, j, je).signed);
        }
      case ClientCloses(key) =>
        if key in j.client {
          assert JointStep(config, signer, j, je).signed == j.signed;
        }
      case ServerSteps(e) =>
        if Unforged(config, signer.publicKey, j.signed, e) {
          StepHoldsSigned(config, mine, signer.publicKey, j.server, j.signed, e);
        }
    }
  }

  /** The totals stay below 2^64 all along the run. */
  ghost predicate NeverWraps(config: Config, signer: Signer, j: Joint, jes: seq<JointEvent>) {
    jes != [] ==>
      && NeverWraps(config, signer, j, jes[..|jes| - 1])
      && NoWrap(JointRun(config, signer, j, jes[..|jes| - 1]).client, jes[|jes| - 1])
  }

  lemma {:induction false} JointRunInv(config: Config, signer: Signer, mine: set<Bytes>,
                                       chain: map<ChainKey, OnChainChannel>, jes: seq<JointEvent>)
    requires forall k | 0 <= k < |jes| :: OpenedAsMine(mine, signer.publicKey, jes[k])
    requires NeverWraps(config, signer, JointStart(chain), jes)
    ensures JointInv(mine, signer.publicKey, JointRun(config, signer, JointStart(chain), jes))
  {
    hide JointStep, OpenedAsMine, NoWrap;
    if jes == [] {
    } else {
      hide JointInv;
      var front := jes[..|jes| - 1];
      JointRunInv(config, signer, mine, chain, front);
      JointStepInv(config, signer, mine, JointRun(config, signer, JointStart(chain), front), jes[|jes| - 1]);
    }
  }

  /** Whatever the network does, the highest voucher the server holds for one of the client's
      channels was signed by the client and is at most the client's running total there, which is
      the largest amount it ever signed for that channel. */
  lemma NeverAboveSigned(config: Config, signer: Signer, mine: set<Bytes>, chain: map<ChainKey, OnChainChannel>,
                         jes: seq<JointEvent>, id: string)
    requires forall k | 0 <= k < |jes| :: OpenedAsMine(mine, signer.publicKey, jes[k])
    requires NeverWraps(config, signer, JointStart(chain), jes)
    requires Mine(mine, id) && id in JointRun(config, signer, JointStart(chain), jes).server.channels
    ensures var j := JointRun(config, signer, JointStart(chain), jes);
            var highest, channel := j.server.channels[id].highestAmount, ParseHexBytes(id).value;
            && (channel, highest) in j.signed
            && exists key | key in j.client ::
                 && j.client[key].channelId == channel
                 && highest <= j.client[key].cumulativeAmount
                 && (channel, j.client[key].cumulativeAmount) in j.signed
                 && forall amount | (channel, amount) in j.signed :: amount <= j.client[key].cumulativeAmount
  {
    hide JointRun, OpenedAsMine, NeverWraps, ParseHexBytes;
    JointRunInv(config, signer, mine, chain, jes);
    LargestSigned(mine, signer.publicKey, JointRun(config, signer, JointStart(chain), jes), id);
  }

  lemma LargestSigned(mine: set<Bytes>, publicKey: Bytes, j: Joint, id: string)
    requires JointInv(mine, publicKey, j) && Mine(mine, id) && id in j.server.channels
    ensures var highest, channel := j.server.channels[id].highestAmount, ParseHexBytes(id).value;
            && (channel, highest) in j.signed
            && exists key | key in j.client ::
                 && j.client[key].channelId == channel
                 && highest <= j.client[key].cumulativeAmount
                 && (channel, j.client[key].cumulativeAmount) in j.signed
                 && forall amount | (channel, amount) in j.signed :: amount <= j.client[key].cumulativeAmount
  {
    hide ParseHexBytes;
    var highest, channel := j.server.channels[id].highestAmount, ParseHexBytes(id).value;
    assert (channel, highest) in j.signed;
    var key :| key in j.client && j.client[key].channelId == channel && highest <= j.client[key].cumulativeAmount;
    forall amount | (channel, amount) in j.signed ensures amount <= j.client[key].cumulativeAmount {
      var v: (Bytes, U64) := (channel, amount);
      assert v in j.signed;
      var key' :| key' in j.client && j.client[key'].channelId == v.0 && v.1 <= j.client[key'].cumulativeAmount;
      assert key' == key;
    }
  }

  // ---------- In-order, lossless delivery ----------

  /** The client signs with the key the server holds, and its signatures are well formed. */
  ghost predicate HonestSigner(config: Config, signer: Signer) {
    && |signer.publicKey| == 32
    && forall message :: |signer.sign(message)| == 64
                         && config.crypto.verifies(signer.publicKey, message, signer.sign(message))
  }

  /** The store after one voucher request served without interruption. */
  function Served(config: Config, channels: Channels, p: Payload, minDelta: U64): Channels
    requires p.VoucherPayload?
  {
    match VoucherVerdict(config, minDelta, Lookup(channels, p.channelId), p)
    case Ok(Raise(amount, signature)) => Land(channels, Landing(p.channelId, VoucherCommit(amount, signature)))
    case _ => channels
  }

  lemma ReadsBack(config: Config, signer: Signer, channelId: Bytes, amount: U64)
    requires HonestSigner(config, signer)
    ensures ParseU64(ToDecimal(amount)) == Some(amount)
    ensures CheckSignature(config, PrintHexBytes(channelId), amount,
                           PrintHexBytes(SignedAmount(signer, channelId, amount)), signer.publicKey)
            == Ok(SignedAmount(signer, channelId, amount))
  {
    hide ParseU64, ParseHexBytes, PrintHexBytes, ToDecimal, VoucherBytes;
    ParseU64OfDecimal(amount);
    ParseHexOfPrint(channelId);
    ParseHexOfPrint(SignedAmount(signer, channelId, amount));
  }

  /** The opening request is accepted exactly when the channel is funded, live and covers the first
      amount, and then the server holds the client's total. */
  lemma OpenInSync(config: Config, signer: Signer, opening: Opening, amount: U64, details: Details,
                   onChain: OnChainChannel, now: string)
    requires HonestSigner(config, signer)
    ensures var r := OpenVerdict(config, OpenFor(signer, opening, amount), details, Ok(()), Ok(onChain), now);
            && (r.Ok? <==> onChain.deposit > 0 && !onChain.finalized && amount <= onChain.deposit)
            && (r.Ok? ==> r.value.highestAmount == amount && r.value.authorizedSigner == signer.publicKey
                          && r.value.deposit == onChain.deposit && !r.value.finalized && r.value.spent == 0)
  {
    hide ParseU64, ParseHexBytes, PrintHexBytes, ToDecimal, VoucherBytes, CheckSignature, SignedAmount;
    ReadsBack(config, signer, opening.channelId, amount);
    ParseHexOfPrint(opening.channelId);
    ParseHexOfPrint(signer.publicKey);
  }

  /** A live channel of this client at the server. */
  ghost predicate Live(signer: Signer, channels: Channels, channelId: Bytes) {
    var id := PrintHexBytes(channelId);
    id in channels && !channels[id].finalized && channels[id].authorizedSigner == signer.publicKey
  }

  /** One request: the client's new total is at least what the server holds. The server then holds
      that total exactly when it is within the deposit and the step is nil or large enough; and if
      not, it keeps what it had. */
  lemma RequestInSync(config: Config, signer: Signer, channels: Channels, channelId: Bytes, total: U64, minDelta: U64)
    requires HonestSigner(config, signer) && Live(signer, channels, channelId)
    requires channels[PrintHexBytes(channelId)].highestAmount <= total
    ensures var id := PrintHexBytes(channelId);
            var before := channels[id];
            var after := Served(config, channels, VoucherFor(signer, channelId, total), minDelta);
            && Live(signer, after, channelId)
            && after[id].deposit == before.deposit
            && after[id].highestAmount ==
               (if total <= before.deposit && total - before.highestAmount >= minDelta
                then total else before.highestAmount)
            && (after[id].highestAmount == total <==>
                total == before.highestAmount
                || (total <= before.deposit && total - before.highestAmount >= minDelta))
  {
    hide ParseU64, ParseHexBytes, PrintHexBytes, ToDecimal, VoucherBytes, CheckSignature, SignedAmount;
    ReadsBack(config, signer, channelId, total);
  }

  /** A close request of a client that is not behind the server is always accepted, with the client's
      own total: the deposit is not looked at. */
  lemma CloseInSync(config: Config, signer: Signer, channels: Channels, channelId: Bytes, total: U64)
    requires HonestSigner(config, signer) && Live(signer, channels, channelId)
    ensures var id := PrintHexBytes(channelId);
            CloseVerdict(config, Lookup(channels, id), CloseFor(signer, channelId, total)) ==
            if total < channels[id].highestAmount then Err(CloseBelowHighest(total, channels[id].highestAmount))
            else Ok((total, SignedAmount(signer, channelId, total)))
  {
    hide ParseU64, ParseHexBytes, PrintHexBytes, ToDecimal, VoucherBytes, CheckSignature, SignedAmount;
    ReadsBack(config, signer, channelId, total);
  }

  function Sum(amounts: seq<U64>): nat {
    if amounts == [] then 0 else Sum(amounts[..|amounts| - 1]) + amounts[|amounts| - 1]
  }

  ghost predicate StepsLargeEnough(amounts: seq<U64>, minDelta: U64) {
    forall k | 0 <= k < |amounts| :: amounts[k] == 0 || amounts[k] >= minDelta
  }

  lemma StepsSplit(amounts: seq<U64>, minDelta: U64)
    requires amounts != []
    ensures StepsLargeEnough(amounts, minDelta)
            <==> StepsLargeEnough(amounts[..|amounts| - 1], minDelta)
                 && (amounts[|amounts| - 1] == 0 || amounts[|amounts| - 1] >= minDelta)
  {
  }

  /** A client about to open a channel, and what it and the server will read on the way. */
  datatype Scene = Scene(
    config: Config,
    signer: Signer,
    chain: map<ChainKey, OnChainChannel>,
    order: Order,
    opening: Opening,
    details: Details,
    onChain: OnChainChannel,
    now: string)

  /** The chain holds the channel that was read. */
  ghost predicate Funded(sc: Scene) {
    var key := ChainKey(PlaceOf(sc.details), sc.opening.channelId);
    key in sc.chain && sc.chain[key].deposit == sc.onChain.deposit
  }

  function Id(sc: Scene): string {
    PrintHexBytes(sc.opening.channelId)
  }

  function Verdict(sc: Scene): Result<ChannelState, VerificationError> {
    OpenVerdict(sc.config, OpenFor(sc.signer, sc.opening, sc.order.amount), sc.details, Ok(()), Ok(sc.onChain), sc.now)
  }

  function Asking(sc: Scene): Event {
    BeginOpen(OpenFor(sc.signer, sc.opening, sc.order.amount), sc.details, Ok(()), Ok(sc.onChain), sc.now)
  }

  /** The client pays, the server reads its request, and its update lands if one is left. */
  function OpeningRound(sc: Scene): seq<JointEvent> {
    [ClientPays(sc.order, sc.opening), ServerSteps(Asking(sc))]
    + if Verdict(sc).Ok? then [ServerSteps(Lands(Landing(Id(sc), OpenCommit(Verdict(sc).value))))] else []
  }

  function Raising(sc: Scene, total: U64): Landing {
    Landing(Id(sc), VoucherCommit(total, SignedAmount(sc.signer, sc.opening.channelId, total)))
  }

  function VoucherRound(sc: Scene, amount: U64, total: U64): seq<JointEvent> {
    [ClientPays(sc.order.(amount := amount), sc.opening),
     ServerSteps(BeginVoucher(VoucherFor(sc.signer, sc.opening.channelId, total), sc.details)),
     ServerSteps(Lands(Raising(sc, total)))]
  }

  /** An opening and one voucher for each of `amounts`, each delivered once and in order. */
  function Rounds(sc: Scene, amounts: seq<U64>): seq<JointEvent>
    requires sc.order.amount + Sum(amounts) < TWO_64
  {
    if amounts == [] then OpeningRound(sc)
    else
      Rounds(sc, amounts[..|amounts| - 1])
      + VoucherRound(sc, amounts[|amounts| - 1], sc.order.amount + Sum(amounts))
  }

  ghost function After(sc: Scene, amounts: seq<U64>): Joint
    requires sc.order.amount + Sum(amounts) < TWO_64
  {
    JointRun(sc.config, sc.signer, JointStart(sc.chain), Rounds(sc, amounts))
  }

  lemma JointSnoc(config: Config, signer: Signer, j: Joint, jes: seq<JointEvent>, je: JointEvent)
    ensures JointRun(config, signer, j, jes + [je]) == JointStep(config, signer, JointRun(config, signer, j, jes), je)
  {
    hide JointStep;
    assert (jes + [je])[..|jes|] == jes;
  }

  lemma JointTwo(config: Config, signer: Signer, j: Joint, jes: seq<JointEvent>, a: JointEvent, b: JointEvent)
    ensures JointRun(config, signer, j, jes + [a, b]) ==
            JointStep(config, signer, JointStep(config, signer, JointRun(config, signer, j, jes), a), b)
  {
    hide JointStep, JointRun;
    JointSnoc(config, signer, j, jes, a);
    JointSnoc(config, signer, j, jes + [a], b);
    assert jes + [a, b] == jes + [a] + [b];
  }

  /** Between rounds nothing is in flight and the client holds its total. */
  ghost predicate Quiet(sc: Scene, j: Joint, total: nat) {
    && j.server.pending == multiset{}
    && sc.order.key in j.client
    && j.client[sc.order.key].isOpen
    && j.client[sc.order.key].channelId == sc.opening.channelId
    && j.client[sc.order.key].cumulativeAmount == total
  }

  // What the three steps of a round do.

  lemma PaysOnOpen(sc: Scene, j: Joint, amount: U64, total: U64)
    requires amount <= total && Quiet(sc, j, total - amount)
    ensures var j' := JointStep(sc.config, sc.signer, j, ClientPays(sc.order.(amount := amount), sc.opening));
            Quiet(sc, j', total) && j'.server == j.server && (sc.opening.channelId, total) in j'.signed
  {
    hide SignedAmount;
  }

  lemma VoucherUnforged(sc: Scene, j: Joint, total: U64)
    requires (sc.opening.channelId, total) in j.signed
    ensures Unforged(sc.config, sc.signer.publicKey, j.signed,
                     BeginVoucher(VoucherFor(sc.signer, sc.opening.channelId, total), sc.details))
  {
    hide ParseU64, ParseHexBytes, PrintHexBytes, ToDecimal, Authentic, SignedAmount;
    ParseU64OfDecimal(total);
    ParseHexOfPrint(sc.opening.channelId);
  }

  lemma RaisesTotal(sc: Scene, channels: Channels, total: U64)
    requires HonestSigner(sc.config, sc.signer)
    ensures var v := VoucherVerdict(sc.config, MinDelta(sc.config, sc.details), Lookup(channels, Id(sc)),
                                    VoucherFor(sc.signer, sc.opening.channelId, total));
            v.Ok? && v.value.Raise? ==>
              v.value.amount == total && v.value.signature == SignedAmount(sc.signer, sc.opening.channelId, total)
  {
    hide ParseU64, ParseHexBytes, PrintHexBytes, ToDecimal, CheckSignature, SignedAmount;
    ParseU64OfDecimal(total);
    ParseHexOfPrint(SignedAmount(sc.signer, sc.opening.channelId, total));
  }

  lemma NothingDone(config: Config, s: System, e: Event)
    requires LandingOf(e).None? && Taken(e).None? && !e.ChainMoves? && (Enabled(s, e) ==> Added(config, s, e).None?)
    ensures Step(config, s, e) == s
  {
    hide Enabled, Added;
    assert s.pending - multiset{} + multiset{} == s.pending;
  }

  /** Read and landed without interruption, a voucher does what `Served` says. */
  lemma VoucherServed(sc: Scene, s: System, total: U64)
    requires HonestSigner(sc.config, sc.signer) && s.pending == multiset{}
    ensures var p := VoucherFor(sc.signer, sc.opening.channelId, total);
            Step(sc.config, Step(sc.config, s, BeginVoucher(p, sc.details)), Lands(Raising(sc, total))) ==
            s.(channels := Served(sc.config, s.channels, p, MinDelta(sc.config, sc.details)))
  {
    hide Step, VoucherVerdict, HonestSigner, MinDelta, PrintHexBytes, ToDecimal, SignedAmount, Land;
    var p := VoucherFor(sc.signer, sc.opening.channelId, total);
    var e := BeginVoucher(p, sc.details);
    RaisesTotal(sc, s.channels, total);
    if Added(sc.config, s, e).Some? {
      var waiting := s.(pending := s.pending + multiset{Ready(Raising(sc, total))});
      Begins(sc.config, s, e, Ready(Raising(sc, total)));
      LandsNow(sc.config, waiting, Raising(sc, total));
      assert waiting.pending - multiset{Ready(Raising(sc, total))} == s.pending;
    } else {
      NothingDone(sc.config, s, e);
      NotReady(sc.config, s, Raising(sc, total));
    }
  }

  lemma NotReady(config: Config, s: System, landing: Landing)
    requires Ready(landing) !in s.pending
    ensures Step(config, s, Lands(landing)) == s
  {
  }

  lemma LandsUnforged(config: Config, publicKey: Bytes, signed: set<(Bytes, U64)>, landing: Landing)
    ensures Unforged(config, publicKey, signed, Lands(landing))
  {
  }

  lemma VoucherRoundServed(sc: Scene, jes: seq<JointEvent>, amount: U64, total: U64)
    requires HonestSigner(sc.config, sc.signer) && amount <= total
    requires Quiet(sc, JointRun(sc.config, sc.signer, JointStart(sc.chain), jes), total - amount)
    ensures var j := JointRun(sc.config, sc.signer, JointStart(sc.chain), jes);
            var j' := JointRun(sc.config, sc.signer, JointStart(sc.chain), jes + VoucherRound(sc, amount, total));
            && Quiet(sc, j', total)
            && j'.server.channels == Served(sc.config, j.server.channels,
                                            VoucherFor(sc.signer, sc.opening.channelId, total),
                                            MinDelta(sc.config, sc.details))
  {
    hide *;
    var config, signer, start := sc.config, sc.signer, JointStart(sc.chain);
    var j := JointRun(config, signer, start, jes);
    var pays, asks, lands := ClientPays(sc.order.(amount := amount), sc.opening),
                              ServerSteps(BeginVoucher(VoucherFor(signer, sc.opening.channelId, total), sc.details)),
                              ServerSteps(Lands(Raising(sc, total)));
    RoundInThree(sc, jes, amount, total);
    JointSnoc(config, signer, start, jes, pays);
    JointTwo(config, signer, start, jes + [pays], asks, lands);
    PaysOnOpen(sc, j, amount, total);
    VoucherDelivered(sc, JointStep(config, signer, j, pays), total);
  }

  lemma RoundInThree(sc: Scene, jes: seq<JointEvent>, amount: U64, total: U64)
    ensures jes + VoucherRound(sc, amount, total) ==
            jes + [ClientPays(sc.order.(amount := amount), sc.opening)]
            + [ServerSteps(BeginVoucher(VoucherFor(sc.signer, sc.opening.channelId, total), sc.details)),
               ServerSteps(Lands(Raising(sc, total)))]
  {
  }

  lemma VoucherDelivered(sc: Scene, j: Joint, total: U64)
    requires HonestSigner(sc.config, sc.signer) && Quiet(sc, j, total) && (sc.opening.channelId, total) in j.signed
    ensures var p := VoucherFor(sc.signer, sc.opening.channelId, total);
            var j' := JointStep(sc.config, sc.signer,
                                JointStep(sc.config, sc.signer, j, ServerSteps(BeginVoucher(p, sc.details))),
                                ServerSteps(Lands(Raising(sc, total))));
            && Quiet(sc, j', total)
            && j'.server.channels == Served(sc.config, j.server.channels, p, MinDelta(sc.config, sc.details))
  {
    hide Step, Served, HonestSigner, MinDelta, VoucherFor, Raising, Unforged;
    VoucherUnforged(sc, j, total);
    LandsUnforged(sc.config, sc.signer.publicKey, j.signed, Raising(sc, total));
    VoucherServed(sc, j.server, total);
  }

  // The opening round.

  lemma OpeningUnforged(sc: Scene, j: Joint)
    requires (sc.opening.channelId, sc.order.amount) in j.signed
    ensures Unforged(sc.config, sc.signer.publicKey, j.signed,
                     Asking(sc))
  {
    hide ParseU64, ParseHexBytes, PrintHexBytes, ToDecimal, Authentic, SignedAmount;
    ParseU64OfDecimal(sc.order.amount);
    ParseHexOfPrint(sc.opening.channelId);
  }

  lemma OpeningEnabled(sc: Scene, s: System)
    requires Funded(sc) && s.chain == sc.chain
    ensures Enabled(s, Asking(sc))
  {
    hide ParseHexBytes, PrintHexBytes, ToDecimal, SignedAmount;
    ParseHexOfPrint(sc.opening.channelId);
  }

  lemma OpeningRead(sc: Scene, s: System)
    requires Funded(sc) && s == Started(sc.chain)
    ensures var read := Asking(sc);
            if Verdict(sc).Ok? then
              var landing := Landing(Id(sc), OpenCommit(Verdict(sc).value));
              Step(sc.config, Step(sc.config, s, read), Lands(landing))
              == s.(channels := map[Id(sc) := Verdict(sc).value])
            else Step(sc.config, s, read) == s
  {
    hide Step, OpenVerdict, Enabled, PrintHexBytes, ToDecimal, SignedAmount;
    var read := Asking(sc);
    OpeningEnabled(sc, s);
    if Verdict(sc).Ok? {
      var landing := Landing(Id(sc), OpenCommit(Verdict(sc).value));
      Begins(sc.config, s, read, Ready(landing));
      LandsNow(sc.config, s.(pending := s.pending + multiset{Ready(landing)}), landing);
      assert s.pending + multiset{Ready(landing)} - multiset{Ready(landing)} == s.pending;
      assert map[][Id(sc) := Verdict(sc).value] == map[Id(sc) := Verdict(sc).value];
    } else {
      NothingDone(sc.config, s, read);
    }
  }

  lemma PaysFirst(sc: Scene)
    ensures var j := JointStep(sc.config, sc.signer, JointStart(sc.chain), ClientPays(sc.order, sc.opening));
            && Quiet(sc, j, sc.order.amount) && j.server == Started(sc.chain)
            && (sc.opening.channelId, sc.order.amount) in j.signed
  {
    hide SignedAmount;
  }

  lemma OpeningServed(sc: Scene)
    requires Funded(sc)
    ensures var j := JointRun(sc.config, sc.signer, JointStart(sc.chain), OpeningRound(sc));
            && Quiet(sc, j, sc.order.amount)
            && j.server.channels == if Verdict(sc).Ok? then map[Id(sc) := Verdict(sc).value] else map[]
  {
    hide Step, JointRun, Verdict, Id, Unforged, OpenFor, Paid, Fresh;
    var config, signer, start := sc.config, sc.signer, JointStart(sc.chain);
    var read := Asking(sc);
    var pays := ClientPays(sc.order, sc.opening);
    var j := JointStep(config, signer, start, pays);
    PaysFirst(sc);
    OpeningUnforged(sc, j);
    OpeningRead(sc, j.server);
    JointFirst(config, signer, start, pays);
    if Verdict(sc).Ok? {
      var landing := Landing(Id(sc), OpenCommit(Verdict(sc).value));
      LandsUnforged(config, signer.publicKey, j.signed, landing);
      assert OpeningRound(sc) == [pays] + [ServerSteps(read), ServerSteps(Lands(landing))];
      JointTwo(config, signer, start, [pays], ServerSteps(read), ServerSteps(Lands(landing)));
    } else {
      assert OpeningRound(sc) == [pays] + [ServerSteps(read)];
      JointSnoc(config, signer, start, [pays], ServerSteps(read));
    }
  }

  lemma JointFirst(config: Config, signer: Signer, j: Joint, je: JointEvent)
    ensures JointRun(config, signer, j, [je]) == JointStep(config, signer, j, je)
  {
    hide JointStep;
    JointSnoc(config, signer, j, [], je);
    assert [] + [je] == [je];
  }

  // Whole sessions.

  /** What holds at the server between rounds: a live record not ahead of the client, or none. */
  ghost predicate Follows(sc: Scene, channels: Channels, total: nat) {
    if Verdict(sc).Ok? then
      && Live(sc.signer, channels, sc.opening.channelId)
      && channels[Id(sc)].deposit == sc.onChain.deposit
      && channels[Id(sc)].highestAmount <= total
    else Id(sc) !in channels
  }

  lemma OpeningFollows(sc: Scene)
    requires HonestSigner(sc.config, sc.signer)
    ensures Follows(sc, if Verdict(sc).Ok? then map[Id(sc) := Verdict(sc).value] else map[], sc.order.amount)
    ensures Verdict(sc).Ok? ==> Verdict(sc).value.highestAmount == sc.order.amount
    ensures Verdict(sc).Ok?
            <==> sc.onChain.deposit > 0 && !sc.onChain.finalized && sc.order.amount <= sc.onChain.deposit
  {
    hide OpenVerdict, OpenFor, HonestSigner, PrintHexBytes;
    OpenInSync(sc.config, sc.signer, sc.opening, sc.order.amount, sc.details, sc.onChain, sc.now);
  }

  /** One more voucher at the server; from the old total it takes the new one exactly when the step is nil,
      or large enough and deposited. */
  lemma ServedFollows(sc: Scene, channels: Channels, amount: U64, total: U64)
    requires HonestSigner(sc.config, sc.signer) && amount <= total && Follows(sc, channels, total - amount)
    ensures var after := Served(sc.config, channels, VoucherFor(sc.signer, sc.opening.channelId, total),
                                MinDelta(sc.config, sc.details));
            && Follows(sc, after, total)
            && (Verdict(sc).Ok? && channels[Id(sc)].highestAmount == total - amount ==>
                  (after[Id(sc)].highestAmount == total <==>
                     amount == 0 || (total <= sc.onChain.deposit && amount >= MinDelta(sc.config, sc.details))))
  {
    hide Served, Verdict, HonestSigner, PrintHexBytes, VoucherFor, MinDelta;
    if Verdict(sc).Ok? {
      RequestInSync(sc.config, sc.signer, channels, sc.opening.channelId, total, MinDelta(sc.config, sc.details));
    } else {
      UnknownIsRefused(sc, channels, total);
    }
  }

  lemma UnknownIsRefused(sc: Scene, channels: Channels, total: U64)
    requires Id(sc) !in channels
    ensures Served(sc.config, channels, VoucherFor(sc.signer, sc.opening.channelId, total),
                   MinDelta(sc.config, sc.details)) == channels
  {
    hide PrintHexBytes, ToDecimal, SignedAmount, MinDelta;
  }

  lemma {:induction false} SessionFollows(sc: Scene, amounts: seq<U64>)
    requires HonestSigner(sc.config, sc.signer) && Funded(sc) && sc.order.amount + Sum(amounts) < TWO_64
    ensures Quiet(sc, After(sc, amounts), sc.order.amount + Sum(amounts))
    ensures Follows(sc, After(sc, amounts).server.channels, sc.order.amount + Sum(amounts))
  {
    hide HonestSigner, Funded, Served, Verdict, Id, Follows, Quiet, JointRun, VoucherRound, OpeningRound, VoucherFor;
    if amounts == [] {
      OpeningServed(sc);
      OpeningFollows(sc);
    } else {
      var front, amount := amounts[..|amounts| - 1], amounts[|amounts| - 1];
      SessionFollows(sc, front);
      VoucherRoundServed(sc, Rounds(sc, front), amount, sc.order.amount + Sum(amounts));
      ServedFollows(sc, After(sc, front).server.channels, amount, sc.order.amount + Sum(amounts));
    }
  }

  /** The server's highest voucher is the client's running total. */
  ghost predicate InSync(sc: Scene, j: Joint) {
    && sc.order.key in j.client && Id(sc) in j.server.channels
    && j.server.channels[Id(sc)].highestAmount == j.client[sc.order.key].cumulativeAmount
  }

  /** In sync after the opening and after every voucher so far. */
  ghost predicate InSyncThroughout(sc: Scene, amounts: seq<U64>)
    requires sc.order.amount + Sum(amounts) < TWO_64
  {
    && InSync(sc, After(sc, amounts))
    && (amounts != [] ==> InSyncThroughout(sc, amounts[..|amounts| - 1]))
  }

  lemma SyncedStep(sc: Scene, j: Joint, j': Joint, amount: U64, total: U64)
    requires HonestSigner(sc.config, sc.signer) && amount <= total
    requires Quiet(sc, j, total - amount) && Quiet(sc, j', total) && Follows(sc, j.server.channels, total - amount)
    requires j'.server.channels == Served(sc.config, j.server.channels,
                                          VoucherFor(sc.signer, sc.opening.channelId, total),
                                          MinDelta(sc.config, sc.details))
    requires InSync(sc, j)
    ensures InSync(sc, j')
            <==> amount == 0 || (total <= sc.onChain.deposit && amount >= MinDelta(sc.config, sc.details))
  {
    hide HonestSigner, Served, Verdict, PrintHexBytes, VoucherFor, MinDelta;
    ServedFollows(sc, j.server.channels, amount, total);
  }

  lemma LastRound(sc: Scene, amounts: seq<U64>)
    requires amounts != [] && sc.order.amount + Sum(amounts) < TWO_64
    ensures var front, amount := amounts[..|amounts| - 1], amounts[|amounts| - 1];
            var rounds := Rounds(sc, front) + VoucherRound(sc, amount, sc.order.amount + Sum(amounts));
            && Sum(amounts) == Sum(front) + amount
            && After(sc, front) == JointRun(sc.config, sc.signer, JointStart(sc.chain), Rounds(sc, front))
            && After(sc, amounts) == JointRun(sc.config, sc.signer, JointStart(sc.chain), rounds)
  {
    hide JointRun, VoucherRound, OpeningRound;
  }

  lemma SyncedRound(sc: Scene, amounts: seq<U64>)
    requires HonestSigner(sc.config, sc.signer) && Funded(sc) && sc.order.amount + Sum(amounts) < TWO_64
    requires amounts != [] && InSync(sc, After(sc, amounts[..|amounts| - 1]))
    ensures var amount, total := amounts[|amounts| - 1], sc.order.amount + Sum(amounts);
            InSync(sc, After(sc, amounts)) <==>
            amount == 0 || (total <= sc.onChain.deposit && amount >= MinDelta(sc.config, sc.details))
  {
    hide *;
    var front, amount := amounts[..|amounts| - 1], amounts[|amounts| - 1];
    LastRound(sc, amounts);
    SessionFollows(sc, front);
    VoucherRoundServed(sc, Rounds(sc, front), amount, sc.order.amount + Sum(amounts));
    SessionFollows(sc, amounts);
    SyncedStep(sc, After(sc, front), After(sc, amounts), amount, sc.order.amount + Sum(amounts));
  }

  /** With in-order lossless delivery, from the opening on, the server holds the client's running total
      after every request exactly when the channel is funded and live, every voucher is zero or at least
      the minimum step, and the final total is within the deposit. */
  lemma {:induction false} SessionInSync(sc: Scene, amounts: seq<U64>)
    requires HonestSigner(sc.config, sc.signer) && Funded(sc) && sc.order.amount + Sum(amounts) < TWO_64
    ensures InSyncThroughout(sc, amounts)
            <==>
            && sc.onChain.deposit > 0 && !sc.onChain.finalized
            && StepsLargeEnough(amounts, MinDelta(sc.config, sc.details))
            && sc.order.amount + Sum(amounts) <= sc.onChain.deposit
  {
    hide HonestSigner, Funded, Verdict, PrintHexBytes, JointRun, VoucherRound, OpeningRound, MinDelta;
    SessionFollows(sc, amounts);
    if amounts == [] {
      OpeningServed(sc);
      OpeningFollows(sc);
    } else {
      hide StepsLargeEnough, After, InSync;
      var front := amounts[..|amounts| - 1];
      SessionInSync(sc, front);
      if InSyncThroughout(sc, front) {
        SyncedRound(sc, amounts);
      }
      StepsSplit(amounts, MinDelta(sc.config, sc.details));
    }
  }
}
