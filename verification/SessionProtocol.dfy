/** The four actions and deductions running concurrently, cut at their store and chain reads, over
    a chain whose deposits only grow and a network that may lose, repeat and reorder requests. */
module SessionProtocol {
  import opened Text
  import opened ChannelStore
  import opened SessionMethod

  // ---------- States, events, runs ----------

  datatype ChainKey = ChainKey(place: Place, channel: Bytes)

  /** A handler that has been cut: a top-up waiting for its chain read, or any handler whose checks
      are done and whose update has not landed. */
  datatype Pending =
    | TopUpWaiting(p: Payload, details: Details, snapshot: Option<ChannelState>)
    | Ready(landing: Landing)

  datatype System = System(channels: Channels, chain: map<ChainKey, OnChainChannel>, pending: multiset<Pending>)

  datatype Event =
    | BeginOpen(p: Payload, details: Details, tx: TxReply, reply: ChannelReply, now: string)
    | BeginTopUp(p: Payload, details: Details)
    | CheckTopUp(waiting: Pending, tx: TxReply, reply: ChannelReply)
    | BeginVoucher(p: Payload, details: Details)
    | BeginClose(p: Payload)
    | Lands(landing: Landing)
    | Deduct(id: string, charge: U64)
    | Abandon(dropped: Pending)
    | ChainMoves(key: ChainKey, channel: OnChainChannel)

  /** A reply about a channel shows its deposit at the moment of the read, or zero when the answer
      was malformed. */
  ghost predicate Honest(s: System, place: Place, id: string, reply: ChannelReply) {
    reply.Ok? && ParseHexBytes(id).Some? ==>
      var key := ChainKey(place, ParseHexBytes(id).value);
      key in s.chain && (reply.value.deposit == s.chain[key].deposit || reply.value.deposit == 0)
  }

  ghost predicate Enabled(s: System, e: Event) {
    match e
    case BeginOpen(p, details, tx, reply, now) => p.Open? && Honest(s, PlaceOf(details), p.channelId, reply)
    case BeginTopUp(p, details) => p.TopUp?
    case CheckTopUp(w, tx, reply) =>
      w in s.pending && w.TopUpWaiting? && w.p.TopUp? && Honest(s, PlaceOf(w.details), w.p.channelId, reply)
    case BeginVoucher(p, details) => p.VoucherPayload?
    case BeginClose(p) => p.Close?
    case Lands(landing) => Ready(landing) in s.pending
    case Deduct(id, charge) => true
    case Abandon(w) => w in s.pending
    case ChainMoves(key, channel) => key in s.chain ==> s.chain[key].deposit <= channel.deposit
  }

  /** What an enabled event lands on the store at once. */
  function LandingOf(e: Event): Option<Landing> {
    match e
    case Lands(landing) => Some(landing)
    case Deduct(id, charge) => Some(Landing(id, DeductCommit(charge)))
    case _ => None
  }

  /** The pending entry an enabled event leaves behind; a refusal leaves none. */
  function Added(config: Config, s: System, e: Event): Option<Pending> {
    match e
    case BeginOpen(p, details, tx, reply, now) =>
      if !p.Open? then None
      else
        (match OpenVerdict(config, p, details, tx, reply, now)
         case Ok(state) => Some(Ready(Landing(p.channelId, OpenCommit(state))))
         case Err(_) => None)
    case BeginTopUp(p, details) =>
      if Lookup(s.channels, p.channelId).None? then None
      else Some(TopUpWaiting(p, details, Lookup(s.channels, p.channelId)))
    case CheckTopUp(w, tx, reply) =>
      if !w.TopUpWaiting? then None
      else
        (match TopUpVerdict(w.snapshot, w.p.channelId, tx, reply)
         case Ok(deposit) => Some(Ready(Landing(w.p.channelId, TopUpCommit(deposit))))
         case Err(_) => None)
    case BeginVoucher(p, details) =>
      if !p.VoucherPayload? then None
      else
        (match VoucherVerdict(config, MinDelta(config, details), Lookup(s.channels, p.channelId), p)
         case Ok(Raise(amount, signature)) => Some(Ready(Landing(p.channelId, VoucherCommit(amount, signature))))
         case _ => None)
    case BeginClose(p) =>
      if !p.Close? then None
      else
        (match CloseVerdict(config, Lookup(s.channels, p.channelId), p)
         case Ok((amount, signature)) => Some(Ready(Landing(p.channelId, CloseCommit(amount, signature))))
         case Err(_) => None)
    case _ => None
  }

  /** The pending entry an enabled event uses up. */
  function Taken(e: Event): Option<Pending> {
    match e
    case CheckTopUp(w, _, _) => Some(w)
    case Lands(landing) => Some(Ready(landing))
    case Abandon(w) => Some(w)
    case _ => None
  }

  function Entry(w: Option<Pending>): multiset<Pending> {
    if w.Some? then multiset{w.value} else multiset{}
  }

  /** One step. An event that is not enabled, or whose handler refuses, leaves the store alone. */
  ghost function Step(config: Config, s: System, e: Event): System {
    if !Enabled(s, e) then s
    else
      System(if LandingOf(e).Some? then Land(s.channels, LandingOf(e).value) else s.channels,
             if e.ChainMoves? then s.chain[e.key := e.channel] else s.chain,
             s.pending - Entry(Taken(e)) + Entry(Added(config, s, e)))
  }

  ghost function Run(config: Config, s: System, es: seq<Event>): System {
    if es == [] then s else Step(config, Run(config, s, es[..|es| - 1]), es[|es| - 1])
  }

  /** A server that has just started, whatever is already on the chain. */
  function Started(chain: map<ChainKey, OnChainChannel>): System {
    System(map[], chain, multiset{})
  }

  lemma LandsPending(s: System, landing: Landing)
    requires Enabled(s, Lands(landing))
    ensures Ready(landing) in s.pending
  {
  }

  // Single steps, spelled out.

  lemma Begins(config: Config, s: System, e: Event, w: Pending)
    requires Enabled(s, e) && (e.BeginOpen? || e.BeginTopUp? || e.BeginVoucher? || e.BeginClose?)
    requires Added(config, s, e) == Some(w)
    ensures Step(config, s, e) == s.(pending := s.pending + multiset{w})
  {
    hide Enabled, Added;
    assert s.pending - multiset{} == s.pending;
  }

  lemma LandsNow(config: Config, s: System, landing: Landing)
    requires Ready(landing) in s.pending
    ensures Step(config, s, Lands(landing)) ==
            s.(channels := Land(s.channels, landing), pending := s.pending - multiset{Ready(landing)})
  {
    hide Land, OpenVerdict, VoucherVerdict, CloseVerdict, TopUpVerdict;
  }

  lemma DeductsNow(config: Config, s: System, id: string, charge: U64)
    ensures Step(config, s, Deduct(id, charge)) == s.(channels := Land(s.channels, Landing(id, DeductCommit(charge))))
  {
    hide Land, OpenVerdict, VoucherVerdict, CloseVerdict, TopUpVerdict;
  }

  lemma ChecksTopUp(config: Config, s: System, w: Pending, tx: TxReply, reply: ChannelReply, deposit: U64)
    requires Enabled(s, CheckTopUp(w, tx, reply))
    requires TopUpVerdict(w.snapshot, w.p.channelId, tx, reply) == Ok(deposit)
    ensures Step(config, s, CheckTopUp(w, tx, reply)) ==
            s.(pending := s.pending - multiset{w} + multiset{Ready(Landing(w.p.channelId, TopUpCommit(deposit)))})
  {
    hide OpenVerdict, VoucherVerdict, CloseVerdict, TopUpVerdict;
  }

  lemma RunSnoc(config: Config, s: System, es: seq<Event>, e: Event)
    ensures Run(config, s, es + [e]) == Step(config, Run(config, s, es), e)
  {
    hide Step;
    assert (es + [e])[..|es|] == es;
  }

  lemma {:induction false} RunAppend(config: Config, s: System, first: seq<Event>, second: seq<Event>)
    ensures Run(config, s, first + second) == Run(config, Run(config, s, first), second)
  {
    hide Step;
    if second == [] {
      assert first + second == first;
    } else {
      var n := |second| - 1;
      RunAppend(config, s, first, second[..n]);
      assert first + second == (first + second[..n]) + [second[n]];
      RunSnoc(config, s, first + second[..n], second[n]);
    }
  }

  lemma RunTwo(config: Config, s: System, e0: Event, e1: Event)
    ensures Run(config, s, [e0, e1]) == Step(config, Step(config, s, e0), e1)
  {
    hide Step;
    RunSnoc(config, s, [], e0);
    RunSnoc(config, s, [e0], e1);
    assert [] + [e0] == [e0] && [e0] + [e1] == [e0, e1];
  }

  lemma RunOne(config: Config, s: System, e: Event)
    ensures Run(config, s, [e]) == Step(config, s, e)
  {
    hide Step;
    RunSnoc(config, s, [], e);
    assert [] + [e] == [e];
  }

  lemma OpensAndLands(config: Config, s: System, e: Event, landing: Landing, state: ChannelState)
    requires Enabled(s, e) && e.BeginOpen? && Added(config, s, e) == Some(Ready(landing))
    requires landing.commit == OpenCommit(state)
    ensures Run(config, s, [e, Lands(landing)]) == s.(channels := s.channels[landing.id := state])
  {
    hide Step, Run, Added, Enabled;
    RunTwo(config, s, e, Lands(landing));
    Begins(config, s, e, Ready(landing));
    LandsNow(config, s.(pending := s.pending + multiset{Ready(landing)}), landing);
    assert s.pending + multiset{Ready(landing)} - multiset{Ready(landing)} == s.pending;
  }

  // ---------- Deposits ----------

  ghost function OnChainDeposit(s: System, place: Place, id: string): nat {
    match ParseHexBytes(id)
    case Some(channel) => if ChainKey(place, channel) in s.chain then s.chain[ChainKey(place, channel)].deposit else 0
    case None => 0
  }

  lemma DepositGrows(config: Config, s: System, e: Event, place: Place, id: string)
    ensures OnChainDeposit(s, place, id) <= OnChainDeposit(Step(config, s, e), place, id)
  {
  }
}
