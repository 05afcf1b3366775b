/** Records against the chain: when what a channel has spent, promised and deposited stays covered. */
module Overdraft {
  import opened Text
  import opened ChannelStore
  import opened SessionMethod
  import opened SessionProtocol

  /** What a record may claim when the chain holds `onChain` for its channel. */
  ghost predicate Covered(c: ChannelState, onChain: nat) {
    && c.deposit <= onChain
    && (!c.finalized ==> c.spent <= c.highestAmount <= onChain)
  }

  /** Every record is covered by the contract it was opened in. */
  ghost predicate Sound(s: System) {
    forall id | id in s.channels :: Covered(s.channels[id], OnChainDeposit(s, s.channels[id].place, id))
  }

  /** Openings in flight start with nothing spent and are covered. */
  ghost predicate OpeningsSound(s: System) {
    forall id, state | Ready(Landing(id, OpenCommit(state))) in s.pending ::
      state.spent == 0 && !state.finalized && Covered(state, OnChainDeposit(s, state.place, id))
  }

  /** The test a landing update does not make: a new deposit, and the amount of a voucher that raises
      an unfinalized record, are on the chain the record was opened in. */
  ghost predicate LandingCovered(s: System, e: Event) {
    e.Lands? && Enabled(s, e) && e.landing.id in s.channels ==>
      var c := s.channels[e.landing.id];
      var onChain := OnChainDeposit(s, c.place, e.landing.id);
      match e.landing.commit
      case TopUpCommit(deposit) => deposit <= onChain
      case VoucherCommit(amount, _) => !c.finalized && amount > c.highestAmount ==> amount <= onChain
      case _ => true
  }

  lemma OpeningCovered(config: Config, s: System, e: Event, id: string, state: ChannelState)
    requires Enabled(s, e) && Added(config, s, e) == Some(Ready(Landing(id, OpenCommit(state))))
    ensures state.spent == 0 && !state.finalized && Covered(state, OnChainDeposit(s, state.place, id))
  {
    hide ParseU64, ParseHexBytes, CheckSignature;
  }

  lemma OpeningsStay(config: Config, s: System, e: Event)
    requires OpeningsSound(s)
    ensures OpeningsSound(Step(config, s, e))
  {
    hide Added, Enabled, Land, OnChainDeposit;
    var s' := Step(config, s, e);
    forall id, state | Ready(Landing(id, OpenCommit(state))) in s'.pending
      ensures state.spent == 0 && !state.finalized && Covered(state, OnChainDeposit(s', state.place, id))
    {
      if Ready(Landing(id, OpenCommit(state))) !in s.pending {
        OpeningCovered(config, s, e, id, state);
      }
      DepositGrows(config, s, e, state.place, id);
    }
  }

  lemma LandSoundExactly(s: System, landing: Landing)
    requires Sound(s)
    requires landing.commit.OpenCommit? ==>
               Covered(landing.commit.state, OnChainDeposit(s, landing.commit.state.place, landing.id))
    ensures Sound(s.(channels := Land(s.channels, landing)))
            <==>
            (landing.id in s.channels ==>
               var c := s.channels[landing.id];
               var onChain := OnChainDeposit(s, c.place, landing.id);
               match landing.commit
               case TopUpCommit(deposit) => deposit <= onChain
               case VoucherCommit(amount, _) => !c.finalized && amount > c.highestAmount ==> amount <= onChain
               case _ => true)
  {
    hide ParseHexBytes;
    var s' := s.(channels := Land(s.channels, landing));
    forall id | id in s'.channels && id != landing.id
      ensures Covered(s'.channels[id], OnChainDeposit(s', s'.channels[id].place, id))
    {
      assert Lookup(s'.channels, id) == Lookup(s.channels, id);
    }
    assert landing.id in s'.channels ==> Lookup(s'.channels, landing.id) == Some(s'.channels[landing.id]);
  }

  lemma StepSoundExactly(config: Config, s: System, e: Event)
    requires Sound(s) && OpeningsSound(s)
    ensures Sound(Step(config, s, e)) <==> LandingCovered(s, e)
  {
    hide Added, Land, OnChainDeposit, Enabled, Sound, Covered;
    if Enabled(s, e) {
      if LandingOf(e).Some? {
        if e.Lands? { LandsPending(s, e.landing); }
        LandSoundExactly(s, LandingOf(e).value);
        SameChain(Step(config, s, e), s.(channels := Land(s.channels, LandingOf(e).value)));
      } else {
        QuietStepSound(config, s, e);
      }
    }
  }

  lemma QuietStepSound(config: Config, s: System, e: Event)
    requires Sound(s) && LandingOf(e).None?
    ensures Sound(Step(config, s, e))
  {
    hide Added, Enabled, OnChainDeposit;
    forall id | id in s.channels
      ensures Covered(s.channels[id], OnChainDeposit(Step(config, s, e), s.channels[id].place, id))
    {
      DepositGrows(config, s, e, s.channels[id].place, id);
    }
  }

  lemma SameChain(s: System, t: System)
    requires s.channels == t.channels && s.chain == t.chain
    ensures Sound(s) <==> Sound(t)
  {
    hide Covered, ParseHexBytes;
    assert forall place, id :: OnChainDeposit(s, place, id) == OnChainDeposit(t, place, id);
  }

  /** Sound at every point of the run. */
  ghost predicate AlwaysSound(config: Config, s: System, es: seq<Event>) {
    && Sound(Run(config, s, es))
    && (es != [] ==> AlwaysSound(config, s, es[..|es| - 1]))
  }

  /** Every update of the run is covered where it lands. */
  ghost predicate LandingsCovered(config: Config, s: System, es: seq<Event>) {
    es != [] ==>
      && LandingsCovered(config, s, es[..|es| - 1])
      && LandingCovered(Run(config, s, es[..|es| - 1]), es[|es| - 1])
  }

  lemma {:induction false} RunOpenings(config: Config, chain: map<ChainKey, OnChainChannel>, es: seq<Event>)
    ensures OpeningsSound(Run(config, Started(chain), es))
  {
    hide Step;
    if es == [] {
    } else {
      RunOpenings(config, chain, es[..|es| - 1]);
      OpeningsStay(config, Run(config, Started(chain), es[..|es| - 1]), es[|es| - 1]);
    }
  }

  /** No overdraft: in whatever order the cut handlers interleave, all along a run every stored deposit
      is on the chain of its record, and spent <= highest accepted voucher <= that deposit while the
      channel is not finalized, exactly when every landing top-up finds its deposit there, and every
      landing voucher that raises an unfinalized record its amount. */
  lemma {:induction false} NoOverdraft(config: Config, chain: map<ChainKey, OnChainChannel>, es: seq<Event>)
    ensures AlwaysSound(config, Started(chain), es) <==> LandingsCovered(config, Started(chain), es)
  {
    hide Step, LandingCovered;
    if es == [] {
    } else {
      var front := es[..|es| - 1];
      NoOverdraft(config, chain, front);
      RunOpenings(config, chain, front);
      if Sound(Run(config, Started(chain), front)) {
        StepSoundExactly(config, Run(config, Started(chain), front), es[|es| - 1]);
      }
    }
  }

  // ---------- Finalized channels too ----------

  ghost predicate Solvent(s: System) {
    forall id | id in s.channels ::
      s.channels[id].spent <= s.channels[id].highestAmount <= OnChainDeposit(s, s.channels[id].place, id)
  }

  /** The tests a landing update does not make when closed records count as well: the amount of a close
      covers what is spent by now and is on the chain, and so is that of any voucher that raises. */
  ghost predicate WriteCovered(s: System, e: Event) {
    e.Lands? && Enabled(s, e) && e.landing.id in s.channels ==>
      var c := s.channels[e.landing.id];
      var onChain := OnChainDeposit(s, c.place, e.landing.id);
      match e.landing.commit
      case VoucherCommit(amount, _) => amount > c.highestAmount ==> amount <= onChain
      case CloseCommit(amount, _) => c.spent <= amount <= onChain
      case _ => true
  }

  lemma LandSolventExactly(s: System, landing: Landing)
    requires Solvent(s)
    requires landing.commit.OpenCommit? ==>
               var state := landing.commit.state;
               state.spent <= state.highestAmount <= OnChainDeposit(s, state.place, landing.id)
    ensures Solvent(s.(channels := Land(s.channels, landing)))
            <==>
            (landing.id in s.channels ==>
               var c := s.channels[landing.id];
               var onChain := OnChainDeposit(s, c.place, landing.id);
               match landing.commit
               case VoucherCommit(amount, _) => amount > c.highestAmount ==> amount <= onChain
               case CloseCommit(amount, _) => c.spent <= amount <= onChain
               case _ => true)
  {
    hide ParseHexBytes;
    var s' := s.(channels := Land(s.channels, landing));
    forall id | id in s'.channels && id != landing.id
      ensures var c := s'.channels[id]; c.spent <= c.highestAmount <= OnChainDeposit(s', c.place, id)
    {
      assert Lookup(s'.channels, id) == Lookup(s.channels, id);
    }
    assert landing.id in s'.channels ==> Lookup(s'.channels, landing.id) == Some(s'.channels[landing.id]);
  }

  lemma SameChainSolvent(s: System, t: System)
    requires s.channels == t.channels && s.chain == t.chain
    ensures Solvent(s) <==> Solvent(t)
  {
    hide ParseHexBytes;
    assert forall place, id :: OnChainDeposit(s, place, id) == OnChainDeposit(t, place, id);
  }

  lemma StepSolventExactly(config: Config, s: System, e: Event)
    requires Solvent(s) && OpeningsSound(s)
    ensures Solvent(Step(config, s, e)) <==> WriteCovered(s, e)
  {
    hide Added, Land, OnChainDeposit, Enabled;
    if Enabled(s, e) {
      if LandingOf(e).Some? {
        if e.Lands? { LandsPending(s, e.landing); }
        LandSolventExactly(s, LandingOf(e).value);
        SameChainSolvent(Step(config, s, e), s.(channels := Land(s.channels, LandingOf(e).value)));
      } else {
        forall id | id in s.channels
          ensures s.channels[id].highestAmount <= OnChainDeposit(Step(config, s, e), s.channels[id].place, id)
        {
          DepositGrows(config, s, e, s.channels[id].place, id);
        }
      }
    }
  }

  /** Solvent at every point of the run. */
  ghost predicate AlwaysSolvent(config: Config, s: System, es: seq<Event>) {
    && Solvent(Run(config, s, es))
    && (es != [] ==> AlwaysSolvent(config, s, es[..|es| - 1]))
  }

  /** Every write of the run is covered where it lands. */
  ghost predicate WritesCovered(config: Config, s: System, es: seq<Event>) {
    es != [] ==>
      && WritesCovered(config, s, es[..|es| - 1])
      && WriteCovered(Run(config, s, es[..|es| - 1]), es[|es| - 1])
  }

  /** Over a whole run, closed channels included, every record stays covered exactly when every close
      that lands finds its amount between what is spent and what is deposited, and every voucher that
      raises finds its amount deposited. */
  lemma {:induction false} SolventExactly(config: Config, chain: map<ChainKey, OnChainChannel>, es: seq<Event>)
    ensures AlwaysSolvent(config, Started(chain), es) <==> WritesCovered(config, Started(chain), es)
  {
    hide Step, WriteCovered;
    if es == [] {
    } else {
      var front := es[..|es| - 1];
      SolventExactly(config, chain, front);
      RunOpenings(config, chain, front);
      if Solvent(Run(config, Started(chain), front)) {
        StepSolventExactly(config, Run(config, Started(chain), front), es[|es| - 1]);
      }
    }
  }

  // ---------- One contract a channel ----------

  /** Every request for a channel names the same contract. */
  ghost predicate Homed(home: string -> Place, e: Event) {
    && (e.BeginOpen? && e.p.Open? ==> PlaceOf(e.details) == home(e.p.channelId))
    && (e.BeginTopUp? && e.p.TopUp? ==> PlaceOf(e.details) == home(e.p.channelId))
  }

  ghost predicate PendingAtHome(s: System, home: string -> Place, w: Pending) {
    match w
    case TopUpWaiting(p, details, _) => p.TopUp? && PlaceOf(details) == home(p.channelId)
    case Ready(Landing(id, commit)) =>
      var onChain := OnChainDeposit(s, home(id), id);
      match commit
      case OpenCommit(state) => state.place == home(id)
      case TopUpCommit(deposit) => deposit <= onChain
      case VoucherCommit(amount, _) => amount <= onChain
      case _ => true
  }

  /** The induction hypothesis needs the handlers in flight. */
  ghost predicate AtHome(s: System, home: string -> Place) {
    && (forall id | id in s.channels :: s.channels[id].place == home(id))
    && (forall w | w in s.pending :: PendingAtHome(s, home, w))
  }

  lemma AddedAtHome(config: Config, home: string -> Place, s: System, e: Event)
    requires AtHome(s, home) && Sound(s) && Homed(home, e) && Enabled(s, e) && Added(config, s, e).Some?
    ensures PendingAtHome(s, home, Added(config, s, e).value)
  {
    hide ParseU64, CheckSignature;
    if e.CheckTopUp? {
      assert PendingAtHome(s, home, e.waiting);
    }
  }

  lemma PendingStaysAtHome(config: Config, s: System, e: Event, home: string -> Place, w: Pending)
    requires PendingAtHome(s, home, w)
    ensures PendingAtHome(Step(config, s, e), home, w)
  {
    hide Step, OnChainDeposit;
    if w.Ready? {
      DepositGrows(config, s, e, home(w.landing.id), w.landing.id);
    }
  }

  lemma LandsAtHome(home: string -> Place, s: System, landing: Landing, id: string)
    requires AtHome(s, home) && PendingAtHome(s, home, Ready(landing))
    requires id in Land(s.channels, landing)
    ensures Land(s.channels, landing)[id].place == home(id)
  {
    hide OnChainDeposit;
    assert Lookup(Land(s.channels, landing), id) == Some(Land(s.channels, landing)[id]);
    if id != landing.id {
      assert Lookup(Land(s.channels, landing), id) == Lookup(s.channels, id);
    }
  }

  lemma HomeCovers(home: string -> Place, s: System, e: Event)
    requires AtHome(s, home)
    ensures LandingCovered(s, e)
    ensures WriteCovered(s, e) <==> CloseCovered(s, e)
  {
    hide OnChainDeposit;
    if e.Lands? && Enabled(s, e) {
      assert PendingAtHome(s, home, Ready(e.landing));
    }
  }

  lemma RecordsAtHome(config: Config, home: string -> Place, s: System, e: Event, id: string)
    requires AtHome(s, home) && id in Step(config, s, e).channels
    ensures Step(config, s, e).channels[id].place == home(id)
  {
    hide Added, Land, Enabled, OnChainDeposit;
    if Enabled(s, e) && LandingOf(e).Some? {
      if e.Lands? { LandsPending(s, e.landing); }
      assert PendingAtHome(s, home, Ready(LandingOf(e).value));
      LandsAtHome(home, s, LandingOf(e).value, id);
    }
  }

  lemma StepAtHome(config: Config, home: string -> Place, s: System, e: Event)
    requires AtHome(s, home) && Sound(s) && Homed(home, e)
    ensures AtHome(Step(config, s, e), home)
  {
    hide Added, Land, Enabled, PendingAtHome, Sound, Homed;
    var s' := Step(config, s, e);
    forall id | id in s'.channels ensures s'.channels[id].place == home(id) {
      RecordsAtHome(config, home, s, e, id);
    }
    forall w | w in s'.pending ensures PendingAtHome(s', home, w) {
      if w !in s.pending {
        AddedAtHome(config, home, s, e);
      }
      PendingStaysAtHome(config, s, e, home, w);
    }
  }

  lemma {:induction false} RunAtHome(config: Config, home: string -> Place, chain: map<ChainKey, OnChainChannel>,
                                     es: seq<Event>)
    requires forall k | 0 <= k < |es| :: Homed(home, es[k])
    ensures AtHome(Run(config, Started(chain), es), home) && LandingsCovered(config, Started(chain), es)
    ensures AlwaysSound(config, Started(chain), es)
  {
    hide Step, LandingCovered, Homed;
    if es == [] {
    } else {
      RunAtHome(config, home, chain, es[..|es| - 1]);
      HomeCovers(home, Run(config, Started(chain), es[..|es| - 1]), es[|es| - 1]);
      StepAtHome(config, home, Run(config, Started(chain), es[..|es| - 1]), es[|es| - 1]);
    }
    NoOverdraft(config, chain, es);
  }

  /** With one contract a channel no record is ever overdrawn. */
  lemma OneContractSuffices(config: Config, home: string -> Place, chain: map<ChainKey, OnChainChannel>,
                            es: seq<Event>, id: string)
    requires forall k | 0 <= k < |es| :: Homed(home, es[k])
    ensures AlwaysSound(config, Started(chain), es)
    ensures var s := Run(config, Started(chain), es);
            id in s.channels ==>
              var c := s.channels[id];
              var onChain := OnChainDeposit(s, c.place, id);
              c.deposit <= onChain && (!c.finalized ==> c.spent <= c.highestAmount <= onChain)
  {
    hide Step, Homed;
    RunAtHome(config, home, chain, es);
  }

  /** The amount of a landing close is between what is spent by now and what is deposited. */
  ghost predicate CloseCovered(s: System, e: Event) {
    e.Lands? && Enabled(s, e) && e.landing.commit.CloseCommit? && e.landing.id in s.channels ==>
      var c := s.channels[e.landing.id];
      c.spent <= e.landing.commit.amount <= OnChainDeposit(s, c.place, e.landing.id)
  }

  ghost predicate ClosesCovered(config: Config, s: System, es: seq<Event>) {
    es != [] ==>
      && ClosesCovered(config, s, es[..|es| - 1])
      && CloseCovered(Run(config, s, es[..|es| - 1]), es[|es| - 1])
  }

  lemma {:induction false} HomedWrites(config: Config, home: string -> Place, chain: map<ChainKey, OnChainChannel>,
                                       es: seq<Event>)
    requires forall k | 0 <= k < |es| :: Homed(home, es[k])
    ensures WritesCovered(config, Started(chain), es) <==> ClosesCovered(config, Started(chain), es)
  {
    hide Step, WriteCovered, CloseCovered, Homed;
    if es == [] {
    } else {
      HomedWrites(config, home, chain, es[..|es| - 1]);
      RunAtHome(config, home, chain, es[..|es| - 1]);
      HomeCovers(home, Run(config, Started(chain), es[..|es| - 1]), es[|es| - 1]);
    }
  }

  /** With one contract a channel, only closes can uncover a record. */
  lemma ClosesDecide(config: Config, home: string -> Place, chain: map<ChainKey, OnChainChannel>, es: seq<Event>)
    requires forall k | 0 <= k < |es| :: Homed(home, es[k])
    ensures AlwaysSolvent(config, Started(chain), es) <==> ClosesCovered(config, Started(chain), es)
  {
    hide Step, Homed;
    SolventExactly(config, chain, es);
    HomedWrites(config, home, chain, es);
  }

  // ---------- Runs that uncover a record ----------

  lemma BothChecked(config: Config, s: System, close: Payload, voucher: Payload, details: Details,
                    closing: Landing, raising: Landing)
    requires close.Close? && voucher.VoucherPayload?
    requires Added(config, s, BeginClose(close)) == Some(Ready(closing))
    requires Added(config, s, BeginVoucher(voucher, details)) == Some(Ready(raising))
    ensures Run(config, s, [BeginClose(close), BeginVoucher(voucher, details)]) ==
            s.(pending := s.pending + multiset{Ready(closing)} + multiset{Ready(raising)})
  {
    hide Step, Run, VoucherVerdict, CloseVerdict;
    RunTwo(config, s, BeginClose(close), BeginVoucher(voucher, details));
    Begins(config, s, BeginClose(close), Ready(closing));
    var s1 := s.(pending := s.pending + multiset{Ready(closing)});
    assert Added(config, s1, BeginVoucher(voucher, details)) == Added(config, s, BeginVoucher(voucher, details));
    Begins(config, s1, BeginVoucher(voucher, details), Ready(raising));
  }

  lemma RaisedThenSpent(config: Config, s: System, id: string, amount: U64, signature: Bytes)
    requires id in s.channels && Ready(Landing(id, VoucherCommit(amount, signature))) in s.pending
    requires s.channels[id].spent <= s.channels[id].highestAmount < amount
    ensures var e0, e1 := Lands(Landing(id, VoucherCommit(amount, signature))),
                          Deduct(id, amount - s.channels[id].spent);
            var s' := Run(config, s, [e0, e1]);
            && id in s'.channels && s'.channels[id].spent == amount
            && s'.pending == s.pending - multiset{Ready(Landing(id, VoucherCommit(amount, signature)))}
  {
    hide Step, Run;
    var raising, charge := Landing(id, VoucherCommit(amount, signature)), amount - s.channels[id].spent;
    RunTwo(config, s, Lands(raising), Deduct(id, charge));
    LandsNow(config, s, raising);
    var s1 := s.(channels := Land(s.channels, raising), pending := s.pending - multiset{Ready(raising)});
    DeductsNow(config, s1, id, charge);
    assert Lookup(s1.channels, id).value.highestAmount == amount;
  }

  lemma CloseLands(config: Config, s: System, id: string, amount: U64, signature: Bytes)
    requires id in s.channels && Ready(Landing(id, CloseCommit(amount, signature))) in s.pending
    ensures var s' := Run(config, s, [Lands(Landing(id, CloseCommit(amount, signature)))]);
            && id in s'.channels && s'.channels[id].spent == s.channels[id].spent
            && s'.channels[id].highestAmount == amount && s'.channels[id].finalized
  {
    hide Step, Run;
    RunOne(config, s, Lands(Landing(id, CloseCommit(amount, signature))));
    LandsNow(config, s, Landing(id, CloseCommit(amount, signature)));
  }

  /** A close looks at no deposit: an accepted one of any amount lands above what is on the chain. */
  lemma CloseAboveDeposit(config: Config, open: Payload, close: Payload, a: Details, channel: OnChainChannel,
                          now: string)
    returns (chain: map<ChainKey, OnChainChannel>, es: seq<Event>)
    requires open.Open? && close.Close? && close.channelId == open.channelId
    requires OpenVerdict(config, open, a, Ok(()), Ok(channel), now).Ok?
    requires var state := OpenVerdict(config, open, a, Ok(()), Ok(channel), now).value;
             var verdict := CloseVerdict(config, Some(state), close);
             verdict.Ok? && verdict.value.0 > channel.deposit
    ensures var s := Run(config, Started(chain), es);
            && open.channelId in s.channels && s.channels[open.channelId].finalized
            && s.channels[open.channelId].highestAmount
               > OnChainDeposit(s, s.channels[open.channelId].place, open.channelId)
  {
    hide Run, Step, CheckSignature, VoucherVerdict, TopUpVerdict, CloseVerdict, ParseHexBytes;
    var id := open.channelId;
    var state := OpenVerdict(config, open, a, Ok(()), Ok(channel), now).value;
    var (amount, signature) := CloseVerdict(config, Some(state), close).value;
    chain := map[ChainKey(PlaceOf(a), ParseHexBytes(id).value) := channel];
    var opening := BeginOpen(open, a, Ok(()), Ok(channel), now);
    var closing := Landing(id, CloseCommit(amount, signature));
    var first := [opening, Lands(Landing(id, OpenCommit(state)))];
    OpensAndLands(config, Started(chain), opening, Landing(id, OpenCommit(state)), state);
    var s2 := Run(config, Started(chain), first);
    assert s2 == Started(chain).(channels := Started(chain).channels[id := state]);
    ClosesAndLands(config, s2, close, amount, signature);
    es := first + [BeginClose(close), Lands(closing)];
    RunAppend(config, Started(chain), first, [BeginClose(close), Lands(closing)]);
  }

  lemma ClosesAndLands(config: Config, s: System, close: Payload, amount: U64, signature: Bytes)
    requires close.Close? && close.channelId in s.channels
    requires CloseVerdict(config, Some(s.channels[close.channelId]), close) == Ok((amount, signature))
    ensures var id := close.channelId;
            Run(config, s, [BeginClose(close), Lands(Landing(id, CloseCommit(amount, signature)))]) ==
            s.(channels := s.channels[id := s.channels[id].(highestAmount := amount,
                                                            highestSignature := Some(signature), finalized := true)])
  {
    hide Step, Run, CloseVerdict;
    var closing := Landing(close.channelId, CloseCommit(amount, signature));
    RunTwo(config, s, BeginClose(close), Lands(closing));
    Begins(config, s, BeginClose(close), Ready(closing));
    LandsNow(config, s.(pending := s.pending + multiset{Ready(closing)}), closing);
    assert s.pending + multiset{Ready(closing)} - multiset{Ready(closing)} == s.pending;
  }

  /** A stale close undercuts: checked before a larger voucher lands and is spent, it still writes
      its smaller amount over it. */
  lemma StaleCloseUndercuts(config: Config, s: System, close: Payload, voucher: Payload, details: Details,
                            id: string, amount: U64, signature: Bytes, larger: U64, signature': Bytes)
    returns (es: seq<Event>)
    requires id in s.channels && s.channels[id].spent <= s.channels[id].highestAmount <= amount < larger
    requires close.Close? && voucher.VoucherPayload?
    requires Added(config, s, BeginClose(close)) == Some(Ready(Landing(id, CloseCommit(amount, signature))))
    requires Added(config, s, BeginVoucher(voucher, details)) ==
             Some(Ready(Landing(id, VoucherCommit(larger, signature'))))
    ensures |es| == 5
    ensures var s' := Run(config, s, es);
            id in s'.channels && s'.channels[id].finalized && s'.channels[id].highestAmount < s'.channels[id].spent
  {
    hide *;
    var closing, raising := Landing(id, CloseCommit(amount, signature)), Landing(id, VoucherCommit(larger, signature'));
    var first := [BeginClose(close), BeginVoucher(voucher, details)];
    var second := [Lands(raising), Deduct(id, larger - s.channels[id].spent)];
    var third := [Lands(closing)];
    BothChecked(config, s, close, voucher, details, closing, raising);
    var s2 := Run(config, s, first);
    RaisedThenSpent(config, s2, id, larger, signature');
    var s4 := Run(config, s2, second);
    assert Ready(closing) in s4.pending;
    CloseLands(config, s4, id, amount, signature);
    es := first + second + third;
    RunAppend(config, s, first + second, third);
    RunAppend(config, s, first, second);
  }

  lemma TopsUp(config: Config, s: System, p: Payload, details: Details, reply: OnChainChannel)
    requires p.TopUp? && p.channelId in s.channels && Honest(s, PlaceOf(details), p.channelId, Ok(reply))
    requires ParseHexBytes(p.channelId).Some? && reply.deposit > s.channels[p.channelId].deposit
    ensures var w := TopUpWaiting(p, details, Some(s.channels[p.channelId]));
            Run(config, s, [BeginTopUp(p, details), CheckTopUp(w, Ok(()), Ok(reply))]) ==
            s.(pending := s.pending + multiset{Ready(Landing(p.channelId, TopUpCommit(reply.deposit)))})
  {
    hide Step, Run, OpenVerdict, VoucherVerdict, CloseVerdict;
    var w := TopUpWaiting(p, details, Some(s.channels[p.channelId]));
    RunTwo(config, s, BeginTopUp(p, details), CheckTopUp(w, Ok(()), Ok(reply)));
    Begins(config, s, BeginTopUp(p, details), w);
    ChecksTopUp(config, s.(pending := s.pending + multiset{w}), w, Ok(()), Ok(reply), reply.deposit);
    assert s.pending + multiset{w} - multiset{w} == s.pending;
  }

  lemma TopUpLands(config: Config, s: System, id: string, deposit: U64)
    requires id in s.channels && Ready(Landing(id, TopUpCommit(deposit))) in s.pending
    ensures var s' := Run(config, s, [Lands(Landing(id, TopUpCommit(deposit)))]);
            && s'.chain == s.chain && id in s'.channels
            && s'.channels[id].deposit == deposit && s'.channels[id].place == s.channels[id].place
  {
    hide Step, Run;
    RunOne(config, s, Lands(Landing(id, TopUpCommit(deposit))));
    LandsNow(config, s, Landing(id, TopUpCommit(deposit)));
  }

  lemma OpensThenTopsUp(config: Config, s: System, e: Event, id: string, state: ChannelState, topUp: Payload,
                        b: Details, more: OnChainChannel)
    returns (es: seq<Event>)
    requires Enabled(s, e) && e.BeginOpen? && Added(config, s, e) == Some(Ready(Landing(id, OpenCommit(state))))
    requires topUp.TopUp? && topUp.channelId == id && Honest(s, PlaceOf(b), id, Ok(more))
    requires ParseHexBytes(id).Some? && more.deposit > state.deposit
    ensures |es| == 5 && es[0] == e && es[1].Lands? && es[2] == BeginTopUp(topUp, b)
            && es[3].CheckTopUp? && es[4].Lands?
    ensures var s' := Run(config, s, es);
            && s'.chain == s.chain && id in s'.channels
            && s'.channels[id].deposit == more.deposit && s'.channels[id].place == state.place
  {
    hide Run, Step, Added, Enabled, ParseHexBytes;
    var opening := Landing(id, OpenCommit(state));
    var s2 := s.(channels := s.channels[id := state]);
    var topped := Landing(id, TopUpCommit(more.deposit));
    var s4 := s2.(pending := s2.pending + multiset{Ready(topped)});
    var w := TopUpWaiting(topUp, b, Some(state));
    var first, third := [e, Lands(opening)], [Lands(topped)];
    var second := [BeginTopUp(topUp, b), CheckTopUp(w, Ok(()), Ok(more))];
    OpensAndLands(config, s, e, opening, state);
    TopsUp(config, s2, topUp, b, more);
    TopUpLands(config, s4, id, more.deposit);
    es := first + second + third;
    RunAppend(config, s, first + second, third);
    RunAppend(config, s, first, second);
  }

  /** With two contracts for one channel a stored deposit need not be on the recorded chain: a
      top-up reads whatever contract its own request names. */
  lemma TwoContractsBreak(config: Config, open: Payload, topUp: Payload, a: Details, b: Details,
                          channel: OnChainChannel, now: string)
    returns (chain: map<ChainKey, OnChainChannel>, es: seq<Event>)
    requires open.Open? && topUp.TopUp? && topUp.channelId == open.channelId && PlaceOf(a) != PlaceOf(b)
    requires OpenVerdict(config, open, a, Ok(()), Ok(channel), now).Ok? && channel.deposit + 1 < TWO_64
    ensures forall k | 0 <= k < |es| ::
              && (es[k].BeginOpen? ==> es[k].details == a)
              && (es[k].BeginTopUp? ==> es[k].details == b)
    ensures var s := Run(config, Started(chain), es);
            open.channelId in s.channels
            && s.channels[open.channelId].place == PlaceOf(a)
            && s.channels[open.channelId].deposit > OnChainDeposit(s, PlaceOf(a), open.channelId)
  {
    hide Run, Step, VoucherVerdict, CloseVerdict, TopUpVerdict, CheckSignature;
    var more := channel.(deposit := channel.deposit + 1);
    var bytes := ParseHexBytes(open.channelId).value;
    chain := map[ChainKey(PlaceOf(a), bytes) := channel, ChainKey(PlaceOf(b), bytes) := more];
    var state := OpenVerdict(config, open, a, Ok(()), Ok(channel), now).value;
    es := OpensThenTopsUp(config, Started(chain), BeginOpen(open, a, Ok(()), Ok(channel), now), open.channelId, state,
                          topUp, b, more);
  }
}
