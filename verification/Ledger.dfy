/** The accounting of deductions over whole runs. */
module Ledger {
  import opened Text
  import opened ChannelStore
  import opened SessionMethod
  import opened SessionProtocol
  import opened Overdraft

  /** Successful deductions since the channel was last opened: their sum and their number. */
  datatype Account = Account(total: nat, count: nat)

  /** The bookkeeper's rule: an opening clears the account, a deduction that succeeds is entered,
      and nothing else is. */
  function Entered(a: Account, channels: Channels, landing: Landing, id: string): Account {
    if landing.id != id then a
    else
      match landing.commit
      case OpenCommit(_) => Account(0, 0)
      case DeductCommit(charge) =>
        if Updated(landing.commit, Lookup(channels, id)).Ok? then Account(a.total + charge, a.count + 1) else a
      case _ => a
  }

  ghost function Booked(a: Account, s: System, e: Event, id: string): Account {
    if Enabled(s, e) && LandingOf(e).Some? then Entered(a, s.channels, LandingOf(e).value, id) else a
  }

  ghost function AccountAfter(config: Config, s: System, es: seq<Event>, id: string): Account {
    if es == [] then Account(0, 0)
    else
      var front := es[..|es| - 1];
      Booked(AccountAfter(config, s, front, id), Run(config, s, front), es[|es| - 1], id)
  }

  ghost predicate Agrees(s: System, id: string, a: Account) {
    id in s.channels ==> s.channels[id].spent == a.total && s.channels[id].units == a.count % TWO_64
  }

  lemma LandAgrees(s: System, landing: Landing, id: string, a: Account)
    requires id in s.channels ==> s.channels[id].spent == a.total && s.channels[id].units == a.count % TWO_64
    requires landing.id == id && landing.commit.OpenCommit? ==>
               landing.commit.state.spent == 0 && landing.commit.state.units == 0
    ensures var after, b := Land(s.channels, landing), Entered(a, s.channels, landing, id);
            id in after ==> after[id].spent == b.total && after[id].units == b.count % TWO_64
  {
    var after := Land(s.channels, landing);
    if id in after {
      assert Lookup(after, id) == Some(after[id]);
      if landing.id != id {
        assert Lookup(after, id) == Lookup(s.channels, id);
      }
    }
  }

  lemma AddedOpening(config: Config, s: System, e: Event, id: string, state: ChannelState)
    requires Added(config, s, e) == Some(Ready(Landing(id, OpenCommit(state))))
    ensures state.spent == 0 && state.units == 0
  {
    hide ParseU64, ParseHexBytes, CheckSignature;
  }

  ghost predicate OpeningsClear(s: System, id: string) {
    forall state | Ready(Landing(id, OpenCommit(state))) in s.pending :: state.spent == 0 && state.units == 0
  }

  lemma StepClears(config: Config, s: System, e: Event, id: string)
    requires OpeningsClear(s, id)
    ensures OpeningsClear(Step(config, s, e), id)
  {
    hide Added, Land, Enabled;
    forall state | Ready(Landing(id, OpenCommit(state))) in Step(config, s, e).pending
      ensures state.spent == 0 && state.units == 0
    {
      if Ready(Landing(id, OpenCommit(state))) !in s.pending {
        AddedOpening(config, s, e, id, state);
      }
    }
  }

  lemma StepAgrees(config: Config, s: System, e: Event, id: string, a: Account)
    requires Agrees(s, id, a) && OpeningsClear(s, id)
    ensures Agrees(Step(config, s, e), id, Booked(a, s, e, id))
  {
    hide Added, Land, Enabled, Entered;
    if Enabled(s, e) && LandingOf(e).Some? {
      if e.Lands? { LandsPending(s, e.landing); }
      LandAgrees(s, LandingOf(e).value, id, a);
    }
  }

  lemma {:induction false} RunAgrees(config: Config, chain: map<ChainKey, OnChainChannel>, es: seq<Event>, id: string)
    ensures Agrees(Run(config, Started(chain), es), id, AccountAfter(config, Started(chain), es, id))
    ensures OpeningsClear(Run(config, Started(chain), es), id)
  {
    hide Step, Booked;
    if es == [] {
    } else {
      var front := es[..|es| - 1];
      RunAgrees(config, chain, front, id);
      StepClears(config, Run(config, Started(chain), front), es[|es| - 1], id);
      StepAgrees(config, Run(config, Started(chain), front), es[|es| - 1], id,
                 AccountAfter(config, Started(chain), front, id));
    }
  }

  /** Conservation: after any run, what a channel has spent is the exact sum of its successful
      deductions since it was last opened, and its units are their number, modulo 2^64. */
  lemma Conserved(config: Config, chain: map<ChainKey, OnChainChannel>, es: seq<Event>, id: string)
    requires id in Run(config, Started(chain), es).channels
    ensures var c := Run(config, Started(chain), es).channels[id];
            var a := AccountAfter(config, Started(chain), es, id);
            c.spent == a.total && c.units == a.count % TWO_64
  {
    hide Step, AccountAfter;
    RunAgrees(config, chain, es, id);
  }

  // ---------- Across openings ----------

  /** What a channel's record says is spent. */
  function SpentOf(channels: Channels, id: string): nat {
    if id in channels then channels[id].spent else 0
  }

  /** All successful deductions ever, and what openings overwrote. */
  datatype Lifetime = Lifetime(total: nat, overwritten: nat)

  function Carried(l: Lifetime, channels: Channels, landing: Landing, id: string): Lifetime {
    if landing.id != id then l
    else
      match landing.commit
      case OpenCommit(_) => l.(overwritten := l.overwritten + SpentOf(channels, id))
      case DeductCommit(charge) =>
        if Updated(landing.commit, Lookup(channels, id)).Ok? then l.(total := l.total + charge) else l
      case _ => l
  }

  ghost function Lived(l: Lifetime, s: System, e: Event, id: string): Lifetime {
    if Enabled(s, e) && LandingOf(e).Some? then Carried(l, s.channels, LandingOf(e).value, id) else l
  }

  ghost function LifetimeAfter(config: Config, s: System, es: seq<Event>, id: string): Lifetime {
    if es == [] then Lifetime(0, 0)
    else
      var front := es[..|es| - 1];
      Lived(LifetimeAfter(config, s, front, id), Run(config, s, front), es[|es| - 1], id)
  }

  lemma LandCarries(channels: Channels, landing: Landing, id: string, l: Lifetime)
    requires l.total == SpentOf(channels, id) + l.overwritten
    requires landing.id == id && landing.commit.OpenCommit? ==> landing.commit.state.spent == 0
    ensures var after, m := Land(channels, landing), Carried(l, channels, landing, id);
            m.total == SpentOf(after, id) + m.overwritten
  {
    var after := Land(channels, landing);
    assert SpentOf(after, id) == if Lookup(after, id).Some? then Lookup(after, id).value.spent else 0;
    assert landing.id != id ==> Lookup(after, id) == Lookup(channels, id);
  }

  lemma StepCarries(config: Config, s: System, e: Event, id: string, l: Lifetime)
    requires OpeningsClear(s, id) && l.total == SpentOf(s.channels, id) + l.overwritten
    ensures var m := Lived(l, s, e, id);
            m.total == SpentOf(Step(config, s, e).channels, id) + m.overwritten
  {
    hide Added, Land, Enabled, Carried;
    if Enabled(s, e) && LandingOf(e).Some? {
      if e.Lands? { LandsPending(s, e.landing); }
      LandCarries(s.channels, LandingOf(e).value, id, l);
    }
  }

  /** Lifetime conservation: all successful deductions a channel id ever saw are what its record says is
      spent and what openings overwrote. */
  lemma {:induction false} LifetimeConserved(config: Config, chain: map<ChainKey, OnChainChannel>, es: seq<Event>,
                                             id: string)
    ensures var l := LifetimeAfter(config, Started(chain), es, id);
            l.total == SpentOf(Run(config, Started(chain), es).channels, id) + l.overwritten
  {
    hide Step, Lived, OpeningsClear;
    if es == [] {
    } else {
      var front := es[..|es| - 1];
      LifetimeConserved(config, chain, front, id);
      RunAgrees(config, chain, front, id);
      StepCarries(config, Run(config, Started(chain), front), es[|es| - 1], id,
                  LifetimeAfter(config, Started(chain), front, id));
    }
  }

  /** The test a landing opening does not make: it overwrites no spending. */
  ghost predicate OpensUnspent(s: System, e: Event, id: string) {
    e.Lands? && Enabled(s, e) && e.landing.id == id && e.landing.commit.OpenCommit? ==> SpentOf(s.channels, id) == 0
  }

  ghost predicate OpeningsUnspent(config: Config, s: System, es: seq<Event>, id: string) {
    es != [] ==>
      && OpeningsUnspent(config, s, es[..|es| - 1], id)
      && OpensUnspent(Run(config, s, es[..|es| - 1]), es[|es| - 1], id)
  }

  lemma {:induction false} OverwrittenExactly(config: Config, s: System, es: seq<Event>, id: string)
    ensures LifetimeAfter(config, s, es, id).overwritten == 0 <==> OpeningsUnspent(config, s, es, id)
  {
    hide Step, Enabled;
    if es == [] {
    } else {
      OverwrittenExactly(config, s, es[..|es| - 1], id);
    }
  }

  /** After a run the record tells all that was ever deducted exactly when no opening of the run landed
      on a record with spending. */
  lemma NothingForgotten(config: Config, chain: map<ChainKey, OnChainChannel>, es: seq<Event>, id: string)
    ensures LifetimeAfter(config, Started(chain), es, id).total == SpentOf(Run(config, Started(chain), es).channels, id)
            <==> OpeningsUnspent(config, Started(chain), es, id)
  {
    hide Run, LifetimeAfter, OpeningsUnspent;
    LifetimeConserved(config, chain, es, id);
    OverwrittenExactly(config, Started(chain), es, id);
  }

  /** Then all that was ever deducted is within the highest voucher and within the deposit on the
      chain, as long as the channel is not finalized and the landing updates were covered. */
  lemma LifetimeWithinDeposit(config: Config, chain: map<ChainKey, OnChainChannel>, es: seq<Event>, id: string)
    requires OpeningsUnspent(config, Started(chain), es, id) && LandingsCovered(config, Started(chain), es)
    ensures var s := Run(config, Started(chain), es);
            id in s.channels && !s.channels[id].finalized ==>
              LifetimeAfter(config, Started(chain), es, id).total
              <= s.channels[id].highestAmount <= OnChainDeposit(s, s.channels[id].place, id)
  {
    hide Run, LifetimeAfter, OpeningsUnspent, LandingsCovered, OnChainDeposit;
    NothingForgotten(config, chain, es, id);
    NoOverdraft(config, chain, es);
    assert Sound(Run(config, Started(chain), es));
  }

  // ---------- The same opening twice ----------

  lemma DeductsAll(config: Config, s: System, id: string)
    requires id in s.channels && s.channels[id].spent == 0
    ensures var c := s.channels[id];
            Run(config, s, [Deduct(id, c.highestAmount)]) ==
            s.(channels := s.channels[id := c.(spent := c.highestAmount, units := (c.units + 1) % TWO_64)])
  {
    hide Step, Run;
    RunOne(config, s, Deduct(id, s.channels[id].highestAmount));
    DeductsNow(config, s, id, s.channels[id].highestAmount);
  }

  /** An opening whose first voucher is then spent in full. */
  ghost function OpenAndSpend(e: Event, id: string, state: ChannelState): seq<Event> {
    [e, Lands(Landing(id, OpenCommit(state)))] + [Deduct(id, state.highestAmount)]
  }

  function Both(l: Lifetime, m: Lifetime): Lifetime {
    Lifetime(l.total + m.total, l.overwritten + m.overwritten)
  }

  lemma LivesAdd(l: Lifetime, m: Lifetime, s: System, e: Event, id: string)
    ensures Lived(Both(l, m), s, e, id) == Both(l, Lived(m, s, e, id))
  {
    hide Enabled, Updated;
  }

  lemma {:induction false} LifetimeAdds(config: Config, s: System, first: seq<Event>, second: seq<Event>, id: string)
    ensures LifetimeAfter(config, s, first + second, id) ==
            Both(LifetimeAfter(config, s, first, id), LifetimeAfter(config, Run(config, s, first), second, id))
  {
    hide Step, Lived, Run;
    if second == [] {
      assert first + second == first;
    } else {
      var n := |second| - 1;
      LifetimeAdds(config, s, first, second[..n], id);
      assert (first + second)[..|first + second| - 1] == first + second[..n];
      RunAppend(config, s, first, second[..n]);
      LivesAdd(LifetimeAfter(config, s, first, id), LifetimeAfter(config, Run(config, s, first), second[..n], id),
               Run(config, s, first + second[..n]), second[n], id);
    }
  }

  lemma LifetimeOne(config: Config, s: System, e: Event, id: string)
    ensures LifetimeAfter(config, s, [e], id) == Lived(Lifetime(0, 0), s, e, id)
  {
    hide Step, Lived;
    assert [e][..0] == [];
  }

  lemma OpeningOverwrites(s: System, e: Event, t: System, id: string, state: ChannelState)
    requires e.BeginOpen? && Ready(Landing(id, OpenCommit(state))) in t.pending && s.channels == t.channels
    ensures Lived(Lifetime(0, 0), s, e, id) == Lifetime(0, 0)
    ensures Lived(Lifetime(0, 0), t, Lands(Landing(id, OpenCommit(state))), id) == Lifetime(0, SpentOf(s.channels, id))
  {
  }

  lemma LifetimeOfOpening(config: Config, s: System, e: Event, id: string, state: ChannelState)
    requires Enabled(s, e) && e.BeginOpen? && Added(config, s, e) == Some(Ready(Landing(id, OpenCommit(state))))
    ensures LifetimeAfter(config, s, [e, Lands(Landing(id, OpenCommit(state)))], id)
            == Lifetime(0, SpentOf(s.channels, id))
  {
    hide *;
    var landing := Landing(id, OpenCommit(state));
    var t := Step(config, s, e);
    assert [e] + [Lands(landing)] == [e, Lands(landing)];
    LifetimeAdds(config, s, [e], [Lands(landing)], id);
    RunOne(config, s, e);
    Begins(config, s, e, Ready(landing));
    LifetimeOne(config, s, e, id);
    LifetimeOne(config, t, Lands(landing), id);
    OpeningOverwrites(s, e, t, id, state);
    BothZero(Lifetime(0, SpentOf(s.channels, id)));
  }

  lemma BothZero(l: Lifetime)
    ensures Both(Lifetime(0, 0), l) == l
  {
  }

  lemma LifetimeOfDeduction(config: Config, s: System, id: string, charge: U64)
    requires Updated(DeductCommit(charge), Lookup(s.channels, id)).Ok?
    ensures LifetimeAfter(config, s, [Deduct(id, charge)], id) == Lifetime(charge, 0)
  {
    hide Step, Updated;
    LifetimeOne(config, s, Deduct(id, charge), id);
  }

  lemma OpensAndSpends(config: Config, s: System, e: Event, id: string, state: ChannelState)
    requires Enabled(s, e) && e.BeginOpen? && Added(config, s, e) == Some(Ready(Landing(id, OpenCommit(state))))
    requires state.spent == 0
    ensures var s' := Run(config, s, OpenAndSpend(e, id, state));
            s' == s.(channels := s.channels[id := state.(spent := state.highestAmount,
                                                         units := (state.units + 1) % TWO_64)])
    ensures LifetimeAfter(config, s, OpenAndSpend(e, id, state), id)
            == Lifetime(state.highestAmount, SpentOf(s.channels, id))
  {
    hide Step, Run, Added, Enabled, LifetimeAfter;
    OpensAndLands(config, s, e, Landing(id, OpenCommit(state)), state);
    RunAppend(config, s, [e, Lands(Landing(id, OpenCommit(state)))], [Deduct(id, state.highestAmount)]);
    DeductsAll(config, s.(channels := s.channels[id := state]), id);
    LifetimeOfSpending(config, s, e, id, state);
  }

  lemma LifetimeOfSpending(config: Config, s: System, e: Event, id: string, state: ChannelState)
    requires Enabled(s, e) && e.BeginOpen? && Added(config, s, e) == Some(Ready(Landing(id, OpenCommit(state))))
    requires state.spent == 0
    ensures LifetimeAfter(config, s, OpenAndSpend(e, id, state), id)
            == Lifetime(state.highestAmount, SpentOf(s.channels, id))
  {
    hide Step, Run, Added, Enabled, LifetimeAfter;
    OpensAndLands(config, s, e, Landing(id, OpenCommit(state)), state);
    LifetimeAdds(config, s, [e, Lands(Landing(id, OpenCommit(state)))], [Deduct(id, state.highestAmount)], id);
    LifetimeOfOpening(config, s, e, id, state);
    LifetimeOfDeduction(config, s.(channels := s.channels[id := state]), id, state.highestAmount);
  }

  /** Nothing stops one opening from being sent again: opened, spent, opened with the same payload in the
      same contract and spent again, a channel has paid out its first voucher twice. With a first
      voucher of more than half the deposit that is more than the chain holds. */
  lemma ReplayedOpening(config: Config, open: Payload, a: Details, channel: OnChainChannel, now: string)
    returns (chain: map<ChainKey, OnChainChannel>, es: seq<Event>)
    requires open.Open? && OpenVerdict(config, open, a, Ok(()), Ok(channel), now).Ok?
    ensures |es| == 6 && es[0] == es[3] == BeginOpen(open, a, Ok(()), Ok(channel), now)
    ensures es[1].Lands? && es[2].Deduct? && es[4].Lands? && es[5].Deduct?
    ensures var s := Run(config, Started(chain), es);
            var first := OpenVerdict(config, open, a, Ok(()), Ok(channel), now).value.highestAmount;
            && LifetimeAfter(config, Started(chain), es, open.channelId).total == 2 * first
            && OnChainDeposit(s, PlaceOf(a), open.channelId) == channel.deposit
  {
    hide Run, Step, LifetimeAfter, CheckSignature, VoucherVerdict, CloseVerdict, TopUpVerdict;
    var id := open.channelId;
    var state := OpenVerdict(config, open, a, Ok(()), Ok(channel), now).value;
    chain := map[ChainKey(PlaceOf(a), ParseHexBytes(id).value) := channel];
    var e := BeginOpen(open, a, Ok(()), Ok(channel), now);
    var once := OpenAndSpend(e, id, state);
    OpensAndSpends(config, Started(chain), e, id, state);
    OpensAndSpends(config, Run(config, Started(chain), once), e, id, state);
    es := once + once;
    LifetimeAdds(config, Started(chain), once, once, id);
    RunAppend(config, Started(chain), once, once);
  }
}
