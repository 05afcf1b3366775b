/** Whether the voucher the server has recorded is one it can settle with. */
module Settlement {
  import opened Text
  import opened ChannelStore
  import opened SessionMethod
  import opened SessionProtocol

  /** The recorded signature verifies for the recorded amount under the recorded key. */
  ghost predicate Settleable(config: Config, id: string, c: ChannelState) {
    c.highestSignature.Some? && Authentic(config, id, c.highestAmount, c.highestSignature.value, c.authorizedSigner)
  }

  ghost predicate AllSettleable(config: Config, s: System) {
    forall id | id in s.channels :: Settleable(config, id, s.channels[id])
  }

  ghost predicate OpeningsSettleable(config: Config, s: System) {
    forall id, state | Ready(Landing(id, OpenCommit(state))) in s.pending :: Settleable(config, id, state)
  }

  /** The pair a commit would write over a record, if it writes one. */
  function Overwrites(commit: Commit, c: ChannelState): Option<(U64, Bytes)> {
    match commit
    case VoucherCommit(amount, signature) => if amount > c.highestAmount then Some((amount, signature)) else None
    case CloseCommit(amount, signature) => Some((amount, signature))
    case _ => None
  }

  /** The test a landing voucher or close does not repeat: its signature verifies under the key
      recorded by now. */
  ghost predicate KeyStillFits(config: Config, s: System, e: Event) {
    e.Lands? && Enabled(s, e) && e.landing.id in s.channels ==>
      var c := s.channels[e.landing.id];
      var pair := Overwrites(e.landing.commit, c);
      pair.Some? ==> Authentic(config, e.landing.id, pair.value.0, pair.value.1, c.authorizedSigner)
  }

  lemma OpeningAuthentic(config: Config, p: Payload, details: Details, tx: TxReply, reply: ChannelReply, now: string)
    requires p.Open? && OpenVerdict(config, p, details, tx, reply, now).Ok?
    ensures Settleable(config, p.channelId, OpenVerdict(config, p, details, tx, reply, now).value)
  {
    hide ParseU64, ParseHexBytes;
  }

  lemma OpeningsStay(config: Config, s: System, e: Event)
    requires OpeningsSettleable(config, s)
    ensures OpeningsSettleable(config, Step(config, s, e))
  {
    hide OpenVerdict, VoucherVerdict, CloseVerdict, TopUpVerdict, Settleable, Land;
    if Enabled(s, e) {
      forall id, state | Ready(Landing(id, OpenCommit(state))) in Step(config, s, e).pending
        ensures Settleable(config, id, state)
      {
        if Ready(Landing(id, OpenCommit(state))) !in s.pending {
          assert Added(config, s, e) == Some(Ready(Landing(id, OpenCommit(state))));
          OpeningAuthentic(config, e.p, e.details, e.tx, e.reply, e.now);
        }
      }
    }
  }

  lemma LandSettleable(config: Config, s: System, landing: Landing)
    requires AllSettleable(config, s)
    requires landing.commit.OpenCommit? ==> Settleable(config, landing.id, landing.commit.state)
    ensures var after := Land(s.channels, landing);
            (forall id | id in after :: Settleable(config, id, after[id]))
            <==>
            (landing.id in s.channels && Overwrites(landing.commit, s.channels[landing.id]).Some? ==>
               var pair := Overwrites(landing.commit, s.channels[landing.id]).value;
               Authentic(config, landing.id, pair.0, pair.1, s.channels[landing.id].authorizedSigner))
  {
    hide Authentic;
    var after := Land(s.channels, landing);
    forall id | id in after && id != landing.id ensures Settleable(config, id, after[id]) {
      assert Lookup(after, id) == Lookup(s.channels, id);
    }
    if landing.id in after {
      assert Lookup(after, landing.id) == Some(after[landing.id]);
    }
  }

  lemma StepSettleableExactly(config: Config, s: System, e: Event)
    requires AllSettleable(config, s) && OpeningsSettleable(config, s)
    ensures AllSettleable(config, Step(config, s, e)) <==> KeyStillFits(config, s, e)
  {
    hide Added, Authentic, Settleable, Land;
    if Enabled(s, e) && LandingOf(e).Some? {
      LandSettleable(config, s, LandingOf(e).value);
    }
  }

  ghost predicate AlwaysSettleable(config: Config, s: System, es: seq<Event>) {
    && AllSettleable(config, Run(config, s, es))
    && (es != [] ==> AlwaysSettleable(config, s, es[..|es| - 1]))
  }

  ghost predicate KeysAlwaysFit(config: Config, s: System, es: seq<Event>) {
    es != [] ==>
      && KeysAlwaysFit(config, s, es[..|es| - 1])
      && KeyStillFits(config, Run(config, s, es[..|es| - 1]), es[|es| - 1])
  }

  lemma {:induction false} RunOpenings(config: Config, chain: map<ChainKey, OnChainChannel>, es: seq<Event>)
    ensures OpeningsSettleable(config, Run(config, Started(chain), es))
  {
    hide Step;
    if es == [] {
    } else {
      RunOpenings(config, chain, es[..|es| - 1]);
      OpeningsStay(config, Run(config, Started(chain), es[..|es| - 1]), es[|es| - 1]);
    }
  }

  /** Over a whole run the server can always settle what it has recorded exactly when no voucher or
      close, checked under one key, lands on a record that meanwhile carries another. */
  lemma {:induction false} SettleableExactly(config: Config, chain: map<ChainKey, OnChainChannel>, es: seq<Event>)
    ensures AlwaysSettleable(config, Started(chain), es) <==> KeysAlwaysFit(config, Started(chain), es)
  {
    hide Step, KeyStillFits;
    if es == [] {
    } else {
      var front := es[..|es| - 1];
      SettleableExactly(config, chain, front);
      RunOpenings(config, chain, front);
      if AllSettleable(config, Run(config, Started(chain), front)) {
        StepSettleableExactly(config, Run(config, Started(chain), front), es[|es| - 1]);
      }
    }
  }

  // ---------- A replaced key ----------

  lemma VoucherWaits(config: Config, s: System, v: Payload, details: Details, raising: Landing)
    requires v.VoucherPayload? && Added(config, s, BeginVoucher(v, details)) == Some(Ready(raising))
    ensures Run(config, s, [BeginVoucher(v, details)]) == s.(pending := s.pending + multiset{Ready(raising)})
  {
    hide Step, Run, Added;
    RunOne(config, s, BeginVoucher(v, details));
    Begins(config, s, BeginVoucher(v, details), Ready(raising));
  }

  lemma RaiseLands(config: Config, s: System, id: string, amount: U64, signature: Bytes)
    requires id in s.channels && s.channels[id].highestAmount < amount
    requires Ready(Landing(id, VoucherCommit(amount, signature))) in s.pending
    ensures var s' := Run(config, s, [Lands(Landing(id, VoucherCommit(amount, signature)))]);
            id in s'.channels
            && s'.channels[id] == s.channels[id].(highestAmount := amount, highestSignature := Some(signature))
  {
    hide Step, Run;
    RunOne(config, s, Lands(Landing(id, VoucherCommit(amount, signature))));
    LandsNow(config, s, Landing(id, VoucherCommit(amount, signature)));
  }

  /** An opening under another key while a voucher is in flight: the voucher, checked under the old key,
      raises the new record, whose pair then does not verify. */
  lemma ReplacedKeyBreaks(config: Config, first: Payload, second: Payload, voucher: Payload, a: Details,
                          channel: OnChainChannel, now: string, larger: U64, signature: Bytes)
    returns (chain: map<ChainKey, OnChainChannel>, es: seq<Event>)
    requires first.Open? && second.Open? && voucher.VoucherPayload?
    requires first.channelId == second.channelId == voucher.channelId
    requires OpenVerdict(config, first, a, Ok(()), Ok(channel), now).Ok?
    requires OpenVerdict(config, second, a, Ok(()), Ok(channel), now).Ok?
    requires var before := OpenVerdict(config, first, a, Ok(()), Ok(channel), now).value;
             VoucherVerdict(config, MinDelta(config, a), Some(before), voucher) == Ok(Raise(larger, signature))
    requires var replaced := OpenVerdict(config, second, a, Ok(()), Ok(channel), now).value;
             replaced.highestAmount < larger
             && !Authentic(config, second.channelId, larger, signature, replaced.authorizedSigner)
    ensures |es| == 6
    ensures var s := Run(config, Started(chain), es);
            first.channelId in s.channels && !Settleable(config, first.channelId, s.channels[first.channelId])
  {
    hide Run, Step, CheckSignature, VoucherVerdict, CloseVerdict, TopUpVerdict, Authentic, ParseU64;
    var id := first.channelId;
    var opened0 := OpenVerdict(config, first, a, Ok(()), Ok(channel), now).value;
    var opened1 := OpenVerdict(config, second, a, Ok(()), Ok(channel), now).value;
    chain := map[ChainKey(PlaceOf(a), ParseHexBytes(id).value) := channel];
    var e0, e1 := BeginOpen(first, a, Ok(()), Ok(channel), now), BeginOpen(second, a, Ok(()), Ok(channel), now);
    var s0 := Started(chain);
    var s2 := s0.(channels := s0.channels[id := opened0]);
    var raising := Landing(id, VoucherCommit(larger, signature));
    var s3 := s2.(pending := s2.pending + multiset{Ready(raising)});
    var s5 := s3.(channels := s3.channels[id := opened1]);
    OpensAndLands(config, s0, e0, Landing(id, OpenCommit(opened0)), opened0);
    VoucherWaits(config, s2, voucher, a, raising);
    OpensAndLands(config, s3, e1, Landing(id, OpenCommit(opened1)), opened1);
    RaiseLands(config, s5, id, larger, signature);
    var opening, waiting := [e0, Lands(Landing(id, OpenCommit(opened0)))], [BeginVoucher(voucher, a)];
    var reopening, landing := [e1, Lands(Landing(id, OpenCommit(opened1)))], [Lands(raising)];
    RunAppend(config, s0, opening, waiting);
    RunAppend(config, s0, opening + waiting, reopening);
    RunAppend(config, s0, opening + waiting + reopening, landing);
    es := opening + waiting + reopening + landing;
  }

  // ---------- One key a channel ----------

  ghost predicate OneKey(key: string -> Bytes, e: Event) {
    e.BeginOpen? && e.p.Open? && e.p.authorizedSigner.Some? ==>
      ParseHexBytes(e.p.authorizedSigner.value) == Some(key(e.p.channelId))
  }

  ghost predicate KeyedCommit(config: Config, key: string -> Bytes, id: string, commit: Commit) {
    match commit
    case OpenCommit(state) => state.authorizedSigner == key(id)
    case VoucherCommit(amount, signature) => Authentic(config, id, amount, signature, key(id))
    case CloseCommit(amount, signature) => Authentic(config, id, amount, signature, key(id))
    case _ => true
  }

  ghost predicate Keyed(config: Config, key: string -> Bytes, s: System) {
    && (forall id | id in s.channels :: s.channels[id].authorizedSigner == key(id))
    && (forall landing | Ready(landing) in s.pending :: KeyedCommit(config, key, landing.id, landing.commit))
  }

  lemma AddedKeyed(config: Config, key: string -> Bytes, s: System, e: Event, landing: Landing)
    requires Keyed(config, key, s) && OneKey(key, e) && Added(config, s, e) == Some(Ready(landing))
    ensures KeyedCommit(config, key, landing.id, landing.commit)
  {
    hide ParseU64, ParseHexBytes, Authentic;
  }

  lemma LandKeyed(config: Config, key: string -> Bytes, s: System, landing: Landing, id: string)
    requires Keyed(config, key, s) && KeyedCommit(config, key, landing.id, landing.commit)
    requires id in Land(s.channels, landing)
    ensures Land(s.channels, landing)[id].authorizedSigner == key(id)
  {
    hide Authentic;
    assert Lookup(Land(s.channels, landing), id) == Some(Land(s.channels, landing)[id]);
    if id != landing.id {
      assert Lookup(Land(s.channels, landing), id) == Lookup(s.channels, id);
    }
  }

  lemma KeyedFits(config: Config, key: string -> Bytes, s: System, e: Event)
    requires Keyed(config, key, s)
    ensures KeyStillFits(config, s, e)
  {
    hide Authentic;
    if e.Lands? && Enabled(s, e) {
      assert KeyedCommit(config, key, e.landing.id, e.landing.commit);
    }
  }

  lemma LandingKeyed(config: Config, key: string -> Bytes, s: System, e: Event)
    requires Keyed(config, key, s) && Enabled(s, e) && LandingOf(e).Some?
    ensures KeyedCommit(config, key, LandingOf(e).value.id, LandingOf(e).value.commit)
  {
  }

  lemma RecordKeyed(config: Config, key: string -> Bytes, s: System, e: Event, id: string)
    requires Keyed(config, key, s) && id in Step(config, s, e).channels
    ensures Step(config, s, e).channels[id].authorizedSigner == key(id)
  {
    hide KeyedCommit, Added, Enabled, Land;
    if Enabled(s, e) && LandingOf(e).Some? {
      LandingKeyed(config, key, s, e);
      LandKeyed(config, key, s, LandingOf(e).value, id);
    }
  }

  lemma StepKeyed(config: Config, key: string -> Bytes, s: System, e: Event)
    requires Keyed(config, key, s) && OneKey(key, e)
    ensures Keyed(config, key, Step(config, s, e))
  {
    hide KeyedCommit, Added, Enabled, OneKey, Land;
    var s' := Step(config, s, e);
    forall id | id in s'.channels ensures s'.channels[id].authorizedSigner == key(id) {
      RecordKeyed(config, key, s, e, id);
    }
    forall landing | Ready(landing) in s'.pending ensures KeyedCommit(config, key, landing.id, landing.commit) {
      if Ready(landing) !in s.pending {
        AddedKeyed(config, key, s, e, landing);
      }
    }
  }

  lemma {:induction false} RunKeyed(config: Config, key: string -> Bytes, chain: map<ChainKey, OnChainChannel>,
                                    es: seq<Event>)
    requires forall k | 0 <= k < |es| :: OneKey(key, es[k])
    ensures Keyed(config, key, Run(config, Started(chain), es)) && KeysAlwaysFit(config, Started(chain), es)
  {
    hide Step, KeyStillFits, Keyed, OneKey;
    if es == [] {
      assert Keyed(config, key, Started(chain)) by { KeyedAtStart(config, key, chain); }
    } else {
      RunKeyed(config, key, chain, es[..|es| - 1]);
      StepKeyed(config, key, Run(config, Started(chain), es[..|es| - 1]), es[|es| - 1]);
      KeyedFits(config, key, Run(config, Started(chain), es[..|es| - 1]), es[|es| - 1]);
    }
  }

  lemma KeyedAtStart(config: Config, key: string -> Bytes, chain: map<ChainKey, OnChainChannel>)
    ensures Keyed(config, key, Started(chain))
  {
  }

  /** With one signer key a channel, in every interleaving the stored amount and signature verify
      under the stored key at every point of the run. */
  lemma OneKeySettles(config: Config, key: string -> Bytes, chain: map<ChainKey, OnChainChannel>, es: seq<Event>)
    requires forall k | 0 <= k < |es| :: OneKey(key, es[k])
    ensures AlwaysSettleable(config, Started(chain), es)
  {
    hide AlwaysSettleable, KeysAlwaysFit, Step, Keyed;
    RunKeyed(config, key, chain, es);
    SettleableExactly(config, chain, es);
  }
}
