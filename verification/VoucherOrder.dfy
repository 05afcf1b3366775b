/** Concurrent vouchers on one open channel behave as one register that keeps the maximum. */
module VoucherOrder {
  import opened Text
  import opened ChannelStore
  import opened SessionMethod
  import opened SessionProtocol

  /** The amount an event gets accepted for channel `id`, if it gets one accepted: at once when the
      voucher is old or repeated, and when its update lands otherwise. */
  ghost function AcceptedBy(config: Config, s: System, e: Event, id: string): Option<U64> {
    if !Enabled(s, e) then None
    else
      match e
      case BeginVoucher(p, details) =>
        if p.channelId != id then None
        else
          (match VoucherVerdict(config, MinDelta(config, details), Lookup(s.channels, id), p)
           case Ok(Acknowledged(amount)) => Some(amount)
           case _ => None)
      case Lands(Landing(channel, VoucherCommit(amount, _))) => if channel == id then Some(amount) else None
      case _ => None
  }

  /** Everything accepted along a run, in the order of acceptance. */
  ghost function Accepted(config: Config, s: System, es: seq<Event>, id: string): seq<U64> {
    if es == [] then []
    else
      var front := es[..|es| - 1];
      var now := AcceptedBy(config, Run(config, s, front), es[|es| - 1], id);
      Accepted(config, s, front, id) + (if now.Some? then [now.value] else [])
  }

  function Max(a: nat, b: nat): nat { if a >= b then a else b }

  /** The atomic register: every accepted amount is one maximum operation. */
  function Register(initial: nat, amounts: seq<U64>): nat {
    if amounts == [] then initial
    else Max(Register(initial, amounts[..|amounts| - 1]), amounts[|amounts| - 1])
  }

  /** No opening or closing of `id` lands. */
  ghost predicate KeepsOpen(e: Event, id: string) {
    e.Lands? && e.landing.id == id ==> !e.landing.commit.OpenCommit? && !e.landing.commit.CloseCommit?
  }

  lemma LandRaises(s: System, landing: Landing, id: string)
    requires id in s.channels
    requires landing.id == id ==> !landing.commit.OpenCommit? && !landing.commit.CloseCommit?
    ensures var after := Land(s.channels, landing);
            && id in after && after[id].finalized == s.channels[id].finalized
            && after[id].highestAmount ==
               if landing.id == id && landing.commit.VoucherCommit?
               then Max(s.channels[id].highestAmount, landing.commit.amount) else s.channels[id].highestAmount
  {
    var after := Land(s.channels, landing);
    assert landing.id != id ==> Lookup(after, id) == Lookup(s.channels, id);
    assert Lookup(after, id).Some?;
  }

  lemma AcknowledgedIsOld(config: Config, minDelta: U64, c: ChannelState, p: Payload)
    requires p.VoucherPayload? && VoucherVerdict(config, minDelta, Some(c), p).Ok?
    requires VoucherVerdict(config, minDelta, Some(c), p).value.Acknowledged?
    ensures VoucherVerdict(config, minDelta, Some(c), p).value.amount <= c.highestAmount
  {
    hide ParseU64, ParseHexBytes, CheckSignature;
  }

  lemma StepRaises(config: Config, s: System, e: Event, id: string)
    requires id in s.channels && KeepsOpen(e, id)
    ensures var s' := Step(config, s, e);
            var now := AcceptedBy(config, s, e, id);
            && id in s'.channels && s'.channels[id].finalized == s.channels[id].finalized
            && s'.channels[id].highestAmount ==
               if now.Some? then Max(s.channels[id].highestAmount, now.value) else s.channels[id].highestAmount
  {
    hide OpenVerdict, VoucherVerdict, CloseVerdict, TopUpVerdict, Honest, Land;
    if Enabled(s, e) {
      if LandingOf(e).Some? {
        LandRaises(s, LandingOf(e).value, id);
      } else if e.BeginVoucher? && AcceptedBy(config, s, e, id).Some? {
        AcknowledgedIsOld(config, MinDelta(config, e.details), s.channels[id], e.p);
      }
    }
  }

  /** Two-phase voucher handling refines the atomic register: from an open channel, in any
      interleaving of vouchers, deductions and top-ups, the highest amount ends as the maximum of
      the initial one and all accepted ones. */
  lemma {:induction false} RefinesRegister(config: Config, s: System, es: seq<Event>, id: string)
    requires id in s.channels && forall k | 0 <= k < |es| :: KeepsOpen(es[k], id)
    ensures var s' := Run(config, s, es);
            && id in s'.channels && s'.channels[id].finalized == s.channels[id].finalized
            && s'.channels[id].highestAmount == Register(s.channels[id].highestAmount, Accepted(config, s, es, id))
  {
    hide Step, AcceptedBy;
    if es == [] {
    } else {
      var front := es[..|es| - 1];
      RefinesRegister(config, s, front, id);
      StepRaises(config, Run(config, s, front), es[|es| - 1], id);
      var before, now := Accepted(config, s, front, id), AcceptedBy(config, Run(config, s, front), es[|es| - 1], id);
      if now.Some? {
        assert (before + [now.value])[..|before|] == before;
      } else {
        assert before + [] == before;
      }
    }
  }

  /** The register is the least upper bound of what went in. */
  lemma {:induction false} RegisterIsMaximum(initial: nat, amounts: seq<U64>)
    ensures initial <= Register(initial, amounts)
    ensures forall k | 0 <= k < |amounts| :: amounts[k] <= Register(initial, amounts)
    ensures Register(initial, amounts) == initial || Register(initial, amounts) in amounts
  {
    if amounts == [] {
    } else {
      var front := amounts[..|amounts| - 1];
      RegisterIsMaximum(initial, front);
      assert forall a :: a in front ==> a in amounts;
    }
  }

  /** So the order does not matter: two runs that accept the same amounts end alike. */
  lemma OrderIrrelevant(config: Config, s: System, es1: seq<Event>, es2: seq<Event>, id: string)
    requires id in s.channels
    requires forall k | 0 <= k < |es1| :: KeepsOpen(es1[k], id)
    requires forall k | 0 <= k < |es2| :: KeepsOpen(es2[k], id)
    requires forall a :: a in Accepted(config, s, es1, id) <==> a in Accepted(config, s, es2, id)
    ensures var s1, s2 := Run(config, s, es1), Run(config, s, es2);
            id in s1.channels && id in s2.channels && s1.channels[id].highestAmount == s2.channels[id].highestAmount
  {
    hide Step, Run, Accepted;
    RefinesRegister(config, s, es1, id);
    RefinesRegister(config, s, es2, id);
    RegisterIsMaximum(s.channels[id].highestAmount, Accepted(config, s, es1, id));
    RegisterIsMaximum(s.channels[id].highestAmount, Accepted(config, s, es2, id));
  }
}
