/** The server's record of a payment channel and the store that updates it atomically. */
module ChannelStore {
  import opened Text

  datatype VerificationError =
    | ChannelNotFound
    | ChannelClosed
    | InsufficientBalance(requested: U64, available: U64)
    | InvalidPayload
    | AmountExceedsDeposit(amount: U64, deposit: U64)
    | InvalidSignature
    | DeltaTooSmall(delta: U64, minimum: U64)
    | DepositNotIncreased(onChain: U64, stored: U64)
    | CloseBelowHighest(amount: U64, highest: U64)
    | NetworkError
    | TransactionPending
    | TransactionFailed

  /** The contract instance a channel lives in. */
  datatype Place = Place(moduleAddress: string, registryAddress: string)

  datatype ChannelState = ChannelState(
    channelId: string,
    place: Place,
    payer: string,
    payee: string,
    token: string,
    authorizedSigner: Bytes,
    deposit: U64,
    settledOnChain: U64,
    highestAmount: U64,
    highestSignature: Option<Bytes>,
    spent: U64,
    units: U64,
    finalized: bool,
    createdAt: string)

  type Channels = map<string, ChannelState>
  type Answer = Result<Option<ChannelState>, VerificationError>

  // ---------- The five updates ----------

  /** What a handler has decided to write, once its checks are done. */
  datatype Commit =
    | OpenCommit(state: ChannelState)
    | TopUpCommit(deposit: U64)
    | VoucherCommit(amount: U64, signature: Bytes)
    | CloseCommit(amount: U64, signature: Bytes)
    | DeductCommit(charge: U64)

  function SaturatingSub(a: U64, b: U64): U64 {
    if a >= b then a - b else 0
  }

  /** The closure each handler hands to `update_channel`. The sum in a deduction needs no overflow
      check; the unit counter wraps at 2^64. */
  function Updated(commit: Commit, current: Option<ChannelState>): Answer {
    match commit
    case OpenCommit(state) => Ok(Some(state))
    case TopUpCommit(deposit) =>
      if current.None? then Err(ChannelNotFound) else Ok(Some(current.value.(deposit := deposit)))
    case VoucherCommit(amount, signature) =>
      if current.None? then Err(ChannelNotFound)
      else if amount > current.value.highestAmount then
        Ok(Some(current.value.(highestAmount := amount, highestSignature := Some(signature))))
      else Ok(current)
    case CloseCommit(amount, signature) =>
      if current.None? then Ok(None)
      else Ok(Some(current.value.(highestAmount := amount, highestSignature := Some(signature), finalized := true)))
    case DeductCommit(charge) =>
      if current.None? then Err(ChannelNotFound)
      else
        var state := current.value;
        var available := SaturatingSub(state.highestAmount, state.spent);
        if available >= charge then
          Ok(Some(state.(spent := state.spent + charge, units := (state.units + 1) % TWO_64)))
        else Err(InsufficientBalance(charge, available))
  }

  // ---------- The store ----------

  function Lookup(channels: Channels, id: string): Option<ChannelState> {
    if id in channels then Some(channels[id]) else None
  }

  /** The store after an update answered `answer` for `id`. */
  function Stored(channels: Channels, id: string, answer: Answer): (r: Channels)
    ensures forall other | other != id :: Lookup(r, other) == Lookup(channels, other)
    ensures Lookup(r, id) == if answer.Ok? then answer.value else Lookup(channels, id)
  {
    match answer
    case Ok(Some(state)) => channels[id := state]
    case Ok(None) => channels - {id}
    case Err(_) => channels
  }

  /** One update landing: the commit of some handler for some channel. */
  datatype Landing = Landing(id: string, commit: Commit)

  function Land(channels: Channels, l: Landing): Channels {
    Stored(channels, l.id, Updated(l.commit, Lookup(channels, l.id)))
  }

  function LandAll(channels: Channels, ls: seq<Landing>): Channels {
    if ls == [] then channels else Land(LandAll(channels, ls[..|ls| - 1]), ls[|ls| - 1])
  }

  class InMemoryChannelStore {
    var channels: Channels

    constructor ()
      ensures channels == map[]
    {
      channels := map[];
    }

    method GetChannel(id: string) returns (r: Option<ChannelState>)
      ensures r == Lookup(channels, id)
    {
      r := if id in channels then Some(channels[id]) else None;
    }

    method UpdateChannel(id: string, updater: Option<ChannelState> -> Answer) returns (answer: Answer)
      modifies this
      ensures answer == updater(Lookup(old(channels), id))
      ensures channels == Stored(old(channels), id, answer)
    {
      var current := GetChannel(id);
      answer := updater(current);
      match answer {
        case Ok(Some(state)) => channels := channels[id := state];
        case Ok(None) => channels := channels - {id};
        case Err(_) =>
      }
    }

    /** What happens to the store while a handler is waiting: other handlers' updates land, one at
        a time. */
    method Interleave(others: seq<Landing>)
      modifies this
      ensures channels == LandAll(old(channels), others)
    {
      var i := 0;
      while i < |others|
        invariant 0 <= i <= |others|
        invariant channels == LandAll(old(channels), others[..i])
      {
        var l := others[i];
        var _ := UpdateChannel(l.id, current => Updated(l.commit, current));
        assert others[..i + 1][..i] == others[..i];
        i := i + 1;
      }
      assert others[..|others|] == others;
    }

    /** Deducts `charge` if the accepted vouchers cover it; otherwise nothing changes. */
    method DeductFromChannel(id: string, charge: U64) returns (r: Result<ChannelState, VerificationError>)
      modifies this
      ensures channels == Stored(old(channels), id, Updated(DeductCommit(charge), Lookup(old(channels), id)))
      ensures r.Ok? <==>
              id in old(channels) && old(channels)[id].spent + charge <=
                (if charge == 0 then TWO_64 else old(channels)[id].highestAmount)
      ensures r.Ok? ==>
                && channels == old(channels)[id := r.value]
                && r.value.spent == old(channels)[id].spent + charge
                && r.value.highestAmount == old(channels)[id].highestAmount
                && r.value == old(channels)[id].(spent := r.value.spent,
                                                 units := (old(channels)[id].units + 1) % TWO_64)
      ensures r.Err? ==> channels == old(channels)
      ensures r.Err? ==>
                if id !in old(channels) then r.error == ChannelNotFound
                else
                  var c := old(channels)[id];
                  var left := if c.highestAmount >= c.spent then c.highestAmount - c.spent else 0;
                  r.error == InsufficientBalance(charge, left)
    {
      var answer := UpdateChannel(id, current => Updated(DeductCommit(charge), current));
      match answer {
        case Err(e) => r := Err(e);
        case Ok(None) => r := Err(ChannelNotFound);
        case Ok(Some(state)) => r := Ok(state);
      }
    }
  }
}
