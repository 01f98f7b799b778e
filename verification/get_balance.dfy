/** `getBalance`: the on-chain and off-chain balances of a node from its
    `listFunds` answer, in whole tokens (satoshis), each side rounded down
    from millisatoshis separately. Amounts are naturals: JavaScript's
    floating-point sums are exact below 2^53 millisatoshis, and beyond that
    the model is exact where the source is not.
 */
module GetBalance {
  import opened Wrappers
  import opened Text

  const NoLightning := "ExpectedAuthenticatedCoreLightningObjectToGetBalance"
  const ConfirmedStatus := "CONFIRMED"
  const NormalStatus := "channeldnormal"

  /** An on-chain output: its status and `amount_msat.msat`. */
  datatype Output = Output(status: string, amount_msat: nat)

  /** A channel: its state and `our_amount_msat.msat`. */
  datatype Channel = Channel(state: string, our_amount_msat: nat)

  datatype Funds = Funds(outputs: seq<Output>, channels: seq<Channel>)

  /** The optional switches; an absent one is false. */
  datatype Flags = Flags(is_confirmed: bool, is_detailed: bool, is_offchain_only: bool, is_onchain_only: bool)

  /** `{balance}` or `{offchain_balance, onchain_balance}` */
  datatype Balance = Total(balance: nat) | Detailed(offchain_balance: nat, onchain_balance: nat)

  /** `mtokensAsTokens` */
  function Tokens(msat: nat): (r: nat)
    ensures r * 1000 <= msat < (r + 1) * 1000
  {
    msat / 1000
  }

  predicate IsConfirmed(o: Output) {
    o.status == ConfirmedStatus
  }

  /** `state.toLowerCase() === 'channeldnormal'` */
  predicate IsNormal(c: Channel) {
    LowerAscii(c.state) == NormalStatus
  }

  /** The millisatoshis of the outputs counted: all of them, or only the
      confirmed ones. */
  function OutputsMsat(outputs: seq<Output>, confirmedOnly: bool): nat {
    if |outputs| == 0 then 0
    else
      (if !confirmedOnly || IsConfirmed(outputs[0]) then outputs[0].amount_msat else 0)
      + OutputsMsat(outputs[1..], confirmedOnly)
  }

  /** The millisatoshis of our side of the channels counted: all of them,
      or only the normal ones. */
  function ChannelsMsat(channels: seq<Channel>, normalOnly: bool): nat {
    if |channels| == 0 then 0
    else
      (if !normalOnly || IsNormal(channels[0]) then channels[0].our_amount_msat else 0)
      + ChannelsMsat(channels[1..], normalOnly)
  }

  /** The `onChainBalance` task. */
  function OnChain(funds: Funds, flags: Flags): (r: nat)
    ensures flags.is_offchain_only || funds.outputs == [] ==> r == 0
    ensures !flags.is_offchain_only ==> r == Tokens(OutputsMsat(funds.outputs, flags.is_confirmed))
  {
    if |funds.outputs| == 0 || flags.is_offchain_only then 0
    else Tokens(OutputsMsat(funds.outputs, flags.is_confirmed))
  }

  /** The `offChainBalance` task. */
  function OffChain(funds: Funds, flags: Flags): (r: nat)
    ensures flags.is_onchain_only || funds.channels == [] ==> r == 0
    ensures !flags.is_onchain_only ==> r == Tokens(ChannelsMsat(funds.channels, flags.is_confirmed))
  {
    if |funds.channels| == 0 || flags.is_onchain_only then 0
    else Tokens(ChannelsMsat(funds.channels, flags.is_confirmed))
  }

  /** `getBalance(args)`; `hasLightning` says whether `lightning` was given
      and `listFunds` is how its `listFunds` call answered. */
  function GetBalance(hasLightning: bool, flags: Flags, listFunds: Result<Funds>): (r: Result<Balance>)
    ensures !hasLightning ==> r == Err(BadRequest(NoLightning))
    ensures hasLightning && listFunds.Err? ==> r == Err(listFunds.error)
    ensures r.Ok? <==> hasLightning && listFunds.Ok?
    ensures r.Ok? && flags.is_onchain_only ==> r.value == Total(OnChain(listFunds.value, flags))
    ensures r.Ok? && !flags.is_onchain_only && flags.is_offchain_only ==>
      r.value == Total(OffChain(listFunds.value, flags))
    ensures r.Ok? && !flags.is_onchain_only && !flags.is_offchain_only && flags.is_detailed ==>
      r.value == Detailed(OffChain(listFunds.value, flags), OnChain(listFunds.value, flags))
    ensures r.Ok? && !flags.is_onchain_only && !flags.is_offchain_only && !flags.is_detailed ==>
      r.value == Total(OffChain(listFunds.value, flags) + OnChain(listFunds.value, flags))
  {
    if !hasLightning then Err(BadRequest(NoLightning))
    else
      var funds :- listFunds;
      var on := OnChain(funds, flags);
      var off := OffChain(funds, flags);
      if flags.is_onchain_only then Ok(Total(on))
      else if flags.is_offchain_only then Ok(Total(off))
      else if flags.is_detailed then Ok(Detailed(off, on))
      else Ok(Total(off + on))
  }

  lemma {:induction false} ConfirmedOutputsAtMostAll(outputs: seq<Output>)
    ensures OutputsMsat(outputs, true) <= OutputsMsat(outputs, false)
  {
    if |outputs| > 0 {
      ConfirmedOutputsAtMostAll(outputs[1..]);
    }
  }

  lemma {:induction false} NormalChannelsAtMostAll(channels: seq<Channel>)
    ensures ChannelsMsat(channels, true) <= ChannelsMsat(channels, false)
  {
    if |channels| > 0 {
      NormalChannelsAtMostAll(channels[1..]);
    }
  }

  lemma TokensMonotonic(a: nat, b: nat)
    requires a <= b
    ensures Tokens(a) <= Tokens(b)
  {
  }

  /** Counting only confirmed funds never gives more, on either side. */
  lemma ConfirmedAtMostUnconfirmed(funds: Funds, flags: Flags)
    ensures OnChain(funds, flags.(is_confirmed := true)) <= OnChain(funds, flags.(is_confirmed := false))
    ensures OffChain(funds, flags.(is_confirmed := true)) <= OffChain(funds, flags.(is_confirmed := false))
  {
    ConfirmedOutputsAtMostAll(funds.outputs);
    NormalChannelsAtMostAll(funds.channels);
    TokensMonotonic(OutputsMsat(funds.outputs, true), OutputsMsat(funds.outputs, false));
    TokensMonotonic(ChannelsMsat(funds.channels, true), ChannelsMsat(funds.channels, false));
  }

  /** Both "only" switches: the on-chain side is asked for and it is zeroed. */
  lemma BothOnlyFlagsGiveZero(flags: Flags, funds: Funds)
    requires flags.is_onchain_only && flags.is_offchain_only
    ensures GetBalance(true, flags, Ok(funds)) == Ok(Total(0))
  {
  }

  /** Rounding each side down separately can lose up to one token against
      rounding the sum, never gain. */
  lemma PerSideRounding(on: nat, off: nat)
    ensures Tokens(on) + Tokens(off) <= Tokens(on + off) <= Tokens(on) + Tokens(off) + 1
  {
  }

  /** The plain total is the sum of the detailed sides. */
  lemma TotalIsSumOfDetailed(flags: Flags, funds: Funds)
    requires !flags.is_onchain_only && !flags.is_offchain_only
    ensures var d := GetBalance(true, flags.(is_detailed := true), Ok(funds)).value;
      GetBalance(true, flags.(is_detailed := false), Ok(funds)) == Ok(Total(d.offchain_balance + d.onchain_balance))
  {
  }

  /** Counting by parts: the outputs of two lists add up. */
  lemma {:induction false} OutputsMsatAppend(a: seq<Output>, b: seq<Output>, confirmedOnly: bool)
    ensures OutputsMsat(a + b, confirmedOnly) == OutputsMsat(a, confirmedOnly) + OutputsMsat(b, confirmedOnly)
  {
    if |a| > 0 {
      assert (a + b)[0] == a[0];
      assert (a + b)[1..] == a[1..] + b;
      OutputsMsatAppend(a[1..], b, confirmedOnly);
    } else {
      assert a + b == b;
    }
  }

  /** Core Lightning reports a normal channel as `CHANNELD_NORMAL`, which
      lowercases to `channeld_normal`: the comparison as written never
      counts it. */
  lemma NormalStateIsNotMatched(c: Channel)
    requires c.state == "CHANNELD_NORMAL"
    ensures !IsNormal(c)
  {
    assert LowerAscii(c.state)[8] == '_';
  }
}
