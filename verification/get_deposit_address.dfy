/** `getDepositAddress`: pick the address type from the requested format,
    ask the node for a new address, and return it with a QR code of its
    `bitcoin:` payment link. The QR renderer and the rendering of the
    amount are parameters.
 */
module GetDepositAddress {
  import opened Wrappers
  import opened Text

  const NoLightning := "ExpectedAuthenticatedCoreLightningObjectToCreateNewAddress"

  /** What `NewAddr` answers; `None` is an absent member. */
  datatype NewAddress = NewAddress(bech32: Option<string>, p2sh_segwit: Option<string>)

  /** `{deposit_address, deposit_qr}`; the address is `undefined` (`None`)
      when the answer carries neither address. */
  datatype Deposit = Deposit(deposit_address: Option<string>, deposit_qr: string)

  /** A `bech32` member that `||` keeps: present and non-empty. */
  predicate HasBech32(a: NewAddress) {
    a.bech32.Some? && a.bech32.value != ""
  }

  /** The `addresstype` task: `np2wpkh` asks for a nested segwit address,
      every other format (and none) for a native one. */
  function AddressType(format: Option<string>): (r: nat)
    ensures r == 1 <==> format == Some("np2wpkh")
    ensures r == 0 <==> format != Some("np2wpkh")
  {
    if format == Some("p2wpkh") then 0
    else if format == Some("np2wpkh") then 1
    else 0
  }

  /** `newAddress.bech32 || newAddress.p2sh_segwit` */
  function Chosen(a: NewAddress): (r: Option<string>)
    ensures HasBech32(a) ==> r == a.bech32
    ensures !HasBech32(a) ==> r == a.p2sh_segwit
    ensures r.None? <==> !HasBech32(a) && a.p2sh_segwit.None?
    ensures r.Some? && r.value == "" ==> !HasBech32(a) && a.p2sh_segwit == Some("")
  {
    if HasBech32(a) then a.bech32 else a.p2sh_segwit
  }

  /** An optional text in a template literal: `undefined` when absent. */
  function Interpolated(v: Option<string>): string {
    match v
    case Some(s) => s
    case None => "undefined"
  }

  /** `bigTok(tokens)`: `0` for no amount, otherwise the amount as the
      renderer writes it (in whole bitcoins with eight decimals). */
  function Amount(tokens: nat, render: nat -> string): (r: string)
    ensures tokens == 0 ==> r == "0"
  {
    if tokens == 0 then "0" else render(tokens)
  }

  function PaymentUrl(address: string, amount: string): string {
    "bitcoin:" + address + "?amount=" + amount
  }

  /** `getDepositAddress(args)`: `hasLightning` says whether `lightning` was
      given, `newAddr` is how the node answers a request for an address of
      each type, `render` writes amounts and `qr` draws a QR code. */
  function GetDepositAddress(hasLightning: bool, format: Option<string>, tokens: nat,
                             newAddr: nat -> Result<NewAddress>, render: nat -> string,
                             qr: string -> string): (r: Result<Deposit>)
    ensures !hasLightning ==> r == Err(BadRequest(NoLightning))
    ensures hasLightning && newAddr(AddressType(format)).Err? ==> r == Err(newAddr(AddressType(format)).error)
    ensures r.Ok? <==> hasLightning && newAddr(AddressType(format)).Ok?
    ensures r.Ok? ==> var answer := newAddr(AddressType(format)).value;
      && r.value.deposit_address == Chosen(answer)
      && (HasBech32(answer) ==> r.value.deposit_address == answer.bech32)
      && (!HasBech32(answer) ==> r.value.deposit_address == answer.p2sh_segwit)
      && r.value.deposit_qr == qr(PaymentUrl(Interpolated(r.value.deposit_address), Amount(tokens, render)))
  {
    if !hasLightning then Err(BadRequest(NoLightning))
    else
      var answer :- newAddr(AddressType(format));
      var address := Chosen(answer);
      Ok(Deposit(address, qr(PaymentUrl(Interpolated(address), Amount(tokens, render)))))
  }

  /** An answer with neither address gives an `undefined` address, and the
      QR code encodes the link `bitcoin:undefined?amount=…`. */
  lemma NoAddressIsUndefined(format: Option<string>, tokens: nat, newAddr: nat -> Result<NewAddress>,
                             render: nat -> string, qr: string -> string)
    requires newAddr(AddressType(format)).Ok?
    requires !HasBech32(newAddr(AddressType(format)).value)
    requires newAddr(AddressType(format)).value.p2sh_segwit.None?
    ensures var r := GetDepositAddress(true, format, tokens, newAddr, render, qr);
      && r.Ok? && r.value.deposit_address.None?
      && r.value.deposit_qr == qr("bitcoin:undefined?amount=" + Amount(tokens, render))
  {
    var amount := Amount(tokens, render);
    assert PaymentUrl("undefined", amount) == "bitcoin:undefined?amount=" + amount;
  }

  /** The link in the QR code carries the returned address: it can be read
      back between `bitcoin:` and `?amount=`. */
  lemma UrlCarriesAddress(address: string, amount: string)
    ensures var url := PaymentUrl(address, amount);
      && StartsWith(url, "bitcoin:")
      && url[8..8 + |address|] == address
      && url[8 + |address|..] == "?amount=" + amount
  {
    var url := PaymentUrl(address, amount);
    assert url == "bitcoin:" + (address + ("?amount=" + amount));
    assert url[..8] == "bitcoin:";
  }

  /** Different addresses give different links, so the QR code tells which
      address was returned. */
  lemma UrlInjective(a1: string, a2: string, amount: string)
    requires !('?' in a1) && !('?' in a2)
    requires PaymentUrl(a1, amount) == PaymentUrl(a2, amount)
    ensures a1 == a2
  {
    UrlCarriesAddress(a1, amount);
    UrlCarriesAddress(a2, amount);
    var url := PaymentUrl(a1, amount);
    var k := if |a1| < |a2| then |a1| else |a2|;
    assert url[8 + k] == '?';
  }
}
