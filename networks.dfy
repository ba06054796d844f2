/**
 * The network dispatch of `validateSend`: the wallet's network name selects
 * which `createTx` call, with which arguments, builds the transaction.
 */
module Networks {
  import opened Wrappers
  import opened Errors

  /** The networks the validator recognises. */
  datatype Network =
    | Bitcoin | BitcoinCash | BitcoinSV | Litecoin | Dogecoin | Dash
    | Ethereum | Ripple | Stellar | Eos | Monero

  /** The `networkName` a wallet of each network reports. */
  function Name(n: Network): string
  {
    match n
    case Bitcoin => "bitcoin"
    case BitcoinCash => "bitcoincash"
    case BitcoinSV => "bitcoinsv"
    case Litecoin => "litecoin"
    case Dogecoin => "dogecoin"
    case Dash => "dash"
    case Ethereum => "ethereum"
    case Ripple => "ripple"
    case Stellar => "stellar"
    case Eos => "eos"
    case Monero => "monero"
  }

  /** The names whose transactions take the bitcoin-style `(to, amount, fee)` arguments. */
  const BitcoinFamily: seq<string> := ["bitcoin", "bitcoincash", "bitcoinsv", "litecoin", "dogecoin", "dash"]

  /** The network a name stands for, if it is one the validator recognises. */
  function Parse(name: string): Option<Network>
  {
    if name == "bitcoin" then Some(Bitcoin)
    else if name == "bitcoincash" then Some(BitcoinCash)
    else if name == "bitcoinsv" then Some(BitcoinSV)
    else if name == "litecoin" then Some(Litecoin)
    else if name == "dogecoin" then Some(Dogecoin)
    else if name == "dash" then Some(Dash)
    else if name == "ethereum" then Some(Ethereum)
    else if name == "ripple" then Some(Ripple)
    else if name == "stellar" then Some(Stellar)
    else if name == "eos" then Some(Eos)
    else if name == "monero" then Some(Monero)
    else None
  }

  /** Every network is recognised by its own name. */
  lemma ParseName(n: Network)
    ensures Parse(Name(n)) == Some(n)
  {
    match n
    case Bitcoin =>
    case BitcoinCash =>
    case BitcoinSV =>
    case Litecoin =>
    case Dogecoin =>
    case Dash =>
    case Ethereum =>
    case Ripple =>
    case Stellar =>
    case Eos =>
    case Monero =>
  }

  /** A recognised name is exactly the name of the network it stands for. */
  lemma NameParse(name: string)
    ensures Parse(name).Some? ==> Name(Parse(name).value) == name
  {
  }

  /** The request fields a `createTx` call may draw on, with amounts already in atomic units. */
  datatype DestinationInfo = DestinationInfo(isActive: bool)
  datatype SendArgs = SendArgs(
    to: string,
    amount: int,
    fee: int,
    tag: Option<string>,
    invoiceId: Option<string>,
    memo: Option<string>,
    destinationInfo: Option<DestinationInfo>)

  /** The shapes of `createTx` call, one per family of networks, and no call at all. */
  datatype Call =
    | BitcoinLikeCall(to: string, amount: int, fee: int)
    | EthereumCall(to: string, amount: int)
    | RippleCall(to: string, amount: int, tag: Option<string>, invoiceId: Option<string>)
    | StellarCall(to: string, amount: int, memo: Option<string>, needsActivation: bool)
    | EosCall(to: string, amount: int, memo: Option<string>)
    | MoneroCall(to: string, amount: int, fee: int)
    | NoCall

  /**
   * The error JavaScript throws when the stellar branch reads `isActive` of a
   * missing `destinationInfo` (its wording is the engine's).
   */
  const MissingDestinationInfo :=
    RawError("Cannot read " + "properties of " + "undefined " + "(reading " + "'isActive')", None, None, None, None)

  /**
   * The call each network takes, as a closed variant: the reference the
   * string dispatch is checked against.
   */
  function CallFor(n: Network, a: SendArgs): Result<Call, RawError>
  {
    match n
    case Bitcoin | BitcoinCash | BitcoinSV | Litecoin | Dogecoin | Dash =>
      Success(BitcoinLikeCall(a.to, a.amount, a.fee))
    case Ethereum => Success(EthereumCall(a.to, a.amount))
    case Ripple => Success(RippleCall(a.to, a.amount, a.tag, a.invoiceId))
    case Stellar =>
      if a.destinationInfo.None? then Failure(MissingDestinationInfo)
      else Success(StellarCall(a.to, a.amount, a.memo, !a.destinationInfo.value.isActive))
    case Eos => Success(EosCall(a.to, a.amount, a.memo))
    case Monero => Success(MoneroCall(a.to, a.amount, a.fee))
  }

  /**
   * The if/else chain of the `try` block: the call made for a wallet whose
   * `networkName` is `network`, or the error thrown before any call is made.
   */
  function Dispatch(network: string, a: SendArgs): (r: Result<Call, RawError>)
    ensures Parse(network).None? ==> r == Success(NoCall)
    ensures Parse(network).Some? ==> r == CallFor(Parse(network).value, a)
  {
    if network in BitcoinFamily then Success(BitcoinLikeCall(a.to, a.amount, a.fee))
    else if network == "ethereum" then Success(EthereumCall(a.to, a.amount))
    else if network == "ripple" then Success(RippleCall(a.to, a.amount, a.tag, a.invoiceId))
    else if network == "stellar" then
      match a.destinationInfo
      case None => Failure(MissingDestinationInfo)
      case Some(info) => Success(StellarCall(a.to, a.amount, a.memo, !info.isActive))
    else if network == "eos" then Success(EosCall(a.to, a.amount, a.memo))
    else if network == "monero" then Success(MoneroCall(a.to, a.amount, a.fee))
    else Success(NoCall)
  }

  /** The fee argument a call passes, if any. */
  function FeeArgument(c: Call): Option<int>
  {
    match c
    case BitcoinLikeCall(_, _, fee) => Some(fee)
    case MoneroCall(_, _, fee) => Some(fee)
    case _ => None
  }

  /** The memo argument a call passes, if any. */
  function MemoArgument(c: Call): Option<Option<string>>
  {
    match c
    case StellarCall(_, _, memo, _) => Some(memo)
    case EosCall(_, _, memo) => Some(memo)
    case _ => None
  }

  /**
   * Every call sends the request's amount to its destination; the fee goes
   * only to the bitcoin family and monero, the memo only to stellar and eos,
   * tag and invoice ID only to ripple, and stellar is told to activate the
   * destination exactly when it is not active.
   */
  lemma CallArguments(n: Network, a: SendArgs)
    ensures CallFor(n, a).Success? ==> CallFor(n, a).value != NoCall
    ensures CallFor(n, a).Success? ==> CallFor(n, a).value.to == a.to && CallFor(n, a).value.amount == a.amount
    ensures CallFor(n, a).Success? ==>
      FeeArgument(CallFor(n, a).value) == if Name(n) in BitcoinFamily || n == Monero then Some(a.fee) else None
    ensures CallFor(n, a).Success? ==>
      MemoArgument(CallFor(n, a).value) == if n == Stellar || n == Eos then Some(a.memo) else None
    ensures CallFor(n, a).Success? && CallFor(n, a).value.RippleCall? <==> n == Ripple
    ensures n == Ripple ==> CallFor(n, a) == Success(RippleCall(a.to, a.amount, a.tag, a.invoiceId))
    ensures n == Stellar && a.destinationInfo.Some? ==>
      CallFor(n, a).Success? && CallFor(n, a).value.needsActivation == !a.destinationInfo.value.isActive
    ensures CallFor(n, a).Failure? <==> n == Stellar && a.destinationInfo.None?
  {
  }
}
