/**
 * The errors that reach and leave the send validator: what a wallet library
 * (or the JavaScript engine) throws, and the user-facing errors the validator
 * throws in its place.
 */
module Errors {
  import opened Wrappers

  /**
   * A thrown error, reduced to the fields the validator reads. Side payloads
   * are atomic amounts; `None` is a field the thrower did not set.
   */
  datatype RawError = RawError(
    message: string,
    details: Option<string>,
    dustThreshold: Option<int>,
    sendableBalance: Option<int>,
    ethereumRequired: Option<int>)

  /**
   * A value substituted into a message template. The unit formatter of
   * lib/convert is not part of this model, so a formatted amount stays
   * symbolic: `UnitString(x, d)` is `toUnitString(x)`, or `toUnitString(x, d)`
   * when a precision `d` is given.
   */
  datatype Value =
    | UnitString(atoms: Option<int>, decimals: Option<nat>)
    | Text(text: string)
    | Spaced(left: Value, right: Value)  // the template literal `${left} ${right}`

  /** The message templates the validator hands to the localisation engine. */
  datatype Template =
    | EnterValidAddress
    | EnterValidTag
    | EnterValidInvoiceId
    | EnterValidMemo
    | WalletNotActivated
    | OtherThanOwnAddress
    | RecipientNotActivated
    | AmountAbove
    | GasLimitAboveZero
    | TransactionTooLarge
    | FundsPending
    | EmptyWalletEthereum
    | EmptyWalletEos
    | EmptyWalletReserve
    | NotEnoughFunds
    | NotEnoughEthereum
    | NodeError

  /**
   * The lookup key (the English text) each template is localised from; the
   * comment on each case gives the line of app/lib/wallet/validator.js that
   * passes it to `translate`.
   */
  function Key(t: Template): string
  {
    match t
    case EnterValidAddress => "Please enter a valid address to send to"  // line 29
    case EnterValidTag => "Please enter a valid destination tag"  // line 31
    case EnterValidInvoiceId => "Please enter a valid invoice ID"  // line 33
    case EnterValidMemo => "Please enter a valid memo"  // line 35
    case WalletNotActivated =>  // line 38
      "Your wallet isn't activated. To activate it please send greater than minimum reserve "
      + "(:minReserve :denomination) to your wallet address."
    case OtherThanOwnAddress => "Please enter an address other than your wallet address"  // line 43
    case RecipientNotActivated =>  // line 47
      "Recipient's wallet isn't activated. You can send only amount greater than :minReserve :denomination."
    case AmountAbove => "Please enter an amount above"  // line 52
    case GasLimitAboveZero => "Please enter Gas Limit greater than zero"  // line 57
    case TransactionTooLarge => "Transaction too large"  // line 62
    case FundsPending =>  // line 66
      "Some funds are temporarily unavailable. To send this transaction, you will need to wait "
      + "for your pending transactions to be confirmed first."
    case EmptyWalletEthereum =>  // line 69
      "It seems like you are trying to empty your wallet. Taking transaction fee into account, we "
      + "estimated that the max amount you can send is. We have amended the value in the amount field for you"
    case EmptyWalletEos =>  // line 77
      "It seems like you are trying to empty your wallet. Max amount you can send is. We have amended "
      + "the value in the amount field for you"
    case EmptyWalletReserve =>  // line 86
      "It seems like you are trying to empty your wallet. Taking transaction fee and minimum reserve "
      + "into account, we estimated that the max amount you can send is. We have amended the value in "
      + "the amount field for you"
    case NotEnoughFunds => "You do not have enough funds in your wallet (incl. fee)"  // line 95
    case NotEnoughEthereum => "You do not have enough Ethereum funds to pay transaction fee (:ethereumRequired ETH)."  // line 99
    case NodeError => "Network node error. Please try again later."  // line 103
  }

  /** A message: a template with its named substitutions, or a fixed text that is not localised. */
  datatype Message =
    | Localized(template: Template, params: map<string, Value>)
    | Literal(text: string)

  /** A new error thrown by the validator; a few carry a suggested `sendableBalance`. */
  datatype UserError = UserError(message: Message, sendableBalance: Option<Value>)

  /** What leaves the validator on failure: a new user-facing error, or the caught error itself. */
  datatype Thrown =
    | Raised(error: UserError)
    | Propagated(original: RawError)
}
