/**
 * The catch block of `validateSend`: an ordered, first-match table of literal
 * patterns tested against the caught error's message (and, inside two rules,
 * against its details), turning wallet errors into user-facing errors.
 */
module Translation {
  import opened Wrappers
  import opened Pattern
  import opened Errors

  // Patterns tested against the message, in the order the catch block tries them.
  const InvalidAddress := "Invalid address"
  const InvalidTag := "Invalid tag"
  const InvalidInvoiceId := "Invalid invoiceID"
  const InvalidMemo := "Invalid memo"
  const InactiveAccount := "Inactive account"
  const SelfSend := "Destination address equal source address"
  const InvalidValue := "Invalid value"
  const InvalidGasLimit := "Invalid gasLimit"
  const InvalidFee := "Invalid fee"
  const TooLarge := "Transaction too large"
  const InsufficientFunds := "Insufficient funds"
  const InsufficientEthereum := "Insufficient " + EthereumFundsTail
  const EthereumFundsTail := "ethereum " + "funds " + "for " + "token " + "transaction"
  /** The one message compared for equality rather than searched. */
  const NodeErrorMessage := "cs-node-error"

  // Patterns tested against the details.
  const BelowMinReserve := "Less than minimum reserve"
  const PendingConfirmation := "Additional funds confirmation pending"
  const EmptyWallet := "Attempt to empty wallet"

  /** The text of the one error the validator throws without localising it. */
  const FeeText := "Please enter valid fee"

  /** The wallet properties the catch block reads. */
  datatype WalletInfo = WalletInfo(networkName: string, minReserve: Option<int>, denomination: string)

  /** lodash's `upperFirst`, for ASCII letters. */
  function UpperFirst(s: string): (r: string)
    ensures |r| == |s|
    ensures |s| > 0 ==> r[1..] == s[1..]
    ensures |s| > 0 && 'a' <= s[0] <= 'z' ==> 'A' <= r[0] <= 'Z' && r[0] as int - s[0] as int == 'A' as int - 'a' as int
    ensures |s| > 0 && !('a' <= s[0] <= 'z') ==> r == s
  {
    if |s| > 0 && 'a' <= s[0] <= 'z' then [(s[0] as int - 32) as char] + s[1..] else s
  }

  /** The minimum-reserve substitutions shared by two templates. */
  function ReserveParams(w: WalletInfo): map<string, Value>
  {
    map["minReserve" := UnitString(w.minReserve, None), "denomination" := Text(w.denomination)]
  }

  function Raise(t: Template, params: map<string, Value>): Thrown
  {
    Raised(UserError(Localized(t, params), None))
  }

  /** An empty-wallet error: the suggested amount is both substituted and attached. */
  function RaiseEmptyWallet(t: Template, e: RawError, extra: map<string, Value>): Thrown
  {
    var balance := UnitString(e.sendableBalance, None);
    Raised(UserError(Localized(t, extra["sendableBalance" := balance]), Some(balance)))
  }

  /** The catch block: what `validateSend` throws after catching `e`. */
  function Translate(e: RawError, w: WalletInfo): (r: Thrown)
    ensures r.Propagated? ==> r.original == e
    ensures r.Raised? && r.error.message.Literal? ==> r.error.message.text == FeeText
    ensures r.Raised? && r.error.sendableBalance.Some? ==>
      r.error.sendableBalance == Some(UnitString(e.sendableBalance, None))
  {
    if Test(InvalidAddress, e.message) then Raise(EnterValidAddress, map[])
    else if Test(InvalidTag, e.message) then Raise(EnterValidTag, map[])
    else if Test(InvalidInvoiceId, e.message) then Raise(EnterValidInvoiceId, map[])
    else if Test(InvalidMemo, e.message) then Raise(EnterValidMemo, map[])
    else if Test(InactiveAccount, e.message) then Raise(WalletNotActivated, ReserveParams(w))
    else if Test(SelfSend, e.message) then Raise(OtherThanOwnAddress, map[])
    else if Test(InvalidValue, e.message) then
      if RegexTest(BelowMinReserve, e.details) then Raise(RecipientNotActivated, ReserveParams(w))
      else Raise(AmountAbove, map["dust" := Spaced(UnitString(e.dustThreshold, None), Text(w.denomination))])
    else if Test(InvalidGasLimit, e.message) then Raise(GasLimitAboveZero, map[])
    else if Test(InvalidFee, e.message) then Raised(UserError(Literal(FeeText), None))
    else if Test(TooLarge, e.message) then Raise(TransactionTooLarge, map[])
    else if Test(InsufficientFunds, e.message) then
      if RegexTest(PendingConfirmation, e.details) then Raise(FundsPending, map[])
      else if RegexTest(EmptyWallet, e.details) && w.networkName == "ethereum" then
        RaiseEmptyWallet(EmptyWalletEthereum, e, map[])
      else if RegexTest(EmptyWallet, e.details) && w.networkName == "eos" then
        RaiseEmptyWallet(EmptyWalletEos, e, map[])
      else if RegexTest(EmptyWallet, e.details) && (w.networkName == "ripple" || w.networkName == "stellar") then
        RaiseEmptyWallet(EmptyWalletReserve, e, ReserveParams(w))
      else Raise(NotEnoughFunds, map[])
    else if Test(InsufficientEthereum, e.message) then
      Raise(NotEnoughEthereum, map["ethereumRequired" := UnitString(e.ethereumRequired, Some(18))])
    else if e.message == NodeErrorMessage then
      Raise(NodeError, map["network" := Text(UpperFirst(w.networkName))])
    else Propagated(e)
  }

  // ---------------------------------------------------------------------------
  // The same chain as a table: a reference definition of "first match wins".

  /** One row of the catch block. */
  datatype Rule =
    | AddressRule | TagRule | InvoiceIdRule | MemoRule | InactiveRule | SelfSendRule
    | ValueRule | GasLimitRule | FeeRule | TooLargeRule | FundsRule | EthereumFundsRule
    | NodeRule

  /** The rows searched by substring, in the order they are tried; `NodeRule` comes last. */
  const Precedence: seq<Rule> := [
    AddressRule, TagRule, InvoiceIdRule, MemoRule, InactiveRule, SelfSendRule,
    ValueRule, GasLimitRule, FeeRule, TooLargeRule, FundsRule, EthereumFundsRule]

  /** The message pattern of a searched row. */
  function PatternOf(r: Rule): string
  {
    match r
    case AddressRule => InvalidAddress
    case TagRule => InvalidTag
    case InvoiceIdRule => InvalidInvoiceId
    case MemoRule => InvalidMemo
    case InactiveRule => InactiveAccount
    case SelfSendRule => SelfSend
    case ValueRule => InvalidValue
    case GasLimitRule => InvalidGasLimit
    case FeeRule => InvalidFee
    case TooLargeRule => TooLarge
    case FundsRule => InsufficientFunds
    case EthereumFundsRule => InsufficientEthereum
    case NodeRule => NodeErrorMessage
  }

  /** The outcome of each searched row's test on `msg`, in table order. */
  function RowHits(msg: string): (h: seq<bool>)
    ensures |h| == |Precedence|
  {
    [Test(InvalidAddress, msg), Test(InvalidTag, msg), Test(InvalidInvoiceId, msg),
     Test(InvalidMemo, msg), Test(InactiveAccount, msg), Test(SelfSend, msg),
     Test(InvalidValue, msg), Test(InvalidGasLimit, msg), Test(InvalidFee, msg),
     Test(TooLarge, msg), Test(InsufficientFunds, msg), Test(InsufficientEthereum, msg)]
  }

  /** The index of the first passing test in `hits`, from index `k` on. */
  function FirstHit(hits: seq<bool>, k: nat): (r: Option<nat>)
    requires k <= |hits|
    ensures r.Some? ==> k <= r.value < |hits| && hits[r.value]
    ensures r.Some? ==> forall j | k <= j < r.value :: !hits[j]
    ensures r.None? ==> forall j | k <= j < |hits| :: !hits[j]
    decreases |hits| - k
  {
    if k == |hits| then None
    else if hits[k] then Some(k)
    else FirstHit(hits, k + 1)
  }

  /** The row of the catch block that handles an error with message `msg`, if any. */
  function Classify(msg: string): (r: Option<Rule>)
  {
    match FirstHit(RowHits(msg), 0)
    case Some(i) => Some(Precedence[i])
    case None => if msg == NodeErrorMessage then Some(NodeRule) else None
  }

  /** The row that produced a user-facing error, read off its template. */
  function RuleOf(u: UserError): Rule
  {
    match u.message
    case Literal(_) => FeeRule
    case Localized(t, _) =>
      match t
      case EnterValidAddress => AddressRule
      case EnterValidTag => TagRule
      case EnterValidInvoiceId => InvoiceIdRule
      case EnterValidMemo => MemoRule
      case WalletNotActivated => InactiveRule
      case OtherThanOwnAddress => SelfSendRule
      case RecipientNotActivated | AmountAbove => ValueRule
      case GasLimitAboveZero => GasLimitRule
      case TransactionTooLarge => TooLargeRule
      case FundsPending | EmptyWalletEthereum | EmptyWalletEos | EmptyWalletReserve | NotEnoughFunds => FundsRule
      case NotEnoughEthereum => EthereumFundsRule
      case NodeError => NodeRule
  }

  // ---------------------------------------------------------------------------
  // Properties of the catch block.

  /** The table, read top to bottom, is the chain of tests the catch block performs. */
  lemma ClassifyIsChain(msg: string)
    ensures Classify(msg) ==
      if Test(InvalidAddress, msg) then Some(AddressRule)
      else if Test(InvalidTag, msg) then Some(TagRule)
      else if Test(InvalidInvoiceId, msg) then Some(InvoiceIdRule)
      else if Test(InvalidMemo, msg) then Some(MemoRule)
      else if Test(InactiveAccount, msg) then Some(InactiveRule)
      else if Test(SelfSend, msg) then Some(SelfSendRule)
      else if Test(InvalidValue, msg) then Some(ValueRule)
      else if Test(InvalidGasLimit, msg) then Some(GasLimitRule)
      else if Test(InvalidFee, msg) then Some(FeeRule)
      else if Test(TooLarge, msg) then Some(TooLargeRule)
      else if Test(InsufficientFunds, msg) then Some(FundsRule)
      else if Test(InsufficientEthereum, msg) then Some(EthereumFundsRule)
      else if msg == NodeErrorMessage then Some(NodeRule)
      else None
  {
    var h := RowHits(msg);
    assert FirstHit(h, 12) == None;
    assert FirstHit(h, 0) == if h[0] then Some(0) else if h[1] then Some(1) else if h[2] then Some(2) else if h[3] then Some(3) else if h[4] then Some(4) else if h[5] then Some(5) else if h[6] then Some(6) else if h[7] then Some(7) else if h[8] then Some(8) else if h[9] then Some(9) else if h[10] then Some(10) else if h[11] then Some(11) else None;
  }

  /** An error is re-thrown unchanged exactly when no row of the table matches its message. */
  lemma PropagatesIffNoRow(e: RawError, w: WalletInfo)
    ensures Translate(e, w).Propagated? <==> Classify(e.message).None?
    ensures Translate(e, w).Propagated? ==> Translate(e, w).original == e
  {
    ClassifyIsChain(e.message);
  }

  /** A user-facing error always comes from the first row of the table that matches the message. */
  lemma RaisedByFirstRow(e: RawError, w: WalletInfo)
    ensures Translate(e, w).Raised? ==> Classify(e.message) == Some(RuleOf(Translate(e, w).error))
  {
    var msg := e.message;
    if Test(InvalidAddress, msg) || Test(InvalidTag, msg) || Test(InvalidInvoiceId, msg) || Test(InvalidMemo, msg) {
      RaisedByRowsAddressToMemo(e, w);
    } else if Test(InactiveAccount, msg) || Test(SelfSend, msg) || Test(InvalidValue, msg) || Test(InvalidGasLimit, msg) {
      RaisedByRowsInactiveToGasLimit(e, w);
    } else if Test(InvalidFee, msg) || Test(TooLarge, msg) || Test(InsufficientFunds, msg) {
      RaisedByRowsFeeToFunds(e, w);
    } else if Test(InsufficientEthereum, msg) {
      RaisedByEthereumRow(e, w);
    } else {
      RaisedByNodeRow(e, w);
    }
  }

  lemma RaisedByRowsAddressToMemo(e: RawError, w: WalletInfo)
    requires Test(InvalidAddress, e.message) || Test(InvalidTag, e.message)
      || Test(InvalidInvoiceId, e.message) || Test(InvalidMemo, e.message)
    ensures Translate(e, w).Raised? && Classify(e.message) == Some(RuleOf(Translate(e, w).error))
  {
    ClassifyIsChain(e.message);
  }

  lemma RaisedByRowsInactiveToGasLimit(e: RawError, w: WalletInfo)
    requires !Test(InvalidAddress, e.message) && !Test(InvalidTag, e.message)
      && !Test(InvalidInvoiceId, e.message) && !Test(InvalidMemo, e.message)
    requires Test(InactiveAccount, e.message) || Test(SelfSend, e.message)
      || Test(InvalidValue, e.message) || Test(InvalidGasLimit, e.message)
    ensures Translate(e, w).Raised? && Classify(e.message) == Some(RuleOf(Translate(e, w).error))
  {
    ClassifyIsChain(e.message);
  }

  lemma RaisedByRowsFeeToFunds(e: RawError, w: WalletInfo)
    requires !Test(InvalidAddress, e.message) && !Test(InvalidTag, e.message)
      && !Test(InvalidInvoiceId, e.message) && !Test(InvalidMemo, e.message)
    requires !Test(InactiveAccount, e.message) && !Test(SelfSend, e.message)
      && !Test(InvalidValue, e.message) && !Test(InvalidGasLimit, e.message)
    requires Test(InvalidFee, e.message) || Test(TooLarge, e.message) || Test(InsufficientFunds, e.message)
    ensures Translate(e, w).Raised? && Classify(e.message) == Some(RuleOf(Translate(e, w).error))
  {
    ClassifyIsChain(e.message);
  }

  lemma RaisedByEthereumRow(e: RawError, w: WalletInfo)
    requires !Test(InvalidAddress, e.message) && !Test(InvalidTag, e.message)
      && !Test(InvalidInvoiceId, e.message) && !Test(InvalidMemo, e.message)
    requires !Test(InactiveAccount, e.message) && !Test(SelfSend, e.message)
      && !Test(InvalidValue, e.message) && !Test(InvalidGasLimit, e.message)
    requires !Test(InvalidFee, e.message) && !Test(TooLarge, e.message) && !Test(InsufficientFunds, e.message)
    requires Test(InsufficientEthereum, e.message)
    ensures Translate(e, w).Raised? && Classify(e.message) == Some(RuleOf(Translate(e, w).error))
  {
    ClassifyIsChain(e.message);
  }

  lemma RaisedByNodeRow(e: RawError, w: WalletInfo)
    requires !Test(InvalidAddress, e.message) && !Test(InvalidTag, e.message)
      && !Test(InvalidInvoiceId, e.message) && !Test(InvalidMemo, e.message)
    requires !Test(InactiveAccount, e.message) && !Test(SelfSend, e.message)
      && !Test(InvalidValue, e.message) && !Test(InvalidGasLimit, e.message)
    requires !Test(InvalidFee, e.message) && !Test(TooLarge, e.message) && !Test(InsufficientFunds, e.message)
    requires !Test(InsufficientEthereum, e.message)
    ensures Translate(e, w).Raised? ==> Classify(e.message) == Some(RuleOf(Translate(e, w).error))
  {
    ClassifyIsChain(e.message);
  }

  /** The position of a searched row in the table; `NodeRule` is tried after all of them. */
  function Rank(r: Rule): nat
  {
    match r
    case AddressRule => 0
    case TagRule => 1
    case InvoiceIdRule => 2
    case MemoRule => 3
    case InactiveRule => 4
    case SelfSendRule => 5
    case ValueRule => 6
    case GasLimitRule => 7
    case FeeRule => 8
    case TooLargeRule => 9
    case FundsRule => 10
    case EthereumFundsRule => 11
    case NodeRule => 12
  }

  /** Every searched row sits in the table at its rank. */
  lemma PrecedenceAtRank(r: Rule)
    requires r != NodeRule
    ensures Rank(r) < |Precedence| && Precedence[Rank(r)] == r
  {
  }

  /** The table lists each row once, at its rank. */
  lemma RankOfPrecedence(k: nat)
    requires k < |Precedence|
    ensures Rank(Precedence[k]) == k
  {
    if k < 6 {
      assert k == 0 || k == 1 || k == 2 || k == 3 || k == 4 || k == 5;
    } else {
      assert k == 6 || k == 7 || k == 8 || k == 9 || k == 10 || k == 11;
    }
  }

  /** The test of a searched row sits in `RowHits` at the row's rank. */
  lemma RowHitAtRank(r: Rule, msg: string)
    requires r != NodeRule
    ensures Rank(r) < |RowHits(msg)| && RowHits(msg)[Rank(r)] == Test(PatternOf(r), msg)
  {
  }

  /**
   * Precedence: whenever a searched row matches the message, the error thrown
   * comes from that row or from one tried before it, never from a later one.
   */
  lemma MatchingRowBeatsLaterRows(e: RawError, w: WalletInfo, r: Rule)
    requires r != NodeRule && Test(PatternOf(r), e.message)
    ensures Translate(e, w).Raised?
    ensures Rank(RuleOf(Translate(e, w).error)) <= Rank(r)
  {
    PrecedenceAtRank(r);
    var h := RowHits(e.message);
    RowHitAtRank(r, e.message);
    var m := FirstHit(h, 0);
    assert m.Some? && m.value <= Rank(r);
    RankOfPrecedence(m.value);
    PropagatesIffNoRow(e, w);
    RaisedByFirstRow(e, w);
  }

  /** A message that names both an invalid address and insufficient funds is reported as an invalid address. */
  lemma AddressBeforeFunds(e: RawError, w: WalletInfo)
    requires Test(InvalidAddress, e.message) && Test(InsufficientFunds, e.message)
    ensures Translate(e, w) == Raised(UserError(Localized(EnterValidAddress, map[]), None))
  {
  }

  /**
   * "Invalid value" is reported as a recipient below the minimum reserve when
   * the details say so, and otherwise as an amount below the dust threshold;
   * absent details never mention the reserve.
   */
  lemma InvalidValueRow(e: RawError, w: WalletInfo)
    requires Classify(e.message) == Some(ValueRule)
    ensures RegexTest(BelowMinReserve, e.details) ==>
      Translate(e, w) == Raised(UserError(Localized(RecipientNotActivated, ReserveParams(w)), None))
    ensures !RegexTest(BelowMinReserve, e.details) ==>
      Translate(e, w) == Raised(UserError(Localized(AmountAbove,
        map["dust" := Spaced(UnitString(e.dustThreshold, None), Text(w.denomination))]), None))
    ensures e.details.None? ==> Translate(e, w).error.message.template == AmountAbove
  {
    ClassifyIsChain(e.message);
  }

  /** The networks for which an empty-wallet attempt is answered with a suggested amount. */
  predicate SuggestsSendable(network: string)
  {
    network == "ethereum" || network == "eos" || network == "ripple" || network == "stellar"
  }

  /**
   * "Insufficient funds": pending confirmations take precedence over everything;
   * an attempt to empty the wallet gets its own message only on ethereum, eos,
   * ripple and stellar; every other case is the generic not-enough-funds error.
   */
  lemma InsufficientFundsRow(e: RawError, w: WalletInfo)
    requires Classify(e.message) == Some(FundsRule)
    ensures RegexTest(PendingConfirmation, e.details) ==>
      Translate(e, w) == Raised(UserError(Localized(FundsPending, map[]), None))
    ensures !RegexTest(PendingConfirmation, e.details) && RegexTest(EmptyWallet, e.details) ==>
      Translate(e, w) ==
        if w.networkName == "ethereum" then RaiseEmptyWallet(EmptyWalletEthereum, e, map[])
        else if w.networkName == "eos" then RaiseEmptyWallet(EmptyWalletEos, e, map[])
        else if w.networkName == "ripple" || w.networkName == "stellar" then
          RaiseEmptyWallet(EmptyWalletReserve, e, ReserveParams(w))
        else Raised(UserError(Localized(NotEnoughFunds, map[]), None))
    ensures !RegexTest(PendingConfirmation, e.details) && !RegexTest(EmptyWallet, e.details) ==>
      Translate(e, w) == Raised(UserError(Localized(NotEnoughFunds, map[]), None))
    ensures e.details.None? ==> Translate(e, w) == Raised(UserError(Localized(NotEnoughFunds, map[]), None))
  {
    ClassifyIsChain(e.message);
  }

  /** Whether the error thrown for `e` carries a suggested `sendableBalance`. */
  predicate CarriesSendable(t: Thrown)
  {
    t.Raised? && t.error.sendableBalance.Some?
  }

  /**
   * Only the three empty-wallet errors carry a `sendableBalance`, and the value
   * attached is the formatted balance the message also quotes.
   */
  lemma SendableOnlyWhenEmptying(e: RawError, w: WalletInfo)
    ensures CarriesSendable(Translate(e, w)) <==>
      Classify(e.message) == Some(FundsRule) && !RegexTest(PendingConfirmation, e.details)
      && RegexTest(EmptyWallet, e.details) && SuggestsSendable(w.networkName)
    ensures CarriesSendable(Translate(e, w)) ==>
      var u := Translate(e, w).error;
      u.sendableBalance == Some(UnitString(e.sendableBalance, None))
      && u.message.Localized? && u.message.params["sendableBalance"] == u.sendableBalance.value
  {
    PropagatesIffNoRow(e, w);
    RaisedByFirstRow(e, w);
    if Classify(e.message) == Some(FundsRule) {
      InsufficientFundsRow(e, w);
    }
  }

  /** "Invalid fee" is the one recognised error whose message is not localised. */
  lemma OnlyFeeUnlocalized(e: RawError, w: WalletInfo)
    ensures Translate(e, w).Raised? ==>
      (Translate(e, w).error.message.Literal? <==> Classify(e.message) == Some(FeeRule))
    ensures Classify(e.message) == Some(FeeRule) ==>
      Translate(e, w) == Raised(UserError(Literal(FeeText), None))
  {
    PropagatesIffNoRow(e, w);
    RaisedByFirstRow(e, w);
    if Classify(e.message) == Some(FeeRule) {
      ClassifyIsChain(e.message);
    }
  }

  /** A message without the capitals 'I', 'D' and 'T' matches none of the searched patterns. */
  lemma NoPatternWithoutCapitals(msg: string)
    requires 'I' !in msg && 'D' !in msg && 'T' !in msg
    ensures !Test(InvalidAddress, msg) && !Test(InvalidTag, msg) && !Test(InvalidInvoiceId, msg)
    ensures !Test(InvalidMemo, msg) && !Test(InactiveAccount, msg) && !Test(SelfSend, msg)
    ensures !Test(InvalidValue, msg) && !Test(InvalidGasLimit, msg) && !Test(InvalidFee, msg)
    ensures !Test(TooLarge, msg) && !Test(InsufficientFunds, msg) && !Test(InsufficientEthereum, msg)
  {
    NoLeadingChar(InvalidAddress, msg);
    NoLeadingChar(InvalidTag, msg);
    NoLeadingChar(InvalidInvoiceId, msg);
    NoLeadingChar(InvalidMemo, msg);
    NoLeadingChar(InactiveAccount, msg);
    NoLeadingChar(SelfSend, msg);
    NoLeadingChar(InvalidValue, msg);
    NoLeadingChar(InvalidGasLimit, msg);
    NoLeadingChar(InvalidFee, msg);
    NoLeadingChar(TooLarge, msg);
    NoLeadingChar(InsufficientFunds, msg);
    NoLeadingChar(InsufficientEthereum, msg);
  }

  /**
   * The node-error row is an exact comparison: the message "cs-node-error"
   * reaches it and yields the network error naming the capitalised network.
   */
  lemma NodeErrorExact(e: RawError, w: WalletInfo)
    ensures Classify(e.message) == Some(NodeRule) <==> e.message == NodeErrorMessage
    ensures e.message == NodeErrorMessage ==>
      Translate(e, w) == Raised(UserError(Localized(NodeError, map["network" := Text(UpperFirst(w.networkName))]), None))
  {
    if e.message == NodeErrorMessage {
      NoPatternWithoutCapitals(e.message);
    }
    ClassifyIsChain(e.message);
  }

  /**
   * The node-error row is not a substring search: "cs-node-error" followed by
   * any further text that names none of the searched patterns' capitals
   * matches no row and is re-thrown as it is.
   */
  lemma NodeErrorNotBySubstring(e: RawError, w: WalletInfo, suffix: string)
    requires e.message == NodeErrorMessage + suffix && |suffix| > 0
    requires 'I' !in suffix && 'D' !in suffix && 'T' !in suffix
    ensures Test(NodeErrorMessage, e.message)
    ensures Translate(e, w) == Propagated(e)
  {
    MatchesPrefix(NodeErrorMessage, suffix);
    NoCapitalsInNodeErrorMessage();
    assert forall c | c in e.message :: c in NodeErrorMessage || c in suffix;
    NoPatternWithoutCapitals(e.message);
  }

  lemma NoCapitalsInNodeErrorMessage()
    ensures 'I' !in NodeErrorMessage && 'D' !in NodeErrorMessage && 'T' !in NodeErrorMessage
  {
  }

  /**
   * "Insufficient ethereum funds for token transaction" does not contain
   * "Insufficient funds", so its own row is reached, quoting the ether needed
   * at 18 decimals.
   */
  lemma EthereumFundsReachable(e: RawError, w: WalletInfo)
    requires e.message == InsufficientEthereum
    ensures Translate(e, w) ==
      Raised(UserError(Localized(NotEnoughEthereum, map["ethereumRequired" := UnitString(e.ethereumRequired, Some(18))]), None))
  {
    EthereumMessageSkipsInvalidRows();
    EthereumMessageSkipsOtherRows();
  }

  /** The capital 'I' opens the ethereum-funds message and occurs nowhere else in it. */
  lemma EthereumMessageShape()
    ensures InsufficientEthereum == ['I'] + ("nsufficient " + EthereumFundsTail)
    ensures 'I' !in "nsufficient " + EthereumFundsTail
    ensures 'D' !in InsufficientEthereum && 'T' !in InsufficientEthereum
  {
    assert "Insufficient " == ['I'] + "nsufficient ";
    assert EthereumFundsTail == "ethereum " + "funds " + "for " + "token " + "transaction";
    EthereumMessageLacksI();
    EthereumMessageLacksD();
    EthereumMessageLacksT();
  }

  lemma EthereumMessageLacksI()
    ensures 'I' !in "nsufficient " + "ethereum " + "funds " + "for " + "token " + "transaction"
  {
  }

  lemma EthereumMessageLacksD()
    ensures 'D' !in "Insufficient " + "ethereum " + "funds " + "for " + "token " + "transaction"
  {
  }

  lemma EthereumMessageLacksT()
    ensures 'T' !in "Insufficient " + "ethereum " + "funds " + "for " + "token " + "transaction"
  {
  }

  lemma EthereumMessageSkipsInvalidRows()
    ensures !Test(InvalidAddress, InsufficientEthereum) && !Test(InvalidTag, InsufficientEthereum)
    ensures !Test(InvalidInvoiceId, InsufficientEthereum) && !Test(InvalidMemo, InsufficientEthereum)
    ensures !Test(InvalidValue, InsufficientEthereum) && !Test(InvalidGasLimit, InsufficientEthereum)
    ensures !Test(InvalidFee, InsufficientEthereum)
  {
    EthereumMessageShape();
    var rest := "nsufficient " + EthereumFundsTail;
    assert InsufficientEthereum[2] == 's';
    LeadingCharOnlyFirst(InvalidAddress, 'I', rest);
    LeadingCharOnlyFirst(InvalidTag, 'I', rest);
    LeadingCharOnlyFirst(InvalidInvoiceId, 'I', rest);
    LeadingCharOnlyFirst(InvalidMemo, 'I', rest);
    LeadingCharOnlyFirst(InvalidValue, 'I', rest);
    LeadingCharOnlyFirst(InvalidGasLimit, 'I', rest);
    LeadingCharOnlyFirst(InvalidFee, 'I', rest);
  }

  lemma EthereumMessageSkipsOtherRows()
    ensures !Test(InactiveAccount, InsufficientEthereum) && !Test(SelfSend, InsufficientEthereum)
    ensures !Test(TooLarge, InsufficientEthereum) && !Test(InsufficientFunds, InsufficientEthereum)
    ensures Test(InsufficientEthereum, InsufficientEthereum)
  {
    EthereumMessageShape();
    var rest := "nsufficient " + EthereumFundsTail;
    assert InsufficientEthereum[2] == 's' && InsufficientEthereum[13] == 'e';
    LeadingCharOnlyFirst(InactiveAccount, 'I', rest);
    LeadingCharOnlyFirst(InsufficientFunds, 'I', rest);
    NoLeadingChar(SelfSend, InsufficientEthereum);
    NoLeadingChar(TooLarge, InsufficientEthereum);
    MatchesPrefix(InsufficientEthereum, []);
    assert InsufficientEthereum + [] == InsufficientEthereum;
  }
}
