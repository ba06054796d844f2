/**
 * `validateSend`: convert the amounts, make the one `createTx` call the
 * wallet's network calls for, store the result into the request's `tx`, and
 * on failure throw the user-facing error the catch block picks.
 */
module Validator {
  import opened Wrappers
  import opened Errors
  import opened Networks
  import opened Translation

  /** A transaction object built by a wallet; the validator only stores it. */
  datatype Tx = Tx(handle: nat)

  /** What `validateSend` writes into `tx`: `null`, or the transaction a wallet built. */
  datatype TxValue = Null | Built(tx: Tx)

  /** The request fields the validator reads, amounts in display units. */
  datatype Inputs = Inputs(
    to: string,
    amount: string,
    fee: Option<string>,
    tag: Option<string>,
    invoiceId: Option<string>,
    memo: Option<string>,
    destinationInfo: Option<DestinationInfo>)

  /** Display-unit to atomic-unit conversion (lib/convert); it may throw. */
  type Converter = Option<string> -> Result<int, RawError>

  /** A wallet library's answer to each construction call. */
  type Constructor = Call -> Result<Tx, RawError>

  /** One run of `validateSend`: the construction calls made, then the value stored or the error thrown. */
  datatype Run = Run(calls: seq<Call>, outcome: Result<TxValue, Thrown>)

  /** The arguments a call may draw on, once both amounts are converted. */
  function ArgsOf(i: Inputs, amount: int, fee: int): SendArgs
  {
    SendArgs(i.to, amount, fee, i.tag, i.invoiceId, i.memo, i.destinationInfo)
  }

  /**
   * `validateSend` as a function of the request, the wallet and its
   * collaborators. The conversions run before the `try` block; everything
   * after them is inside it.
   */
  function Send(i: Inputs, w: WalletInfo, createTx: Constructor, toAtom: Converter): (r: Run)
    ensures |r.calls| <= 1
    ensures r.calls != [] ==> r.calls[0] != NoCall
    ensures r.outcome.Success? ==> (r.outcome.value.Null? <==> r.calls == [])
    ensures r.outcome.Success? && r.outcome.value.Built? ==> createTx(r.calls[0]) == Success(r.outcome.value.tx)
    ensures r.outcome.Failure? && r.calls != [] ==> createTx(r.calls[0]).Failure?
  {
    match toAtom(Some(i.amount))
    case Failure(e) => Run([], Failure(Propagated(e)))
    case Success(amount) =>
      match toAtom(i.fee)
      case Failure(e) => Run([], Failure(Propagated(e)))
      case Success(fee) =>
        match Dispatch(w.networkName, ArgsOf(i, amount, fee))
        case Failure(e) => Run([], Failure(Translate(e, w)))
        case Success(c) =>
          if c.NoCall? then Run([], Success(Null))
          else
            match createTx(c)
            case Success(t) => Run([c], Success(Built(t)))
            case Failure(e) => Run([c], Failure(Translate(e, w)))
  }

  /** A wallet object: its network, its reserve and display unit, and the construction calls it has received. */
  class Wallet {
    const networkName: string
    const minReserve: Option<int>
    const denomination: string
    /** How the wallet library answers each construction call. */
    const createTx: Constructor
    /** The construction calls made to this wallet, oldest first. */
    ghost var calls: seq<Call>

    constructor (networkName: string, minReserve: Option<int>, denomination: string, createTx: Constructor)
      ensures this.networkName == networkName && this.minReserve == minReserve
      ensures this.denomination == denomination && this.createTx == createTx
      ensures calls == []
    {
      this.networkName := networkName;
      this.minReserve := minReserve;
      this.denomination := denomination;
      this.createTx := createTx;
      calls := [];
    }

    /** The wallet properties the catch block reads. */
    function Info(): WalletInfo
    {
      WalletInfo(networkName, minReserve, denomination)
    }

    /** `wallet.createTx(...)`: one call, answered by the wallet library. */
    method CreateTx(c: Call) returns (r: Result<Tx, RawError>)
      modifies this`calls
      ensures calls == old(calls) + [c]
      ensures r == createTx(c)
    {
      calls := calls + [c];
      r := createTx(c);
    }
  }

  /** The `options` object handed to `validateSend`; the validator writes only its `tx`. */
  class Request {
    const wallet: Wallet
    var to: string
    var amount: string
    var fee: Option<string>
    var tag: Option<string>
    var invoiceId: Option<string>
    var memo: Option<string>
    var destinationInfo: Option<DestinationInfo>
    /** The `tx` property: `None` until something is stored there. */
    var tx: Option<TxValue>

    constructor (wallet: Wallet, i: Inputs)
      ensures this.wallet == wallet && Fields() == i && tx == None
    {
      this.wallet := wallet;
      to, amount, fee := i.to, i.amount, i.fee;
      tag, invoiceId, memo := i.tag, i.invoiceId, i.memo;
      destinationInfo := i.destinationInfo;
      tx := None;
    }

    /** The fields the validator reads. */
    function Fields(): Inputs
      reads this
    {
      Inputs(to, amount, fee, tag, invoiceId, memo, destinationInfo)
    }

    /**
     * `validateSend(options)`: returns the error it throws, if any. The wallet
     * receives exactly the calls `Send` makes; `tx` is written only when no
     * error is thrown, and no other field of the request changes.
     */
    method ValidateSend(toAtom: Converter) returns (thrown: Option<Thrown>)
      modifies this`tx, wallet`calls
      ensures var run := Send(old(Fields()), wallet.Info(), wallet.createTx, toAtom);
        && wallet.calls == old(wallet.calls) + run.calls
        && (run.outcome.Success? ==> thrown == None && tx == Some(run.outcome.value))
        && (run.outcome.Failure? ==> thrown == Some(run.outcome.error) && tx == old(tx))
      ensures Fields() == old(Fields())
    {
      var amountAtoms := toAtom(Some(amount));
      if amountAtoms.Failure? {
        return Some(Propagated(amountAtoms.error));
      }
      var feeAtoms := toAtom(fee);
      if feeAtoms.Failure? {
        return Some(Propagated(feeAtoms.error));
      }
      var built: TxValue := Null;
      var dispatched := Dispatch(wallet.networkName, ArgsOf(Fields(), amountAtoms.value, feeAtoms.value));
      if dispatched.Failure? {
        return Some(Translate(dispatched.error, wallet.Info()));
      }
      if !dispatched.value.NoCall? {
        var created := wallet.CreateTx(dispatched.value);
        if created.Failure? {
          return Some(Translate(created.error, wallet.Info()));
        }
        built := Built(created.value);
      }
      tx := Some(built);
      thrown := None;
    }
  }

  // ---------------------------------------------------------------------------
  // Properties of a run.

  /** A name the validator does not recognise gets no call and no error: `tx` becomes `null`. */
  lemma UnrecognisedNetworkStoresNull(i: Inputs, w: WalletInfo, createTx: Constructor, toAtom: Converter)
    requires toAtom(Some(i.amount)).Success? && toAtom(i.fee).Success?
    requires Parse(w.networkName).None?
    ensures Send(i, w, createTx, toAtom) == Run([], Success(Null))
  {
  }

  /**
   * A recognised network makes exactly one construction call, the one its
   * family takes; its result is stored, or its error translated.
   */
  lemma RecognisedNetworkCallsOnce(i: Inputs, w: WalletInfo, createTx: Constructor, toAtom: Converter, n: Network)
    requires toAtom(Some(i.amount)).Success? && toAtom(i.fee).Success?
    requires Parse(w.networkName) == Some(n)
    requires n == Stellar ==> i.destinationInfo.Some?
    ensures var args := ArgsOf(i, toAtom(Some(i.amount)).value, toAtom(i.fee).value);
      var run := Send(i, w, createTx, toAtom);
      && CallFor(n, args).Success?
      && run.calls == [CallFor(n, args).value]
      && run.outcome == match createTx(run.calls[0])
        case Success(t) => Success(Built(t))
        case Failure(e) => Failure(Translate(e, w))
  {
    var args := ArgsOf(i, toAtom(Some(i.amount)).value, toAtom(i.fee).value);
    CallArguments(n, args);
  }

  /**
   * The conversions run before the `try` block: their errors propagate
   * untranslated, whatever their message says, and no call is made.
   */
  lemma ConversionErrorsUntranslated(i: Inputs, w: WalletInfo, createTx: Constructor, toAtom: Converter)
    requires toAtom(Some(i.amount)).Failure? || toAtom(i.fee).Failure?
    ensures var e := if toAtom(Some(i.amount)).Failure? then toAtom(Some(i.amount)).error else toAtom(i.fee).error;
      Send(i, w, createTx, toAtom) == Run([], Failure(Propagated(e)))
  {
  }

  /** The capitals that open the searched patterns do not occur in the missing-`destinationInfo` error. */
  lemma NoCapitalsInMissingDestinationInfo()
    ensures 'I' !in MissingDestinationInfo.message
    ensures 'D' !in MissingDestinationInfo.message
    ensures 'T' !in MissingDestinationInfo.message
  {
    assert MissingDestinationInfo.message ==
      "Cannot read " + "properties of " + "undefined " + "(reading " + "'isActive')";
    MissingDestinationInfoLacksI();
    MissingDestinationInfoLacksD();
    MissingDestinationInfoLacksT();
  }

  lemma MissingDestinationInfoLacksI()
    ensures 'I' !in "Cannot read " + "properties of " + "undefined " + "(reading " + "'isActive')"
  {
  }

  lemma MissingDestinationInfoLacksD()
    ensures 'D' !in "Cannot read " + "properties of " + "undefined " + "(reading " + "'isActive')"
  {
  }

  lemma MissingDestinationInfoLacksT()
    ensures 'T' !in "Cannot read " + "properties of " + "undefined " + "(reading " + "'isActive')"
  {
  }

  /**
   * A stellar request without `destinationInfo` fails inside the `try` block
   * before any call; the engine's error matches no row and is re-thrown.
   */
  lemma StellarWithoutDestinationInfo(i: Inputs, w: WalletInfo, createTx: Constructor, toAtom: Converter)
    requires toAtom(Some(i.amount)).Success? && toAtom(i.fee).Success?
    requires w.networkName == "stellar" && i.destinationInfo.None?
    ensures Send(i, w, createTx, toAtom) == Run([], Failure(Propagated(MissingDestinationInfo)))
  {
    NoCapitalsInMissingDestinationInfo();
    NoPatternWithoutCapitals(MissingDestinationInfo.message);
  }

  /** `tx` receives `null` exactly when no call was made, and otherwise exactly what the one call returned. */
  lemma StoredValueIsCallResult(i: Inputs, w: WalletInfo, createTx: Constructor, toAtom: Converter)
    ensures var run := Send(i, w, createTx, toAtom);
      run.outcome.Success? ==>
        (run.outcome.value == Null <==> run.calls == [])
        && (run.outcome.value.Built? ==> |run.calls| == 1 && createTx(run.calls[0]) == Success(run.outcome.value.tx))
    ensures |Send(i, w, createTx, toAtom).calls| <= 1
  {
  }
}
