# CoinSpace send validation in Dafny

This project models `validateSend` from the CoinSpace wallet
(`app/lib/wallet/validator.js`). The function validates an outgoing payment
by asking the wallet to build the transaction, and it does three things:

- **It converts the amount and the fee** to atomic units (`toAtom`) before
  anything else.
- **It builds the transaction.** The wallet's `networkName` picks one
  `createTx` call with a network-specific argument list: the bitcoin family
  (bitcoin, bitcoincash, bitcoinsv, litecoin, dogecoin, dash), ethereum,
  ripple, stellar, eos or monero. The result is stored into `options.tx`.
  When the name is not recognised, the function stores `null`.
- **It translates errors.** When the build throws, the catch block runs an
  ordered chain of literal regular expressions over the error's message, and
  inside two rows over its details. The first row that matches replaces the
  error with a user-facing, localised error. An error that no row matches is
  re-thrown unchanged.

The model has six modules:

- `Wrappers` holds `Option` and `Result`.
- `Pattern` models a metacharacter-free regex literal `/X/.test(v)` as
  substring occurrence. When `v` is `undefined`, the literal is tested
  against the string `"undefined"`, as JavaScript does.
- `Errors` holds the raw error a wallet throws and the user-facing error
  the validator throws: a message template plus named substitutions, and an
  optional attached `sendableBalance`.
- `Networks` covers the network names, the call each network makes, and the
  dispatch chain itself (`Dispatch`). `Dispatch` is proved equal to a
  closed-variant reference (`CallFor`).
- `Translation` holds the catch block as the faithful if-chain (`Translate`).
  It also holds the same chain written as a table with an independent
  first-match search (`Classify`), the lemmas that tie the two together, and
  the lemmas about the individual rows.
- `Validator` has two classes:
  - `Wallet` logs the construction calls it receives in a ghost `calls`
    sequence.
  - `Request` is the `options` object, with a mutable `tx` field.

  `Request.ValidateSend` is proved against the pure run `Send`, and the
  lemmas about `Send` state what a run promises.

Two behaviours of the code worth noting:

- An unrecognised network name does not leave `tx` unset. `tx` is
  initialised to `null` (line 10) and stored whenever no error is thrown
  (line 26).
- Three branches of the insufficient-funds row attach `sendableBalance`:
  ethereum, eos, and ripple or stellar (lines 67-93).

## Model

| member | source | states |
|---|---|---|
| Pattern.Test | app/lib/wallet/validator.js:28-97 | `/p/.test(s)` for a literal without metacharacters: `p` occurs in `s` as a contiguous substring, so a match needs `s` at least as long as `p`. Pattern.MatchesPrefix, Pattern.MatchesSuffix, Pattern.NoLeadingChar and Pattern.LeadingCharOnlyFirst state when it holds. |
| Pattern.JsString | app/lib/wallet/validator.js:45-84 | JavaScript's string conversion of the tested details: a present string is itself, and `undefined` becomes the 9-character text "undefined". |
| Pattern.RegexTest | app/lib/wallet/validator.js:45 | A details pattern longer than "undefined" never matches absent details, because `RegExp.test(undefined)` tests the string "undefined". |
| Translation.Translate | app/lib/wallet/validator.js:27-108 | The catch block as its if/else chain. A re-thrown error is the caught error itself. The only unlocalised text is the fee message. An attached `sendableBalance` is always the formatted balance of the caught error. Its row order is stated by Translation.ClassifyIsChain and the lemmas after it. |
| Translation.UpperFirst | app/lib/wallet/validator.js:104 | lodash's `upperFirst`: the length and everything after the first character are kept. A lower-case ASCII first letter becomes its capital, and any other string is returned as it is. |
| Translation.FirstHit | app/lib/wallet/validator.js:28-97 | The result is the index of the first passing test from `k` on: that test passes and every earlier one fails. `None` means every test fails. |
| Translation.ClassifyIsChain | app/lib/wallet/validator.js:28-106 | The table of rows, searched first-match-wins, picks exactly the row the catch block's if/else chain picks, for every message. The node-error row is an exact comparison tried last. |
| Translation.PropagatesIffNoRow | app/lib/wallet/validator.js:28-108 | The caught error is re-thrown exactly when no row matches its message, and it is re-thrown unchanged. |
| Translation.RaisedByFirstRow | app/lib/wallet/validator.js:28-106 | Every user-facing error comes from the first row of the table that matches the message. |
| Translation.RaisedByRowsAddressToMemo | app/lib/wallet/validator.js:28-35 | When one of the address, tag, invoice-ID or memo patterns matches, a user-facing error is thrown, and it is the one of the first matching row. |
| Translation.RaisedByRowsInactiveToGasLimit | app/lib/wallet/validator.js:36-57 | When none of the first four patterns matches but one of the inactive-account, self-send, value or gas-limit patterns does, the first matching row's error is thrown. |
| Translation.RaisedByRowsFeeToFunds | app/lib/wallet/validator.js:58-96 | When the earlier rows fail and the fee, too-large or insufficient-funds pattern matches, the first matching row's error is thrown. |
| Translation.RaisedByEthereumRow | app/lib/wallet/validator.js:97-101 | When every earlier row fails and the ethereum-funds pattern matches, the error of that row is thrown. |
| Translation.RaisedByNodeRow | app/lib/wallet/validator.js:102-106 | When every searched row fails, a user-facing error can only come from the node-error row. |
| Translation.MatchingRowBeatsLaterRows | app/lib/wallet/validator.js:28-97 | If any searched row matches the message, a user-facing error is thrown. It comes from that row or from one tried before it, never from a later row. |
| Translation.AddressBeforeFunds | app/lib/wallet/validator.js:28-63 | Any message that contains both "Invalid address" and "Insufficient funds" is reported as an invalid address, because the address row is tried first. |
| Translation.InvalidValueRow | app/lib/wallet/validator.js:44-55 | "Invalid value" with details mentioning the minimum reserve gives the recipient-not-activated error with the reserve and denomination. Otherwise it gives the amount-above error quoting the dust threshold and the denomination. Absent details always give the latter. |
| Translation.InsufficientFundsRow | app/lib/wallet/validator.js:63-96 | For "Insufficient funds": a pending confirmation wins first. Next, an empty-wallet attempt gets the ethereum, eos or reserve message on ethereum, eos, or ripple and stellar respectively. Every other case, including absent details, is the generic not-enough-funds error. |
| Translation.SendableOnlyWhenEmptying | app/lib/wallet/validator.js:63-96 | A thrown error carries `sendableBalance` if and only if it is the insufficient-funds row's empty-wallet case on ethereum, eos, ripple or stellar. The attached value is the formatted balance that the message also substitutes. |
| Translation.OnlyFeeUnlocalized | app/lib/wallet/validator.js:58-60 | The fee row is the one user-facing error whose text is not localised. It is exactly "Please enter valid fee". |
| Translation.NoPatternWithoutCapitals | app/lib/wallet/validator.js:28-97 | A message containing none of the characters 'I', 'D' and 'T' matches none of the twelve searched patterns. |
| Translation.NodeErrorExact | app/lib/wallet/validator.js:102-105 | The node-error row is reached exactly when the message is "cs-node-error". It throws the network-error message with the capitalised network name. |
| Translation.NodeErrorNotBySubstring | app/lib/wallet/validator.js:102-108 | "cs-node-error" followed by any non-empty suffix that contains none of 'I', 'D' and 'T' contains the node-error text, yet matches no row and is re-thrown unchanged. A suffix that does contain a searched pattern is handled by that pattern's row instead. |
| Translation.EthereumFundsReachable | app/lib/wallet/validator.js:97-101 | "Insufficient ethereum funds for token transaction" does not match the earlier "Insufficient funds" row. It reaches its own row, which quotes the ether required at 18 decimals. |
| Networks.ParseName | app/lib/wallet/validator.js:13-24 | Every supported network is recognised by its own name. |
| Networks.NameParse | app/lib/wallet/validator.js:13-24 | A recognised name is exactly the name of the network it stands for. |
| Networks.Dispatch | app/lib/wallet/validator.js:13-25 | An unrecognised network makes no call. A recognised one makes the call of its closed-variant reference `CallFor`. |
| Networks.CallArguments | app/lib/wallet/validator.js:13-24 | Each call passes the request's destination and amount. The fee goes only to the bitcoin family and monero, the memo only to stellar and eos, and tag and invoice ID only to ripple. Stellar asks for activation exactly when the destination is inactive, and stellar without destination info is the only failure. |
| Validator.Send | app/lib/wallet/validator.js:5-108 | One run of `validateSend`, as a value. It makes at most one construction call, and never the empty one. It stores `null` exactly when it made no call, and a built transaction is the one call's answer. A failure after a call means that call failed. |
| Validator.Wallet.CreateTx | app/lib/wallet/validator.js:14-24 | One construction call is appended to the wallet's call log, and its answer is the wallet library's answer. |
| Validator.Request.ValidateSend | app/lib/wallet/validator.js:5-108 | The wallet receives exactly the calls of the pure run `Send`. `tx` is written only when nothing is thrown, and then holds the run's value. On failure the thrown error is the run's error and `tx` keeps its old value. No other request field changes. |
| Validator.UnrecognisedNetworkStoresNull | app/lib/wallet/validator.js:10-26 | An unrecognised network name makes no call, throws nothing and stores `null`. |
| Validator.RecognisedNetworkCallsOnce | app/lib/wallet/validator.js:13-26 | A recognised network makes exactly one construction call, the one its family takes. Its result is stored, or its error is translated by the catch block. |
| Validator.ConversionErrorsUntranslated | app/lib/wallet/validator.js:6-9 | A failing amount or fee conversion propagates its own error untranslated, and no call is made. |
| Validator.StellarWithoutDestinationInfo | app/lib/wallet/validator.js:19-20 | A stellar request without destination info throws before any call. That engine error matches no row and is re-thrown unchanged. |
| Validator.StoredValueIsCallResult | app/lib/wallet/validator.js:10-26 | A run makes at most one call. The stored value is `null` exactly when no call was made, and otherwise it is the transaction the one call returned. |

## Left out

- `async`/`await`: the ripple and monero calls are awaited. The model treats every call as completing before the next step, and concurrency with other code is not modelled.
- `toAtom` (lib/convert) is a parameter of the model and may fail. Its rounding and parsing are not part of this model.
- `toUnitString` (lib/convert) is kept symbolic: a formatted amount is the value `UnitString(atoms, decimals)`, not its digits.
- `translate` (lib/i18n) is not evaluated. A localised message is its template key plus its named substitutions, and rendering and locale lookup are not modelled.
- Translation.UpperFirst: lodash's `upperFirst` is modelled for the ASCII letters a-z only. Other Unicode case mappings are left out.
- The wallet libraries' `createTx` is a fixed function from call to result (`Wallet.createTx`). What the libraries do with their arguments, and any state they keep between calls, is not modelled.
- The wording of the engine's error for a missing `destinationInfo` is one representative text. Only its lack of 'I', 'D' and 'T' matters to the proofs.
- Pattern.Test covers the regex literals that appear in the catch block, all free of metacharacters. It is not a general regular-expression engine.
- The `Error` objects' stack traces and any properties other than `message`, `details`, `dustThreshold`, `sendableBalance` and `ethereumRequired` are not modelled.
