# Smart-account policy modules, modelled in Dafny

This project models the account-policy hooks of three CosmWasm contracts of a
smart-account sample. A smart account delegates the checks on its
transactions to a policy contract. The host chain calls the contract's
`PreExecute` hook before it runs a transaction of the account and its
`AfterExecute` hook afterwards. Only the account itself may call these hooks.

- **base**: `instantiate` records the caller as owner. Both hooks are pure
  self-call guards.
- **recovery**: `instantiate` stores a hex-decoded recovery public key. The
  hooks are guards. The privileged `sudo` entry takes a `Recover` request. It
  succeeds exactly when the host's secp256k1 verifier accepts the request's
  signature over the SHA-256 digest of the proposed public key, checked
  against the stored recovery key.
- **spend-limit**: the owner caps each denomination with a record
  `{limit, used, time_set}`. `PreExecute` snapshots the account's balances.
  `AfterExecute` walks the snapshot and charges every limited denomination
  whose balance fell. Inside the one-hour window a charge must fit within
  `limit - used`. After the window any charge is accepted and still added to
  `used`.

## Layout

- `wrappers.dfy` (`Wrappers`): `Option` and `Result`.
- `smart_account.dfy` (`SmartAccount`): the shared types.
  - The package's `MsgData`, and the host's `Coin`, `Env`, `MessageInfo` and
    `Response`.
  - `Uint128` and the nanosecond `Timestamp`, as bounded subset types.
  - The common `ContractError`.
  - The self-call predicate `IsSelfCall`.
  - `DecimalString`, the decimal rendering used in attributes.
- `hex.dfy` (`Hex`): base16 decoding as `hex::decode` does it, with a
  lower-case encoder as its partner and a proved round trip.
- `base.dfy` (`Base`): the base contract.
- `recovery.dfy` (`Recovery`): the recovery contract.
- `spend_limit_ledger.dfy` (`SpendLimitLedger`): pure functions and the
  lemmas about them.
  - The `Limit` record, `check_limit`, and the charge of one snapshot coin.
  - `ChargeAll`, the whole after-execute pass over the snapshot.
- `spend_limit.dfy` (`SpendLimit`): the spend-limit contract as a class.
  - Its storage is three fields: `owner` (the `OWNER` item), `limits` (the
    `LIMITS` map) and `balances` (the `BALANCES` snapshot slot).
  - Each entry point is a method with `modifies`. The postconditions of
    `ExecuteSetSpendLimit`, `ExecutePreExecute` and `ExecuteAfterExecute` are
    the predicates `SetSpendLimitDone`, `PreExecuteDone` and
    `AfterExecuteDone`, in that order.
  - `ExecuteAfterExecute` keeps the source's loop. The loop writes `limits` in
    place and is proved against `ChargeAll` by a loop invariant.
  - `RunTransaction` is the host's atomic pre-hook, transaction, after-hook
    sequence. `SpendWithinHourScenario` is a client that runs the
    1000-"uaura" scenario: spend 600, be refused 500 inside the hour, then be
    allowed 500 after it.

Modelling decisions:

- Host calls become inputs.
  - The bank `AllBalances` query becomes the `bankBalances` argument.
  - `addr_validate` becomes the function field `Api.addrValidate`.
  - `sha256`, `secp256k1_verify` and the JSON decoding of `Credentials` become
    the function fields of `Recovery.Host`.
- Panics become `ContractError.Panic`, because the host aborts the call
  either way. Three panics are modelled:
  - `Timestamp::minus_seconds` below one hour after the epoch;
  - the `checked_add(...).unwrap()` overflow of `used`, which can only happen
    once a window has expired;
  - the `unwrap` of the verifier's error and of malformed hex.
- Any error rolls back the host's state. So on every error, storage is as it
  was before the call.
- `check_limit` subtracts `limit - amount` only after testing
  `limit < amount`. The model writes that difference into a `Uint128`. Its
  verification proves that the `checked_sub(...).unwrap()` there cannot
  panic.

Behaviour of the contracts worth noting:

- After a window has expired, `used` still grows by the spent amount and the
  record is saved (`contracts/spend-limit/src/contract.rs:148-149`). So `used`
  may exceed `limit` once the window is over.
- An overrun spend fails with the error
  `CustomError("limit exceed for denom: <denom>")`
  (`contracts/spend-limit/src/contract.rs:141-145`).
- A rejected recovery signature fails with the error
  `CustomError("Invalid signature for recovery")`
  (`contracts/recovery/src/contract.rs:118-120`).
- Block times are nanoseconds since the epoch. A block time below
  3600 seconds makes `minus_seconds` panic
  (`contracts/spend-limit/src/contract.rs:95-97`). So the scenario above
  starts at a block time well past that.
- The spend-limit `instantiate` stores the validated `owner` of its message,
  but its response's `owner` attribute is the caller
  (`contracts/spend-limit/src/contract.rs:36-40`).

## Model

| member | source | states |
|---|---|---|
| SmartAccount.DecimalString | contracts/spend-limit/src/contract.rs:87-89 | the `amount` attribute is a non-empty string of decimal digits, with no leading zero (0 is exactly "0"), whose value is the amount |
| Hex.DecodeFrom | contracts/recovery/src/contract.rs:26 | decoding pairs succeeds iff every remaining character is a hex digit (either case), giving one byte per pair |
| Hex.DecodeFromByte | contracts/recovery/src/contract.rs:26 | byte k of the result is the first digit of pair k times 16 plus the second |
| Hex.DecodeFromError | contracts/recovery/src/contract.rs:26 | a failure names the first non-digit character, scanning left to right, and its index in the string |
| Hex.Decode | contracts/recovery/src/contract.rs:26 | odd length fails with `OddLength`; otherwise it succeeds iff all characters are hex digits, with half as many bytes as characters |
| Hex.DecodeByte | contracts/recovery/src/contract.rs:26 | byte k of `Decode(s)` is the value of the digits at 2k and 2k+1 |
| Hex.DecodeError | contracts/recovery/src/contract.rs:26 | an even-length string that fails reports its first non-digit character and its index |
| Hex.Encode | contracts/recovery/src/contract.rs:26 | the partner encoder writes two lower-case digits per byte, high nibble first |
| Hex.DecodeEncode | contracts/recovery/src/contract.rs:26 | decoding an encoded byte string gives back exactly that byte string |
| Base.BaseContract.Instantiate | contracts/base/src/contract.rs:17-31 | the caller is stored as `OWNER`; the response carries `method` and `owner` |
| Base.ExecuteAfterExecute | contracts/base/src/contract.rs:56-72 | fails, with `Unauthorized`, iff the sender is not the contract address; otherwise Ok with action `after_execute`; it reads no storage |
| Base.ExecutePreExecute | contracts/base/src/contract.rs:74-90 | fails, with `Unauthorized`, iff the sender is not the contract address; otherwise Ok with action `pre_execute` |
| Base.Execute | contracts/base/src/contract.rs:41-54 | `AfterExecute` and `PreExecute` are each routed to their own handler |
| Base.HooksIgnoreMessages | contracts/base/src/contract.rs:56-90 | each hook's outcome is the same whatever messages it is given |
| Recovery.RecoveryContract.Instantiate | contracts/recovery/src/contract.rs:18-34 | valid hex: the decoded key is stored as `RECOVER_KEY`; invalid hex: the `unwrap` panics and nothing is stored |
| Recovery.RecoveryContract.SudoRecover | contracts/recovery/src/contract.rs:103-123 | a missing key fails with `NotFound`; undecodable credentials fail with `ParseErr` before verification; the call succeeds, with action `recover`, iff the verifier accepts the signature over `sha256(pub_key)` under the stored key; a rejection gives `CustomError "Invalid signature for recovery"`; a verifier error panics; as a function reading storage, it writes nothing and does not persist the new key |
| Recovery.RecoveryContract.Sudo | contracts/recovery/src/contract.rs:96-101 | the `Recover` request is handled by `sudo_recover`, with its `pub_key` and `credentials` |
| Recovery.ExecuteAfterExecute | contracts/recovery/src/contract.rs:53-69 | fails, with `Unauthorized`, iff the sender is not the contract address; otherwise Ok with action `after_execute`; no storage is touched |
| Recovery.ExecutePreExecute | contracts/recovery/src/contract.rs:71-87 | fails, with `Unauthorized`, iff the sender is not the contract address; otherwise Ok with action `pre_execute`; no storage is touched |
| Recovery.Execute | contracts/recovery/src/contract.rs:38-51 | each hook message is routed to its own handler |
| SpendLimitLedger.CheckLimit | contracts/spend-limit/src/contract.rs:92-105 | true whenever `now - 3600 s > time_set`, whatever `used` and `amount` are; otherwise true iff `used + amount <= limit`; the subtraction never underflows |
| SpendLimitLedger.BalanceOf | contracts/spend-limit/src/contract.rs:128-132 | the post-balance is the amount of the first coin of that denomination, or 0 when there is none |
| SpendLimitLedger.ChargeRecord | contracts/spend-limit/src/contract.rs:137-149 | fails iff the block time is below one hour (panic), or the window is running and `used + amount > limit` (the limit-exceeded error, exactly in that case), or the window is over and the sum leaves `Uint128` (panic); on success only `used` changes, by `amount`, and a running window keeps `used <= limit` |
| SpendLimitLedger.ChargeCoin | contracts/spend-limit/src/contract.rs:127-150 | an unlimited denomination, or one whose balance did not fall, leaves the records as they are; otherwise its record's `used` grows by `pre - post`; no other record changes and the key set is unchanged; it fails iff the record's charge fails, and with that charge's error, so an overrun running window gives `"limit exceed for denom: <denom>"`; it keeps `WithinLimit` |
| SpendLimitLedger.ChargeAll | contracts/spend-limit/src/contract.rs:125-152 | a successful pass creates and deletes no record, and a denomination absent from the snapshot keeps its record |
| SpendLimitLedger.ChargeCoinLocal | contracts/spend-limit/src/contract.rs:127-150 | the charge of a coin depends only on the record of that coin's own denomination |
| SpendLimitLedger.ChargeAllCharges | contracts/spend-limit/src/contract.rs:125-152 | with distinct snapshot denominations, a successful pass adds to each limited denomination exactly the fall in its balance; its `limit` and `time_set` are unchanged |
| SpendLimitLedger.ChargeAllFirstError | contracts/spend-limit/src/contract.rs:125-152 | with distinct snapshot denominations, the pass fails iff some coin's charge fails, and it fails with the error of the first such coin in snapshot order |
| SpendLimitLedger.ChargeAllKeepsWithinLimit | contracts/spend-limit/src/contract.rs:141-149 | a successful pass keeps `used <= limit` on every record whose window is still running |
| SpendLimitLedger.WithinLimitLater | contracts/spend-limit/src/contract.rs:95-97 | that invariant survives block time moving forward |
| SpendLimitLedger.WindowBoundary | contracts/spend-limit/src/contract.rs:95-104 | at exactly `time_set + 3600 s` the cap still applies, because the test is strict; one nanosecond later anything is allowed |
| SpendLimitLedger.FullLimitChargedOnce | contracts/spend-limit/src/contract.rs:100-104 | spending the whole cap at the time it was set succeeds once, and the same spend again fails with the limit-exceeded error |
| SpendLimitLedger.ExpiredWindowOverrunsCap | contracts/spend-limit/src/contract.rs:95-97 | after the window, a spend above the cap is accepted and recorded, leaving `used > limit` |
| SpendLimit.SpendLimitContract.Instantiate | contracts/spend-limit/src/contract.rs:26-41 | the validated owner address is stored; an invalid address fails and stores nothing; the response's `owner` attribute is the caller |
| SpendLimit.SpendLimitContract.ExecuteSetSpendLimit | contracts/spend-limit/src/contract.rs:65-90 | an unsaved owner fails with `NotFound`; any sender other than the owner gets `Unauthorized` and `LIMITS` is unchanged; the owner sets `LIMITS[denom]` to `{amount, 0, now}` and no other denomination changes |
| SpendLimit.SpendLimitContract.ExecutePreExecute | contracts/spend-limit/src/contract.rs:157-176 | a non-self caller gets `Unauthorized` and the snapshot is untouched; a self-call overwrites the snapshot with the current balances |
| SpendLimit.SpendLimitContract.ExecuteAfterExecute | contracts/spend-limit/src/contract.rs:107-155 | a non-self caller gets `Unauthorized`; a missing snapshot fails with `NotFound`; on success the records are exactly `ChargeAll` of the snapshot, and `WithinLimit` is kept; on error the records are as before |
| SpendLimit.SpendLimitContract.RunTransaction | contracts/spend-limit/src/contract.rs:107-176 | a pre-hook then an after-hook by the account commits `ChargeAll`'s records and the new snapshot, or, on error, leaves both records and snapshot as they were |
| SpendLimit.SpendLimitContract.Execute | contracts/spend-limit/src/contract.rs:45-63 | each message goes to its handler, with that handler's full effect, and the other storage fields are untouched |
| SpendLimit.SetSpendLimitIdempotent | contracts/spend-limit/src/contract.rs:79-85 | repeating `SetSpendLimit` with the same arguments and time yields the same records and the same response |
| SpendLimit.SetSpendLimitKeepsWithinLimit | contracts/spend-limit/src/contract.rs:79-85 | setting a limit keeps `used <= limit` on every running window |
| SpendLimit.ScenarioCharges | contracts/spend-limit/src/contract.rs:125-152 | cap 1000: a spend of 600 inside the hour gives `used = 600`; 500 more inside the hour fails with the limit-exceeded error; 500 more after the hour gives `used = 1100` |
| SpendLimit.ScenarioSetUp | contracts/spend-limit/src/contract.rs:65-90 | an instantiated account whose owner capped "uaura" at 1000, after a refused attempt by a non-owner |

## Left out

- `cw2::set_contract_version` and the `query` and `migrate` entry points: bootstrapping, and handlers over empty message enums that no message can reach.
- The message-inspecting `Validate` query and the `MsgSend` payload: they are declared, but no contract code parses or checks them.
- The cryptography: `sha256` and `secp256k1_verify` are inputs of the model, with no implementation.
- The JSON decoding of `Credentials` and the host's `addr_validate`: these are also inputs of the model.
- The bank `AllBalances` query: its result is an argument, and a failing query is not modelled.
- The `..` fields of the `Recover` request are not modelled, because `sudo` ignores them.
- The `AfterExecute` and `PreExecute` variants of the recovery contract's `SudoMsg`: the `sudo` entry point matches only `Recover`, so the model's `SudoMsg` has only that variant.
- The recovery contract's `ExecuteMsg` is imported by its contract code but not defined in its message file. The model builds it from the two arms that `execute` matches: `AfterExecute` and `PreExecute`, each with its messages.
- The `NotFound` kinds are short type names (`Addr`, `Vec<Coin>`, `Vec<u8>`). The host reports the full `type_name`, module path included, such as `alloc::vec::Vec<u8>`.
- The contracts' `ContractError` enum (error.rs) and the storage definitions of the recovery and base contracts are not part of this model. The variants are the ones the contract code uses.
- Storage failures other than a missing item, such as serialization errors on `save` or `load`, are not modelled.
- Hex.Decode: it treats each `char` as one input byte, while `hex::decode` works on the UTF-8 bytes. For a string holding non-ASCII characters, the parity test and the error can therefore differ: "aé" has two characters but three bytes, so `hex::decode` reports `OddLength`, where the model reports `InvalidHexCharacter('é', 1)`. Success or failure, and the decoded bytes on success, are the same either way, and that is all `instantiate` uses.
- SpendLimitLedger.ChargeAllCharges: it assumes distinct denominations in the snapshot, as a bank balance list has. `ChargeAll` and `ExecuteAfterExecute` themselves model a repeated denomination exactly: the record is charged again and re-read each time.
- SpendLimitLedger.ChargeAllFirstError: it assumes distinct denominations in the snapshot, for the same reason.
- The transaction's own effect on the account's balances happens between the two hooks. It is represented only by the two balance lists given to `RunTransaction`.
