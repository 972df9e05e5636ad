# ICS-20 token gateway: transfer escrow model

A Dafny model of the transfer-escrow core of a CosmWasm ICS-20 gateway. The
gateway takes a deposit, escrows it on a per-channel ledger and emits an IBC
packet that tells the remote chain to release the same value. A deposit is
either a native coin attached to a `Transfer` request or a cw20 token whose
contract notifies the gateway with `Receive`.

Files:

- `wrappers.dfy`: `Option` and `Result`.
- `amount.dfy` (module `Amounts`) models `src/amount.rs`. It holds the
  two-variant `Amount`, its quantity and its denomination key (`"cw20:" +
  address` for tokens). It also holds the decoder `FromParts`, and the
  round-trip and injectivity lemmas that tie the encoder to the decoder.
- `key_order.dfy` (module `KeyOrder`) gives the ascending key order of the
  store's range scans. `SortedKeys` lists a finite set of keys in that order.
- `messages.dfy` (module `Messages`) holds the request and response records,
  the ICS-20 packet and the error kinds. It also holds `Host`, which bundles
  the collaborators whose code is not modelled: address validation, payload
  decoding and packet validation. `DecimalString` is the `to_string` used in
  the response attributes.
- `state.dfy` (module `State`) models the `CHANNEL_STATE` ledger and
  `increase_channel_balance` as a checked update on a map.
- `contract.dfy` (module `Contract`) models `src/contract.rs`. Class `Store`
  holds the four persistent items: `CONFIG`, `WHITE_LIST`, `CHANNEL_INFO` and
  `CHANNEL_STATE`. Its methods are `Instantiate`, `Execute`, `ExecuteReceive`
  and `ExecuteTransfer`, and its functions are the queries. Module `Scenario`
  states one end-to-end transfer as a verified client: 100 uatom are sent
  without an explicit timeout against a default timeout of 600 seconds.

The ghost predicate `Store.TransferOutcome` states what `execute_transfer`
does:

- The gates run in a fixed order, each with its own error: zero amount,
  unregistered channel, then (cw20 only) address validation and the
  allow-list.
- Next comes timeout resolution, then packet validation, then the checked
  ledger increase.
- Every error leaves the ledger unchanged.
- On success, the ledger is the old ledger with exactly one increase, and the
  response carries exactly one packet. Its deadline is the block time plus
  the requested timeout, or else the configured default.

The two entry points are stated in terms of this predicate. `Execute` also
states the funds check, and `ExecuteReceive` the payload and holder checks.
The `Store.Valid` invariant holds across every operation: `outstanding <=
total_sent` for every entry, and every entry's channel is registered.

The round trip `from_parts(a.denom(), a.amount()) == a` does not hold for
every amount: a native denom that starts with `cw20:` decodes as a cw20 token
(`MarkedNativeDecodesAsCw20`). The round trip is proved for `Canonical`
amounts, the ones `from_parts` can produce (`RoundTrip`).

## Model

| member | source | states |
|---|---|---|
| `Amounts.FromParts` | src/amount.rs:16-23 | a key decodes to `Cw20` exactly when it starts with `cw20:`, and then the key is `cw20:` followed by the address; otherwise it decodes to `Native` with the key as denom; the quantity is kept; the result is canonical |
| `Amounts.Quantity` | src/amount.rs:24-29 | the quantity of either variant; that `from_parts(d, q).amount() == q` for every key and quantity is stated by `FromParts` and `DenomOfFromParts` |
| `Amounts.Denom` | src/amount.rs:31-36 | a cw20 amount's key starts with `cw20:` and the rest is its address; a native amount's key is its denom |
| `Amounts.IsEmpty` | src/amount.rs:38-43 | empty exactly when the quantity is zero, for both variants |
| `Amounts.DenomOfFromParts` | src/amount.rs:16-36 | for every key and quantity, decoding and then encoding gives back the same key and quantity |
| `Amounts.RoundTrip` | src/amount.rs:16-36 | for every canonical amount (any cw20 amount, or a native one whose denom lacks the `cw20:` marker), encoding and then decoding gives back the amount |
| `Amounts.MarkedNativeDecodesAsCw20` | src/amount.rs:17-22 | a native amount whose denom starts with `cw20:` does not round-trip: it decodes as a cw20 token |
| `Amounts.DenomInjective` | src/amount.rs:16-36 | two canonical amounts with the same key and quantity are equal |
| `Amounts.DenomRevealsVariant` | src/amount.rs:31-36 | for a canonical amount, the key carries the `cw20:` marker exactly when the amount is a cw20 token |
| `KeyOrder.SortedKeys` | src/contract.rs:183-185 | the keys of a set in strictly ascending order, each key exactly once, as an ascending range scan yields them |
| `Messages.DecimalString` | src/contract.rs:148 | `to_string` of an unsigned integer is a non-empty string of decimal digits without a leading zero |
| `Messages.DecimalRoundTrip` | src/contract.rs:143-149 | the decimal string of the amount attribute reads back as the amount |
| `State.IncreaseChannelBalance` | src/contract.rs:130-133 | the checked increase succeeds exactly when both counters stay below 2^128; on success, both counters of the entry (zero when absent) grow by the amount, the entry exists afterwards, and no other entry changes; otherwise the error is `Overflow` |
| `State.IncreasePreservesReconciled` | src/contract.rs:130-133 | an increase keeps `outstanding <= total_sent` on every entry and lowers no `total_sent` |
| `State.OverflowIsDecidedByTotal` | src/contract.rs:133 | on a reconciled ledger the increase fails exactly when `total_sent + amount` reaches 2^128 |
| `State.IncreaseAllSums` | src/contract.rs:130-133 | a run of increases on one entry succeeds exactly when the total plus the sum stays below 2^128; then both counters grow by the sum, the ledger stays reconciled, and no other entry changes |
| `Contract.OneCoin` | src/contract.rs:59-70 | no coin gives `NoFunds`, one zero coin gives `NoFunds`, two or more coins give `MultipleDenoms`; exactly one non-zero coin passes, unchanged |
| `Contract.ReceivedAmount` | src/contract.rs:83-86 | the receive path always yields a cw20 amount: the token is the notifying contract, the quantity is the notification's amount, and the key is `cw20:` plus that contract |
| `Contract.BalancePairs` | src/contract.rs:186-193 | one pair per listed key; both amounts carry that key and are canonical, and their quantities are the entry's `outstanding` and `total_sent` |
| `Contract.Unzip` | src/contract.rs:196 | two lists of the pairs' length whose i-th elements are the i-th pair's components |
| `Contract.ChannelBalances` | src/contract.rs:183-196 | `balances` and `total_sent` have equal length, one element per key with history on the channel; the i-th elements share a key whose ledger entry holds their quantities; keys ascend; every key appears; a channel with no history gives two empty lists |
| `Contract.UnzippedBalances` | src/contract.rs:183-196 | the unzipped pairs follow the listed keys in order, and each is booked on the ledger |
| `Contract.EscrowReadsBack` | src/contract.rs:122-203 | after the escrow increase for a canonical amount, the channel query lists an amount of the same variant under the same key, whose counters grew by the transferred quantity |
| `Contract.Store.Instantiate` | src/contract.rs:26-47 | stores the default timeout; succeeds exactly when every listed address validates, and then allow-lists exactly those addresses, so that `QueryWhitelisted` is true exactly for them (and any already present) and `QueryConfig` returns the timeout; otherwise it returns the first invalid address, with the earlier addresses already written |
| `Contract.Store.ExecuteTransfer` | src/contract.rs:90-150 | the gate order with one error per gate; no ledger change on any error; on success exactly one increase of the entry for `(channel, denom)` by the amount, and one packet with that denom, amount, sender and receiver, sent on the channel with deadline = block time + requested or default timeout; the ledger invariant is kept. Its helpers `PacketFor` (`Ics20Packet::new`, src/contract.rs:122-127) and `TransferResponse` (the `SendPacket` message and the attributes, src/contract.rs:136-149) build the packet and the response it promises |
| `Contract.Store.ExecuteReceive` | src/contract.rs:76-89 | an undecodable payload or an invalid holder address is rejected without change; otherwise the transfer runs with the notifying contract's cw20 amount and the holder as packet sender |
| `Contract.Store.Execute` | src/contract.rs:50-74 | a direct transfer with bad funds fails with the payment error and no change; otherwise the transfer runs with `Native(coin)` of the single attached coin; a notification goes to the receive path |
| `Contract.Store.QueryChannel` | src/contract.rs:180-203 | an unregistered channel is an error; otherwise the channel's info and the balances of `ChannelBalances` |
| `Contract.Store.QueryConfig` | src/contract.rs:205-211 | returns the stored default timeout, or an error when nothing is stored |
| `Contract.Store.QueryWhitelisted` | src/contract.rs:213-223 | an invalid address is an error; otherwise the answer is whether the address has an allow-list entry |

## Left out

- `query_port` (src/contract.rs:163-167) is a call to the chain's IBC querier, which is not part of this model.
- `query_list` (src/contract.rs:169-177) is not modelled. It is the same ascending range scan as `query_channel`, over `CHANNEL_INFO`.
- `set_contract_version` (src/contract.rs:32) writes migration metadata that no modelled operation reads.
- Serialisation (`from_binary` and `to_binary`) is not modelled. Payload decoding is the possibly-failing `Host.decodeTransfer`. Encoding a packet is assumed never to fail.
- `addr_validate` is the predicate `Host.addrValid`. A valid address is taken to be its own canonical form, as the host returns it.
- `Ics20Packet::new` and `Ics20Packet::validate` live in the IBC module, which is not part of this model. The packet is a record, and `validate` is `Host.packetValid`.
- The IBC transport is not modelled. The emitted `SendPacket` is part of the returned `Response`.
- The compensating decrease on acknowledgement failure or timeout, and channel registration, live in the IBC module, which is not part of this model. The scenario registers its channel by writing `channelInfo` directly.
- State.IncreaseChannelBalance: the state module is not part of this model. The model assumes a checked add with bound 2^128 that fails with no change. The real `Uint128` add aborts the transaction, which has the same observable effect.
- Contract.Store.ExecuteTransfer: time is a natural number of seconds and the deadline is a plain sum. The nanosecond timestamp and its u64 overflow in `plus_seconds` are not modelled.
- Contract.Store.Instantiate: the host discards all writes of a failed request, including the config written before the failing address. That rollback belongs to the host and is not modelled. The contract states the partial writes as the code leaves them.
- Contract.ChannelBalances: the UTF-8 decoding of stored keys (`String::from_utf8`) is not modelled, because keys are stored as strings.
- `WHITE_LIST` is a set of addresses. The stored value is always `true`, and only its presence is ever read.
