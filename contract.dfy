/**
 * The entry points of src/contract.rs: instantiation, the two transfer
 * entries and the gate sequence they share, and the read-only queries.
 * The contract's persistent items are the fields of `Store`.
 */
module Contract {
  import opened Wrappers
  import opened Amounts
  import opened KeyOrder
  import opened Messages
  import opened State

  /** The funds check of `execute`: exactly one coin, and not a zero one. */
  function OneCoin(funds: seq<Coin>): (r: Result<Coin, PaymentError>)
    ensures |funds| == 0 ==> r == Failure(NoFundsAttached)
    ensures |funds| == 1 && funds[0].amount == 0 ==> r == Failure(NoFundsAttached)
    ensures |funds| >= 2 ==> r == Failure(MultipleDenoms)
    ensures r.Success? <==> |funds| == 1 && funds[0].amount != 0
    ensures r.Success? ==> r.value == funds[0]
  {
    match |funds|
    case 0 => Failure(NoFundsAttached)
    case 1 => if funds[0].amount == 0 then Failure(NoFundsAttached) else Success(funds[0])
    case _ => Failure(MultipleDenoms)
  }

  /**
   * The amount of a cw20 notification: the notifying contract is the token,
   * the notification's own field is the quantity.
   */
  function ReceivedAmount(token: string, wrapper: Cw20ReceiveMsg): (a: Amount)
    ensures a.Cw20? && a.token.address == token && Quantity(a) == wrapper.amount
    ensures Denom(a) == Cw20Prefix + token
  {
    Cw20(Cw20Coin(token, wrapper.amount))
  }

  /** `Ics20Packet::new` */
  function PacketFor(amount: Amount, sender: string, receiver: string): Ics20Packet
  {
    Ics20Packet(Quantity(amount), Denom(amount), sender, receiver)
  }

  /** The response of a successful transfer: one packet and the observability attributes. */
  function TransferResponse(channel: string, packet: Ics20Packet, deadline: nat): Response
  {
    Response(
      [SendPacket(channel, packet, deadline)],
      [ Attribute("action", "transfer"),
        Attribute("sender", packet.sender),
        Attribute("receiver", packet.receiver),
        Attribute("denom", packet.denom),
        Attribute("amount", DecimalString(packet.amount)) ])
  }

  /** The denomination keys with history on `channel`. */
  function DenomsOn(ledger: Ledger, channel: string): (denoms: set<string>)
    ensures forall d :: d in denoms <==> (channel, d) in ledger
  {
    set k | k in ledger && k.0 == channel :: k.1
  }

  /** `outstanding` and `total` are the two counters of the entry for `denom` on `channel`, rebuilt with `from_parts`. */
  predicate BookedAs(ledger: Ledger, channel: string, denom: string, outstanding: Amount, total: Amount)
  {
    && (channel, denom) in ledger
    && Denom(outstanding) == denom && Denom(total) == denom
    && Quantity(outstanding) == ledger[(channel, denom)].outstanding
    && Quantity(total) == ledger[(channel, denom)].totalSent
    && Canonical(outstanding) && Canonical(total)
  }

  /** One (outstanding, total) pair per key of `denoms`, each rebuilt with `from_parts`. */
  function BalancePairs(ledger: Ledger, channel: string, denoms: seq<string>): (pairs: seq<(Amount, Amount)>)
    requires forall d :: d in denoms ==> (channel, d) in ledger
    ensures |pairs| == |denoms|
    ensures forall i :: 0 <= i < |pairs| ==> BookedAs(ledger, channel, denoms[i], pairs[i].0, pairs[i].1)
  {
    if denoms == [] then []
    else
      var d := denoms[0];
      DenomOfFromParts(d, ledger[(channel, d)].outstanding);
      DenomOfFromParts(d, ledger[(channel, d)].totalSent);
      [(FromParts(d, ledger[(channel, d)].outstanding), FromParts(d, ledger[(channel, d)].totalSent))]
        + BalancePairs(ledger, channel, denoms[1..])
  }

  /** `Iterator::unzip` */
  function Unzip<A, B>(pairs: seq<(A, B)>): (r: (seq<A>, seq<B>))
    ensures |r.0| == |r.1| == |pairs|
    ensures forall i :: 0 <= i < |pairs| ==> r.0[i] == pairs[i].0 && r.1[i] == pairs[i].1
  {
    if pairs == [] then ([], [])
    else
      var rest := Unzip(pairs[1..]);
      ([pairs[0].0] + rest.0, [pairs[0].1] + rest.1)
  }

  /**
   * The balances part of `query_channel`: for every denomination key with
   * history on the channel, in ascending key order, the outstanding and the
   * total-sent amounts rebuilt with `from_parts`, unzipped into two lists.
   */
  function ChannelBalances(ledger: Ledger, channel: string): (r: (seq<Amount>, seq<Amount>))
    ensures |r.0| == |r.1| == |DenomsOn(ledger, channel)|
    ensures forall i :: 0 <= i < |r.0| ==> BookedAs(ledger, channel, Denom(r.0[i]), r.0[i], r.1[i])
    ensures forall i, j :: 0 <= i < j < |r.0| ==> Below(Denom(r.0[i]), Denom(r.0[j]))
    ensures forall d :: d in DenomsOn(ledger, channel) ==> exists i :: 0 <= i < |r.0| && Denom(r.0[i]) == d
    ensures DenomsOn(ledger, channel) == {} ==> r.0 == [] && r.1 == []
  {
    var denoms := SortedKeys(DenomsOn(ledger, channel));
    var r := Unzip(BalancePairs(ledger, channel, denoms));
    UnzippedBalances(ledger, channel, denoms, r);
    r
  }

  /**
   * The element-wise facts behind `ChannelBalances`, stated apart from the
   * ordering facts of `SortedKeys` so that the solver keeps the two apart.
   */
  lemma UnzippedBalances(ledger: Ledger, channel: string, denoms: seq<string>, r: (seq<Amount>, seq<Amount>))
    requires forall d :: d in denoms <==> d in DenomsOn(ledger, channel)
    requires r == Unzip(BalancePairs(ledger, channel, denoms))
    ensures |r.0| == |r.1| == |denoms|
    ensures forall i :: 0 <= i < |r.0| ==> Denom(r.0[i]) == denoms[i]
    ensures forall i :: 0 <= i < |r.0| ==> BookedAs(ledger, channel, Denom(r.0[i]), r.0[i], r.1[i])
    ensures forall d :: d in DenomsOn(ledger, channel) ==> exists i :: 0 <= i < |r.0| && Denom(r.0[i]) == d
  {
  }

  /**
   * What a transfer escrows is what `query_channel` reports: after the
   * increase for a canonical amount, the channel's balances list an amount
   * of the same variant under the same key whose counters grew by the
   * transferred quantity.
   */
  lemma {:induction false} EscrowReadsBack(ledger: Ledger, channel: string, a: Amount)
    requires Canonical(a)
    requires IncreaseChannelBalance(ledger, channel, Denom(a), Quantity(a)).Success?
    ensures var after := IncreaseChannelBalance(ledger, channel, Denom(a), Quantity(a)).value;
      var balances := ChannelBalances(after, channel);
      exists i :: && 0 <= i < |balances.0|
                  && Denom(balances.0[i]) == Denom(a)
                  && balances.0[i].Cw20? == a.Cw20? && balances.1[i].Cw20? == a.Cw20?
                  && Quantity(balances.0[i]) == Entry(ledger, (channel, Denom(a))).outstanding + Quantity(a)
                  && Quantity(balances.1[i]) == Entry(ledger, (channel, Denom(a))).totalSent + Quantity(a)
  {
    var k := (channel, Denom(a));
    var after := IncreaseChannelBalance(ledger, channel, Denom(a), Quantity(a)).value;
    var balances := ChannelBalances(after, channel);
    assert Denom(a) in DenomsOn(after, channel);
    var i :| 0 <= i < |balances.0| && Denom(balances.0[i]) == Denom(a);
    assert BookedAs(after, channel, Denom(a), balances.0[i], balances.1[i]);
    assert Entry(after, k) == after[k];
    DenomRevealsVariant(a);
    DenomRevealsVariant(balances.0[i]);
    DenomRevealsVariant(balances.1[i]);
  }

  datatype ChannelResponse = ChannelResponse(info: ChannelInfo, balances: seq<Amount>, totalSent: seq<Amount>)

  /** The contract's persistent items: CONFIG, WHITE_LIST, CHANNEL_INFO and CHANNEL_STATE. */
  class Store {
    var config: Option<Config>
    var whiteList: set<string>
    var channelInfo: map<string, ChannelInfo>
    var channelState: Ledger

    /** Every escrow entry is reconciled and belongs to a registered channel. */
    predicate Valid()
      reads this
    {
      && Reconciled(channelState)
      && forall k :: k in channelState ==> k.0 in channelInfo
    }

    /** The empty store a contract starts from. */
    constructor ()
      ensures Valid()
      ensures config == None && whiteList == {} && channelInfo == map[] && channelState == map[]
    {
      config := None;
      whiteList := {};
      channelInfo := map[];
      channelState := map[];
    }

    /** The three gates of `execute_transfer` that precede timeout resolution. */
    predicate Admits(channel: string, amount: Amount, host: Host)
      reads this
    {
      && !IsEmpty(amount)
      && channel in channelInfo
      && (amount.Cw20? ==> host.addrValid(amount.token.address) && amount.token.address in whiteList)
    }

    /**
     * `instantiate`: stores the configuration, then allow-lists every address
     * of the message in order; the first address the host refuses ends the
     * request with an error (the host then discards the request's writes).
     */
    method Instantiate(msg: InitMsg, host: Host) returns (r: Result<Response, ContractError>)
      requires Valid()
      modifies this`config, this`whiteList
      ensures Valid()
      ensures config == Some(Config(msg.defaultTimeout))
      ensures r.Success? <==> forall i :: 0 <= i < |msg.whitelist| ==> host.addrValid(msg.whitelist[i])
      ensures r.Success? ==> whiteList == old(whiteList) + set a | a in msg.whitelist
      ensures r.Success? ==> r.value == Response([], [Attribute("action", "instantiate"),
                                                      Attribute("default_timeout", DecimalString(msg.defaultTimeout))])
      ensures r.Success? ==> QueryConfig() == Success(ConfigResponse(msg.defaultTimeout))
      ensures r.Success? ==> forall a :: host.addrValid(a) ==>
                QueryWhitelisted(a, host) == Success(WhitelistResponse(a in old(whiteList) || a in msg.whitelist))
      ensures r.Failure? ==>
                exists i :: && 0 <= i < |msg.whitelist|
                            && !host.addrValid(msg.whitelist[i])
                            && (forall j :: 0 <= j < i ==> host.addrValid(msg.whitelist[j]))
                            && r.error == InvalidAddress(msg.whitelist[i])
                            && whiteList == old(whiteList) + set a | a in msg.whitelist[..i]
    {
      config := Some(Config(msg.defaultTimeout));
      var i := 0;
      while i < |msg.whitelist|
        invariant 0 <= i <= |msg.whitelist|
        invariant config == Some(Config(msg.defaultTimeout))
        invariant forall j :: 0 <= j < i ==> host.addrValid(msg.whitelist[j])
        invariant whiteList == old(whiteList) + set a | a in msg.whitelist[..i]
      {
        var address := msg.whitelist[i];
        if !host.addrValid(address) {
          return Failure(InvalidAddress(address));
        }
        assert msg.whitelist[..i + 1] == msg.whitelist[..i] + [address];
        whiteList := whiteList + {address};
        i := i + 1;
      }
      assert msg.whitelist[..i] == msg.whitelist;
      r := Success(Response([], [Attribute("action", "instantiate"),
                                 Attribute("default_timeout", DecimalString(msg.defaultTimeout))]));
    }

    /**
     * What `execute_transfer` does with `amount`, given the ledger `before`
     * the request: the gates in their fixed order, each with its own error;
     * no change to the ledger on any error; on success exactly one escrow
     * increase and one packet, whose deadline is the block time plus the
     * requested timeout or else the configured default.
     */
    ghost predicate TransferOutcome(before: Ledger, env: Env, msg: TransferMsg, amount: Amount, sender: string,
                                    host: Host, r: Result<Response, ContractError>)
      reads this
    {
      var packet := PacketFor(amount, sender, msg.remoteAddress);
      var increased := IncreaseChannelBalance(before, msg.channel, Denom(amount), Quantity(amount));
      && (r.Failure? ==> channelState == before)
      // gate 1: a zero amount
      && (IsEmpty(amount) ==> r == Failure(NoFunds))
      // gate 2: an unregistered channel
      && (!IsEmpty(amount) && msg.channel !in channelInfo ==> r == Failure(NoSuchChannel(msg.channel)))
      // gate 3, cw20 tokens only: the token contract must be a valid, allow-listed address
      && (!IsEmpty(amount) && msg.channel in channelInfo && amount.Cw20? ==>
            && (!host.addrValid(amount.token.address) ==> r == Failure(InvalidAddress(amount.token.address)))
            && (host.addrValid(amount.token.address) && amount.token.address !in whiteList ==> r == Failure(NotOnAllowList)))
      // timeout resolution: the default is loaded only when no timeout was requested
      && (Admits(msg.channel, amount, host) && msg.timeout.None? && config.None? ==> r == Failure(NotFound("config")))
      // packet validation, then the checked ledger increase
      && (Admits(msg.channel, amount, host) && (msg.timeout.Some? || config.Some?) ==>
            && (!host.packetValid(packet) ==> r == Failure(InvalidPacket))
            && (host.packetValid(packet) && increased.Failure? ==> r == Failure(Overflow)))
      && (r.Success? <==>
            && Admits(msg.channel, amount, host)
            && (msg.timeout.Some? || config.Some?)
            && host.packetValid(packet)
            && increased.Success?)
      && (r.Success? ==>
            && channelState == increased.value
            && r.value == TransferResponse(msg.channel, packet,
                 env.blockTime + (if msg.timeout.Some? then msg.timeout.value else config.value.defaultTimeout)))
    }

    /**
     * `execute_transfer`: the gates in their fixed order, each with its own
     * error, then the optimistic escrow increase and the packet. Every
     * rejection leaves the ledger as it was.
     */
    method ExecuteTransfer(env: Env, msg: TransferMsg, amount: Amount, sender: string, host: Host)
      returns (r: Result<Response, ContractError>)
      requires Valid()
      modifies this`channelState
      ensures Valid()
      ensures TransferOutcome(old(channelState), env, msg, amount, sender, host, r)
    {
      if IsEmpty(amount) {
        return Failure(NoFunds);
      }
      if msg.channel !in channelInfo {
        return Failure(NoSuchChannel(msg.channel));
      }
      if amount.Cw20? {
        if !host.addrValid(amount.token.address) {
          return Failure(InvalidAddress(amount.token.address));
        }
        if amount.token.address !in whiteList {
          return Failure(NotOnAllowList);
        }
      }
      var timeoutDelta: U64;
      match msg.timeout {
        case Some(t) =>
          timeoutDelta := t;
        case None =>
          if config.None? {
            return Failure(NotFound("config"));
          }
          timeoutDelta := config.value.defaultTimeout;
      }
      var timeout := env.blockTime + timeoutDelta;
      var packet := PacketFor(amount, sender, msg.remoteAddress);
      if !host.packetValid(packet) {
        return Failure(InvalidPacket);
      }
      var increased := IncreaseChannelBalance(channelState, msg.channel, Denom(amount), Quantity(amount));
      if increased.Failure? {
        return Failure(increased.error);
      }
      IncreasePreservesReconciled(channelState, msg.channel, Denom(amount), Quantity(amount));
      channelState := increased.value;
      r := Success(TransferResponse(msg.channel, packet, timeout));
    }

    /**
     * `execute_receive`: decode the embedded transfer, take the token and the
     * quantity from the notification itself, validate the original holder,
     * and run the shared transfer.
     */
    method ExecuteReceive(env: Env, info: MessageInfo, wrapper: Cw20ReceiveMsg, host: Host)
      returns (r: Result<Response, ContractError>)
      requires Valid()
      modifies this`channelState
      ensures Valid()
      ensures r.Failure? ==> channelState == old(channelState)
      ensures host.decodeTransfer(wrapper.msg).None? ==> r == Failure(InvalidPayload)
      ensures host.decodeTransfer(wrapper.msg).Some? && !host.addrValid(wrapper.sender) ==>
                r == Failure(InvalidAddress(wrapper.sender))
      ensures host.decodeTransfer(wrapper.msg).Some? && host.addrValid(wrapper.sender) ==>
                TransferOutcome(old(channelState), env, host.decodeTransfer(wrapper.msg).value,
                                ReceivedAmount(info.sender, wrapper), wrapper.sender, host, r)
    {
      var decoded := host.decodeTransfer(wrapper.msg);
      if decoded.None? {
        return Failure(InvalidPayload);
      }
      var amount := ReceivedAmount(info.sender, wrapper);
      if !host.addrValid(wrapper.sender) {
        return Failure(InvalidAddress(wrapper.sender));
      }
      r := ExecuteTransfer(env, decoded.value, amount, wrapper.sender, host);
    }

    /** `execute`: dispatch a cw20 notification, or check the attached funds of a direct transfer. */
    method Execute(env: Env, info: MessageInfo, msg: ExecuteMsg, host: Host)
      returns (r: Result<Response, ContractError>)
      requires Valid()
      modifies this`channelState
      ensures Valid()
      ensures r.Failure? ==> channelState == old(channelState)
      ensures msg.Transfer? && OneCoin(info.funds).Failure? ==> r == Failure(Payment(OneCoin(info.funds).error))
      ensures msg.Transfer? && OneCoin(info.funds).Success? ==>
                TransferOutcome(old(channelState), env, msg.transfer, Native(info.funds[0]), info.sender, host, r)
      ensures msg.Receive? && host.decodeTransfer(msg.wrapper.msg).None? ==> r == Failure(InvalidPayload)
      ensures msg.Receive? && host.decodeTransfer(msg.wrapper.msg).Some? && !host.addrValid(msg.wrapper.sender) ==>
                r == Failure(InvalidAddress(msg.wrapper.sender))
      ensures msg.Receive? && host.decodeTransfer(msg.wrapper.msg).Some? && host.addrValid(msg.wrapper.sender) ==>
                TransferOutcome(old(channelState), env, host.decodeTransfer(msg.wrapper.msg).value,
                                ReceivedAmount(info.sender, msg.wrapper), msg.wrapper.sender, host, r)
    {
      match msg {
        case Receive(wrapper) =>
          r := ExecuteReceive(env, info, wrapper, host);
        case Transfer(transfer) =>
          var coin := OneCoin(info.funds);
          if coin.Failure? {
            return Failure(Payment(coin.error));
          }
          r := ExecuteTransfer(env, transfer, Native(coin.value), info.sender, host);
      }
    }

    /** `query_channel`: the channel's registration and its per-denomination balances. */
    function QueryChannel(id: string): (r: Result<ChannelResponse, ContractError>)
      reads this
      ensures r.Failure? <==> id !in channelInfo
      ensures r.Failure? ==> r.error == NotFound("channel")
      ensures r.Success? ==> r.value.info == channelInfo[id]
      ensures r.Success? ==> (r.value.balances, r.value.totalSent) == ChannelBalances(channelState, id)
    {
      if id !in channelInfo then Failure(NotFound("channel"))
      else
        var (balances, totalSent) := ChannelBalances(channelState, id);
        Success(ChannelResponse(channelInfo[id], balances, totalSent))
    }

    /** `query_config` */
    function QueryConfig(): (r: Result<ConfigResponse, ContractError>)
      reads this
      ensures r.Success? <==> config.Some?
      ensures r.Success? ==> r.value.defaultTimeout == config.value.defaultTimeout
      ensures r.Failure? ==> r.error == NotFound("config")
    {
      match config
      case None => Failure(NotFound("config"))
      case Some(cfg) => Success(ConfigResponse(cfg.defaultTimeout))
    }

    /** `query_whitelisted`: whether the address has an allow-list entry. */
    function QueryWhitelisted(contract: string, host: Host): (r: Result<WhitelistResponse, ContractError>)
      reads this
      ensures !host.addrValid(contract) ==> r == Failure(InvalidAddress(contract))
      ensures host.addrValid(contract) ==> r == Success(WhitelistResponse(contract in whiteList))
    {
      if !host.addrValid(contract) then Failure(InvalidAddress(contract))
      else Success(WhitelistResponse(contract in whiteList))
    }
  }
}

/**
 * A client of the contract: the gateway is instantiated with a default
 * timeout of 600 seconds and one allow-listed token, a channel is opened,
 * and 100 uatom are sent to a remote address without an explicit timeout.
 */
module Scenario {
  import opened Wrappers
  import opened Amounts
  import opened Messages
  import opened State
  import opened Contract

  method NativeTransferScenario()
  {
    var host := Host((a: string) => a != "", (payload: seq<bv8>) => None, (p: Ics20Packet) => p.amount > 0 && p.receiver != "");
    var store := new Store();
    var init := store.Instantiate(InitMsg(600, ["ledgerA"]), host);
    assert init.Success?;
    assert store.QueryWhitelisted("ledgerA", host) == Success(WhitelistResponse(true));
    assert store.QueryWhitelisted("ledgerB", host) == Success(WhitelistResponse(false));

    // The channel handshake, which is not part of this model, registers the channel.
    store.channelInfo := map["chan-0" := ChannelInfo("chan-0", "transfer/channel-7", "connection-0")];

    var info := MessageInfo("alice", [Coin("uatom", 100)]);
    var r := store.Execute(Env(1000), info, Transfer(TransferMsg("chan-0", "remote1", None)), host);
    assert r.Success?;
    assert store.channelState[("chan-0", "uatom")] == ChannelState(100, 100);
    assert r.value.messages == [SendPacket("chan-0", Ics20Packet(100, "uatom", "alice", "remote1"), 1600)];

    // The same request without funds, or with two coins, changes nothing.
    var ledger := store.channelState;
    var empty := store.Execute(Env(1000), MessageInfo("alice", []), Transfer(TransferMsg("chan-0", "remote1", None)), host);
    assert empty == Failure(Payment(NoFundsAttached)) && store.channelState == ledger;
    var two := store.Execute(Env(1000), MessageInfo("alice", [Coin("uatom", 1), Coin("uosmo", 1)]),
                             Transfer(TransferMsg("chan-0", "remote1", None)), host);
    assert two == Failure(Payment(MultipleDenoms)) && store.channelState == ledger;

    var q := store.QueryChannel("chan-0");
    assert q.Success? && |q.value.balances| == 1;
  }
}
