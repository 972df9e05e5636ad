/**
 * The records that cross the contract boundary: request and response
 * messages, the outbound ICS-20 packet, the error kinds, and the host
 * collaborators whose code is not part of this model.
 */
module Messages {
  import opened Wrappers
  import opened Amounts

  /** Exclusive upper bound of Rust's `u64`, the width of timeouts in seconds. */
  const U64Bound: nat := 0x1_0000_0000_0000_0000

  type U64 = x: nat | x < U64Bound

  /** cw0::PaymentError, raised by the funds check of `execute`. */
  datatype PaymentError = NoFundsAttached | MultipleDenoms

  /** ContractError, with the StdError cases the core can raise spelled out. */
  datatype ContractError =
    | Payment(payment: PaymentError)   // a PaymentError converted by `?`
    | NoFunds                          // the amount to transfer is zero
    | NoSuchChannel(id: string)        // the channel is not registered
    | NotOnAllowList                   // the cw20 contract is not allow-listed
    | InvalidAddress(addr: string)     // the host refused the address
    | InvalidPayload                   // the embedded TransferMsg did not decode
    | InvalidPacket                    // Ics20Packet::validate refused the packet
    | Overflow                         // a ledger counter would leave u128
    | NotFound(item: string)           // a singleton or keyed load found nothing

  /** TransferMsg: where to send and, optionally, the timeout in seconds. */
  datatype TransferMsg = TransferMsg(channel: string, remoteAddress: string, timeout: Option<U64>)

  /** cw20::Cw20ReceiveMsg: a cw20 contract reports that `sender` sent it `amount` for us. */
  datatype Cw20ReceiveMsg = Cw20ReceiveMsg(sender: string, amount: Uint128, msg: seq<bv8>)

  datatype ExecuteMsg = Receive(wrapper: Cw20ReceiveMsg) | Transfer(transfer: TransferMsg)

  datatype InitMsg = InitMsg(defaultTimeout: U64, whitelist: seq<string>)

  /** The caller of a request and the native coins attached to it. */
  datatype MessageInfo = MessageInfo(sender: string, funds: seq<Coin>)

  /** The block the request executes in; time in seconds. */
  datatype Env = Env(blockTime: nat)

  /** The ICS-20 packet payload. */
  datatype Ics20Packet = Ics20Packet(amount: Uint128, denom: string, sender: string, receiver: string)

  /** IbcMsg::SendPacket, with the absolute deadline in seconds. */
  datatype SendPacket = SendPacket(channelId: string, data: Ics20Packet, timeout: nat)

  datatype Attribute = Attribute(key: string, value: string)

  datatype Response = Response(messages: seq<SendPacket>, attributes: seq<Attribute>)

  /**
   * Collaborators whose code is outside this model: the host's address
   * validation (`deps.api.addr_validate`), the decoding of the payload
   * embedded in a cw20 notification (`from_binary`), and `Ics20Packet::validate`.
   */
  datatype Host = Host(
    addrValid: string -> bool,
    decodeTransfer: seq<bv8> -> Option<TransferMsg>,
    packetValid: Ics20Packet -> bool)

  datatype ConfigResponse = ConfigResponse(defaultTimeout: U64)

  datatype WhitelistResponse = WhitelistResponse(isWhitelist: bool)

  function DigitChar(d: nat): (c: char)
    requires d < 10
    ensures '0' <= c <= '9'
  {
    "0123456789"[d]
  }

  function DigitValue(c: char): nat
  {
    if '0' <= c <= '9' then (c - '0') as nat else 0
  }

  /** The decimal notation `to_string` gives an unsigned integer. */
  function DecimalString(n: nat): (s: string)
    ensures |s| >= 1 && forall i :: 0 <= i < |s| ==> '0' <= s[i] <= '9'
    ensures |s| > 1 ==> s[0] != '0'
    decreases n
  {
    if n < 10 then [DigitChar(n)] else DecimalString(n / 10) + [DigitChar(n % 10)]
  }

  /** Reads a string of decimal digits back as a number. */
  function DecimalValue(s: string): nat
  {
    if s == [] then 0 else 10 * DecimalValue(s[..|s| - 1]) + DigitValue(s[|s| - 1])
  }

  /** The decimal notation of a number reads back as that number. */
  lemma {:induction false} DecimalRoundTrip(n: nat)
    ensures DecimalValue(DecimalString(n)) == n
    decreases n
  {
    if n >= 10 {
      var s := DecimalString(n);
      assert s[..|s| - 1] == DecimalString(n / 10);
      DecimalRoundTrip(n / 10);
    }
  }
}
