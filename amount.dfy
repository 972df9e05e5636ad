/**
 * The dual-asset amount of src/amount.rs: a native coin or a cw20 token
 * balance, and the string codec between an amount and its denomination key.
 */
module Amounts {

  /** Exclusive upper bound of Rust's `Uint128`. */
  const U128Bound: nat := 0x1_0000_0000_0000_0000_0000_0000_0000_0000

  type Uint128 = x: nat | x < U128Bound

  /** The marker that turns a cw20 contract address into a denomination key. */
  const Cw20Prefix: string := "cw20:"

  /** cosmwasm_std::Coin */
  datatype Coin = Coin(denom: string, amount: Uint128)

  /** cw20::Cw20Coin */
  datatype Cw20Coin = Cw20Coin(address: string, amount: Uint128)

  datatype Amount = Native(coin: Coin) | Cw20(token: Cw20Coin)

  /** `denom.starts_with("cw20:")` */
  predicate HasCw20Prefix(denom: string)
  {
    Cw20Prefix <= denom
  }

  /** The amounts that `FromParts` can produce: a native denom never carries the cw20 marker. */
  predicate Canonical(a: Amount)
  {
    a.Cw20? || !HasCw20Prefix(a.coin.denom)
  }

  /** `Amount::amount` */
  function Quantity(a: Amount): (q: Uint128)
    ensures a.Native? ==> q == a.coin.amount
    ensures a.Cw20? ==> q == a.token.amount
  {
    match a
    case Native(c) => c.amount
    case Cw20(c) => c.amount
  }

  /** `Amount::denom`: the key under which the amount is booked. */
  function Denom(a: Amount): (d: string)
    ensures a.Cw20? ==> HasCw20Prefix(d) && d[|Cw20Prefix|..] == a.token.address
    ensures a.Native? ==> d == a.coin.denom
  {
    match a
    case Native(c) => c.denom
    case Cw20(c) => Cw20Prefix + c.address
  }

  /** `Amount::is_empty` */
  function IsEmpty(a: Amount): (e: bool)
    ensures e <==> Quantity(a) == 0
  {
    match a
    case Native(c) => c.amount == 0
    case Cw20(c) => c.amount == 0
  }

  /** `Amount::from_parts`: decodes a denomination key and a quantity. */
  function FromParts(denom: string, amount: Uint128): (a: Amount)
    ensures a.Cw20? <==> HasCw20Prefix(denom)
    ensures a.Cw20? ==> denom == Cw20Prefix + a.token.address
    ensures a.Native? ==> a.coin.denom == denom
    ensures Quantity(a) == amount
    ensures Canonical(a)
  {
    if HasCw20Prefix(denom) then
      var address := denom[|Cw20Prefix|..];
      assert denom == Cw20Prefix + address;
      Cw20(Cw20Coin(address, amount))
    else
      Native(Coin(denom, amount))
  }

  /** Decoding a key and encoding it again gives back the same key, for every key. */
  lemma DenomOfFromParts(denom: string, amount: Uint128)
    ensures Denom(FromParts(denom, amount)) == denom
    ensures Quantity(FromParts(denom, amount)) == amount
  {
  }

  /** Encoding a canonical amount and decoding the key gives back the amount. */
  lemma RoundTrip(a: Amount)
    requires Canonical(a)
    ensures FromParts(Denom(a), Quantity(a)) == a
  {
  }

  /** The round trip fails for a native denom that carries the cw20 marker: it decodes as a cw20 token. */
  lemma MarkedNativeDecodesAsCw20(a: Amount)
    requires a.Native? && HasCw20Prefix(a.coin.denom)
    ensures FromParts(Denom(a), Quantity(a)).Cw20?
    ensures FromParts(Denom(a), Quantity(a)) != a
  {
  }

  /** Two canonical amounts booked under the same key with the same quantity are the same amount. */
  lemma DenomInjective(a: Amount, b: Amount)
    requires Canonical(a) && Canonical(b)
    requires Denom(a) == Denom(b) && Quantity(a) == Quantity(b)
    ensures a == b
  {
  }

  /** The key of a cw20 amount always carries the marker, and the key of a canonical native amount never does. */
  lemma DenomRevealsVariant(a: Amount)
    requires Canonical(a)
    ensures HasCw20Prefix(Denom(a)) <==> a.Cw20?
  {
  }
}
