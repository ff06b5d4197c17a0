/**
 * src/lib/helpers.ts: fixed-length byte encoding of currency names, window
 * ids for timestamps and the read of a currency's latest rate.
 */
module Helpers {
  import opened Wrappers
  import opened Numeric
  import opened Strings
  import Schema

  /**
   * The content of the byte array `strToBytes` fills: the given bytes
   * followed by zero bytes up to `length`.
   */
  function ZeroPadded(bytes: seq<byte>, length: nat): (r: seq<byte>)
    requires |bytes| <= length
    ensures |r| == length
    ensures r[..|bytes|] == bytes
    ensures forall i :: |bytes| <= i < length ==> r[i] == 0
  {
    bytes + seq(length - |bytes|, _ => 0)
  }

  /**
   * Allocates a zero-filled byte array of `length` bytes and copies the
   * UTF-8 bytes of `s` into its front. The copy loop has no bound check, so
   * the string's encoding must fit.
   */
  method StrToBytes(s: string, length: nat) returns (bytes: array<byte>)
    requires |Utf8(s)| <= length
    ensures fresh(bytes)
    ensures bytes[..] == ZeroPadded(Utf8(s), length)
  {
    var utf8 := Utf8(s);
    bytes := new byte[length](_ => 0);
    // `lengthUTF8` counts a terminating zero byte, which the loop bound subtracts
    var strLen := |utf8|;
    for i := 0 to strLen
      invariant forall j :: 0 <= j < i ==> bytes[j] == utf8[j]
      invariant forall j :: i <= j < length ==> bytes[j] == 0
    {
      bytes[i] := utf8[i];
    }
    assert bytes[..] == ZeroPadded(utf8, length);
  }

  /** The 32-byte key of the currency "sUSD". */
  function SUSD32(): (r: seq<byte>)
    ensures |r| == 32
    ensures r[..4] == [0x73, 0x55, 0x53, 0x44]
    ensures forall i :: 4 <= i < 32 ==> r[i] == 0
  {
    Utf8OfAscii("sUSD");
    ZeroPadded(Utf8("sUSD"), 32)
  }

  /**
   * The id of the window of `num` seconds that holds `timestamp`: the
   * 32-bit quotient rendered in decimal. For a non-negative timestamp and a
   * positive width the id reads back as the floor of the quotient.
   */
  function GetTimeID(timestamp: int, num: int): (id: string)
    requires IsI32(timestamp) && IsI32(num) && num != 0
    requires !(timestamp == I32_MIN && num == -1)
    ensures 0 <= timestamp && 0 < num ==> IsDigits(id) && DigitsValue(id) == timestamp / num
  {
    var q := TruncDiv(timestamp, num);
    if 0 <= timestamp && 0 < num then
      DecimalStringValue(q);
      IntToString(q)
    else
      IntToString(q)
  }

  /** Two timestamps share a window id exactly when they fall in the same window. */
  lemma GetTimeIDSameWindow(t1: nat, t2: nat, num: nat)
    requires IsI32(t1) && IsI32(t2) && IsI32(num) && num > 0
    ensures GetTimeID(t1, num) == GetTimeID(t2, num) <==> t1 / num == t2 / num
  {
    DecimalStringInjective(t1 / num, t2 / num);
  }

  /** The window id of the first second of a window is one more than that of the second before it. */
  lemma GetTimeIDStepsAtMultiples(k: nat, num: nat)
    requires k >= 1 && num > 0 && IsI32(k * num) && IsI32(num)
    ensures DigitsValue(GetTimeID(k * num, num)) == DigitsValue(GetTimeID(k * num - 1, num)) + 1
  {
    DivOfMultiplePlus(k, num, 0);
    assert k * num - 1 == (k - 1) * num + (num - 1);
    DivOfMultiplePlus(k - 1, num, num - 1);
  }

  /**
   * The latest rate recorded for `synth`, or `None` (the source's null, with
   * an error logged under `txHash`) when there is none. The store is not
   * changed.
   */
  method GetLatestRate(store: Schema.Store, synth: string, txHash: string) returns (rate: Option<int>)
    ensures rate.Some? <==> synth in store.latestRates
    ensures rate.Some? ==> rate.value == store.latestRates[synth]
  {
    if synth !in store.latestRates {
      return None;
    }
    return Some(store.latestRates[synth]);
  }
}
