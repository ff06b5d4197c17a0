/**
 * src/lib/util.ts. Its `strToBytes`, `sUSD32` and `getTimeID` are
 * character-for-character the same as those of src/lib/helpers.ts and are
 * modelled once, in module Helpers; this module adds what util.ts has of
 * its own, the 4-byte key `sUSD4`, and states what util.ts relies on.
 */
module Util {
  import opened Strings
  import Helpers

  /** The key "sUSD" in exactly four bytes, with no padding. */
  function SUSD4(): (r: seq<byte>)
    ensures r == [0x73, 0x55, 0x53, 0x44]
  {
    Utf8OfAscii("sUSD");
    Helpers.ZeroPadded(Utf8("sUSD"), 4)
  }

  /** `strToBytes('sUSD', 4)` meets the copy loop's bound with nothing to spare. */
  lemma SUSD4FillsItsLength()
    ensures |Utf8("sUSD")| == 4
  {
    Utf8OfAscii("sUSD");
  }

  /** The 32-byte key starts with the 4-byte key and is zero after it. */
  lemma SUSD32ExtendsSUSD4()
    ensures Helpers.SUSD32()[..4] == SUSD4()
    ensures Helpers.SUSD32() == SUSD4() + seq(28, _ => 0)
  {
    var long := Helpers.SUSD32();
    assert long == long[..4] + long[4..];
    assert long[4..] == seq(28, _ => 0);
  }

  /** The fifteen-minute window id changes between seconds 899 and 900. */
  lemma GetTimeIDAtFifteenMinutes()
    ensures Helpers.GetTimeID(899, 900) == "0"
    ensures Helpers.GetTimeID(900, 900) == "1"
  {
    assert 899 / 900 == 0 && 900 / 900 == 1;
  }
}
