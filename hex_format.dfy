/**
 * The `{:?}` rendering of the fixed-size hashes the account endpoints take as
 * filters (`Address` = H160, `H256`): "0x" followed by two lower-case hex
 * digits per byte, all bytes shown.
 */
module HexFormat {

  type byte = b: nat | b < 256

  /** An account address: 20 bytes. */
  type Address = b: seq<byte> | |b| == 20 witness seq(20, _ => 0)

  /** A transaction hash: 32 bytes. */
  type H256 = b: seq<byte> | |b| == 32 witness seq(32, _ => 0)

  predicate IsLowerHexDigit(c: char) {
    '0' <= c <= '9' || 'a' <= c <= 'f'
  }

  function NibbleChar(d: nat): (c: char)
    requires d < 16
    ensures IsLowerHexDigit(c)
  {
    if d < 10 then ('0' as int + d) as char else ('a' as int + d - 10) as char
  }

  lemma NibbleCharInjective(d: nat, e: nat)
    requires d < 16 && e < 16 && NibbleChar(d) == NibbleChar(e)
    ensures d == e
  {
  }

  /** Two lower-case hex digits per byte, most significant nibble first. */
  function HexDigits(bytes: seq<byte>): (r: string)
    ensures |r| == 2 * |bytes|
    ensures forall i :: 0 <= i < |r| ==> IsLowerHexDigit(r[i])
  {
    if bytes == [] then []
    else [NibbleChar(bytes[0] / 16), NibbleChar(bytes[0] % 16)] + HexDigits(bytes[1..])
  }

  /** `format!("{h:?}")` of a fixed hash. */
  function DebugHex(bytes: seq<byte>): (r: string)
    ensures |r| == 2 + 2 * |bytes|
    ensures r[..2] == "0x"
    ensures forall i :: 2 <= i < |r| ==> IsLowerHexDigit(r[i])
  {
    "0x" + HexDigits(bytes)
  }

  /** Different byte strings render to different hex digits. */
  lemma {:induction false} HexDigitsInjective(a: seq<byte>, b: seq<byte>)
    requires HexDigits(a) == HexDigits(b)
    ensures a == b
  {
    if a != [] {
      assert |b| == |a|;
      var ha, hb := HexDigits(a), HexDigits(b);
      assert ha[0] == hb[0] && ha[1] == hb[1];
      NibbleCharInjective(a[0] / 16, b[0] / 16);
      NibbleCharInjective(a[0] % 16, b[0] % 16);
      assert a[0] == b[0];
      assert HexDigits(a[1..]) == ha[2..] == hb[2..] == HexDigits(b[1..]);
      HexDigitsInjective(a[1..], b[1..]);
      assert a == [a[0]] + a[1..];
      assert b == [b[0]] + b[1..];
    }
  }

  /** Distinct hashes give distinct query parameter values. */
  lemma DebugHexInjective(a: seq<byte>, b: seq<byte>)
    requires DebugHex(a) == DebugHex(b)
    ensures a == b
  {
    assert HexDigits(a) == DebugHex(a)[2..] == DebugHex(b)[2..] == HexDigits(b);
    HexDigitsInjective(a, b);
  }
}
