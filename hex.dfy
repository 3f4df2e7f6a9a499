/**
 * `randomBytes(n).toString('hex')`: the random bytes come from the caller
 * (the entropy source is an oracle); their lower-case hexadecimal rendering
 * is modelled here, with its inverse as the partner that shows it loses
 * nothing.
 */
module Hex {

  type byte = x: int | 0 <= x < 256

  /** The number of random bytes the reset-token generator draws. */
  const RESET_TOKEN_BYTES := 32

  predicate IsHexDigit(c: char)
  {
    ('0' <= c <= '9') || ('a' <= c <= 'f')
  }

  function HexDigit(n: int): (c: char)
    requires 0 <= n < 16
    ensures IsHexDigit(c)
  {
    if n < 10 then ('0' as int + n) as char else ('a' as int + n - 10) as char
  }

  function HexValue(c: char): (n: int)
    requires IsHexDigit(c)
    ensures 0 <= n < 16
    ensures HexDigit(n) == c
  {
    if c <= '9' then c as int - '0' as int else c as int - 'a' as int + 10
  }

  /** Two lower-case hex digits per byte, high nibble first. */
  function ToHex(bytes: seq<byte>): (s: string)
    ensures |s| == 2 * |bytes|
    ensures forall i :: 0 <= i < |s| ==> IsHexDigit(s[i])
  {
    if bytes == [] then ""
    else [HexDigit(bytes[0] / 16), HexDigit(bytes[0] % 16)] + ToHex(bytes[1..])
  }

  predicate IsHexString(s: string)
  {
    |s| % 2 == 0 && forall i :: 0 <= i < |s| ==> IsHexDigit(s[i])
  }

  /** The inverse rendering: each pair of hex digits back to its byte. */
  function FromHex(s: string): (bytes: seq<byte>)
    requires IsHexString(s)
    ensures |bytes| == |s| / 2
  {
    if s == [] then []
    else
      assert IsHexDigit(s[0]) && IsHexDigit(s[1]);
      assert IsHexString(s[2..]) by {
        forall i | 0 <= i < |s[2..]| ensures IsHexDigit(s[2..][i]) {
          assert s[2..][i] == s[i + 2];
        }
      }
      [HexValue(s[0]) * 16 + HexValue(s[1])] + FromHex(s[2..])
  }

  lemma {:induction false} FromHexToHex(bytes: seq<byte>)
    ensures IsHexString(ToHex(bytes))
    ensures FromHex(ToHex(bytes)) == bytes
  {
    if bytes != [] {
      var s := ToHex(bytes);
      var b := bytes[0];
      FromHexToHex(bytes[1..]);
      assert s[2..] == ToHex(bytes[1..]);
      assert HexValue(s[0]) == b / 16 && HexValue(s[1]) == b % 16;
      assert s[..2] == [HexDigit(b / 16), HexDigit(b % 16)];
    }
  }

  /** `randomBytes(32).toString('hex')`: a 64-character lower-case hex token. */
  function ResetTokenFrom(randomBytes: seq<byte>): (token: string)
    requires |randomBytes| == RESET_TOKEN_BYTES
    ensures |token| == 64
    ensures IsHexString(token)
    ensures FromHex(token) == randomBytes
  {
    FromHexToHex(randomBytes);
    ToHex(randomBytes)
  }
}
