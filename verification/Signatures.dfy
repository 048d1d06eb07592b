/** Webhook signatures (validateSignature in pkg/webhook/listener.go). The HMAC of section 2 of RFC 2104 is
    an unknown function here; base16 is that of section 8 of RFC 4648. */
module Signatures {
  import opened AgentTasks

  type Byte = b: int | 0 <= b < 256
  type Mac = (seq<Byte>, seq<Byte>) -> seq<Byte>

  const SIGNATURE_PREFIX := "sha256="

  function FromHexChar(c: char): (v: Option<int>)
    ensures v.Some? ==> 0 <= v.value < 16
  {
    if '0' <= c <= '9' then Some(c as int - '0' as int)
    else if 'a' <= c <= 'f' then Some(c as int - 'a' as int + 10)
    else if 'A' <= c <= 'F' then Some(c as int - 'A' as int + 10)
    else None
  }

  /** Two characters a byte; an odd length or a foreign character is an error. */
  function DecodeString(s: string): Option<seq<Byte>> {
    if s == "" then Some([])
    else if |s| == 1 then None
    else
      var hi, lo, rest := FromHexChar(s[0]), FromHexChar(s[1]), DecodeString(s[2..]);
      if hi.None? || lo.None? || rest.None? then None
      else Some([16 * hi.value + lo.value] + rest.value)
  }

  function HexDigit(v: int): char
    requires 0 <= v < 16
  {
    "0123456789abcdef"[v]
  }

  /** hex.EncodeToString, lower case. */
  function EncodeToString(bytes: seq<Byte>): string {
    if bytes == [] then "" else [HexDigit(bytes[0] / 16), HexDigit(bytes[0] % 16)] + EncodeToString(bytes[1..])
  }

  /** Two digits a byte, the high half first. */
  lemma {:induction false} EncodingIsExact(bytes: seq<Byte>, i: nat)
    requires i < |bytes|
    ensures var code := EncodeToString(bytes);
            && |code| == 2 * |bytes|
            && code[2 * i] == "0123456789abcdef"[bytes[i] / 16] && code[2 * i + 1] == "0123456789abcdef"[bytes[i] % 16]
  {
    EncodedLength(bytes);
    if i > 0 {
      EncodingIsExact(bytes[1..], i - 1);
      assert EncodeToString(bytes)[2..] == EncodeToString(bytes[1..]);
    }
  }

  lemma {:induction false} EncodedLength(bytes: seq<Byte>)
    ensures |EncodeToString(bytes)| == 2 * |bytes|
  {
    if bytes != [] { EncodedLength(bytes[1..]); }
  }

  /** The same text up to the case of the letters a to f. */
  function LowerHex(c: char): char {
    if 'A' <= c <= 'F' then (c as int - 'A' as int + 'a' as int) as char else c
  }

  lemma CaseDoesNotMatter(i: nat, c: char)
    requires i < 6
    ensures LowerHex("ABCDEF"[i]) == "abcdef"[i]
    ensures !('A' <= c <= 'F') ==> LowerHex(c) == c
  {
    assert "ABCDEF"[i] == ('A' as int + i) as char && "abcdef"[i] == ('a' as int + i) as char;
  }

  predicate SameSpelling(s: string, t: string) {
    |s| == |t| && forall i :: 0 <= i < |s| ==> LowerHex(s[i]) == t[i]
  }

  predicate ValidateSignature(mac: Mac, secret: seq<Byte>, payload: seq<Byte>, header: string) {
    if !(SIGNATURE_PREFIX <= header) then false
    else
      var sigBytes := DecodeString(header[|SIGNATURE_PREFIX|..]);
      sigBytes.Some? && sigBytes.value == mac(secret, payload)
  }

  lemma DigitRoundTrip(c: char, v: int)
    requires 0 <= v < 16
    ensures FromHexChar(c) == Some(v) <==> LowerHex(c) == HexDigit(v)
  {
    assert HexDigit(v) == (if v < 10 then ('0' as int + v) as char else ('a' as int + v - 10) as char);
  }

  /** Decoding yields `bytes` exactly for the spellings of its encoding. */
  lemma {:induction false} DecodeIsExact(s: string, bytes: seq<Byte>)
    ensures DecodeString(s) == Some(bytes) <==> SameSpelling(s, EncodeToString(bytes))
  {
    if bytes == [] || |s| < 2 {
      if s != "" && |s| >= 2 && DecodeString(s).Some? { assert |DecodeString(s).value| > 0; }
    } else {
      var b := bytes[0];
      DecodeIsExact(s[2..], bytes[1..]);
      DigitRoundTrip(s[0], b / 16);
      DigitRoundTrip(s[1], b % 16);
      var code := EncodeToString(bytes);
      assert code[0] == HexDigit(b / 16) && code[1] == HexDigit(b % 16) && code[2..] == EncodeToString(bytes[1..]);
      SpellingSplits(s, code);
      DecodeHead(s, bytes);
    }
  }

  lemma SpellingSplits(s: string, t: string)
    requires |s| >= 2 && |t| >= 2
    ensures SameSpelling(s, t) <==> LowerHex(s[0]) == t[0] && LowerHex(s[1]) == t[1] && SameSpelling(s[2..], t[2..])
  {
    if LowerHex(s[0]) == t[0] && LowerHex(s[1]) == t[1] && SameSpelling(s[2..], t[2..]) {
      forall i | 0 <= i < |s| ensures LowerHex(s[i]) == t[i] {
        if i >= 2 { assert s[i] == s[2..][i - 2] && t[i] == t[2..][i - 2]; }
      }
    } else if SameSpelling(s, t) {
      forall i | 0 <= i < |s[2..]| ensures LowerHex(s[2..][i]) == t[2..][i] {
        assert s[2..][i] == s[i + 2] && t[2..][i] == t[i + 2];
      }
    }
  }

  lemma DecodeHead(s: string, bytes: seq<Byte>)
    requires |s| >= 2 && bytes != []
    ensures DecodeString(s) == Some(bytes)
            <==> FromHexChar(s[0]) == Some(bytes[0] / 16) && FromHexChar(s[1]) == Some(bytes[0] % 16)
                 && DecodeString(s[2..]) == Some(bytes[1..])
  {
    var hi, lo, rest := FromHexChar(s[0]), FromHexChar(s[1]), DecodeString(s[2..]);
    if hi.Some? && lo.Some? && rest.Some? {
      assert DecodeString(s).value[0] == 16 * hi.value + lo.value;
      assert DecodeString(s).value[1..] == rest.value;
      assert bytes == [bytes[0]] + bytes[1..];
    }
  }

  /** hex.DecodeString undoes hex.EncodeToString. */
  lemma EncodeRoundTrip(bytes: seq<Byte>)
    ensures DecodeString(EncodeToString(bytes)) == Some(bytes)
  {
    DecodeIsExact(EncodeToString(bytes), bytes);
    EncodedIsLower(bytes);
  }

  lemma {:induction false} EncodedIsLower(bytes: seq<Byte>)
    ensures SameSpelling(EncodeToString(bytes), EncodeToString(bytes))
  {
    if bytes != [] { EncodedIsLower(bytes[1..]); }
  }

  /** A header is accepted exactly if it is "sha256=" followed by some spelling of the payload's HMAC. */
  lemma AcceptanceIsExact(mac: Mac, secret: seq<Byte>, payload: seq<Byte>, header: string)
    ensures ValidateSignature(mac, secret, payload, header)
            <==> "sha256=" <= header && SameSpelling(header[7..], EncodeToString(mac(secret, payload)))
  {
    if SIGNATURE_PREFIX <= header {
      DecodeIsExact(header[|SIGNATURE_PREFIX|..], mac(secret, payload));
    }
  }
}
