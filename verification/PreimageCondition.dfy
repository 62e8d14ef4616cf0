/** PREIMAGE-SHA-256 conditions: the hand-written encoder, the decoder EscrowFinish relies
    on, and a reader that follows section 8.1.3 of ITU-T X.690. The digest is a parameter. */
module PreimageCondition {
  import opened Common

  type Byte = b: int | 0 <= b < 256

  type Digest = seq<Byte> -> seq<Byte>

  // ---- hex ----

  function HexDigit(n: nat): char
    requires n < 16
  {
    "0123456789ABCDEF"[n]
  }

  function HexValue(c: char): Option<nat> {
    if '0' <= c <= '9' then Some(c as int - '0' as int)
    else if 'A' <= c <= 'F' then Some(c as int - 'A' as int + 10)
    else if 'a' <= c <= 'f' then Some(c as int - 'a' as int + 10)
    else None
  }

  function BytesToHex(b: seq<Byte>): string {
    if b == [] then "" else [HexDigit(b[0] / 16), HexDigit(b[0] % 16)] + BytesToHex(b[1..])
  }

  /** Buffer.from(s, 'hex'): stops at the first pair that is not two hex digits. */
  function FromHex(s: string): seq<Byte> {
    if |s| < 2 || HexValue(s[0]).None? || HexValue(s[1]).None? then []
    else
      HexValueSmall(s[0]);
      HexValueSmall(s[1]);
      [HexValue(s[0]).value * 16 + HexValue(s[1]).value] + FromHex(s[2..])
  }

  lemma HexValueSmall(c: char)
    ensures HexValue(c).Some? ==> HexValue(c).value < 16
  {
  }

  lemma HexDigitValue(n: nat)
    requires n < 16
    ensures HexValue(HexDigit(n)) == Some(n)
  {
    assert n == 0 || n == 1 || n == 2 || n == 3 || n == 4 || n == 5 || n == 6 || n == 7 || n == 8 || n == 9
        || n == 10 || n == 11 || n == 12 || n == 13 || n == 14 || n == 15;
  }

  lemma {:induction false} HexRoundTrip(b: seq<Byte>)
    ensures FromHex(BytesToHex(b)) == b
  {
    if b != [] {
      HexRoundTrip(b[1..]);
      HexDigitValue(b[0] / 16);
      HexDigitValue(b[0] % 16);
      assert BytesToHex(b)[2..] == BytesToHex(b[1..]);
    }
  }

  // ---- the encoder and the decoder ----

  datatype Built = Built(condition: string, fulfillment: string)

  function ConditionBytes(preimage: seq<Byte>, sha: Digest): seq<Byte>
    requires |preimage| < 256
  {
    [0xa0, 0x25, 0x80, 0x20] + sha(preimage) + [0x81, 0x01, |preimage|]
  }

  function FulfillmentBytes(preimage: seq<Byte>): seq<Byte>
    requires |preimage| < 254
  {
    var inner := [0x80, |preimage|] + preimage;
    [0xa0, |inner|] + inner
  }

  function BuildPreimageCondition(preimage: seq<Byte>, sha: Digest): Result<Built> {
    if |preimage| == 0 || |preimage| > 127 then Err("preimage must be 1..127 bytes")
    else Ok(Built(BytesToHex(ConditionBytes(preimage, sha)), BytesToHex(FulfillmentBytes(preimage))))
  }

  function RestoreCondition(fulfillmentHex: string, sha: Digest): Result<string> {
    var f := FromHex(fulfillmentHex);
    if |f| < 3 || f[0] != 0xa0 || f[2] != 0x80 then Err("not a PREIMAGE-SHA-256 fulfillment")
    else
      var preimage := if |f| < 4 then [] else f[4..Min(f[3] as int + 4, |f|)];
      match BuildPreimageCondition(preimage, sha)
      case Ok(built) => Ok(built.condition)
      case Err(e) => Err(e)
  }

  datatype FinishTx = FinishTx(account: string, owner: string, offerSequence: nat,
                               fulfillment: Option<string>, condition: Option<string>)

  function BuildFinish(account: string, owner: string, offerSequence: nat, fulfillment: Option<string>,
                       sha: Digest): Result<FinishTx> {
    if !Truthy(fulfillment) then Ok(FinishTx(account, owner, offerSequence, None, None))
    else
      match RestoreCondition(fulfillment.value, sha)
      case Ok(c) => Ok(FinishTx(account, owner, offerSequence, fulfillment, Some(c)))
      case Err(e) => Err(e)
  }

  /** Finishing with the fulfillment that was built carries exactly the condition the
      escrow was created with. */
  lemma FinishMatchesCreate(account: string, owner: string, offerSequence: nat, preimage: seq<Byte>, sha: Digest)
    requires BuildPreimageCondition(preimage, sha).Ok?
    ensures 1 <= |preimage| <= 127
    ensures var built := BuildPreimageCondition(preimage, sha).value;
            && RestoreCondition(built.fulfillment, sha) == Ok(built.condition)
            && BuildFinish(account, owner, offerSequence, Some(built.fulfillment), sha)
               == Ok(FinishTx(account, owner, offerSequence, Some(built.fulfillment), Some(built.condition)))
  {
    var f := FulfillmentBytes(preimage);
    HexRoundTrip(f);
    assert f[4..Min(f[3] as int + 4, |f|)] == preimage;
    assert BytesToHex(f) != "";
  }

  /** Without a fulfillment an EscrowFinish carries neither it nor a condition. */
  lemma PlainFinish(account: string, owner: string, offerSequence: nat, sha: Digest)
    ensures BuildFinish(account, owner, offerSequence, None, sha) == BuildFinish(account, owner, offerSequence, Some(""), sha)
         == Ok(FinishTx(account, owner, offerSequence, None, None))
  {
  }

  /** Hex text has two characters a byte, digits and upper-case letters. */
  lemma {:induction false} HexIsUpperCase(b: seq<Byte>, i: nat)
    requires i < |BytesToHex(b)|
    ensures |BytesToHex(b)| == 2 * |b| && ('0' <= BytesToHex(b)[i] <= '9' || 'A' <= BytesToHex(b)[i] <= 'F')
  {
    if |b| > 1 {
      HexIsUpperCase(b[1..], if i >= 2 then i - 2 else 0);
    }
  }

  /** For any fulfillment text: it is refused exactly when its first and third bytes are not the
      two tags, or the bytes it announces and has from the fifth on are none or more than 127;
      otherwise its condition is that of these bytes. */
  lemma RestoreMeaning(hex: string, sha: Digest)
    ensures var f := FromHex(hex); var r := RestoreCondition(hex, sha);
            var n := if |f| < 4 then 0 else Min(f[3], |f| - 4);
            && (r.Ok? <==> |f| >= 3 && f[0] == 0xa0 && f[2] == 0x80 && 1 <= n <= 127)
            && (r.Ok? ==> FromHex(r.value) == [0xa0, 0x25, 0x80, 0x20] + sha(f[4..4 + n]) + [0x81, 0x01, n])
  {
    hide FromHex, BytesToHex;
    var f := FromHex(hex);
    if |f| >= 4 {
      var n := Min(f[3], |f| - 4);
      assert f[4..Min(f[3] as int + 4, |f|)] == f[4..4 + n];
      if 1 <= n <= 127 { HexRoundTrip(ConditionBytes(f[4..4 + n], sha)); }
    }
  }

  // ---- an independent reader (section 8.1.3 of X.690, definite lengths) ----

  datatype Tlv = Tlv(tag: Byte, content: seq<Byte>, rest: seq<Byte>)

  function BigEndian(b: seq<Byte>): nat {
    if b == [] then 0 else BigEndian(b[..|b| - 1]) * 256 + b[|b| - 1]
  }

  function ReadTlv(s: seq<Byte>): Option<Tlv> {
    if |s| < 2 then None
    else if s[1] < 0x80 then ReadContent(s[0], s[1], s[2..])            // short form, 8.1.3.4
    else if s[1] == 0x80 || s[1] == 0xff then None                      // indefinite, reserved
    else                                                                // long form, 8.1.3.5
      var n := s[1] - 0x80;
      if |s| < 2 + n then None else ReadContent(s[0], BigEndian(s[2..2 + n]), s[2 + n..])
  }

  function ReadContent(tag: Byte, length: nat, s: seq<Byte>): Option<Tlv> {
    if |s| < length then None else Some(Tlv(tag, s[..length], s[length..]))
  }

  function ReadFulfillment(s: seq<Byte>): Option<seq<Byte>> {
    var outer := ReadTlv(s);
    if outer.None? || outer.value.tag != 0xa0 || outer.value.rest != [] then None
    else
      var inner := ReadTlv(outer.value.content);
      if inner.None? || inner.value.tag != 0x80 || inner.value.rest != [] then None
      else Some(inner.value.content)
  }

  /** Fingerprint and cost of a condition. */
  function ReadCondition(s: seq<Byte>): Option<(seq<Byte>, nat)> {
    var outer := ReadTlv(s);
    if outer.None? || outer.value.tag != 0xa0 || outer.value.rest != [] then None
    else
      var mark := ReadTlv(outer.value.content);
      if mark.None? || mark.value.tag != 0x80 then None
      else
        var cost := ReadTlv(mark.value.rest);
        if cost.None? || cost.value.tag != 0x81 || cost.value.rest != [] || |cost.value.content| != 1 then None
        else Some((mark.value.content, cost.value.content[0]))
  }

  /** The condition is well formed for every preimage the builder accepts. */
  lemma ConditionIsReadable(preimage: seq<Byte>, sha: Digest)
    requires 1 <= |preimage| <= 127 && |sha(preimage)| == 32
    ensures ReadCondition(FromHex(BuildPreimageCondition(preimage, sha).value.condition))
         == Some((sha(preimage), |preimage|))
  {
    hide BytesToHex, FromHex, BigEndian;
    var c := ConditionBytes(preimage, sha);
    HexRoundTrip(c);
    var content := [0x80, 0x20] + sha(preimage) + [0x81, 0x01, |preimage|];
    assert c[2..][..37] == content && c[2..][37..] == [];
    assert content[2..][..32] == sha(preimage);
    assert content[2..][32..] == [0x81, 0x01, |preimage|];
    assert [0x81, 0x01, |preimage|][2..] == [|preimage|];
  }

  /** The fulfillment is not: its outer length byte |preimage| + 2 is a short form only up
      to 125 bytes. At 126 it reads as the indefinite form and at 127 as a long form, and a
      conforming reader gets the preimage back exactly up to 125. */
  lemma FulfillmentReadableIff(preimage: seq<Byte>, sha: Digest)
    requires 1 <= |preimage| <= 127
    ensures var f := FromHex(BuildPreimageCondition(preimage, sha).value.fulfillment);
            && |f| >= 2
            && (f[1] < 0x80 <==> |preimage| <= 125)
            && (ReadFulfillment(f) == Some(preimage) <==> |preimage| <= 125)
            && (ReadFulfillment(f).None? <==> |preimage| > 125)
  {
    hide BytesToHex, FromHex;
    var f := FulfillmentBytes(preimage);
    HexRoundTrip(f);
    if |preimage| <= 125 {
      var inner := [0x80, |preimage|] + preimage;
      assert f[2..][..|inner|] == inner && f[2..][|inner|..] == [];
      assert inner[2..][..|preimage|] == preimage && inner[2..][|preimage|..] == [];
    } else if |preimage| == 127 {
      assert f[2..3] == [0x80];
      assert BigEndian([0x80]) == 0x80;
      assert ReadTlv(f) == Some(Tlv(0xa0, f[3..][..128], f[3..][128..]));
      assert f[3..][..128][0] == 127;
    }
  }
}
