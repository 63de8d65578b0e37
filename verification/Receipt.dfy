/** The receipt tag codec of receipt.ts: the OP_RETURN payload of every gateway
    transaction, its script form in hex, and their parsers. */
module Receipt {
  import opened ByteStrings

  datatype TagOp = Mint | Redeem | Convert

  /** A decoded tag; `payoutCommit` is present only on the extended redeem form. */
  datatype Tag = Tag(op: TagOp, sats: nat, btcTxid: string, vout: nat, payoutCommit: Option<string>)

  datatype TagError = MalformedTxid | SatsOutOfRange | VoutOutOfRange
  datatype Encoded = Encoded(payload: Bytes) | Throws(error: TagError)

  const TAG_LEN: nat := 49
  const COMMIT_LEN: nat := 20
  const BOUND_LEN: nat := 69

  /** "BSQ1" */
  const MAGIC: Bytes := [0x42, 0x53, 0x51, 0x31]

  function OpByte(op: TagOp): Byte {
    match op
    case Mint => 0x4d
    case Redeem => 0x52
    case Convert => 0x43
  }

  function OpFromByte(b: Byte): (op: Option<TagOp>)
    ensures op.Some? ==> OpByte(op.value) == b
    ensures op.None? ==> forall o: TagOp :: OpByte(o) != b
  {
    if b == 0x4d then Some(Mint)
    else if b == 0x52 then Some(Redeem)
    else if b == 0x43 then Some(Convert)
    else None
  }

  // ---- hex ----

  function HexDigit(n: nat): char
    requires n < 16
  {
    "0123456789abcdef"[n]
  }

  /** The value of a hex digit in either case. */
  function HexValue(c: char): (v: Option<nat>)
    ensures v.Some? ==> v.value < 16
  {
    if '0' <= c <= '9' then Some((c as int) - ('0' as int))
    else if 'a' <= c <= 'f' then Some((c as int) - ('a' as int) + 10)
    else if 'A' <= c <= 'F' then Some((c as int) - ('A' as int) + 10)
    else None
  }

  predicate IsLowerHex(s: string) {
    forall i :: 0 <= i < |s| ==> '0' <= s[i] <= '9' || 'a' <= s[i] <= 'f'
  }

  /** Buffer.toString('hex') */
  function ToHex(b: Bytes): (s: string)
    ensures |s| == 2 * |b|
  {
    if b == [] then "" else [HexDigit(b[0] / 16), HexDigit(b[0] % 16)] + ToHex(b[1..])
  }

  /** Buffer.from(s, 'hex'): pairs up to the first one that is not hex. */
  function FromHex(s: string): Bytes {
    if |s| < 2 || HexValue(s[0]).None? || HexValue(s[1]).None? then []
    else [16 * HexValue(s[0]).value + HexValue(s[1]).value] + FromHex(s[2..])
  }

  lemma HexDigits(n: nat)
    requires n < 16
    ensures HexValue(HexDigit(n)) == Some(n)
    ensures IsLowerHex([HexDigit(n)])
  {
  }

  lemma {:induction false} HexRoundTrip(b: Bytes)
    ensures FromHex(ToHex(b)) == b && IsLowerHex(ToHex(b))
  {
    if b != [] {
      hide FromHex, ToHex, IsLowerHex, HexDigit, HexValue;
      var hi, lo, rest := HexDigit(b[0] / 16), HexDigit(b[0] % 16), ToHex(b[1..]);
      HexRoundTrip(b[1..]);
      HexDigits(b[0] / 16);
      HexDigits(b[0] % 16);
      assert b == [b[0]] + b[1..];
      ToHexStep(b[0], b[1..]);
      FromHexStep(hi, lo, rest);
      LowerHexJoin([hi], [lo]);
      LowerHexJoin([hi] + [lo], rest);
      assert [hi, lo] == [hi] + [lo];
    }
  }

  lemma LowerHexJoin(a: string, b: string)
    requires IsLowerHex(a) && IsLowerHex(b)
    ensures IsLowerHex(a + b)
  {
  }

  lemma LowerHexDigit(c: char)
    requires IsLowerHex([c])
    ensures HexValue(c).Some? && HexDigit(HexValue(c).value) == c
  {
    assert [c][0] == c;
  }

  lemma ToHexStep(b: Byte, rest: Bytes)
    ensures ToHex([b] + rest) == [HexDigit(b / 16), HexDigit(b % 16)] + ToHex(rest)
  {
    assert ([b] + rest)[1..] == rest;
  }

  lemma FromHexStep(hi: char, lo: char, rest: string)
    requires HexValue(hi).Some? && HexValue(lo).Some?
    ensures FromHex([hi, lo] + rest) == [16 * HexValue(hi).value + HexValue(lo).value] + FromHex(rest)
  {
    assert ([hi, lo] + rest)[2..] == rest;
  }

  /** One pair of lower-case digits survives parsing and printing. */
  lemma HexPair(hi: char, lo: char, rest: string)
    requires IsLowerHex([hi]) && IsLowerHex([lo])
    ensures ToHex(FromHex([hi, lo] + rest)) == [hi, lo] + ToHex(FromHex(rest))
    ensures |FromHex([hi, lo] + rest)| == 1 + |FromHex(rest)|
  {
    hide *;
    LowerHexDigit(hi);
    LowerHexDigit(lo);
    FromHexStep(hi, lo, rest);
    var h, l := HexValue(hi).value, HexValue(lo).value;
    ToHexStep(16 * h + l, FromHex(rest));
    NibblePair(h, l);
  }

  lemma NibblePair(h: nat, l: nat)
    requires l < 16
    ensures (16 * h + l) / 16 == h && (16 * h + l) % 16 == l
  {
  }

  lemma LowerHexParts(s: string)
    requires IsLowerHex(s) && |s| >= 2
    ensures IsLowerHex([s[0]]) && IsLowerHex([s[1]]) && IsLowerHex(s[2..])
    ensures s == [s[0], s[1]] + s[2..]
  {
  }

  lemma {:induction false} HexRoundTripText(s: string)
    requires IsLowerHex(s) && |s| % 2 == 0
    ensures ToHex(FromHex(s)) == s && |FromHex(s)| == |s| / 2
  {
    if s == "" {
    } else {
      hide *;
      LowerHexParts(s);
      HexRoundTripText(s[2..]);
      HexPair(s[0], s[1], s[2..]);
    }
  }

  // ---- the codec ----

  predicate ValidTxid(txid: string) {
    |txid| == 64 && IsLowerHex(txid)
  }

  /** The 49-byte layout. */
  function TagBytes(op: TagOp, sats: nat, btcTxid: string, vout: nat): Bytes {
    MAGIC + [OpByte(op)] + LittleEndian(sats, 8) + FromHex(btcTxid) + LittleEndian(vout, 4)
  }

  lemma TagLayout(op: TagOp, sats: nat, btcTxid: string, vout: nat)
    requires ValidTxid(btcTxid)
    ensures var b := TagBytes(op, sats, btcTxid, vout);
            && |b| == TAG_LEN && |FromHex(btcTxid)| == 32
            && b[..4] == MAGIC && b[4] == OpByte(op) && b[5..13] == LittleEndian(sats, 8)
            && b[13..45] == FromHex(btcTxid) && b[45..] == LittleEndian(vout, 4)
  {
    hide LittleEndian, FromHex, ToHex, IsLowerHex;
    HexRoundTripText(btcTxid);
    CutFields(MAGIC, OpByte(op), LittleEndian(sats, 8), FromHex(btcTxid), LittleEndian(vout, 4));
  }

  /** Five fields side by side. */
  lemma CutFields(a: Bytes, b: Byte, c: Bytes, d: Bytes, e: Bytes)
    requires |a| == 4 && |c| == 8 && |d| == 32 && |e| == 4
    ensures var s := a + [b] + c + d + e;
            |s| == TAG_LEN && s[..4] == a && s[4] == b && s[5..13] == c && s[13..45] == d && s[45..] == e
  {
  }

  /** encodeTag: three argument checks, then writes into a zeroed buffer. */
  method EncodeTag(op: TagOp, sats: int, btcTxid: string, vout: int) returns (r: Encoded)
    ensures !ValidTxid(btcTxid) ==> r == Throws(MalformedTxid)
    ensures ValidTxid(btcTxid) && !(0 <= sats < Pow(256, 8)) ==> r == Throws(SatsOutOfRange)
    ensures ValidTxid(btcTxid) && 0 <= sats < Pow(256, 8) && !(0 <= vout < Pow(256, 4)) ==> r == Throws(VoutOutOfRange)
    ensures ValidTxid(btcTxid) && 0 <= sats < Pow(256, 8) && 0 <= vout < Pow(256, 4)
        ==> r == Encoded(TagBytes(op, sats, btcTxid, vout))
    ensures r.Encoded? ==>
              r.payload == [0x42, 0x53, 0x51, 0x31, if op.Mint? then 0x4d else if op.Redeem? then 0x52 else 0x43]
                           + LittleEndian(sats, 8) + FromHex(btcTxid) + LittleEndian(vout, 4)
  {
    hide LittleEndian, FromHex, Pow, TagBytes, IsLowerHex;
    if !ValidTxid(btcTxid) {
      return Throws(MalformedTxid);
    }
    if sats < 0 || sats > Pow(256, 8) - 1 {
      return Throws(SatsOutOfRange);
    }
    var txid := FromHex(btcTxid);
    TagLayout(op, sats, btcTxid, 0);
    var buf := new Byte[TAG_LEN](i => 0);
    WriteAt(buf, 0, MAGIC);
    WriteAt(buf, 4, [OpByte(op)]);
    WriteAt(buf, 5, LittleEndian(sats, 8));
    assert buf[..13] == MAGIC + [OpByte(op)] + LittleEndian(sats, 8);
    WriteAt(buf, 13, txid);
    assert buf[..45] == MAGIC + [OpByte(op)] + LittleEndian(sats, 8) + txid;
    if vout < 0 || vout >= Pow(256, 4) {
      return Throws(VoutOutOfRange);
    }
    WriteAt(buf, 45, LittleEndian(vout, 4));
    TagUnfold(op, sats, btcTxid, vout);
    return Encoded(buf[..]);
  }

  lemma TagUnfold(op: TagOp, sats: nat, btcTxid: string, vout: nat)
    ensures TagBytes(op, sats, btcTxid, vout)
         == MAGIC + [OpByte(op)] + LittleEndian(sats, 8) + FromHex(btcTxid) + LittleEndian(vout, 4)
         == [0x42, 0x53, 0x51, 0x31, if op.Mint? then 0x4d else if op.Redeem? then 0x52 else 0x43]
            + LittleEndian(sats, 8) + FromHex(btcTxid) + LittleEndian(vout, 4)
  {
    hide LittleEndian, FromHex;
    assert MAGIC + [OpByte(op)]
        == [0x42, 0x53, 0x51, 0x31, if op.Mint? then 0x4d else if op.Redeem? then 0x52 else 0x43];
  }

  /** The text JavaScript reads from bytes under 'ascii': the top bit is dropped. */
  function Ascii(b: Bytes): (s: seq<nat>)
    ensures |s| == |b|
  {
    seq(|b|, i requires 0 <= i < |b| => b[i] % 128)
  }

  function DecodeTag(buf: Bytes): Option<Tag> {
    if |buf| != TAG_LEN && |buf| != BOUND_LEN then None
    else if Ascii(buf[..4]) != Ascii(MAGIC) then None
    else
      var op := OpFromByte(buf[4]);
      if op.None? then None
      else if |buf| == BOUND_LEN && op.value != Redeem then None
      else Some(Tag(op.value, FromLittleEndian(buf[5..13]), ToHex(buf[13..45]), FromLittleEndian(buf[45..49]),
                    if |buf| == BOUND_LEN then Some(ToHex(buf[49..])) else None))
  }

  /** What encodeTag and encodeRedeemTag can be given. */
  predicate ValidTag(t: Tag) {
    && t.sats < Pow(256, 8) && t.vout < Pow(256, 4) && ValidTxid(t.btcTxid)
    && (t.payoutCommit.Some? ==>
          t.op == Redeem && |t.payoutCommit.value| == 2 * COMMIT_LEN && IsLowerHex(t.payoutCommit.value))
  }

  /** The encoding in both lengths: encodeRedeemTag appends the commitment bytes. */
  function EncodingOf(t: Tag): Bytes {
    TagBytes(t.op, t.sats, t.btcTxid, t.vout)
    + (if t.payoutCommit.Some? then FromHex(t.payoutCommit.value) else [])
  }

  /** Parsing undoes printing, for every tag in both lengths. */
  lemma DecodeUndoesEncode(t: Tag)
    requires ValidTag(t)
    ensures |EncodingOf(t)| == (if t.payoutCommit.Some? then BOUND_LEN else TAG_LEN)
    ensures DecodeTag(EncodingOf(t)) == Some(t)
  {
    hide LittleEndian, FromLittleEndian, FromHex, ToHex, Pow, IsLowerHex, TagBytes;
    TagLayout(t.op, t.sats, t.btcTxid, t.vout);
    HexRoundTripText(t.btcTxid);
    LittleEndianRoundTrip(t.sats, 8);
    LittleEndianRoundTrip(t.vout, 4);
    if t.payoutCommit.Some? {
      HexRoundTripText(t.payoutCommit.value);
    }
    var base := TagBytes(t.op, t.sats, t.btcTxid, t.vout);
    var b := EncodingOf(t);
    assert b[..4] == base[..4] && b[4] == base[4] && b[5..13] == base[5..13];
    assert b[13..45] == base[13..45] && b[45..49] == base[45..];
    if t.payoutCommit.Some? {
      assert b[49..] == FromHex(t.payoutCommit.value);
    }
  }

  lemma CutTag(buf: Bytes)
    requires |buf| >= TAG_LEN
    ensures buf[4..] == [buf[4]] + buf[5..13] + buf[13..45] + buf[45..49] + buf[49..]
    ensures buf == buf[..4] + buf[4..]
  {
  }

  /** Printing undoes parsing on everything after the magic; on the magic it restores the
      four bytes themselves.  So a parsed buffer is its own encoding exactly when its magic
      carries no top bits. */
  lemma EncodeUndoesDecode(buf: Bytes)
    requires DecodeTag(buf).Some?
    ensures ValidTag(DecodeTag(buf).value)
    ensures EncodingOf(DecodeTag(buf).value) == MAGIC + buf[4..]
    ensures EncodingOf(DecodeTag(buf).value) == buf <==> buf[..4] == MAGIC
  {
    hide LittleEndian, FromHex, Pow, IsLowerHex, TagBytes, DecodeTag, OpByte, ValidTag, EncodingOf;
    FieldsReencode(buf);
    assert EncodingOf(DecodeTag(buf).value) == MAGIC + buf[4..] by { TagReencodes(buf); }
    assert (MAGIC + buf[4..])[..4] == MAGIC;
    assert buf[..4] + buf[4..] == buf;
  }

  lemma TagReencodes(buf: Bytes)
    requires DecodeTag(buf).Some? && |buf| >= TAG_LEN
    ensures EncodingOf(DecodeTag(buf).value) == MAGIC + buf[4..]
  {
    hide LittleEndian, FromHex, Pow, IsLowerHex, TagBytes, DecodeTag, OpByte, ValidTag;
    var t := DecodeTag(buf).value;
    FieldsReencode(buf);
    TagUnfold(t.op, t.sats, t.btcTxid, t.vout);
    CutTag(buf);
  }

  lemma FieldsReencode(buf: Bytes)
    requires DecodeTag(buf).Some?
    ensures ValidTag(DecodeTag(buf).value) && |buf| >= TAG_LEN
    ensures var t := DecodeTag(buf).value;
            && OpByte(t.op) == buf[4] && LittleEndian(t.sats, 8) == buf[5..13] && FromHex(t.btcTxid) == buf[13..45]
            && LittleEndian(t.vout, 4) == buf[45..49]
            && (if t.payoutCommit.Some? then FromHex(t.payoutCommit.value) else []) == buf[49..]
  {
    hide LittleEndian, FromLittleEndian, FromHex, ToHex, Pow, IsLowerHex;
    LittleEndianOfValue(buf[5..13]);
    LittleEndianOfValue(buf[45..49]);
    HexRoundTrip(buf[13..45]);
    HexRoundTrip(buf[49..]);
  }

  /** The magic check accepts more than the magic: top bits are not compared. */
  lemma MagicIgnoresTopBits(buf: Bytes)
    requires |buf| == TAG_LEN && DecodeTag(buf).Some?
    ensures DecodeTag([0xc2, 0xd3, 0xd1, 0xb1] + buf[4..]) == DecodeTag(buf)
  {
    hide LittleEndian, FromLittleEndian, FromHex, ToHex;
    var other: Bytes := [0xc2, 0xd3, 0xd1, 0xb1] + buf[4..];
    assert other[..4] == [0xc2, 0xd3, 0xd1, 0xb1];
    assert Ascii(other[..4]) == Ascii(MAGIC);
    assert other[4] == buf[4] && other[5..13] == buf[5..13];
    assert other[13..45] == buf[13..45] && other[45..49] == buf[45..49];
  }

  /** Distinct operations or outpoints never share a payload. */
  lemma PayloadIdentifiesTag(t: Tag, u: Tag)
    requires ValidTag(t) && ValidTag(u) && EncodingOf(t) == EncodingOf(u)
    ensures t == u
  {
    DecodeUndoesEncode(t);
    DecodeUndoesEncode(u);
  }

  // ---- the script form ----

  /** OP_RETURN, a direct push length and the payload, in hex; None where it throws. */
  function TagScriptHex(payload: Bytes): Option<string> {
    if |payload| >= 0x4c then None
    else Some("6a" + ToHex([|payload|]) + ToHex(payload))
  }

  /** The push length.  Two characters that are not both hex digits parse to a number
      below 16 or to none at all, which is neither tag length. */
  function ParsedLength(script: string): Option<nat> {
    if |script| < 4 || HexValue(script[2]).None? || HexValue(script[3]).None? then None
    else Some(16 * HexValue(script[2]).value + HexValue(script[3]).value)
  }

  function TagFromScriptHex(script: string): Option<Tag> {
    if |script| < 2 || script[..2] != "6a" then None
    else if ParsedLength(script) != Some(TAG_LEN) && ParsedLength(script) != Some(BOUND_LEN) then None
    else DecodeTag(FromHex(script[4..]))
  }

  /** Through the script form the parser sees exactly the payload. */
  lemma ScriptRoundTrip(payload: Bytes)
    requires |payload| < 0x4c
    ensures TagScriptHex(payload).Some?
    ensures TagFromScriptHex(TagScriptHex(payload).value) == DecodeTag(payload)
  {
    var n: Byte := |payload|;
    var script := TagScriptHex(payload).value;
    HexRoundTrip(payload);
    assert ToHex([n]) == [HexDigit(n / 16), HexDigit(n % 16)] by {
      assert ToHex([n][1..]) == "";
    }
    HexDigits(n / 16);
    HexDigits(n % 16);
    hide FromHex, ToHex, DecodeTag, HexDigit, HexValue;
    assert script[..2] == "6a" && script[2] == HexDigit(n / 16) && script[3] == HexDigit(n % 16);
    assert script[4..] == ToHex(payload);
    if n != TAG_LEN && n != BOUND_LEN {
      OtherLengthsDoNotDecode(payload);
    }
  }

  lemma OtherLengthsDoNotDecode(payload: Bytes)
    requires |payload| != TAG_LEN && |payload| != BOUND_LEN
    ensures DecodeTag(payload) == None
  {
  }

  /** Matching scripts is matching tags: the scan compares script hex, and two tags have
      one script only if they are the same tag. */
  lemma ScriptIdentifiesTag(t: Tag, u: Tag)
    requires ValidTag(t) && ValidTag(u)
    ensures TagScriptHex(EncodingOf(t)) == TagScriptHex(EncodingOf(u)) <==> t == u
  {
    if TagScriptHex(EncodingOf(t)) == TagScriptHex(EncodingOf(u)) {
      DecodeUndoesEncode(t);
      DecodeUndoesEncode(u);
      ScriptRoundTrip(EncodingOf(t));
      ScriptRoundTrip(EncodingOf(u));
    }
  }

  // ---- the payout commitment ----

  /** The first 20 bytes of the address digest, in hex; `digest` is SHA-256 of the trimmed,
      lower-cased address. */
  function PayoutCommit(digest: string -> Bytes, address: string): string {
    ToHex(if |digest(address)| < COMMIT_LEN then digest(address) else digest(address)[..COMMIT_LEN])
  }

  /** Two addresses have one commitment exactly if their digests begin with the same 20 bytes. */
  lemma CommitBindsAddress(digest: string -> Bytes, a: string, b: string)
    requires |digest(a)| == |digest(b)| == 32
    ensures PayoutCommit(digest, a) == PayoutCommit(digest, b) <==> digest(a)[..20] == digest(b)[..20]
  {
    hide ToHex, FromHex;
    HexRoundTrip(digest(a)[..20]);
    HexRoundTrip(digest(b)[..20]);
  }

  /** encodeRedeemTag: the base tag followed by the commitment to the payout address. */
  method EncodeRedeemTag(digest: string -> Bytes, sats: int, btcTxid: string, vout: int, address: string)
    returns (r: Encoded)
    requires |digest(address)| == 32
    ensures r.Encoded? <==> ValidTxid(btcTxid) && 0 <= sats < Pow(256, 8) && 0 <= vout < Pow(256, 4)
    ensures r.Encoded? ==>
              DecodeTag(r.payload) == Some(Tag(Redeem, sats, btcTxid, vout, Some(PayoutCommit(digest, address))))
  {
    var base := EncodeTag(Redeem, sats, btcTxid, vout);
    if base.Throws? {
      return base;
    }
    var commit := FromHex(PayoutCommit(digest, address));
    HexRoundTrip(digest(address)[..COMMIT_LEN]);
    DecodeUndoesEncode(Tag(Redeem, sats, btcTxid, vout, Some(PayoutCommit(digest, address))));
    return Encoded(base.payload + commit);
  }
}
