/**
 * The byte formats that join the chains: a posted VAA holding a transfer with payload
 * (solana/modules/wormhole-anchor-sdk/src/wormhole/accounts.rs, token_bridge/message.rs and
 * token_bridge/accounts.rs), and the recipient payload as the Solana program and the Injective
 * contract each read and write it.
 */
module Messages {
  import opened Bytes

  // ---------------------------------------------------------------- the recipient payload

  const PAYLOAD_ID: u8 := 1

  /** `XChainMessage::serialize`. */
  function SerializeXChain(recipient: seq<u8>): (r: seq<u8>) { [PAYLOAD_ID] + recipient }

  /** `XChainMessage::deserialize`: bytes after the recipient are ignored. */
  function DeserializeXChain(buf: seq<u8>): (r: Parse<seq<u8>>) {
    if buf == [] then Panicked
    else if buf[0] != PAYLOAD_ID then Malformed
    else if |buf| < 33 then Panicked
    else Parsed(buf[1..33])
  }

  datatype PayloadInfo = PayloadInfo(payloadId: u8, targetRecipient: seq<u8>)

  /** `PayloadInfo::serialize`. */
  function SerializePayloadInfo(p: PayloadInfo): (r: seq<u8>) { [p.payloadId] + p.targetRecipient }

  /** `PayloadInfo::deserialize`: any identifier is accepted. */
  function DeserializePayloadInfo(data: seq<u8>): (r: Parse<PayloadInfo>) {
    if |data| < 33 then Panicked else Parsed(PayloadInfo(data[0], data[1..33]))
  }

  /** What either chain writes, the other reads as the same recipient, for the one shared identifier. */
  lemma PayloadsAgree(recipient: seq<u8>, id: u8)
    requires |recipient| == 32
    ensures DeserializePayloadInfo(SerializeXChain(recipient)) == Parsed(PayloadInfo(PAYLOAD_ID, recipient))
    ensures DeserializeXChain(SerializePayloadInfo(PayloadInfo(id, recipient)))
         == if id == PAYLOAD_ID then Parsed(recipient) else Malformed
  {
    assert ([PAYLOAD_ID] + recipient)[1..33] == recipient;
    assert ([id] + recipient)[1..33] == recipient;
  }

  /** The payload is the byte 1 and then the 32 bytes of the recipient, on both chains. */
  lemma PayloadLayout(recipient: seq<u8>, id: u8)
    requires |recipient| == 32
    ensures SerializeXChain(recipient) == [1] + recipient
    ensures SerializePayloadInfo(PayloadInfo(id, recipient)) == [id] + recipient
    ensures |SerializeXChain(recipient)| == 33
  {
  }

  /** Which bytes are refused, and which panic, on either chain. */
  lemma PayloadFailures(buf: seq<u8>)
    ensures DeserializeXChain(buf).Malformed? <==> buf != [] && buf[0] != 1
    ensures DeserializeXChain(buf).Panicked? <==> buf == [] || (buf[0] == 1 && |buf| < 33)
    ensures DeserializePayloadInfo(buf).Panicked? <==> |buf| < 33
    ensures !DeserializePayloadInfo(buf).Malformed?
  {
  }

  /** On any bytes at all, the two readers agree exactly on those that start with the shared identifier. */
  lemma ReadersAgreeIff(buf: seq<u8>)
    ensures (DeserializeXChain(buf).Parsed? && DeserializePayloadInfo(buf).Parsed?
             && DeserializePayloadInfo(buf).value == PayloadInfo(PAYLOAD_ID, DeserializeXChain(buf).value))
        <==> (|buf| >= 33 && buf[0] == PAYLOAD_ID)
    ensures DeserializeXChain(buf).Parsed? ==> SerializeXChain(DeserializeXChain(buf).value) == buf[..33]
    ensures DeserializePayloadInfo(buf).Parsed? ==> SerializePayloadInfo(DeserializePayloadInfo(buf).value) == buf[..33]
  {
    if |buf| >= 33 {
      assert buf[..33] == [buf[0]] + buf[1..33];
    }
  }

  // ---------------------------------------------------------------- the transfer

  const PAYLOAD_ID_TRANSFER_WITH_PAYLOAD: u8 := 3

  datatype Transfer = Transfer(
    amount: nat, tokenAddress: seq<u8>, tokenChain: nat, toAddress: seq<u8>, toChain: nat, fromAddress: seq<u8>)

  /** The fields have the widths of the record the program keeps them in. */
  predicate TransferFits(t: Transfer) {
    && t.amount < Pow256(8) && t.tokenChain < Pow256(2) && t.toChain < Pow256(2)
    && |t.tokenAddress| == |t.toAddress| == |t.fromAddress| == 32
  }

  /** `TransferWithMeta::deserialize`, on exactly 133 bytes: only the low 8 bytes of the amount are read. */
  function DeserializeTransfer(buf: seq<u8>): (r: Parse<Transfer>)
    requires |buf| == 133
  {
    if buf[0] != PAYLOAD_ID_TRANSFER_WITH_PAYLOAD then Malformed
    else Parsed(Transfer(
      FromBe(buf[25..33]), buf[33..65], FromBe(buf[65..67]), buf[67..99], FromBe(buf[99..101]), buf[101..133]))
  }

  /** The 133 bytes of a transfer whose amount has `high` above its low 8 bytes. */
  function TransferBytes(high: seq<u8>, t: Transfer): (r: seq<u8>) {
    [PAYLOAD_ID_TRANSFER_WITH_PAYLOAD]
    + (high + (ToBe(t.amount, 8)
    + (t.tokenAddress + (ToBe(t.tokenChain, 2)
    + (t.toAddress + (ToBe(t.toChain, 2)
    + t.fromAddress))))))
  }

  /** Every field's bytes are where the reader looks for them. */
  lemma TransferSlices(high: seq<u8>, t: Transfer)
    requires |high| == 24 && TransferFits(t)
    ensures var buf := TransferBytes(high, t);
            && |buf| == 133 && buf[0] == PAYLOAD_ID_TRANSFER_WITH_PAYLOAD
            && buf[25..33] == ToBe(t.amount, 8) && buf[33..65] == t.tokenAddress
            && buf[65..67] == ToBe(t.tokenChain, 2) && buf[67..99] == t.toAddress
            && buf[99..101] == ToBe(t.toChain, 2) && buf[101..133] == t.fromAddress
  {
    var buf := TransferBytes(high, t);
    var r6 := ToBe(t.toChain, 2) + t.fromAddress;
    var r5 := t.toAddress + r6;
    var r4 := ToBe(t.tokenChain, 2) + r5;
    var r3 := t.tokenAddress + r4;
    var r2 := ToBe(t.amount, 8) + r3;
    Field(buf, 0, [PAYLOAD_ID_TRANSFER_WITH_PAYLOAD], high + r2);
    Field(buf, 1, high, r2);
    Field(buf, 25, ToBe(t.amount, 8), r3);
    Field(buf, 33, t.tokenAddress, r4);
    Field(buf, 65, ToBe(t.tokenChain, 2), r5);
    Field(buf, 67, t.toAddress, r6);
    Field(buf, 99, ToBe(t.toChain, 2), t.fromAddress);
    assert buf[101..133] == buf[101..];
  }

  lemma TransferReads(high: seq<u8>, t: Transfer)
    requires |high| == 24 && TransferFits(t)
    ensures |TransferBytes(high, t)| == 133
    ensures DeserializeTransfer(TransferBytes(high, t)) == Parsed(t)
  {
    TransferSlices(high, t);
    BeReads(t.amount, 8);
    BeReads(t.tokenChain, 2);
    BeReads(t.toChain, 2);
    SmallModulus(t.amount, Pow256(8));
    SmallModulus(t.tokenChain, Pow256(2));
    SmallModulus(t.toChain, Pow256(2));
  }

  lemma SmallModulus(n: nat, p: nat)
    requires n < p
    ensures n % p == n
  {
  }

  /** Every transfer that parses is the bytes of what it parsed to. */
  lemma TransferWrites(buf: seq<u8>)
    requires |buf| == 133 && DeserializeTransfer(buf).Parsed?
    ensures TransferFits(DeserializeTransfer(buf).value)
    ensures buf == TransferBytes(buf[1..25], DeserializeTransfer(buf).value)
  {
    var t := DeserializeTransfer(buf).value;
    BeWrites(buf[25..33]);
    BeWrites(buf[65..67]);
    BeWrites(buf[99..101]);
    BeBound(buf[25..33]);
    BeBound(buf[65..67]);
    BeBound(buf[99..101]);
    Split(buf, 0, 1);
    Split(buf, 1, 24);
    Split(buf, 25, 8);
    Split(buf, 33, 32);
    Split(buf, 65, 2);
    Split(buf, 67, 32);
    Split(buf, 99, 2);
    assert buf[101..133] == buf[101..] && buf[0..1] == [buf[0]] && buf[0..] == buf;
  }

  // ---------------------------------------------------------------- the posted VAA

  const MESSAGE_INDEX_VERSION: nat := 3
  const MESSAGE_INDEX_FINALITY: nat := 4
  const MESSAGE_INDEX_TIMESTAMP: nat := 5
  const MESSAGE_INDEX_SIGNATURE_ACCOUNT: nat := 9
  const MESSAGE_INDEX_POSTED_TIMESTAMP: nat := 41
  const MESSAGE_INDEX_BATCH_ID: nat := 45
  const MESSAGE_INDEX_SEQUENCE: nat := 49
  const MESSAGE_INDEX_EMITTER_CHAIN: nat := 57
  const MESSAGE_INDEX_EMITTER_ADDRESS: nat := 59
  const MESSAGE_INDEX_PAYLOAD_LENGTH: nat := 91
  const MESSAGE_INDEX_PAYLOAD: nat := 95

  datatype Meta = Meta(
    version: u8, finality: u8, timestamp: nat, signatureSet: seq<u8>, postedTimestamp: nat,
    batchId: nat, sequence: nat, emitterChain: nat, emitterAddress: seq<u8>)

  predicate MetaFits(m: Meta) {
    && m.timestamp < Pow256(4) && m.postedTimestamp < Pow256(4) && m.batchId < Pow256(4)
    && m.sequence < Pow256(8) && m.emitterChain < Pow256(2)
    && |m.signatureSet| == |m.emitterAddress| == 32
  }

  datatype Posted = Posted(meta: Meta, size: nat, transfer: Transfer, recipient: seq<u8>)

  /** "vaa", "msg" or "msu". */
  predicate IsMagic(bs: seq<u8>) {
    bs == [118, 97, 97] || bs == [109, 115, 103] || bs == [109, 115, 117]
  }

  /** The derived reader of `PostedVaaMeta`: fields in order, little-endian. */
  function DeserializeMeta(buf: seq<u8>): (r: Meta)
    requires |buf| == 88
  {
    Meta(buf[0], buf[1], FromLe(buf[2..6]), buf[6..38], FromLe(buf[38..42]),
         FromLe(buf[42..46]), FromLe(buf[46..54]), FromLe(buf[54..56]), buf[56..88])
  }

  /** `TransferWith::deserialize`. */
  function DeserializeTransferWith(buf: seq<u8>): (r: Parse<(Transfer, seq<u8>)>) {
    if |buf| < 133 then Panicked
    else
      match DeserializeTransfer(buf[..133])
      case Malformed => Malformed
      case Panicked => Panicked
      case Parsed(t) =>
        match DeserializeXChain(buf[133..])
        case Malformed => Malformed
        case Panicked => Panicked
        case Parsed(recipient) => Parsed((t, recipient))
  }

  /** `PostedVaa::deserialize`, after its discriminator. */
  function DeserializePosted(account: seq<u8>): (r: Parse<Posted>) {
    if |account| < 3 || !IsMagic(account[..3]) then Malformed
    else
      var buf := account[3..];
      if |buf| < 92 then Panicked
      else
        var size := FromLe(buf[88..92]);
        if |buf| < 92 + size then Panicked
        else
          match DeserializeTransferWith(buf[92..92 + size])
          case Malformed => Malformed
          case Panicked => Panicked
          case Parsed(body) => Parsed(Posted(DeserializeMeta(buf[..88]), size, body.0, body.1))
  }

  function MetaBytes(m: Meta): (r: seq<u8>) {
    [m.version] + ([m.finality] + (ToLe(m.timestamp, 4)
    + (m.signatureSet + (ToLe(m.postedTimestamp, 4)
    + (ToLe(m.batchId, 4) + (ToLe(m.sequence, 8)
    + (ToLe(m.emitterChain, 2) + m.emitterAddress)))))))
  }

  lemma MetaReads(m: Meta)
    requires MetaFits(m)
    ensures |MetaBytes(m)| == 88
    ensures DeserializeMeta(MetaBytes(m)) == m
  {
    var buf := MetaBytes(m);
    var r7 := ToLe(m.emitterChain, 2) + m.emitterAddress;
    var r6 := ToLe(m.sequence, 8) + r7;
    var r5 := ToLe(m.batchId, 4) + r6;
    var r4 := ToLe(m.postedTimestamp, 4) + r5;
    var r3 := m.signatureSet + r4;
    var r2 := ToLe(m.timestamp, 4) + r3;
    Field(buf, 0, [m.version], [m.finality] + r2);
    Field(buf, 1, [m.finality], r2);
    Field(buf, 2, ToLe(m.timestamp, 4), r3);
    Field(buf, 6, m.signatureSet, r4);
    Field(buf, 38, ToLe(m.postedTimestamp, 4), r5);
    Field(buf, 42, ToLe(m.batchId, 4), r6);
    Field(buf, 46, ToLe(m.sequence, 8), r7);
    Field(buf, 54, ToLe(m.emitterChain, 2), m.emitterAddress);
    LeKeeps(m.timestamp, 4);
    LeKeeps(m.postedTimestamp, 4);
    LeKeeps(m.batchId, 4);
    LeKeeps(m.sequence, 8);
    LeKeeps(m.emitterChain, 2);
    assert buf[56..88] == buf[56..];
  }

  lemma LeKeeps(n: nat, len: nat)
    requires n < Pow256(len)
    ensures FromLe(ToLe(n, len)) == n
  {
    LeReads(n, len);
    SmallModulus(n, Pow256(len));
  }

  lemma MetaWrites(buf: seq<u8>)
    requires |buf| == 88
    ensures MetaFits(DeserializeMeta(buf)) && MetaBytes(DeserializeMeta(buf)) == buf
  {
    LeWrites(buf[2..6]);
    LeWrites(buf[38..42]);
    LeWrites(buf[42..46]);
    LeWrites(buf[46..54]);
    LeWrites(buf[54..56]);
    Split(buf, 0, 1);
    Split(buf, 1, 1);
    Split(buf, 2, 4);
    Split(buf, 6, 32);
    Split(buf, 38, 4);
    Split(buf, 42, 4);
    Split(buf, 46, 8);
    Split(buf, 54, 2);
    assert buf[56..88] == buf[56..] && buf[0..1] == [buf[0]] && buf[1..2] == [buf[1]] && buf[0..] == buf;
  }

  /** An account holding a posted transfer: `extra` lies within the payload, `trailing` after it. */
  function PostedBytes(magic: seq<u8>, p: Posted, high: seq<u8>, extra: seq<u8>, trailing: seq<u8>): (r: seq<u8>) {
    magic + (MetaBytes(p.meta) + (ToLe(p.size, 4) + (BodyBytes(p, high, extra) + trailing)))
  }

  function BodyBytes(p: Posted, high: seq<u8>, extra: seq<u8>): (r: seq<u8>) {
    TransferBytes(high, p.transfer) + (SerializeXChain(p.recipient) + extra)
  }

  predicate PostedFits(magic: seq<u8>, p: Posted, high: seq<u8>, extra: seq<u8>) {
    && IsMagic(magic) && MetaFits(p.meta) && TransferFits(p.transfer)
    && |high| == 24 && |p.recipient| == 32
    && p.size == 166 + |extra| && p.size < Pow256(4)
  }

  lemma BodyReads(p: Posted, high: seq<u8>, extra: seq<u8>)
    requires TransferFits(p.transfer) && |high| == 24 && |p.recipient| == 32
    ensures |BodyBytes(p, high, extra)| == 166 + |extra|
    ensures DeserializeTransferWith(BodyBytes(p, high, extra)) == Parsed((p.transfer, p.recipient))
  {
    var buf, rest := BodyBytes(p, high, extra), SerializeXChain(p.recipient) + extra;
    TransferReads(high, p.transfer);
    Field(buf, 0, TransferBytes(high, p.transfer), rest);
    assert buf[..133] == buf[0..133];
    assert rest[1..33] == p.recipient;
  }

  /** Parsing undoes writing, for every header, transfer and recipient. */
  lemma PostedReads(magic: seq<u8>, p: Posted, high: seq<u8>, extra: seq<u8>, trailing: seq<u8>)
    requires PostedFits(magic, p, high, extra)
    ensures DeserializePosted(PostedBytes(magic, p, high, extra, trailing)) == Parsed(p)
  {
    var account := PostedBytes(magic, p, high, extra, trailing);
    var body := BodyBytes(p, high, extra);
    MetaReads(p.meta);
    BodyReads(p, high, extra);
    LeKeeps(p.size, 4);
    Field(account, 0, magic, MetaBytes(p.meta) + (ToLe(p.size, 4) + (body + trailing)));
    var buf := account[3..];
    Field(buf, 0, MetaBytes(p.meta), ToLe(p.size, 4) + (body + trailing));
    Field(buf, 88, ToLe(p.size, 4), body + trailing);
    Field(buf, 92, body, trailing);
    assert account[..3] == account[0..3] && buf[..88] == buf[0..88];
  }

  /** Nothing else parses: an account that does is the bytes of what it parsed to. */
  lemma PostedWrites(account: seq<u8>) returns (high: seq<u8>, extra: seq<u8>, trailing: seq<u8>)
    requires DeserializePosted(account).Parsed?
    ensures var p := DeserializePosted(account).value;
            && PostedFits(account[..3], p, high, extra)
            && account == PostedBytes(account[..3], p, high, extra, trailing)
  {
    var p := DeserializePosted(account).value;
    var buf := account[3..];
    var body := buf[92..92 + p.size];
    high, extra, trailing := body[1..25], body[166..], buf[92 + p.size..];
    MetaWrites(buf[..88]);
    LeWrites(buf[88..92]);
    TransferWrites(body[..133]);
    assert body[..133][1..25] == high;
    ReadersAgreeIff(body[133..]);
    assert body[133..] == body[133..][..33] + body[133..][33..];
    assert body[133..][33..] == extra;
    assert body == body[..133] + body[133..];
    assert BodyBytes(p, high, extra) == body;
    Split(buf, 88, 4);
    Split(buf, 92, p.size);
    assert buf == buf[..88] + buf[88..] && account == account[..3] + buf;
  }

  /** The transfer as the sending chain writes it, with a 256-bit amount. */
  function WideTransferBytes(amount: nat, t: Transfer): (r: seq<u8>) {
    [PAYLOAD_ID_TRANSFER_WITH_PAYLOAD]
    + (ToBe(amount, 32) + (t.tokenAddress + (ToBe(t.tokenChain, 2)
    + (t.toAddress + (ToBe(t.toChain, 2) + t.fromAddress)))))
  }

  lemma WideAmount(amount: nat, t: Transfer)
    requires t.amount == amount % Pow256(8)
    ensures WideTransferBytes(amount, t) == TransferBytes(ToBe(amount, 32)[..24], t)
  {
    BeLast(amount, 32, 8);
    BeReads(amount, 8);
    BeWrites(ToBe(amount, 8));
    var high, low := ToBe(amount, 32)[..24], ToBe(amount, 8);
    var rest := t.tokenAddress + (ToBe(t.tokenChain, 2) + (t.toAddress + (ToBe(t.toChain, 2) + t.fromAddress)));
    assert ToBe(amount, 32) == high + low;
    assert low == ToBe(t.amount, 8);
    assert (high + low) + rest == high + (low + rest);
  }

  /**
   * The whole message: a transfer of any 256-bit amount is parsed to its header, its fields and
   * its recipient, with the amount taken modulo 2^64.
   */
  lemma MessageRoundTrip(magic: seq<u8>, meta: Meta, amount: nat, t: Transfer, recipient: seq<u8>, trailing: seq<u8>)
    requires IsMagic(magic) && MetaFits(meta) && TransferFits(t) && |recipient| == 32
    requires t.amount == amount % Pow256(8)
    ensures DeserializePosted(
              magic + (MetaBytes(meta) + (ToLe(166, 4)
              + (WideTransferBytes(amount, t) + SerializeXChain(recipient) + trailing))))
         == Parsed(Posted(meta, 166, t, recipient))
  {
    var p, high := Posted(meta, 166, t, recipient), ToBe(amount, 32)[..24];
    WideAmount(amount, t);
    assert 166 < Pow256(4);
    PostedReads(magic, p, high, [], trailing);
    assert BodyBytes(p, high, []) == WideTransferBytes(amount, t) + SerializeXChain(recipient);
  }

  /**
   * Which payloads of a posted VAA do not parse. The transfer is looked at before the message, so
   * another first byte is an error and a short payload a panic, whichever comes first.
   */
  lemma BodyFailures(buf: seq<u8>)
    ensures DeserializeTransferWith(buf).Malformed? <==>
            |buf| >= 133 && (buf[0] != 3 || (|buf| > 133 && buf[133] != 1))
    ensures DeserializeTransferWith(buf).Panicked? <==>
            |buf| < 133 || (buf[0] == 3 && (|buf| == 133 || (buf[133] == 1 && |buf| < 166)))
  {
    if |buf| >= 133 {
      assert buf[..133][0] == buf[0];
      PayloadFailures(buf[133..]);
    }
  }

  /** Which accounts do not parse: without a discriminator an error, with one but too short a panic. */
  lemma PostedFailures(account: seq<u8>)
    ensures var whole := |account| >= 95 && |account| >= 95 + FromLe(account[91..95]);
            var body := if whole then account[95..95 + FromLe(account[91..95])] else [];
            && (DeserializePosted(account).Malformed? <==>
                  |account| < 3 || !IsMagic(account[..3]) || (whole && DeserializeTransferWith(body).Malformed?))
            && (DeserializePosted(account).Panicked? <==>
                  |account| >= 3 && IsMagic(account[..3]) && (!whole || DeserializeTransferWith(body).Panicked?))
  {
    if |account| >= 95 {
      var size := FromLe(account[91..95]);
      assert account[3..][88..92] == account[91..95];
      if |account| >= 95 + size {
        assert account[3..][92..92 + size] == account[95..95 + size];
      }
    }
  }

  /** A discriminator is one of the three texts. */
  lemma MagicMeaning(bs: seq<u8>)
    ensures IsMagic(bs) <==> exists word | word in {"vaa", "msg", "msu"} :: |bs| == |word| && forall i | 0 <= i < |bs| :: bs[i] == word[i] as int
  {
    if IsMagic(bs) {
      var word := if bs[0] == 118 then "vaa" else if bs[2] == 103 then "msg" else "msu";
      assert word in {"vaa", "msg", "msu"} && forall i | 0 <= i < |bs| :: bs[i] == word[i] as int;
    }
  }

  /**
   * Where the transfer's fields stand in the account, and how they are written: big-endian, after the
   * byte 3, with the recipient after the byte 1.
   */
  lemma TransferOffsets(account: seq<u8>)
    requires DeserializePosted(account).Parsed?
    ensures var p := DeserializePosted(account).value;
            && |account| >= 261
            && account[95] == 3
            && p.transfer.amount == FromBe(account[120..128])
            && p.transfer.tokenAddress == account[128..160]
            && p.transfer.tokenChain == 256 * (account[160] as int) + account[161] as int
            && p.transfer.toAddress == account[162..194]
            && p.transfer.toChain == 256 * (account[194] as int) + account[195] as int
            && p.transfer.fromAddress == account[196..228]
            && account[228] == 1
            && p.recipient == account[229..261]
  {
    var size := FromLe(account[3..][88..92]);
    var body := account[3..][92..92 + size];
    FieldWithin(account, size, 25, 33);
    FieldWithin(account, size, 33, 65);
    FieldWithin(account, size, 65, 67);
    FieldWithin(account, size, 67, 99);
    FieldWithin(account, size, 99, 101);
    FieldWithin(account, size, 101, 133);
    assert account[160..162] == [account[160], account[161]] && account[194..196] == [account[194], account[195]];
    TwoBytes(account[160], account[161]);
    TwoBytes(account[194], account[195]);
    assert body == account[95..95 + size];
    assert body[..133][0] == account[95] && body[133..][0] == account[228];
    assert body[133..] == account[228..95 + size] && |body[133..]| >= 33;
    SliceOfSlice(account, 228, 95 + size, 1, 33);
  }

  lemma FieldWithin(account: seq<u8>, size: nat, from: nat, to: nat)
    requires from <= to <= 133 <= size && |account| >= 95 + size
    ensures account[3..][92..92 + size][..133][from..to] == account[95 + from..95 + to]
  {
    assert account[3..][92..92 + size] == account[95..95 + size] && account[95..95 + size][..133] == account[95..228];
    SliceOfSlice(account, 95, 228, from, to);
  }

  lemma SliceOfSlice(buf: seq<u8>, lo: nat, hi: nat, from: nat, to: nat)
    requires lo <= hi <= |buf| && from <= to <= hi - lo
    ensures buf[lo..hi][from..to] == buf[lo + from..lo + to]
  {
    var whole, part := buf[lo..hi], buf[lo + from..lo + to];
    forall i | 0 <= i < to - from ensures whole[from..to][i] == part[i] {
      assert whole[from + i] == buf[lo + from + i];
    }
  }

  lemma TwoBytes(high: u8, low: u8)
    ensures FromBe([high, low]) == 256 * (high as int) + low as int
  {
    BeFirstByte(high, [low]);
    assert FromBe([low]) == low && Pow256(1) == 256 by {
      assert [low][..0] == [];
    }
    assert [high] + [low] == [high, low];
  }

  lemma HeaderField(account: seq<u8>, from: nat, to: nat)
    requires from <= to <= 88 && |account| >= 91
    ensures account[3..][..88][from..to] == account[3 + from..][..to - from]
  {
    assert account[3..][..88] == account[3..91];
    SliceOfSlice(account, 3, 91, from, to);
    assert account[3 + from..][..to - from] == account[3 + from..3 + to];
  }

  /** Every header field stands at the offset that the constants file declares for it. */
  lemma OffsetsAgree(account: seq<u8>)
    requires DeserializePosted(account).Parsed?
    ensures var p := DeserializePosted(account).value;
            && |account| >= MESSAGE_INDEX_PAYLOAD + p.size
            && account[MESSAGE_INDEX_VERSION] == p.meta.version
            && account[MESSAGE_INDEX_FINALITY] == p.meta.finality
            && account[MESSAGE_INDEX_TIMESTAMP..][..4] == ToLe(p.meta.timestamp, 4)
            && account[MESSAGE_INDEX_SIGNATURE_ACCOUNT..][..32] == p.meta.signatureSet
            && account[MESSAGE_INDEX_POSTED_TIMESTAMP..][..4] == ToLe(p.meta.postedTimestamp, 4)
            && account[MESSAGE_INDEX_BATCH_ID..][..4] == ToLe(p.meta.batchId, 4)
            && account[MESSAGE_INDEX_SEQUENCE..][..8] == ToLe(p.meta.sequence, 8)
            && account[MESSAGE_INDEX_EMITTER_CHAIN..][..2] == ToLe(p.meta.emitterChain, 2)
            && account[MESSAGE_INDEX_EMITTER_ADDRESS..][..32] == p.meta.emitterAddress
            && account[MESSAGE_INDEX_PAYLOAD_LENGTH..][..4] == ToLe(p.size, 4)
            && DeserializeTransferWith(account[MESSAGE_INDEX_PAYLOAD..][..p.size]) == Parsed((p.transfer, p.recipient))
  {
    var p, buf := DeserializePosted(account).value, account[3..];
    var head := buf[..88];
    LeWrites(head[2..6]);
    LeWrites(head[38..42]);
    LeWrites(head[42..46]);
    LeWrites(head[46..54]);
    LeWrites(head[54..56]);
    LeWrites(buf[88..92]);
    HeaderField(account, 2, 6);
    HeaderField(account, 6, 38);
    HeaderField(account, 38, 42);
    HeaderField(account, 42, 46);
    HeaderField(account, 46, 54);
    HeaderField(account, 54, 56);
    HeaderField(account, 56, 88);
    assert buf[88..92] == account[91..][..4];
    assert buf[92..92 + p.size] == account[95..][..p.size];
  }
}
