/** The checked envelope around a player-database payload
    (`fact/playerdb_codec.go:42-54`, `116-203`).

    Zstandard and CRC32C stay uninterpreted: they are the fields of `Codec`, and all that
    is asked of them is that decompression undoes compression within the payload limit and
    that a checksum has 32 bits. */
module PlayerEnvelope {
  import opened Wrappers
  import opened ByteStrings
  import opened Varint
  import opened PlayerCodec

  const MAGIC: seq<Byte> := [0x43, 0x57, 0x50, 0x4C, 0x41, 0x59, 0x45, 0x52]
  const VERSION: nat := 1
  const CODEC_ZSTD: Byte := 1
  const HEADER_SIZE: nat := 24

  datatype Codec = Codec(
    compress: seq<Byte> -> seq<Byte>,
    decompress: seq<Byte> -> Option<seq<Byte>>,
    checksum: seq<Byte> -> nat)
  {
    ghost predicate Sound()
    {
      && (forall x: seq<Byte> :: |x| <= MAX_PAYLOAD ==> decompress(compress(x)) == Some(x))
      && (forall x: seq<Byte> :: checksum(x) < 0x1_0000_0000)
    }
  }

  function LittleEndian(v: nat, width: nat): (r: seq<Byte>)
    ensures |r| == width
  {
    if width == 0 then [] else [v % 0x100] + LittleEndian(v / 0x100, width - 1)
  }

  function FromLittleEndian(b: seq<Byte>): nat
  {
    if b == [] then 0 else b[0] + 0x100 * FromLittleEndian(b[1..])
  }

  function Power256(width: nat): nat
  {
    if width == 0 then 1 else 0x100 * Power256(width - 1)
  }

  lemma {:induction false} LittleEndianRoundTrip(v: nat, width: nat)
    requires v < Power256(width)
    ensures FromLittleEndian(LittleEndian(v, width)) == v
  {
    if width > 0 {
      LittleEndianRoundTrip(v / 0x100, width - 1);
      assert LittleEndian(v, width)[1..] == LittleEndian(v / 0x100, width - 1);
    }
  }

  /** Appends the records of `keys` in order, stopping at the first limit exceeded. */
  function AppendRecords(keys: seq<Str>, players: Players, payload: seq<Byte>): Result<seq<Byte>, Error>
    requires forall k :: k in keys ==> k in players
  {
    if keys == [] then Ok(payload)
    else if !RecordFits(keys[0], players[keys[0]]) then Err(StringTooLong)
    else
      var longer := payload + EncodeRecord(keys[0], players[keys[0]]);
      if |longer| > MAX_PAYLOAD then Err(PayloadTooLong)
      else AppendRecords(keys[1..], players, longer)
  }

  function Envelope(payload: seq<Byte>, z: Codec): seq<Byte>
  {
    MAGIC + LittleEndian(VERSION, 2) + [CODEC_ZSTD, 0] + LittleEndian(|payload|, 8)
    + LittleEndian(z.checksum(payload), 4) + z.compress(payload)
  }

  ghost function EncodeBinary(players: Players, z: Codec): Result<seq<Byte>, Error>
  {
    if |players| > MAX_RECORDS then Err(TooManyRecords)
    else
      SortedLists(players);
      match AppendRecords(Sorted(players.Keys), players, EncodeUvarint(|players|))
      case Ok(payload) => Ok(Envelope(payload, z))
      case Err(e) => Err(e)
  }

  function OpenEnvelope(data: seq<Byte>, z: Codec): Result<seq<Byte>, Error>
  {
    if |data| < HEADER_SIZE then Err(TruncatedHeader)
    else if FromLittleEndian(data[8..10]) != VERSION then Err(UnsupportedVersion)
    else if data[10] != CODEC_ZSTD then Err(UnsupportedCodec)
    else if data[11] != 0 then Err(UnsupportedFlags)
    else if FromLittleEndian(data[12..20]) > MAX_PAYLOAD then Err(PayloadTooLong)
    else
      match z.decompress(data[HEADER_SIZE..])
      case None => Err(CorruptCompression)
      case Some(payload) =>
        if |payload| != FromLittleEndian(data[12..20]) then Err(SizeMismatch)
        else if z.checksum(payload) != FromLittleEndian(data[20..24]) then Err(ChecksumMismatch)
        else Ok(payload)
  }

  function DecodeBinary(data: seq<Byte>, z: Codec): Result<Players, Error>
  {
    match OpenEnvelope(data, z)
    case Err(e) => Err(e)
    case Ok(payload) => DecodePayload(payload)
  }

  lemma {:induction false} AppendRecordsMeaning(keys: seq<Str>, players: Players, payload: seq<Byte>)
    requires forall k :: k in keys ==> k in players
    requires |payload| <= MAX_PAYLOAD
    ensures AppendRecords(keys, players, payload).Ok? <==>
      && (forall k :: k in keys ==> RecordFits(k, players[k]))
      && |payload + Records(keys, players)| <= MAX_PAYLOAD
    ensures AppendRecords(keys, players, payload).Ok? ==>
      AppendRecords(keys, players, payload).value == payload + Records(keys, players)
    decreases |keys|
  {
    hide RecordFits, EncodeRecord;
    if keys == [] {
      assert payload + Records(keys, players) == payload;
    } else {
      assert forall k :: k in keys <==> k == keys[0] || k in keys[1..];
      var record := EncodeRecord(keys[0], players[keys[0]]);
      assert payload + Records(keys, players) == (payload + record) + Records(keys[1..], players);
      if |payload + record| <= MAX_PAYLOAD {
        AppendRecordsMeaning(keys[1..], players, payload + record);
      }
    }
  }

  /** The encoder succeeds exactly within the limits, and then writes the one payload. */
  lemma EncodeSucceedsIffFits(players: Players, z: Codec)
    ensures EncodeBinary(players, z).Ok? <==> Fits(players)
    ensures Fits(players) ==> EncodeBinary(players, z) == Ok(Envelope(Payload(players), z))
  {
    var keys := Sorted(players.Keys);
    SortedLists(players);
    if |players| <= MAX_RECORDS {
      UvarintRoundTrip(|players|, []);
      AppendRecordsMeaning(keys, players, EncodeUvarint(|players|));
    }
    hide Sorted, Envelope, Records, RecordFits, AppendRecords, EncodeUvarint;
  }

  lemma EnvelopeLayout(payload: seq<Byte>, z: Codec)
    ensures var data := Envelope(payload, z);
      && |data| == HEADER_SIZE + |z.compress(payload)|
      && data[..8] == MAGIC
      && data[8..10] == LittleEndian(VERSION, 2)
      && data[10] == CODEC_ZSTD && data[11] == 0
      && data[12..20] == LittleEndian(|payload|, 8)
      && data[20..24] == LittleEndian(z.checksum(payload), 4)
      && data[HEADER_SIZE..] == z.compress(payload)
  {
    hide LittleEndian;
  }

  /** Opening an envelope that was written gives the payload back. */
  lemma EnvelopeRoundTrip(payload: seq<Byte>, z: Codec)
    requires z.Sound() && |payload| <= MAX_PAYLOAD
    ensures OpenEnvelope(Envelope(payload, z), z) == Ok(payload)
  {
    EnvelopeLayout(payload, z);
    assert Power256(2) == 0x1_0000 && Power256(4) == 0x1_0000_0000 by {
      assert Power256(1) == 0x100;
    }
    assert Power256(8) > MAX_PAYLOAD by {
      assert Power256(6) == 0x1_0000_0000_0000;
    }
    LittleEndianRoundTrip(VERSION, 2);
    LittleEndianRoundTrip(|payload|, 8);
    LittleEndianRoundTrip(z.checksum(payload), 4);
    hide Envelope, LittleEndian, FromLittleEndian, Power256;
  }

  /** Saving and loading a database: a save succeeds exactly within the limits, its file
      carries the magic that routes it to this decoder, and loading gives back the same
      players exactly when none has an empty name. */
  lemma DatabaseRoundTrip(players: Players, z: Codec)
    requires z.Sound()
    ensures EncodeBinary(players, z).Ok? <==> Fits(players)
    ensures EncodeBinary(players, z).Ok? ==>
      && MAGIC <= EncodeBinary(players, z).value
      && ([] !in players ==> DecodeBinary(EncodeBinary(players, z).value, z) == Ok(players))
      && ([] in players ==> DecodeBinary(EncodeBinary(players, z).value, z).Err?)
  {
    EncodeSucceedsIffFits(players, z);
    if Fits(players) {
      var payload := Payload(players);
      EnvelopeLayout(payload, z);
      EnvelopeRoundTrip(payload, z);
      PayloadRoundTrip(players);
    }
    hide EncodeBinary, OpenEnvelope, Envelope, DecodePayload, Payload;
  }

  /** Any file the decoder accepts can be saved again, in a payload no larger than the one
      its header announced, and then loads as the same players. */
  lemma AcceptedFileCanBeSaved(data: seq<Byte>, z: Codec)
    requires z.Sound() && DecodeBinary(data, z).Ok?
    ensures var players := DecodeBinary(data, z).value;
      && EncodeBinary(players, z) == Ok(Envelope(Payload(players), z))
      && |Payload(players)| <= FromLittleEndian(data[12..20]) <= MAX_PAYLOAD
      && DecodeBinary(Envelope(Payload(players), z), z) == Ok(players)
  {
    var payload := OpenEnvelope(data, z).value;
    var players := DecodeBinary(data, z).value;
    AcceptedIsCanonicalizable(payload);
    EncodeSucceedsIffFits(players, z);
    EnvelopeRoundTrip(Payload(players), z);
    hide EncodeBinary, Envelope, DecodePayload, Payload, Fits, FromLittleEndian;
  }
}
