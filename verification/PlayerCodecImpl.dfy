/** The encoder and the reader in the form the program has: a buffer that grows in a loop
    over sorted keys, and a reader object whose offset moves through the payload. */
module PlayerCodecImpl {
  import opened Wrappers
  import opened Sets
  import opened ByteStrings
  import opened Varint
  import opened PlayerCodec
  import opened PlayerEnvelope

  method AppendString(dst: seq<Byte>, value: Str) returns (r: Result<seq<Byte>, Error>)
    ensures r == if |value| > MAX_STRING then Err(StringTooLong) else Ok(dst + EncodeString(value))
  {
    if |value| > MAX_STRING { return Err(StringTooLong); }
    r := Ok(dst + EncodeUvarint(|value|) + value);
    assert dst + EncodeUvarint(|value|) + value == dst + EncodeString(value);
  }

  method AppendRecord(dst: seq<Byte>, name: Str, p: Player) returns (r: Result<seq<Byte>, Error>)
    ensures r == if RecordFits(name, p) then Ok(dst + EncodeRecord(name, p)) else Err(StringTooLong)
  {
    r := AppendString(dst, name);
    if r.Err? { return; }
    ghost var withName := r.value;
    r := AppendString(r.value + EncodeVarint(p.level), p.id);
    if r.Err? { return; }
    r := AppendString(r.value, p.banReason);
    if r.Err? { return; }
    var payload := r.value;
    payload := payload + EncodeVarint(p.creation);
    payload := payload + EncodeVarint(p.lastSeen);
    payload := payload + EncodeVarint(p.minutes);
    payload := payload + EncodeVarint(p.susScore);
    FieldsAppended(withName, p);
    assert withName + EncodeFields(p) == dst + EncodeRecord(name, p);
    r := Ok(payload);
  }

  lemma FieldsAppended(dst: seq<Byte>, p: Player)
    ensures dst + EncodeVarint(p.level) + EncodeString(p.id) + EncodeString(p.banReason)
            + EncodeVarint(p.creation) + EncodeVarint(p.lastSeen) + EncodeVarint(p.minutes)
            + EncodeVarint(p.susScore)
         == dst + EncodeFields(p)
  {
    hide EncodeVarint, EncodeString;
    var f5 := EncodeVarint(p.minutes) + EncodeVarint(p.susScore);
    var f4 := EncodeVarint(p.lastSeen) + f5;
    var f3 := EncodeVarint(p.creation) + f4;
    var f2 := EncodeString(p.banReason) + f3;
    var f1 := EncodeString(p.id) + f2;
    var d1 := dst + EncodeVarint(p.level);
    var d2 := d1 + EncodeString(p.id);
    var d3 := d2 + EncodeString(p.banReason);
    var d4 := d3 + EncodeVarint(p.creation);
    var d5 := d4 + EncodeVarint(p.lastSeen);
    assert d5 + EncodeVarint(p.minutes) + EncodeVarint(p.susScore) == d5 + f5;
    assert d5 + f5 == d4 + f4;
    assert d4 + f4 == d3 + f3;
    assert d3 + f3 == d2 + f2;
    assert d2 + f2 == d1 + f1;
    assert d1 + f1 == dst + EncodeFields(p);
  }

  /** The keys of the map, in whatever order iteration gives them, then sorted. */
  method SortedKeys(players: Players) returns (keys: seq<Str>)
    ensures keys == Sorted(players.Keys)
  {
    keys := [];
    var todo := players.Keys;
    while todo != {}
      invariant todo <= players.Keys
      invariant Distinct(keys)
      invariant Elements(keys) == players.Keys - todo
      decreases todo
    {
      var name :| name in todo;
      assert name !in Elements(keys);
      ElementsConcat(keys, [name]);
      keys := keys + [name];
      todo := todo - {name};
    }
    keys := SortStrings(keys);
  }

  /** `encodeBinaryPlayerDatabase`. The result is a function of the players alone, whatever
      order map iteration has. */
  method EncodeBinaryPlayerDatabase(players: Players, z: Codec) returns (r: Result<seq<Byte>, Error>)
    ensures r == EncodeBinary(players, z)
  {
    if |players| > MAX_RECORDS { return Err(TooManyRecords); }
    var keys := SortedKeys(players);
    SortedLists(players);
    var payload := EncodeUvarint(|keys|);
    ghost var all := AppendRecords(keys, players, payload);
    hide RecordFits, EncodeRecord, EncodeUvarint, Envelope, Sorted;
    for n := 0 to |keys|
      invariant all == AppendRecords(keys[n..], players, payload)
    {
      assert keys[n..][0] == keys[n] && keys[n..][1..] == keys[n + 1..];
      r := AppendRecord(payload, keys[n], players[keys[n]]);
      if r.Err? { return; }
      payload := r.value;
      if |payload| > MAX_PAYLOAD { return Err(PayloadTooLong); }
    }
    assert keys[|keys|..] == [];
    r := Ok(Envelope(payload, z));
  }

  /** `playerDBReader`: an offset moving through a payload. */
  class Reader {
    const data: seq<Byte>
    var off: nat

    /** The offset never leaves the payload. */
    predicate Valid()
      reads this
    {
      off <= |data|
    }

    constructor (data: seq<Byte>)
      ensures Valid() && this.data == data && off == 0
    {
      this.data := data;
      off := 0;
    }

    /** What a read at the old offset leaves behind: its value and the next offset, or an
        error and the reader wherever it stopped. */
    ghost predicate Outcome<T(!new)>(r: Result<T, Error>, read: Read<T>)
      reads this
    {
      match read
      case Done(value, next) => r == Ok(value) && off == next
      case Bad(e) => r == Err(e)
    }

    method NextUvarint() returns (r: Result<nat, Error>)
      requires Valid()
      modifies this
      ensures Valid() && Outcome(r, ReadUvarint(data, old(off)))
    {
      ReadUvarintAdvances(data, off);
      match Uvarint(data[off..]) {
        case End => r := Err(UnexpectedEnd);
        case Overflow => r := Err(IntegerOverflow);
        case Got(value, size) =>
          off := off + size;
          r := Ok(value);
      }
    }

    method NextVarint() returns (r: Result<Int64, Error>)
      requires Valid()
      modifies this
      ensures Valid() && Outcome(r, ReadVarint(data, old(off)))
    {
      ReadUvarintAdvances(data, off);
      var u := NextUvarint();
      match u {
        case Err(e) => r := Err(e);
        case Ok(value) =>
          ZigzagBijection(0, value);
          r := Ok(Unzigzag(value));
      }
    }

    method NextString() returns (r: Result<Str, Error>)
      requires Valid()
      modifies this
      ensures Valid() && Outcome(r, ReadString(data, old(off)))
    {
      ReadUvarintAdvances(data, off);
      var u := NextUvarint();
      if u.Err? { return Err(u.error); }
      var size := u.value;
      if size > MAX_STRING { return Err(StringTooLong); }
      if size > |data| - off { return Err(StringPastEnd); }
      r := Ok(data[off..off + size]);
      off := off + size;
    }

    method NextFields() returns (r: Result<Player, Error>)
      requires Valid()
      modifies this
      ensures Valid() && Outcome(r, ReadFields(data, old(off)))
    {
      hide ReadVarint, ReadString;
      var level := NextVarint();
      if level.Err? { return Err(level.error); }
      var id := NextString();
      if id.Err? { return Err(id.error); }
      var banReason := NextString();
      if banReason.Err? { return Err(banReason.error); }
      var creation := NextVarint();
      if creation.Err? { return Err(creation.error); }
      var lastSeen := NextVarint();
      if lastSeen.Err? { return Err(lastSeen.error); }
      var minutes := NextVarint();
      if minutes.Err? { return Err(minutes.error); }
      var susScore := NextVarint();
      if susScore.Err? { return Err(susScore.error); }
      r := Ok(Player(level.value, id.value, banReason.value, creation.value,
                     lastSeen.value, minutes.value, susScore.value));
    }
  }

  /** The record loop of `decodePlayerDBPayload`. */
  method ReadAll(reader: Reader, count: nat) returns (r: Result<Players, Error>)
    requires reader.Valid()
    modifies reader
    ensures reader.Valid()
    ensures reader.Outcome(r, ReadRecords(reader.data, old(reader.off), count, map[]))
  {
    hide ReadString, ReadFields;
    var players: Players := map[];
    for i := 0 to count
      invariant reader.Valid()
      invariant ReadRecords(reader.data, old(reader.off), count, map[])
             == ReadRecords(reader.data, reader.off, count - i, players)
    {
      var name := reader.NextString();
      if name.Err? { return Err(name.error); }
      if name.value == [] { return Err(EmptyName); }
      if name.value in players { return Err(DuplicateName); }
      var player := reader.NextFields();
      if player.Err? { return Err(player.error); }
      players := players[name.value := player.value];
    }
    r := Ok(players);
  }

  /** `decodePlayerDBPayload`. */
  method DecodePlayerDBPayload(payload: seq<Byte>) returns (r: Result<Players, Error>)
    ensures r == DecodePayload(payload)
  {
    var reader := new Reader(payload);
    ReadUvarintAdvances(payload, 0);
    hide ReadRecords, ReadUvarint;
    var counted := reader.NextUvarint();
    if counted.Err? { return Err(counted.error); }
    var count := counted.value;
    if count > MAX_RECORDS { return Err(TooManyRecords); }
    if count > (|payload| - reader.off) / MINIMUM_RECORD_SIZE { return Err(CountCannotFit); }
    r := ReadAll(reader, count);
    if r.Err? { return; }
    if reader.off != |payload| { return Err(TrailingBytes); }
  }

  /** `decodeBinaryPlayerDatabase`. */
  method DecodeBinaryPlayerDatabase(data: seq<Byte>, z: Codec) returns (r: Result<Players, Error>)
    ensures r == DecodeBinary(data, z)
  {
    var inside := OpenEnvelope(data, z);
    if inside.Err? { return Err(inside.error); }
    r := DecodePlayerDBPayload(inside.value);
  }
}
