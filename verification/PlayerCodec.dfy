/** The player database on disk: key-sorted, length-prefixed records inside a checked
    envelope (`fact/playerdb_codec.go`).

    The first part defines what encoding and decoding mean, as functions. The theorems
    follow: decoding inverts encoding, and every payload the decoder accepts, canonical or
    not, re-encodes to one that is no longer and means the same players. The imperative
    encoder and reader are in PlayerCodecImpl. */
module PlayerCodec {
  import opened Wrappers
  import opened Sets
  import opened ByteStrings
  import opened Varint

  const MAX_PAYLOAD: nat := 512 * 0x10_0000
  const MAX_RECORDS: nat := 5_000_000
  const MAX_STRING: nat := 16 * 0x10_0000
  const MINIMUM_RECORD_SIZE: nat := 9

  /** The seven persisted fields of a player. */
  datatype Player = Player(
    level: Int64,
    id: Str,
    banReason: Str,
    creation: Int64,
    lastSeen: Int64,
    minutes: Int64,
    susScore: Int64)

  type Players = map<Str, Player>

  datatype Error =
    | TooManyRecords
    | StringTooLong
    | PayloadTooLong
    | UnexpectedEnd
    | IntegerOverflow
    | StringPastEnd
    | CountCannotFit
    | EmptyName
    | DuplicateName
    | TrailingBytes
    | TruncatedHeader
    | UnsupportedVersion
    | UnsupportedCodec
    | UnsupportedFlags
    | CorruptCompression
    | SizeMismatch
    | ChecksumMismatch

  /** A read at some offset: the value and the next offset, or an error. */
  datatype Read<+T> = Done(value: T, off: nat) | Bad(error: Error) {
    predicate IsFailure() { Bad? }

    function PropagateFailure<U>(): Read<U>
      requires Bad?
    {
      Bad(error)
    }

    function Extract(): (T, nat)
      requires Done?
    {
      (value, off)
    }
  }

  // ---------------------------------------------------------------- writing

  function EncodeString(s: Str): seq<Byte>
  {
    EncodeUvarint(|s|) + s
  }

  function EncodeFields(p: Player): seq<Byte>
  {
    EncodeVarint(p.level)
    + (EncodeString(p.id)
       + (EncodeString(p.banReason)
          + (EncodeVarint(p.creation)
             + (EncodeVarint(p.lastSeen)
                + (EncodeVarint(p.minutes)
                   + EncodeVarint(p.susScore))))))
  }

  function EncodeRecord(name: Str, p: Player): seq<Byte>
  {
    EncodeString(name) + EncodeFields(p)
  }

  /** The records of `keys`, in that order. */
  ghost function Records(keys: seq<Str>, players: Players): seq<Byte>
    requires forall k :: k in keys ==> k in players
  {
    if keys == [] then []
    else EncodeRecord(keys[0], players[keys[0]]) + Records(keys[1..], players)
  }

  /** The one payload a set of players is written as. */
  ghost function Payload(players: Players): seq<Byte>
  {
    assert forall k :: k in Sorted(players.Keys) ==> k in Elements(Sorted(players.Keys));
    EncodeUvarint(|players|) + Records(Sorted(players.Keys), players)
  }

  predicate RecordFits(name: Str, p: Player)
  {
    |name| <= MAX_STRING && |p.id| <= MAX_STRING && |p.banReason| <= MAX_STRING
  }

  /** The limits the encoder enforces. */
  ghost predicate Fits(players: Players)
  {
    && |players| <= MAX_RECORDS
    && (forall name :: name in players ==> RecordFits(name, players[name]))
    && |Payload(players)| <= MAX_PAYLOAD
  }

  // ---------------------------------------------------------------- reading

  function ReadUvarint(data: seq<Byte>, off: nat): Read<nat>
    requires off <= |data|
  {
    match Uvarint(data[off..])
    case Got(v, n) => Done(v, off + n)
    case End => Bad(UnexpectedEnd)
    case Overflow => Bad(IntegerOverflow)
  }

  lemma ReadUvarintAdvances(data: seq<Byte>, off: nat)
    requires off <= |data|
    ensures var r := ReadUvarint(data, off);
      r.Done? ==> off < r.off <= |data| && r.value < TWO_TO_64
                  && |EncodeUvarint(r.value)| <= r.off - off
  {
    if Uvarint(data[off..]).Got? { UvarintAccepted(data[off..]); }
  }

  function ReadVarint(data: seq<Byte>, off: nat): (r: Read<Int64>)
    requires off <= |data|
    ensures r.Done? ==> off < r.off <= |data| && |EncodeVarint(r.value)| <= r.off - off
  {
    ReadUvarintAdvances(data, off);
    var (u, next) :- ReadUvarint(data, off);
    ZigzagBijection(0, u);
    Done(Unzigzag(u), next)
  }

  function ReadString(data: seq<Byte>, off: nat): (r: Read<Str>)
    requires off <= |data|
    ensures r.Done? ==> off < r.off <= |data| && |EncodeString(r.value)| <= r.off - off
    ensures r.Done? ==> |r.value| <= MAX_STRING
  {
    ReadUvarintAdvances(data, off);
    var (size, next) :- ReadUvarint(data, off);
    if size > MAX_STRING then Bad(StringTooLong)
    else if size > |data| - next then Bad(StringPastEnd)
    else Done(data[next..next + size], next + size)
  }

  function ReadFields(data: seq<Byte>, off: nat): (r: Read<Player>)
    requires off <= |data|
    ensures r.Done? ==> off < r.off <= |data| && |EncodeFields(r.value)| <= r.off - off
    ensures r.Done? ==> |r.value.id| <= MAX_STRING && |r.value.banReason| <= MAX_STRING
  {
    var (level, o1) :- ReadVarint(data, off);
    var (id, o2) :- ReadString(data, o1);
    var (banReason, o3) :- ReadString(data, o2);
    var (creation, o4) :- ReadVarint(data, o3);
    var (lastSeen, o5) :- ReadVarint(data, o4);
    var (minutes, o6) :- ReadVarint(data, o5);
    var (susScore, o7) :- ReadVarint(data, o6);
    Done(Player(level, id, banReason, creation, lastSeen, minutes, susScore), o7)
  }

  /** Reads `count` more records into `players`. */
  function ReadRecords(data: seq<Byte>, off: nat, count: nat, players: Players): (r: Read<Players>)
    requires off <= |data|
    ensures r.Done? ==> off <= r.off <= |data|
    decreases count
  {
    if count == 0 then Done(players, off)
    else
      var (name, o1) :- ReadString(data, off);
      if name == [] then Bad(EmptyName)
      else if name in players then Bad(DuplicateName)
      else
        var (p, o2) :- ReadFields(data, o1);
        ReadRecords(data, o2, count - 1, players[name := p])
  }

  function DecodePayload(data: seq<Byte>): Result<Players, Error>
  {
    match ReadUvarint(data, 0)
    case Bad(e) => Err(e)
    case Done(count, off) =>
      ReadUvarintAdvances(data, 0);
      if count > MAX_RECORDS then Err(TooManyRecords)
      else if count > (|data| - off) / MINIMUM_RECORD_SIZE then Err(CountCannotFit)
      else
        match ReadRecords(data, off, count, map[])
        case Bad(e) => Err(e)
        case Done(players, end) => if end != |data| then Err(TrailingBytes) else Ok(players)
  }

  // ------------------------------------------------- decoding inverts encoding

  /** `s` is what `data` holds at `off`, followed by `rest`. */
  ghost predicate At(data: seq<Byte>, off: nat, s: seq<Byte>, rest: seq<Byte>)
  {
    off <= |data| && data[off..] == s + rest
  }

  lemma Skip(data: seq<Byte>, off: nat, a: seq<Byte>, b: seq<Byte>)
    requires At(data, off, a, b)
    ensures off + |a| <= |data| && data[off + |a|..] == b
  {
    assert data[off..][|a|..] == data[off + |a|..];
    assert (a + b)[|a|..] == b;
  }

  lemma UvarintReadBack(data: seq<Byte>, off: nat, v: UInt64, rest: seq<Byte>)
    requires At(data, off, EncodeUvarint(v), rest)
    ensures ReadUvarint(data, off) == Done(v, off + |EncodeUvarint(v)|)
    ensures off + |EncodeUvarint(v)| <= |data| && data[off + |EncodeUvarint(v)|..] == rest
  {
    UvarintRoundTrip(v, rest);
    Skip(data, off, EncodeUvarint(v), rest);
  }

  lemma VarintReadBack(data: seq<Byte>, off: nat, x: Int64, rest: seq<Byte>)
    requires At(data, off, EncodeVarint(x), rest)
    ensures ReadVarint(data, off) == Done(x, off + |EncodeVarint(x)|)
    ensures off + |EncodeVarint(x)| <= |data| && data[off + |EncodeVarint(x)|..] == rest
  {
    ZigzagBijection(x, 0);
    UvarintReadBack(data, off, Zigzag(x), rest);
  }

  lemma StringReadBack(data: seq<Byte>, off: nat, s: Str, rest: seq<Byte>)
    requires |s| <= MAX_STRING
    requires At(data, off, EncodeString(s), rest)
    ensures ReadString(data, off) == Done(s, off + |EncodeString(s)|)
    ensures off + |EncodeString(s)| <= |data| && data[off + |EncodeString(s)|..] == rest
  {
    assert EncodeString(s) + rest == EncodeUvarint(|s|) + (s + rest);
    UvarintReadBack(data, off, |s|, s + rest);
    var next := off + |EncodeUvarint(|s|)|;
    Skip(data, next, s, rest);
    assert data[next..][..|s|] == data[next..next + |s|];
    assert (s + rest)[..|s|] == s;
  }

  lemma FieldsReadBack(data: seq<Byte>, off: nat, p: Player, rest: seq<Byte>)
    requires |p.id| <= MAX_STRING && |p.banReason| <= MAX_STRING
    requires At(data, off, EncodeFields(p), rest)
    ensures ReadFields(data, off) == Done(p, off + |EncodeFields(p)|)
    ensures off + |EncodeFields(p)| <= |data| && data[off + |EncodeFields(p)|..] == rest
  {
    hide EncodeVarint, EncodeString, ReadVarint, ReadString;
    var t6 := EncodeVarint(p.susScore) + rest;
    var t5 := EncodeVarint(p.minutes) + t6;
    var t4 := EncodeVarint(p.lastSeen) + t5;
    var t3 := EncodeVarint(p.creation) + t4;
    var t2 := EncodeString(p.banReason) + t3;
    var t1 := EncodeString(p.id) + t2;
    FieldsRegroup(p, rest);
    VarintReadBack(data, off, p.level, t1);
    var o1 := off + |EncodeVarint(p.level)|;
    StringReadBack(data, o1, p.id, t2);
    var o2 := o1 + |EncodeString(p.id)|;
    StringReadBack(data, o2, p.banReason, t3);
    var o3 := o2 + |EncodeString(p.banReason)|;
    VarintReadBack(data, o3, p.creation, t4);
    var o4 := o3 + |EncodeVarint(p.creation)|;
    VarintReadBack(data, o4, p.lastSeen, t5);
    var o5 := o4 + |EncodeVarint(p.lastSeen)|;
    VarintReadBack(data, o5, p.minutes, t6);
    var o6 := o5 + |EncodeVarint(p.minutes)|;
    VarintReadBack(data, o6, p.susScore, rest);
    Skip(data, off, EncodeFields(p), rest);
  }

  lemma FieldsRegroup(p: Player, rest: seq<Byte>)
    ensures EncodeFields(p) + rest
         == EncodeVarint(p.level) + (EncodeString(p.id) + (EncodeString(p.banReason)
          + (EncodeVarint(p.creation) + (EncodeVarint(p.lastSeen) + (EncodeVarint(p.minutes)
          + (EncodeVarint(p.susScore) + rest))))))
  {
    var f6 := EncodeVarint(p.susScore);
    var f5 := EncodeVarint(p.minutes) + f6;
    var f4 := EncodeVarint(p.lastSeen) + f5;
    var f3 := EncodeVarint(p.creation) + f4;
    var f2 := EncodeString(p.banReason) + f3;
    var f1 := EncodeString(p.id) + f2;
    assert (EncodeVarint(p.level) + f1) + rest == EncodeVarint(p.level) + (f1 + rest);
    assert f1 + rest == EncodeString(p.id) + (f2 + rest);
    assert f2 + rest == EncodeString(p.banReason) + (f3 + rest);
    assert f3 + rest == EncodeVarint(p.creation) + (f4 + rest);
    assert f4 + rest == EncodeVarint(p.lastSeen) + (f5 + rest);
    assert f5 + rest == EncodeVarint(p.minutes) + (f6 + rest);
  }

  /** `have` with the players named by `keys` added in turn. */
  ghost function Extend(have: Players, keys: seq<Str>, players: Players): Players
    requires forall k :: k in keys ==> k in players
    decreases keys
  {
    if keys == [] then have
    else Extend(have[keys[0] := players[keys[0]]], keys[1..], players)
  }

  lemma {:induction false} ExtendEntries(have: Players, keys: seq<Str>, players: Players)
    requires forall k :: k in keys ==> k in players
    ensures var r := Extend(have, keys, players);
      && (forall k :: k in r <==> k in have || k in keys)
      && (forall k :: k in r ==> r[k] == if k in keys then players[k] else have[k])
    decreases keys
  {
    if keys != [] {
      ExtendEntries(have[keys[0] := players[keys[0]]], keys[1..], players);
      assert forall k :: k in keys <==> k == keys[0] || k in keys[1..];
    }
  }

  lemma RecordReadBack(data: seq<Byte>, off: nat, k: Str, p: Player, count: nat, have: Players, rest: seq<Byte>)
    requires k != [] && k !in have && RecordFits(k, p)
    requires At(data, off, EncodeRecord(k, p), rest)
    ensures off + |EncodeRecord(k, p)| <= |data| && data[off + |EncodeRecord(k, p)|..] == rest
    ensures ReadRecords(data, off, count + 1, have)
         == ReadRecords(data, off + |EncodeRecord(k, p)|, count, have[k := p])
  {
    hide EncodeString, EncodeFields, ReadString, ReadFields;
    assert EncodeRecord(k, p) + rest == EncodeString(k) + (EncodeFields(p) + rest);
    StringReadBack(data, off, k, EncodeFields(p) + rest);
    FieldsReadBack(data, off + |EncodeString(k)|, p, rest);
  }

  lemma {:induction false} RecordsReadBack(
    data: seq<Byte>, off: nat, keys: seq<Str>, players: Players, have: Players, rest: seq<Byte>)
    requires Distinct(keys) && [] !in keys
    requires forall k :: k in keys ==> k in players && RecordFits(k, players[k])
    requires forall k :: k in keys ==> k !in have
    requires At(data, off, Records(keys, players), rest)
    ensures ReadRecords(data, off, |keys|, have)
         == Done(Extend(have, keys, players), off + |Records(keys, players)|)
    decreases |keys|
  {
    assert keys == [] ==> ReadRecords(data, off, |keys|, have) == Done(Extend(have, keys, players), off);
    assert keys == [] ==> Records(keys, players) == [];
    assert keys != [] ==>
      && Records(keys, players) == EncodeRecord(keys[0], players[keys[0]]) + Records(keys[1..], players)
      && Extend(have, keys, players) == Extend(have[keys[0] := players[keys[0]]], keys[1..], players);
    hide EncodeRecord, RecordFits, ReadRecords, Records, Extend;
    if keys != [] {
      var k, p := keys[0], players[keys[0]];
      var tail := Records(keys[1..], players);
      assert Records(keys, players) + rest == EncodeRecord(k, p) + (tail + rest);
      RecordReadBack(data, off, k, p, |keys| - 1, have, tail + rest);
      assert forall x :: x in keys[1..] ==> x in keys && x != k;
      RecordsReadBack(data, off + |EncodeRecord(k, p)|, keys[1..], players, have[k := p], rest);
    }
  }

  /** A record with a name takes at least nine bytes. */
  lemma {:induction false} RecordsAreLong(keys: seq<Str>, players: Players)
    requires forall k :: k in keys ==> k in players
    requires [] !in keys
    ensures |Records(keys, players)| >= MINIMUM_RECORD_SIZE * |keys|
  {
    if keys != [] {
      RecordsAreLong(keys[1..], players);
      assert keys[0] in keys;
    }
  }

  lemma EmptyNameComesFirst(players: Players)
    requires [] in players
    ensures Sorted(players.Keys) != [] && Sorted(players.Keys)[0] == []
  {
    var keys := Sorted(players.Keys);
    SortedIsStrict(players.Keys);
    assert [] in Elements(keys);
    var j :| 0 <= j < |keys| && keys[j] == [];
    assert !Less(keys[0], keys[j]);
  }

  /** The first record of such a payload has the empty name, and there the decoder stops. */
  lemma EmptyNameIsRefused(players: Players)
    requires Fits(players) && [] in players
    ensures DecodePayload(Payload(players)).Err?
  {
    hide EncodeUvarint, EncodeFields, ReadUvarint, ReadFields, ReadString, RecordFits, Sorted;
    EmptyNameComesFirst(players);
    var keys := Sorted(players.Keys);
    assert forall k :: k in keys ==> k in Elements(keys);
    var data := Payload(players);
    var body := Records(keys, players);
    var rest := EncodeFields(players[[]]) + Records(keys[1..], players);
    assert body == EncodeString([]) + rest;
    assert data[0..] == EncodeUvarint(|players|) + body;
    UvarintReadBack(data, 0, |players|, body);
    StringReadBack(data, |EncodeUvarint(|players|)|, [], rest);
  }

  /** Within the limits, the decoder takes back exactly what was written, and its guard
      against impossible record counts never rejects an encoder's output; an empty name
      is the one thing the encoder writes and the decoder refuses. */
  lemma PayloadRoundTrip(players: Players)
    requires Fits(players)
    ensures [] !in players ==> DecodePayload(Payload(players)) == Ok(players)
    ensures [] in players ==> DecodePayload(Payload(players)).Err?
  {
    hide DecodePayload, Payload, Fits;
    if [] in players { EmptyNameIsRefused(players); } else { PayloadReadBack(players); }
  }

  lemma PayloadReadBack(players: Players)
    requires Fits(players) && [] !in players
    ensures DecodePayload(Payload(players)) == Ok(players)
  {
    hide EncodeUvarint, Sorted, Records, ReadRecords, ReadUvarint, Extend;
    var keys := Sorted(players.Keys);
    var data := Payload(players);
    var body := Records(keys, players);
    assert forall k :: k in keys ==> k in Elements(keys);
    SortedIsStrict(players.Keys);
    StrictIsDistinct(keys);
    assert data[0..] == EncodeUvarint(|players|) + body;
    UvarintReadBack(data, 0, |players|, body);
    var off := |EncodeUvarint(|players|)|;
    RecordsAreLong(keys, players);
    assert body == body + [];
    RecordsReadBack(data, off, keys, players, map[], []);
    ExtendEntries(map[], keys, players);
    assert Extend(map[], keys, players) == players;
  }

  /** Nothing the record loop returns has an empty name unless it was there before. */
  lemma {:induction false} ReadRecordsNames(data: seq<Byte>, off: nat, count: nat, have: Players)
    requires off <= |data| && [] !in have
    requires ReadRecords(data, off, count, have).Done?
    ensures [] !in ReadRecords(data, off, count, have).value
    decreases count
  {
    hide ReadString, ReadFields;
    if count > 0 {
      var name, o1 := ReadString(data, off).value, ReadString(data, off).off;
      var p, o2 := ReadFields(data, o1).value, ReadFields(data, o1).off;
      ReadRecordsNames(data, o2, count - 1, have[name := p]);
    }
  }

  // ------------------------------------- what the decoder accepts, re-encoded

  /** The size of the records of `keys`, in any order. */
  ghost function Total(keys: seq<Str>, players: Players): nat
    requires forall k :: k in keys ==> k in players
  {
    if keys == [] then 0
    else |EncodeRecord(keys[0], players[keys[0]])| + Total(keys[1..], players)
  }

  lemma {:induction false} TotalIsLength(keys: seq<Str>, players: Players)
    requires forall k :: k in keys ==> k in players
    ensures Total(keys, players) == |Records(keys, players)|
  {
    if keys != [] { TotalIsLength(keys[1..], players); }
  }

  lemma {:induction false} TotalWithout(keys: seq<Str>, i: nat, players: Players)
    requires forall k :: k in keys ==> k in players
    requires i < |keys|
    ensures forall k :: k in keys[..i] + keys[i + 1..] ==> k in players
    ensures Total(keys, players)
         == |EncodeRecord(keys[i], players[keys[i]])| + Total(keys[..i] + keys[i + 1..], players)
  {
    if i == 0 {
      assert keys[..0] + keys[1..] == keys[1..];
    } else {
      TotalWithout(keys[1..], i - 1, players);
      var rest := keys[..i] + keys[i + 1..];
      assert rest[0] == keys[0];
      assert rest[1..] == keys[1..][..i - 1] + keys[1..][i..];
      assert keys[1..][i - 1] == keys[i];
    }
  }

  /** Sizes do not depend on the order of the records. */
  lemma {:induction false} TotalOrderFree(a: seq<Str>, b: seq<Str>, players: Players)
    requires Distinct(a) && Distinct(b) && Elements(a) == Elements(b)
    requires forall k :: k in a ==> k in players
    requires forall k :: k in b ==> k in players
    ensures Total(a, players) == Total(b, players)
    decreases |a|
  {
    hide EncodeRecord;
    FirstIsElement(b);
    if a != [] {
      FirstIsElement(a);
      var i :| 0 <= i < |b| && b[i] == a[0];
      var rest := b[..i] + b[i + 1..];
      TotalWithout(b, i, players);
      assert Elements(rest) == Elements(b) - {b[i]} by {
        assert b == b[..i] + ([b[i]] + b[i + 1..]);
        ElementsConcat(b[..i], b[i + 1..]);
        ElementsConcat(b[..i], [b[i]] + b[i + 1..]);
        ElementsConcat([b[i]], b[i + 1..]);
        assert b[i] !in Elements(b[..i]) && b[i] !in Elements(b[i + 1..]);
      }
      TailElements(a);
      TotalOrderFree(a[1..], rest, players);
    }
  }

  ghost function Size(players: Players): nat
  {
    assert forall k :: k in Sorted(players.Keys) ==> k in Elements(Sorted(players.Keys));
    |Records(Sorted(players.Keys), players)|
  }

  /** `keys` lists the keys of `players`, each once, in some order. */
  ghost predicate Lists(keys: seq<Str>, players: Players)
  {
    && Distinct(keys)
    && (forall k :: k in keys ==> k in players)
    && (forall k :: k in players ==> k in keys)
  }

  lemma SortedLists(players: Players)
    ensures Lists(Sorted(players.Keys), players)
  {
    var keys := Sorted(players.Keys);
    SortedIsStrict(players.Keys);
    StrictIsDistinct(keys);
    assert forall k :: k in keys <==> k in Elements(keys);
  }

  lemma SizeOfListing(keys: seq<Str>, players: Players)
    requires Lists(keys, players)
    ensures Total(keys, players) == Size(players)
  {
    hide Total, Records, Sorted;
    var sorted := Sorted(players.Keys);
    SortedLists(players);
    assert Elements(keys) == players.Keys;
    TotalOrderFree(keys, sorted, players);
    TotalIsLength(sorted, players);
  }

  lemma {:induction false} TotalFrame(keys: seq<Str>, a: Players, b: Players)
    requires forall k :: k in keys ==> k in a && k in b && a[k] == b[k]
    ensures Total(keys, a) == Total(keys, b)
  {
    if keys != [] { TotalFrame(keys[1..], a, b); }
  }

  lemma SizeOfInsert(players: Players, k: Str, p: Player)
    requires k !in players
    ensures Size(players[k := p]) == Size(players) + |EncodeRecord(k, p)|
  {
    hide EncodeRecord, Sorted, Size;
    var after := players[k := p];
    var keys := Sorted(players.Keys);
    SortedLists(players);
    var all := [k] + keys;
    assert Lists(all, after);
    SizeOfListing(keys, players);
    SizeOfListing(all, after);
    assert all[1..] == keys;
    TotalFrame(keys, players, after);
  }

  /** Reading records adds exactly `count` players, all within the limits, that take no
      more room re-encoded than they took in the input. */
  lemma {:induction false} ReadRecordsShrink(data: seq<Byte>, off: nat, count: nat, have: Players)
    requires off <= |data|
    requires forall k :: k in have ==> RecordFits(k, have[k])
    requires ReadRecords(data, off, count, have).Done?
    ensures var r := ReadRecords(data, off, count, have);
      && |r.value| == |have| + count
      && (forall k :: k in r.value ==> RecordFits(k, r.value[k]))
      && Size(r.value) + off <= Size(have) + r.off
    decreases count
  {
    hide ReadString, ReadFields, Size, EncodeString, EncodeFields;
    if count > 0 {
      var name, o1 := ReadString(data, off).value, ReadString(data, off).off;
      var p, o2 := ReadFields(data, o1).value, ReadFields(data, o1).off;
      SizeOfInsert(have, name, p);
      assert |have[name := p]| == |have| + 1;
      ReadRecordsShrink(data, o2, count - 1, have[name := p]);
    }
  }

  /** Whatever payload the decoder accepts, with padded varints or unsorted records, its
      players can be written back within the limits, in no more bytes, and mean the same. */
  lemma AcceptedIsCanonicalizable(data: seq<Byte>)
    requires |data| <= MAX_PAYLOAD
    requires DecodePayload(data).Ok?
    ensures var players := DecodePayload(data).value;
      && Fits(players)
      && |Payload(players)| <= |data|
      && DecodePayload(Payload(players)) == Ok(players)
  {
    AcceptedFits(data);
    hide DecodePayload, Fits, Payload;
    PayloadRoundTrip(DecodePayload(data).value);
  }

  lemma AcceptedFits(data: seq<Byte>)
    requires |data| <= MAX_PAYLOAD && DecodePayload(data).Ok?
    ensures var players := DecodePayload(data).value;
      Fits(players) && |Payload(players)| <= |data| && [] !in players
  {
    hide ReadRecords, ReadUvarint, Records, RecordFits;
    var count, off := ReadUvarint(data, 0).value, ReadUvarint(data, 0).off;
    ReadUvarintAdvances(data, 0);
    NothingFits();
    ReadRecordsShrink(data, off, count, map[]);
    ReadRecordsNames(data, off, count, map[]);
  }

  lemma NothingFits()
    ensures Size(map[]) == 0
  {
  }
}
