/**
 The frame of a remote call: a 4-byte little-endian header size, the protobuf header, and the
 argument bytes. Field numbers, tags and varints follow the Protocol Buffers Encoding
 specification, sections "Base 128 Varints", "Message Structure" and "Length-Delimited
 Records".
 */
module RpcFrame {
  import opened Bytes

  const INT_MAX: nat := 0x7fff_ffff
  const WORD: nat := 0x1_0000_0000

  datatype Option<T> = None | Some(value: T)

  /** args_size is a uint32. */
  datatype Header = Header(serviceName: seq<Byte>, methodName: seq<Byte>, argsSize: nat)

  const EMPTY: Header := Header([], [], 0)

  predicate Fits(h: Header) {
    |h.serviceName| < WORD && |h.methodName| < WORD && h.argsSize < WORD
  }

  // ---------- varints ----------

  function PutVarint(n: nat): seq<Byte> {
    if n < 128 then [n] else [n % 128 + 128] + PutVarint(n / 128)
  }

  /** Reads a varint of at most `room` bytes; the value and what follows it. */
  function GetVarint(b: seq<Byte>, room: nat): (r: Option<(nat, seq<Byte>)>)
    ensures r.Some? ==> |r.value.1| < |b|
    decreases room
  {
    if b == [] || room == 0 then None
    else if b[0] < 128 then Some((b[0], b[1..]))
    else
      match GetVarint(b[1..], room - 1)
      case None => None
      case Some((high, rest)) => Some((b[0] - 128 + 128 * high, rest))
  }

  /** A 32-bit read takes up to ten bytes and drops the upper bits. */
  function Read32(b: seq<Byte>): (r: Option<(nat, seq<Byte>)>)
    ensures r.Some? ==> |r.value.1| < |b| && r.value.0 < WORD
  {
    match GetVarint(b, 10)
    case None => None
    case Some((n, rest)) => Some((n % WORD, rest))
  }

  /** VarintSize32 of the wire format library, by 7-bit groups */
  function VarintSize(n: nat): nat {
    if n < 0x80 then 1 else if n < 0x4000 then 2 else if n < 0x20_0000 then 3 else if n < 0x1000_0000 then 4 else 5
  }

  lemma {:induction false} GetPut(n: nat, rest: seq<Byte>, room: nat)
    requires |PutVarint(n)| <= room
    ensures GetVarint(PutVarint(n) + rest, room) == Some((n, rest))
    decreases n
  {
    var b := PutVarint(n) + rest;
    if n < 128 {
      assert b[1..] == rest;
    } else {
      assert b[1..] == PutVarint(n / 128) + rest;
      GetPut(n / 128, rest, room - 1);
    }
  }

  lemma SizeOfVarint(n: nat)
    requires n < WORD
    ensures |PutVarint(n)| == VarintSize(n) <= 5
  {
    if n >= 0x80 { SizeBelow(n / 128); }
  }

  lemma SizeBelow(n: nat)
    requires n < 0x200_0000
    ensures |PutVarint(n)| == VarintSize(n) <= 4
  {
    if n >= 0x80 {
      var m := n / 128;
      if m >= 0x80 {
        var k := m / 128;
        assert k < 0x800;
        assert k >= 0x80 ==> |PutVarint(k / 128)| == 1;
      }
    }
  }

  lemma ReadPut(n: nat, rest: seq<Byte>)
    requires n < WORD
    ensures Read32(PutVarint(n) + rest) == Some((n, rest))
  {
    hide PutVarint, GetVarint;
    SizeOfVarint(n);
    GetPut(n, rest, 10);
  }

  // ---------- the header ----------

  // tags: field number * 8 + wire type
  const SERVICE_TAG: Byte := 10
  const METHOD_TAG: Byte := 18
  const ARGS_TAG: Byte := 24

  function PutBytes(tag: Byte, s: seq<Byte>): seq<Byte> {
    if s == [] then [] else [tag] + PutVarint(|s|) + s
  }

  function PutNumber(tag: Byte, n: nat): seq<Byte> {
    if n == 0 then [] else [tag] + PutVarint(n)
  }

  /** _InternalSerialize: default-valued fields are left out. */
  function Serialize(h: Header): seq<Byte> {
    PutBytes(SERVICE_TAG, h.serviceName) + PutBytes(METHOD_TAG, h.methodName) + PutNumber(ARGS_TAG, h.argsSize)
  }

  function BytesSize(s: seq<Byte>): nat {
    |s| + VarintSize(|s|)
  }

  function ByteSizeLong(h: Header): nat {
    (if h.serviceName != [] then 1 + BytesSize(h.serviceName) else 0)
    + (if h.methodName != [] then 1 + BytesSize(h.methodName) else 0)
    + (if h.argsSize != 0 then 1 + VarintSize(h.argsSize) else 0)
  }

  /** MergeFrom: set fields of `from` replace those of `h`. */
  function Merge(h: Header, from: Header): Header {
    Header(
      if from.serviceName != [] then from.serviceName else h.serviceName,
      if from.methodName != [] then from.methodName else h.methodName,
      if from.argsSize != 0 then from.argsSize else h.argsSize)
  }

  /** Parsed(h), or the input is malformed, or it has a field that this header does not know;
      the library keeps such fields, this model goes no further. */
  datatype Outcome = Parsed(h: Header) | Malformed | UnknownField

  /** One field at the front: the header with it, and what follows. */
  datatype Step = Field(h: Header, rest: seq<Byte>) | Stop(o: Outcome)

  function ReadBytes(b: seq<Byte>): (r: Option<(seq<Byte>, seq<Byte>)>)
    ensures r.Some? ==> |r.value.1| < |b|
  {
    match Read32(b)
    case None => None
    case Some((size, rest)) => if size > |rest| then None else Some((rest[..size], rest[size..]))
  }

  function ParseField(b: seq<Byte>, h: Header): (s: Step)
    requires b != []
    ensures s.Field? ==> |s.rest| < |b|
  {
    match Read32(b)
    case None => Stop(Malformed)
    case Some((tag, rest)) =>
      if tag == SERVICE_TAG then
        match ReadBytes(rest)
        case None => Stop(Malformed)
        case Some((s, rest')) => Field(h.(serviceName := s), rest')
      else if tag == METHOD_TAG then
        match ReadBytes(rest)
        case None => Stop(Malformed)
        case Some((s, rest')) => Field(h.(methodName := s), rest')
      else if tag == ARGS_TAG then
        match Read32(rest)
        case None => Stop(Malformed)
        case Some((n, rest')) => Field(h.(argsSize := n), rest')
      // a zero tag, or the end of a group that was not begun
      else if tag == 0 || tag % 8 == 4 then Stop(Malformed)
      else Stop(UnknownField)
  }

  /** _InternalParse, from the fields already in h */
  function Parse(b: seq<Byte>, h: Header): Outcome
    decreases |b|
  {
    if b == [] then Parsed(h)
    else
      match ParseField(b, h)
      case Field(h', rest) => Parse(rest, h')
      case Stop(o) => o
  }

  lemma ReadTag(tag: Byte, rest: seq<Byte>)
    requires tag < 128
    ensures Read32([tag] + rest) == Some((tag, rest))
  {
    ReadPut(tag, rest);
    assert PutVarint(tag) == [tag];
  }

  lemma ReadPutBytes(s: seq<Byte>, rest: seq<Byte>)
    requires |s| < WORD
    ensures ReadBytes(PutVarint(|s|) + s + rest) == Some((s, rest))
  {
    ReadPut(|s|, s + rest);
    assert PutVarint(|s|) + s + rest == PutVarint(|s|) + (s + rest);
    assert (s + rest)[..|s|] == s && (s + rest)[|s|..] == rest;
  }

  lemma ParsePutBytes(tag: Byte, s: seq<Byte>, rest: seq<Byte>, h: Header)
    requires |s| < WORD && (tag == SERVICE_TAG || tag == METHOD_TAG)
    ensures var h' := if s == [] then h else if tag == SERVICE_TAG then h.(serviceName := s) else h.(methodName := s);
      Parse(PutBytes(tag, s) + rest, h) == Parse(rest, h')
  {
    hide Read32, ReadBytes;
    if s == [] {
      assert PutBytes(tag, s) + rest == rest;
    } else {
      var tail := PutVarint(|s|) + s + rest;
      assert PutBytes(tag, s) + rest == [tag] + tail;
      ReadTag(tag, tail);
      ReadPutBytes(s, rest);
    }
  }

  lemma ParsePutNumber(n: nat, rest: seq<Byte>, h: Header)
    requires n < WORD
    ensures Parse(PutNumber(ARGS_TAG, n) + rest, h) == Parse(rest, if n == 0 then h else h.(argsSize := n))
  {
    hide Read32, ReadBytes;
    if n == 0 {
      assert PutNumber(ARGS_TAG, n) + rest == rest;
    } else {
      var tail := PutVarint(n) + rest;
      assert PutNumber(ARGS_TAG, n) + rest == [ARGS_TAG] + tail;
      ReadTag(ARGS_TAG, tail);
      ReadPut(n, rest);
    }
  }

  /** Parsing a serialized header, whatever comes after it, merges it into what was there. */
  lemma ParseMerges(h: Header, rest: seq<Byte>, base: Header)
    requires Fits(h)
    ensures Parse(Serialize(h) + rest, base) == Parse(rest, Merge(base, h))
  {
    hide Parse, PutBytes, PutNumber;
    var args := PutNumber(ARGS_TAG, h.argsSize) + rest;
    var meth := PutBytes(METHOD_TAG, h.methodName) + args;
    assert Serialize(h) + rest == PutBytes(SERVICE_TAG, h.serviceName) + meth;
    ParsePutBytes(SERVICE_TAG, h.serviceName, meth, base);
    var h1 := if h.serviceName == [] then base else base.(serviceName := h.serviceName);
    ParsePutBytes(METHOD_TAG, h.methodName, args, h1);
    var h2 := if h.methodName == [] then h1 else h1.(methodName := h.methodName);
    ParsePutNumber(h.argsSize, rest, h2);
  }

  /** Parsing undoes serializing. */
  lemma ParseUndoesSerialize(h: Header)
    requires Fits(h)
    ensures Parse(Serialize(h), EMPTY) == Parsed(h)
  {
    hide Serialize;
    assert Serialize(h) + [] == Serialize(h);
    ParseMerges(h, [], EMPTY);
  }

  function SerializeAll(hs: seq<Header>): seq<Byte> {
    if hs == [] then [] else Serialize(hs[0]) + SerializeAll(hs[1..])
  }

  function MergeAll(h: Header, hs: seq<Header>): Header
    decreases |hs|
  {
    if hs == [] then h else MergeAll(Merge(h, hs[0]), hs[1..])
  }

  /** Parsing any number of serialized headers put together gives them merged in order. */
  lemma {:induction false} ConcatenationMerges(hs: seq<Header>, base: Header)
    requires forall i :: 0 <= i < |hs| ==> Fits(hs[i])
    ensures Parse(SerializeAll(hs), base) == Parsed(MergeAll(base, hs))
    decreases |hs|
  {
    hide Serialize;
    if hs != [] {
      ParseMerges(hs[0], SerializeAll(hs[1..]), base);
      ConcatenationMerges(hs[1..], Merge(base, hs[0]));
    }
  }

  lemma SizeIsSerializedLength(h: Header)
    requires Fits(h)
    ensures ByteSizeLong(h) == |Serialize(h)|
  {
    hide PutVarint;
    SizeOfVarint(|h.serviceName|);
    SizeOfVarint(|h.methodName|);
    SizeOfVarint(h.argsSize);
  }

  // ---------- the frame ----------

  function Little(n: nat): seq<Byte>
    requires n < WORD
  {
    [n % 256, n / 256 % 256, n / 256 / 256 % 256, n / 256 / 256 / 256]
  }

  function FromLittle(b: seq<Byte>): (n: nat)
    requires |b| >= 4
    ensures n < WORD
  {
    b[0] as int + 256 * b[1] as int + 65536 * b[2] as int + 16777216 * b[3] as int
  }

  lemma LittleRoundTrip(n: nat)
    requires n < WORD
    ensures FromLittle(Little(n)) == n
  {
    var n1 := n / 256;
    var n2 := n1 / 256;
    assert n == 256 * n1 + n % 256 && n1 == 256 * n2 + n1 % 256 && n2 == 256 * (n2 / 256) + n2 % 256;
  }

  /** SerializeToString refuses messages over 2 GB, of the arguments and of the header. */
  predicate Packable(service: seq<Byte>, meth: seq<Byte>, args: seq<Byte>) {
    |args| <= INT_MAX && ByteSizeLong(Header(service, meth, |args|)) <= INT_MAX
  }

  function Pack(service: seq<Byte>, meth: seq<Byte>, args: seq<Byte>): (frame: Option<seq<Byte>>)
    ensures frame.Some? <==> Packable(service, meth, args)
  {
    if !Packable(service, meth, args) then None
    else
      var header := Serialize(Header(service, meth, |args|));
      PackableFits(service, meth, args);
      SizeIsSerializedLength(Header(service, meth, |args|));
      Some(Little(|header|) + header + args)
  }

  lemma PackableFits(service: seq<Byte>, meth: seq<Byte>, args: seq<Byte>)
    requires Packable(service, meth, args)
    ensures Fits(Header(service, meth, |args|))
  {
  }

  /** What onMessage makes of the bytes it was given: the call, or string::substr throws, or
      the header does not parse. */
  datatype Unpacked =
    | Call(service: seq<Byte>, meth: seq<Byte>, args: seq<Byte>)
    | Throws
    | BadHeader
    | UnknownHeaderField

  // std::string::substr(pos, n), for pos not past the end
  function Substr(s: seq<Byte>, pos: nat, n: nat): seq<Byte>
    requires pos <= |s|
  {
    if n < |s| - pos then s[pos..pos + n] else s[pos..]
  }

  function Unpack(message: seq<Byte>): Unpacked {
    if |message| < 4 then Throws
    else
      var headerSize := FromLittle(message);
      match Parse(Substr(message, 4, headerSize), EMPTY)
      case Malformed => BadHeader
      case UnknownField => UnknownHeaderField
      case Parsed(h) =>
        // 4 + headerSize is uint32 arithmetic
        var pos := (4 + headerSize) % WORD;
        if pos > |message| then Throws else Call(h.serviceName, h.methodName, Substr(message, pos, h.argsSize))
  }

  // A message that starts with a packed frame's size and header.
  lemma UnpackHeader(service: seq<Byte>, meth: seq<Byte>, args: seq<Byte>, tail: seq<Byte>)
    requires Packable(service, meth, args)
    ensures Fits(Header(service, meth, |args|))
    ensures var header := Serialize(Header(service, meth, |args|));
      |header| <= INT_MAX &&
      Unpack(Little(|header|) + header + tail) == Call(service, meth, Substr(tail, 0, |args|))
  {
    hide Serialize, Parse, Little, ByteSizeLong;
    var h := Header(service, meth, |args|);
    var header := Serialize(h);
    PackableFitsSize(service, meth, args);
    var n := |header|;
    LittleFacts(n);
    var message := Little(n) + header + tail;
    LittleIsPrefix(n, header + tail);
    assert message == Little(n) + (header + tail);
    assert message[4..] == header + tail;
    assert Substr(message, 4, n) == header;
    ParseUndoesSerialize(h);
    assert message[4 + n..] == tail;
    assert Substr(message, 4 + n, |args|) == Substr(tail, 0, |args|);
  }

  /** A call is packed exactly if neither its arguments nor its serialized header exceed 2 GB. */
  lemma PackableIff(service: seq<Byte>, meth: seq<Byte>, args: seq<Byte>)
    ensures var h := Header(service, meth, |args|);
      Packable(service, meth, args) <==> Fits(h) && |args| <= INT_MAX && |Serialize(h)| <= INT_MAX
  {
    hide Serialize;
    var h := Header(service, meth, |args|);
    if Fits(h) { SizeIsSerializedLength(h); }
  }

  lemma PackableFitsSize(service: seq<Byte>, meth: seq<Byte>, args: seq<Byte>)
    requires Packable(service, meth, args)
    ensures Fits(Header(service, meth, |args|)) && |Serialize(Header(service, meth, |args|))| <= INT_MAX
  {
    PackableFits(service, meth, args);
    SizeIsSerializedLength(Header(service, meth, |args|));
  }

  lemma LittleFacts(n: nat)
    requires n < WORD
    ensures |Little(n)| == 4
  {
  }

  lemma LittleIsPrefix(n: nat, tail: seq<Byte>)
    requires n < WORD
    ensures FromLittle(Little(n) + tail) == n
  {
    LittleRoundTrip(n);
  }

  /** Unpacking a packed frame gives back the service, the method and the arguments. */
  lemma UnpackUndoesPack(service: seq<Byte>, meth: seq<Byte>, args: seq<Byte>)
    requires Packable(service, meth, args)
    ensures Unpack(Pack(service, meth, args).value) == Call(service, meth, args)
  {
    hide Unpack, Serialize, Little, Packable;
    UnpackHeader(service, meth, args, args);
  }

  /** onMessage takes all the bytes it finds for one frame: what follows the first is dropped. */
  lemma FollowingBytesAreDropped(service: seq<Byte>, meth: seq<Byte>, args: seq<Byte>, more: seq<Byte>)
    requires Packable(service, meth, args)
    ensures Unpack(Pack(service, meth, args).value + more) == Call(service, meth, args)
  {
    hide Unpack, Serialize, Little, Packable;
    UnpackHeader(service, meth, args, args + more);
    var header := Serialize(Header(service, meth, |args|));
    assert (args + more)[0..|args|] == args;
    assert Little(|header|) + header + args + more == Little(|header|) + header + (args + more);
  }

  /** When a part of the arguments is missing, the call is made with them cut short. */
  lemma PartialFrameIsCutShort(service: seq<Byte>, meth: seq<Byte>, args: seq<Byte>, k: nat)
    requires Packable(service, meth, args) && k <= |args|
    ensures var frame := Pack(service, meth, args).value;
      |args| <= |frame| && Unpack(frame[..|frame| - |args| + k]) == Call(service, meth, args[..k])
  {
    hide Unpack, Serialize, Little, Packable;
    UnpackHeader(service, meth, args, args[..k]);
    var header := Serialize(Header(service, meth, |args|));
    var frame := Pack(service, meth, args).value;
    assert frame == Little(|header|) + header + args;
    assert frame[..|frame| - |args| + k] == Little(|header|) + header + args[..k];
  }

  // A message shorter than its header makes no call, unless 4 + headerSize wraps around.
  lemma ShortMessage(message: seq<Byte>)
    requires |message| < 4 || (FromLittle(message) < WORD - 4 && |message| < 4 + FromLittle(message))
    ensures !Unpack(message).Call?
  {
    hide Parse;
  }

  /** onMessage takes whatever has arrived for a whole frame. Of all the prefixes of a frame
      only the frame itself is unpacked rightly. */
  lemma PrefixUnpacksIff(service: seq<Byte>, meth: seq<Byte>, args: seq<Byte>, j: nat)
    requires Packable(service, meth, args) && j <= |Pack(service, meth, args).value|
    ensures Unpack(Pack(service, meth, args).value[..j]) == Call(service, meth, args) <==>
        j == |Pack(service, meth, args).value|
  {
    hide Unpack, Serialize, Little, Packable, FromLittle;
    UnpackHeader(service, meth, args, args);
    var frame := Pack(service, meth, args).value;
    var header := Serialize(Header(service, meth, |args|));
    LittleFacts(|header|);
    assert frame == Little(|header|) + header + args;
    if j < 4 {
      ShortMessage(frame[..j]);
    } else if j < 4 + |header| {
      assert frame[..j] == Little(|header|) + header[..j - 4];
      LittleIsPrefix(|header|, header[..j - 4]);
      ShortMessage(frame[..j]);
    } else {
      PartialFrameIsCutShort(service, meth, args, j - 4 - |header|);
    }
  }

  /** A message shorter than 4 + headerSize still leads to a call exactly when that sum wraps
      around in 32 bits and the bytes that are there parse as a header. */
  lemma IncompleteHeaderCallsIff(message: seq<Byte>)
    requires |message| >= 4 && |message| < 4 + FromLittle(message)
    ensures Unpack(message).Call? <==> FromLittle(message) >= WORD - 4 && Parse(message[4..], EMPTY).Parsed?
  {
    hide Parse, FromLittle;
    assert Substr(message, 4, FromLittle(message)) == message[4..];
  }

  /** Four bytes that hold no frame, and yet are taken for a call. */
  lemma BogusCall()
    ensures Unpack([0xFC, 0xFF, 0xFF, 0xFF]) == Call([], [], [])
  {
    var message: seq<Byte> := [0xFC, 0xFF, 0xFF, 0xFF];
    assert FromLittle(message) == WORD - 4;
    assert Substr(message, 4, WORD - 4) == [];
    assert Substr(message, 0, 0) == [];
  }
}
