/**
 The bytes of the header and of the frame against a decoder that knows of no header: varints as
 sums of 7-bit groups, and a message as a list of numbered fields, as in the Protocol Buffers
 Encoding specification, sections "Base 128 Varints" and "Message Structure".
 */
module WireFormat {
  import opened Bytes
  import opened RpcFrame

  function Power(base: nat, i: nat): nat {
    if i == 0 then 1 else base * Power(base, i - 1)
  }

  // ---------- varints ----------

  /** The lower 7 bits of the first n bytes, lowest group first. */
  function Groups(b: seq<Byte>, n: nat): nat
    requires n <= |b|
  {
    if n == 0 then 0 else Groups(b, n - 1) + b[n - 1] as nat % 128 * Power(128, n - 1)
  }

  /** The first n bytes are a varint: all but the last have the continuation bit. */
  predicate IsVarint(b: seq<Byte>, n: nat) {
    && 1 <= n <= |b| && b[n - 1] < 128
    && forall i :: 0 <= i < n - 1 ==> b[i] >= 128
  }

  // The groups of a sequence from its second byte on.
  lemma {:induction false} GroupsTail(b: seq<Byte>, n: nat)
    requires 1 <= n <= |b|
    ensures Groups(b, n) == b[0] as nat % 128 + 128 * Groups(b[1..], n - 1)
    decreases n
  {
    if n == 1 {
      assert Groups(b, 0) == 0 && Power(128, 0) == 1;
    } else {
      GroupsTail(b, n - 1);
      var g, p := b[n - 1] as nat % 128, Power(128, n - 2);
      assert Power(128, n - 1) == 128 * p;
      Scale(g, p);
    }
  }

  lemma Scale(g: nat, p: nat)
    ensures g * (128 * p) == 128 * (g * p)
  {
  }

  /** Where the first varint ends; 0 if it does not. */
  function VarintEnd(b: seq<Byte>): (n: nat)
    ensures n <= |b|
  {
    if b == [] then 0
    else if b[0] < 128 then 1
    else if VarintEnd(b[1..]) == 0 then 0
    else 1 + VarintEnd(b[1..])
  }

  lemma {:induction false} EndsIff(b: seq<Byte>, n: nat)
    ensures IsVarint(b, n) <==> n == VarintEnd(b) > 0
    decreases |b|
  {
    if b != [] && n > 1 {
      EndsIff(b[1..], n - 1);
      if IsVarint(b, n) {
        assert b[0] >= 128;
        assert forall i :: 0 <= i < n - 2 ==> b[1..][i] == b[i + 1];
      }
      if IsVarint(b[1..], n - 1) && b[0] >= 128 {
        forall i | 0 <= i < n - 1 ensures b[i] >= 128 { if i > 0 { assert b[1..][i - 1] == b[i]; } }
      }
    }
  }

  /** Reading a varint takes exactly its bytes, if there is room, and gives the sum of its
      groups. */
  lemma {:induction false} VarintIsGroups(b: seq<Byte>, room: nat)
    ensures var n := VarintEnd(b);
      GetVarint(b, room) == if 0 < n <= room then Some((Groups(b, n), b[n..])) else None
    decreases room
  {
    hide Groups;
    if b != [] && room > 0 {
      var n := VarintEnd(b);
      if b[0] >= 128 {
        VarintIsGroups(b[1..], room - 1);
        if n > 0 {
          GroupsTail(b, n);
          assert b[1..][n - 1..] == b[n..];
        }
      } else {
        OneGroup(b);
      }
    }
  }

  lemma OneGroup(b: seq<Byte>)
    requires b != []
    ensures Groups(b, 1) == b[0] as nat % 128
  {
    assert Groups(b, 0) == 0 && Power(128, 0) == 1;
  }

  /** Writing n gives a varint whose groups sum up to n, and the shortest one. */
  lemma PutVarintIsGroups(n: nat)
    ensures var b := PutVarint(n);
      IsVarint(b, |b|) && Groups(b, |b|) == n && (|b| > 1 ==> b[|b| - 1] != 0)
  {
    var b := PutVarint(n);
    GetPut(n, [], |b|);
    assert b + [] == b;
    VarintIsGroups(b, |b|);
    EndsIff(b, VarintEnd(b));
    PutIsShort(n);
  }

  lemma {:induction false} PutIsShort(n: nat)
    ensures var b := PutVarint(n); |b| >= 1 && (n > 0 ==> b[|b| - 1] != 0)
    decreases n
  {
    if n >= 128 { PutIsShort(n / 128); }
  }

  // ---------- a message as a list of fields ----------

  datatype Payload = Number(n: nat) | Chunk(s: seq<Byte>)

  datatype Entry = Entry(number: nat, wireType: nat, payload: Payload)

  /** A varint of at most ten bytes, read into 32 bits. */
  function Varint32(b: seq<Byte>): (r: Option<(nat, seq<Byte>)>)
    ensures r.Some? ==> |r.value.1| < |b|
  {
    var n := VarintEnd(b);
    if 0 < n <= 10 then Some((Groups(b, n) % WORD, b[n..])) else None
  }

  /** Fields of wire types 0 (varint) and 2 (length-delimited), whatever their numbers. */
  function Decode(b: seq<Byte>): Option<seq<Entry>>
    decreases |b|
  {
    if b == [] then Some([])
    else
      match Varint32(b)
      case None => None
      case Some((key, rest)) =>
        match Varint32(rest)
        case None => None
        case Some((v, tail)) =>
          if key % 8 == 0 then Prepend(Entry(key / 8, 0, Number(v)), Decode(tail))
          else if key % 8 == 2 && v <= |tail| then Prepend(Entry(key / 8, 2, Chunk(tail[..v])), Decode(tail[v..]))
          else None
  }

  function Prepend(e: Entry, es: Option<seq<Entry>>): Option<seq<Entry>> {
    match es
    case None => None
    case Some(rest) => Some([e] + rest)
  }

  /** The fields of the header, in order, the default-valued ones left out. */
  function Entries(h: Header): seq<Entry> {
    (if h.serviceName != [] then [Entry(1, 2, Chunk(h.serviceName))] else [])
    + (if h.methodName != [] then [Entry(2, 2, Chunk(h.methodName))] else [])
    + (if h.argsSize != 0 then [Entry(3, 0, Number(h.argsSize))] else [])
  }

  lemma ReadIsVarint(b: seq<Byte>)
    ensures Read32(b) == Varint32(b)
  {
    VarintIsGroups(b, 10);
  }

  // A field with a one-byte key.
  lemma DecodeBytesAt(b: seq<Byte>, tag: nat, tail: seq<Byte>, v: nat, s: seq<Byte>, rest: seq<Byte>)
    requires Varint32(b) == Some((tag, tail)) && Varint32(tail) == Some((v, s + rest))
    requires b != [] && tag % 8 == 2 && v == |s|
    ensures Decode(b) == Prepend(Entry(tag / 8, 2, Chunk(s)), Decode(rest))
  {
    hide Varint32;
    assert (s + rest)[..|s|] == s && (s + rest)[|s|..] == rest;
  }

  lemma DecodePutBytes(tag: Byte, s: seq<Byte>, rest: seq<Byte>)
    requires s != [] && |s| < WORD && tag < 128 && tag % 8 == 2
    ensures Decode(PutBytes(tag, s) + rest) == Prepend(Entry(tag / 8, 2, Chunk(s)), Decode(rest))
  {
    hide Varint32, PutVarint, Decode, Read32;
    var tail := PutVarint(|s|) + s + rest;
    assert PutBytes(tag, s) + rest == [tag] + tail;
    ReadIsVarint([tag] + tail);
    ReadTag(tag, tail);
    ReadIsVarint(tail);
    assert tail == PutVarint(|s|) + (s + rest);
    ReadPut(|s|, s + rest);
    DecodeBytesAt([tag] + tail, tag, tail, |s|, s, rest);
  }

  lemma DecodePutNumber(tag: Byte, n: nat, rest: seq<Byte>)
    requires 0 < n < WORD && tag < 128 && tag % 8 == 0
    ensures Decode(PutNumber(tag, n) + rest) == Prepend(Entry(tag / 8, 0, Number(n)), Decode(rest))
  {
    hide Varint32, PutVarint, Read32;
    var tail := PutVarint(n) + rest;
    assert PutNumber(tag, n) + rest == [tag] + tail;
    ReadIsVarint([tag] + tail);
    ReadTag(tag, tail);
    ReadIsVarint(tail);
    ReadPut(n, rest);
  }

  lemma DecodeNothing()
    ensures Decode([]) == Some([])
  {
  }

  // A field that may be left out, in front of bytes that decode.
  lemma DecodeBytesFront(tag: Byte, s: seq<Byte>, rest: seq<Byte>)
    requires |s| < WORD && tag < 128 && tag % 8 == 2
    ensures Decode(rest).Some? ==>
      Decode(PutBytes(tag, s) + rest) == Some(
        (if s != [] then [Entry(tag / 8, 2, Chunk(s))] else []) + Decode(rest).value)
  {
    hide Decode;
    if s == [] {
      assert PutBytes(tag, s) + rest == rest;
      if Decode(rest).Some? { assert [] + Decode(rest).value == Decode(rest).value; }
    } else {
      DecodePutBytes(tag, s, rest);
    }
  }

  lemma DecodeNumberFront(tag: Byte, n: nat, rest: seq<Byte>)
    requires n < WORD && tag < 128 && tag % 8 == 0
    ensures Decode(rest).Some? ==>
      Decode(PutNumber(tag, n) + rest) == Some(
        (if n != 0 then [Entry(tag / 8, 0, Number(n))] else []) + Decode(rest).value)
  {
    hide Decode;
    if n == 0 {
      assert PutNumber(tag, n) + rest == rest;
      if Decode(rest).Some? { assert [] + Decode(rest).value == Decode(rest).value; }
    } else {
      DecodePutNumber(tag, n, rest);
    }
  }

  /** A serialized header is the list of its set fields: 1 and 2 length-delimited, 3 a varint. */
  lemma SerializedEntries(h: Header)
    requires Fits(h)
    ensures Decode(Serialize(h)) == Some(Entries(h))
  {
    hide Decode, PutBytes, PutNumber;
    var args := PutNumber(ARGS_TAG, h.argsSize);
    var meth := PutBytes(METHOD_TAG, h.methodName) + args;
    assert Serialize(h) == PutBytes(SERVICE_TAG, h.serviceName) + meth;
    DecodeNumberFront(ARGS_TAG, h.argsSize, []);
    DecodeBytesFront(METHOD_TAG, h.methodName, args);
    DecodeBytesFront(SERVICE_TAG, h.serviceName, meth);
    assert args + [] == args && Decode([]) == Some([]) by { DecodeNothing(); }
    var e3 := if h.argsSize != 0 then [Entry(3, 0, Number(h.argsSize))] else [];
    assert Decode(args) == Some(e3 + []) && e3 + [] == e3;
    assert Entries(h) == Decode(Serialize(h)).value;
  }

  /** What fields do to a header: the last one of a number wins; field number 0 with a varint is
      malformed, and any other field is not this header's. */
  function Assign(es: seq<Entry>, h: Header): Outcome
    decreases |es|
  {
    if es == [] then Parsed(h)
    else
      match es[0]
      case Entry(1, 2, Chunk(s)) => Assign(es[1..], h.(serviceName := s))
      case Entry(2, 2, Chunk(s)) => Assign(es[1..], h.(methodName := s))
      case Entry(3, 0, Number(n)) => Assign(es[1..], h.(argsSize := n))
      case Entry(0, 0, _) => Malformed
      case _ => UnknownField
  }

  /** Parsing any bytes that decode into fields assigns those fields. */
  lemma {:induction false} ParseAssigns(b: seq<Byte>, h: Header)
    requires Decode(b).Some?
    ensures Parse(b, h) == Assign(Decode(b).value, h)
    decreases |b|
  {
    hide Read32, Varint32;
    if b != [] {
      ReadIsVarint(b);
      var (key, rest) := Varint32(b).value;
      ReadIsVarint(rest);
      var (v, tail) := Varint32(rest).value;
      var next := if key % 8 == 0 then tail else tail[v..];
      var es := Decode(b).value;
      assert es == [es[0]] + Decode(next).value && es[1..] == Decode(next).value;
      forall h' ensures Parse(next, h') == Assign(Decode(next).value, h') { ParseAssigns(next, h'); }
    }
  }

  /** The fields of the header of a message. */
  function HeaderEntries(message: seq<Byte>): Option<seq<Entry>> {
    if |message| < 4 then None else Decode(Substr(message, 4, FromLittle(message)))
  }

  /** What onMessage makes of a message whose header bytes decode into fields: a malformed or
      unknown field stops it, and otherwise the arguments follow, wherever the 32-bit sum says, or
      string::substr throws. */
  lemma UnpackAssigns(message: seq<Byte>)
    requires HeaderEntries(message).Some?
    ensures Unpack(message) ==
      match Assign(HeaderEntries(message).value, EMPTY)
      case Malformed => BadHeader
      case UnknownField => UnknownHeaderField
      case Parsed(h) =>
        var pos := (4 + FromLittle(message)) % WORD;
        if pos > |message| then Throws else Call(h.serviceName, h.methodName, Substr(message, pos, h.argsSize))
  {
    hide Parse, Assign, Decode, FromLittle;
    ParseAssigns(Substr(message, 4, FromLittle(message)), EMPTY);
  }

  // ---------- the size in front of the header ----------

  /** Byte i of the size is its i-th byte, lowest first. */
  lemma LittleBytes(n: nat, i: nat)
    requires n < WORD && i < 4
    ensures |Little(n)| == 4 && Power(256, i) > 0 && Little(n)[i] == n / Power(256, i) % 256
  {
    assert Power(256, 0) == 1;
    assert Power(256, 1) == 256;
    assert Power(256, 2) == 65536;
    assert Power(256, 3) == 16777216;
    assert n / 256 / 256 == n / 65536;
    assert n / 65536 / 256 == n / 16777216 < 256;
  }
}
