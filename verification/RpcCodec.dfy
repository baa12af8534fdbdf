/**
 The generated header class and the two ends of a call, with their fields and loops:
 CallMethod packs a frame, onMessage drains the connection's buffer and takes it apart.
 */
module RpcCodec {
  import opened Bytes
  import opened Buffers
  import opened RpcFrame

  class RpcHeader {
    var serviceName: seq<Byte>
    var methodName: seq<Byte>
    var argsSize: nat

    ghost function View(): Header
      reads this
    {
      Header(serviceName, methodName, argsSize)
    }

    constructor ()
      ensures View() == EMPTY
    {
      serviceName, methodName, argsSize := [], [], 0;
    }

    method Clear()
      modifies this
      ensures View() == EMPTY
    {
      serviceName, methodName, argsSize := [], [], 0;
    }

    // WriteVarint32ToArray
    static method WriteVarint(n: nat, target: seq<Byte>) returns (end: seq<Byte>)
      ensures end == target + PutVarint(n)
    {
      var value := n;
      end := target;
      while value >= 128
        invariant end + PutVarint(value) == target + PutVarint(n)
      {
        ghost var was, from := value, end;
        end := end + [value % 128 + 128];
        value := value / 128;
        assert from + PutVarint(was) == end + PutVarint(value);
      }
      end := end + [value];
    }

    // WriteBytesMaybeAliased
    static method WriteBytes(tag: Byte, s: seq<Byte>, target: seq<Byte>) returns (end: seq<Byte>)
      requires s != []
      ensures end == target + PutBytes(tag, s)
    {
      hide PutVarint;
      end := WriteVarint(|s|, target + [tag]);
      end := end + s;
      assert target + [tag] + PutVarint(|s|) + s == target + PutBytes(tag, s);
    }

    /** _InternalSerialize: moves the target along, skipping default-valued fields. */
    method InternalSerialize(target: seq<Byte>) returns (end: seq<Byte>)
      ensures end == target + Serialize(View())
    {
      hide PutVarint, PutBytes;
      PutNone();
      end := target;
      if serviceName != [] {
        end := WriteBytes(SERVICE_TAG, serviceName, end);
      }
      if methodName != [] {
        end := WriteBytes(METHOD_TAG, methodName, end);
      }
      assert end == target + (PutBytes(SERVICE_TAG, serviceName) + PutBytes(METHOD_TAG, methodName));
      if argsSize != 0 {
        end := WriteVarint(argsSize, end + [ARGS_TAG]);
      }
    }

    method ByteSizeLong() returns (total: nat)
      requires RpcFrame.Fits(View())
      ensures total == |Serialize(View())|
    {
      total := 0;
      if serviceName != [] {
        total := total + 1 + BytesSize(serviceName);
      }
      if methodName != [] {
        total := total + 1 + BytesSize(methodName);
      }
      if argsSize != 0 {
        total := total + 1 + VarintSize(argsSize);
      }
      SizeIsSerializedLength(View());
    }

    method MergeFrom(from: RpcHeader)
      modifies this
      ensures View() == Merge(old(View()), old(from.View()))
    {
      if from.serviceName != [] {
        serviceName := from.serviceName;
      }
      if from.methodName != [] {
        methodName := from.methodName;
      }
      if from.argsSize != 0 {
        argsSize := from.argsSize;
      }
    }

    /** _InternalParse. `stopped` says why the loop was left early; the fields read so far stay. */
    method InternalParse(bytes: seq<Byte>) returns (stopped: Option<Outcome>)
      modifies this
      ensures match Parse(bytes, old(View()))
        case Parsed(h) => stopped == None && View() == h
        case other => stopped == Some(other)
    {
      hide Read32, ReadBytes;
      var ptr := bytes;
      while ptr != []
        invariant Parse(ptr, View()) == Parse(bytes, old(View()))
        decreases |ptr|
      {
        ghost var field := ParseField(ptr, View());
        assert Parse(ptr, View()) == match field case Field(h, rest) => Parse(rest, h) case Stop(o) => o;
        match Read32(ptr)
        case None => return Some(Malformed);
        case Some((tag, rest)) =>
          if tag / 8 == 1 && tag % 256 == SERVICE_TAG {
            match ReadBytes(rest)
            case None => return Some(Malformed);
            case Some((s, rest')) =>
              serviceName, ptr := s, rest';
          } else if tag / 8 == 2 && tag % 256 == METHOD_TAG {
            match ReadBytes(rest)
            case None => return Some(Malformed);
            case Some((s, rest')) =>
              methodName, ptr := s, rest';
          } else if tag / 8 == 3 && tag % 256 == ARGS_TAG {
            match Read32(rest)
            case None => return Some(Malformed);
            case Some((n, rest')) =>
              argsSize, ptr := n, rest';
          } else if tag == 0 || tag % 8 == 4 {
            return Some(Malformed);
          } else {
            return Some(UnknownField);
          }
      }
      stopped := None;
    }
  }

  class RpcChannelImpl {
    var package: seq<Byte>

    constructor ()
      ensures package == []
    {
      package := [];
    }

    /** CallMethod up to the connection. False: controller->SetFailed, nothing is sent. */
    method CallMethod(serviceName: seq<Byte>, methodName: seq<Byte>, argsStr: seq<Byte>) returns (packed: bool)
      modifies this
      ensures packed <==> Packable(serviceName, methodName, argsStr)
      ensures packed ==> package == Pack(serviceName, methodName, argsStr).value
      ensures !packed ==> package == old(package)
    {
      hide PutVarint, PutBytes, PutNumber, Little;
      if |argsStr| > INT_MAX {
        return false;
      }
      var rpcHeader := new RpcHeader();
      rpcHeader.serviceName := serviceName;
      rpcHeader.methodName := methodName;
      rpcHeader.argsSize := |argsStr|;
      if RpcFrame.ByteSizeLong(Header(serviceName, methodName, |argsStr|)) > INT_MAX {
        return false;
      }
      PackableFitsSize(serviceName, methodName, argsStr);
      var rpcHeaderStr := rpcHeader.InternalSerialize([]);
      var headerSize := |rpcHeaderStr|;
      package := [];
      package := Little(headerSize) + package;
      package := package + rpcHeaderStr;
      package := package + argsStr;
      packed := true;
    }
  }

  /** RpcProvider::onMessage up to looking the service up: the buffer is drained, however much
      has arrived. */
  method OnMessage(buffer: Buffer) returns (call: Unpacked)
    requires buffer.Valid()
    modifies buffer
    ensures call == Unpack(old(buffer.Contents()))
    ensures buffer.Valid() && buffer.Contents() == []
  {
    hide Parse, FromLittle;
    var message := buffer.RetrieveAllAsString();
    if |message| < 4 {
      return Throws;
    }
    var headerSize := FromLittle(message);
    var content := Substr(message, 4, headerSize);
    var rpcHeader := new RpcHeader();
    var stopped := rpcHeader.InternalParse(content);
    if stopped != None {
      return if stopped == Some(Malformed) then BadHeader else UnknownHeaderField;
    }
    var pos := (4 + headerSize) % WORD;
    if pos > |message| {
      return Throws;
    }
    var argsStr := Substr(message, pos, rpcHeader.argsSize);
    call := Call(rpcHeader.serviceName, rpcHeader.methodName, argsStr);
  }

  lemma PutNone()
    ensures PutBytes(SERVICE_TAG, []) == [] && PutBytes(METHOD_TAG, []) == [] && PutNumber(ARGS_TAG, 0) == []
  {
  }
}
