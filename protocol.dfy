/**
 * The pure half of the RPC engine: the call serial sequence, the request
 * envelope, and the classification of a decoded response.  Compression,
 * the rencode byte format and the TLS stream are not modelled; a response
 * arrives as an `Exchange`, either the transport error that interrupted the
 * call or the value decoded from the stream.
 */
module Protocol {
  import opened Errors
  import opened Rencode

  /** The message types of a response (`rpcResponseTypeID`). */
  const RpcResponse: int64 := 1
  const RpcError: int64 := 2
  const RpcEvent: int64 := 3

  /**
   * `DelugeResponse`.  Only a response of type 1 has return values, only one
   * of type 2 the exception fields; the event fields are never filled.
   */
  datatype DelugeResponse = DelugeResponse(
    messageType: int64,
    requestID: int64,
    returnValue: seq<Value>,
    exceptionType: string,
    exceptionMessage: string,
    traceBack: string)
  {
    /** `IsError`: the response reports a remote exception. */
    predicate IsError()
    {
      messageType == RpcError
    }
  }

  /**
   * The serial following `s`: the increment of an `int64` (which wraps from
   * the maximum to the minimum), reset to 1 when it reaches the maximum.
   */
  function NextSerial(s: int64): (r: int64)
    ensures 0 <= s < MaxInt64 ==> 1 <= r < MaxInt64
    ensures 0 <= s < MaxInt64 ==> (r as int == s as int + 1 <==> s < MaxInt64 - 1)
    ensures s == MaxInt64 - 1 ==> r == 1
  {
    var incremented := if s == MaxInt64 then MinInt64 else s + 1;
    if incremented == MaxInt64 then 1 else incremented
  }

  /** The number of serials in one cycle: 1 up to MaxInt64 - 1. */
  const SerialCycle: int := MaxInt64 as int - 1

  /** The serial of the `n`-th call (from 0) of a client whose serial started at 0. */
  function SerialOfCall(n: nat): (s: int)
    ensures 1 <= s < MaxInt64 as int
  {
    n % SerialCycle + 1
  }

  /** The first call uses serial 1, and each further call the serial after its predecessor's. */
  lemma NextSerialOfCall(n: nat)
    ensures NextSerial(0) as int == SerialOfCall(0)
    ensures NextSerial(SerialOfCall(n) as int64) as int == SerialOfCall(n + 1)
  {
  }

  /** Calls fewer than a whole cycle apart never share a serial. */
  lemma SerialsDistinctWithinCycle(m: nat, n: nat)
    requires m < n < m + SerialCycle
    ensures SerialOfCall(m) != SerialOfCall(n)
  {
  }

  /** A request: the serial, the method name, positional and keyword arguments. */
  datatype Envelope = Envelope(serial: int64, methodName: string, args: seq<Value>, kwargs: Dictionary)

  /**
   * The value written for a request: a list holding one request, itself the
   * list `[serial, method, args, kwargs]` (the protocol allows several
   * requests per message; the client sends one).  It carries exactly its
   * request: reading it back gives the request.
   */
  function Payload(e: Envelope): (p: Value)
    ensures ParsePayload(p) == Some(e)
  {
    List([List([Int(e.serial), Bytes(e.methodName), List(e.args), Dict(e.kwargs)])])
  }

  /** Reads a payload back into the request it carries, if it has that shape. */
  function ParsePayload(v: Value): Option<Envelope>
  {
    if v.List? && |v.items| == 1 && v.items[0].List? && |v.items[0].items| == 4 then
      var call := v.items[0].items;
      if call[0].Int? && call[1].Bytes? && call[2].List? && call[3].Dict? then
        Some(Envelope(call[0].i, call[1].data, call[2].items, call[3].entries))
      else None
    else None
  }

  /** Anything that parses as a request is that request's payload. */
  lemma ParsedIsPayload(v: Value)
    requires ParsePayload(v).Some?
    ensures Payload(ParsePayload(v).value) == v
  {
    var call := v.items[0].items;
    assert call == [call[0], call[1], call[2], call[3]];
    assert v.items == [v.items[0]];
  }

  /** The outcome of writing a request and reading the reply. */
  datatype Exchange =
    | Broken(cause: string)   // an encoding, compression, write, deadline or read error
    | Received(reply: Value)  // the value decoded from the reply stream

  /**
   * The response to the request with serial `serial`.  The reply is scanned
   * as a list whose first two elements are the message type and the request
   * id; the id must echo the serial before the type is looked at.  What
   * follows the two is the return value of a type 1 response; a type 2
   * response holds a list of exception type, message and traceback.
   */
  function Classify(serial: int64, x: Exchange): (r: Result<DelugeResponse>)
    ensures x.Broken? ==> r == Failure(Io(x.cause))
    ensures r.Success? ==> r.value.requestID == serial
    ensures r.Success? ==> r.value.messageType == RpcResponse || r.value.messageType == RpcError
    ensures r.Success? ==> x.Received? && HasHeader(x.reply)
    ensures r.Success? && !r.value.IsError() ==> x.reply.items[2..] == r.value.returnValue
    ensures r.Success? && r.value.IsError() ==> r.value.returnValue == []
  {
    match x
    case Broken(cause) => Failure(Io(cause))
    case Received(reply) =>
      if !reply.List? || |reply.items| < 2 || !reply.items[0].Int? || !reply.items[1].Int? then
        Failure(ScanFailed)
      else
        var mt := reply.items[0].i;
        var id := reply.items[1].i;
        var rest := reply.items[2..];
        if id != serial then Failure(SerialMismatch)
        else if mt == RpcResponse then Success(DelugeResponse(mt, id, rest, "", "", ""))
        else if mt == RpcError then
          if |rest| == 0 || !rest[0].List? then Failure(ScanFailed)
          else
            var errList := rest[0].items;
            if |errList| < 3 || !errList[0].Bytes? || !errList[1].Bytes? || !errList[2].Bytes? then
              Failure(ScanFailed)
            else
              Success(DelugeResponse(mt, id, [], errList[0].data, errList[1].data, errList[2].data))
        else if mt == RpcEvent then Failure(EventUnsupported)
        else Failure(UnknownMessageType)
  }

  /** A reply with a well-formed header: a list starting with two integers. */
  predicate HasHeader(reply: Value)
  {
    reply.List? && |reply.items| >= 2 && reply.items[0].Int? && reply.items[1].Int?
  }

  /** An echoed id other than the serial is rejected, whatever the message type. */
  lemma MismatchCheckedFirst(serial: int64, reply: Value)
    requires HasHeader(reply) && reply.items[1].i != serial
    ensures Classify(serial, Received(reply)) == Failure(SerialMismatch)
  {
  }

  /** A reply that is not a list led by two integers cannot be scanned. */
  lemma MalformedHeader(serial: int64, reply: Value)
    requires !HasHeader(reply)
    ensures Classify(serial, Received(reply)) == Failure(ScanFailed)
  {
  }

  /** A type 1 reply echoing the serial succeeds, with the rest of the list as its return value. */
  lemma ResponseAccepted(serial: int64, reply: Value)
    requires HasHeader(reply) && reply.items[1].i == serial && reply.items[0].i == RpcResponse
    ensures Classify(serial, Received(reply)).Success?
    ensures !Classify(serial, Received(reply)).value.IsError()
    ensures Classify(serial, Received(reply)).value.returnValue == reply.items[2..]
  {
  }

  /**
   * A type 2 reply echoing the serial succeeds exactly when its third element
   * is a list starting with three byte strings, which become the exception.
   */
  lemma RemoteErrorShape(serial: int64, reply: Value)
    requires HasHeader(reply) && reply.items[1].i == serial && reply.items[0].i == RpcError
    ensures Classify(serial, Received(reply)).Success? <==>
            |reply.items| >= 3 && reply.items[2].List? && |reply.items[2].items| >= 3 &&
            reply.items[2].items[0].Bytes? && reply.items[2].items[1].Bytes? && reply.items[2].items[2].Bytes?
    ensures Classify(serial, Received(reply)).Success? ==>
            var resp := Classify(serial, Received(reply)).value;
            resp.IsError() &&
            reply.items[2].items[..3] == [Bytes(resp.exceptionType), Bytes(resp.exceptionMessage), Bytes(resp.traceBack)]
    ensures Classify(serial, Received(reply)).Failure? ==> Classify(serial, Received(reply)).error == ScanFailed
  {
  }

  /** Type 3 (events) and every type other than 1, 2 and 3 are refused. */
  lemma OtherTypesRefused(serial: int64, reply: Value)
    requires HasHeader(reply) && reply.items[1].i == serial
    requires reply.items[0].i != RpcResponse && reply.items[0].i != RpcError
    ensures reply.items[0].i == RpcEvent ==> Classify(serial, Received(reply)) == Failure(EventUnsupported)
    ensures reply.items[0].i != RpcEvent ==> Classify(serial, Received(reply)) == Failure(UnknownMessageType)
  {
  }

  /**
   * The return values of a classified call, or its error: a call error passes
   * through, and a remote exception becomes an `RPCError` before anything is
   * decoded.
   */
  function ReturnValues(c: Result<DelugeResponse>): (r: Result<seq<Value>>)
    ensures c.Failure? ==> r == Failure(c.error)
    ensures c.Success? && c.value.IsError() ==>
            r == Failure(Remote(c.value.exceptionType, c.value.exceptionMessage, c.value.traceBack))
    ensures c.Success? && !c.value.IsError() ==> r == Success(c.value.returnValue)
  {
    if c.Failure? then Failure(c.error)
    else if c.value.IsError() then
      Failure(Remote(c.value.exceptionType, c.value.exceptionMessage, c.value.traceBack))
    else Success(c.value.returnValue)
  }

  /** The return values reach a decoder only from a type 1 reply echoing the serial. */
  lemma ReturnValuesOnlyFromResponses(serial: int64, x: Exchange)
    requires ReturnValues(Classify(serial, x)).Success?
    ensures x.Received? && HasHeader(x.reply)
    ensures x.reply.items[0] == Int(RpcResponse) && x.reply.items[1] == Int(serial)
    ensures ReturnValues(Classify(serial, x)).value == x.reply.items[2..]
  {
  }

  /**
   * The login reply of a client whose serial was 0: the reply `[1, 1, 10]`
   * to the first call is accepted, and its first return value is 10.
   */
  lemma LoginReplyExample()
    ensures NextSerial(0) == 1
    ensures ReturnValues(Classify(1, Received(List([Int(1), Int(1), Int(10)])))) == Success([Int(10)])
  {
  }
}
