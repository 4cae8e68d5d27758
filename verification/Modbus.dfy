/** Modbus over CAN: fragment assembly of a response and the checks of "read holding registers"
    (section 6.3 of MODBUS Application Protocol V1.1b3, CRC of section 6.2.2 of MODBUS over
    Serial Line V1.02). */
module Modbus {
  import opened Lifecycle
  import opened Crc16
  import opened Streams

  const READ_HOLDING: Byte := 0x03
  const READ_HOLDING_EXCEPTION: Byte := 0x83

  // ---------------------------------------------------------------------------
  // Assembling a response from CAN fragments
  // ---------------------------------------------------------------------------

  datatype Status = Incomplete | Complete | Failed

  /** The size a response announces, once enough of it is there. */
  function ExpectedSize(bytes: seq<Byte>): Option<nat> {
    if |bytes| < 2 then None
    else if bytes[1] == READ_HOLDING_EXCEPTION then Some(5)
    else if |bytes| >= 3 then Some(bytes[2] as nat + 5)
    else None
  }

  /** The outcome of an append that leaves `bytes` assembled. */
  function StatusOf(bytes: seq<Byte>): Status {
    var expected := ExpectedSize(bytes);
    if expected.None? || |bytes| < expected.value then Incomplete
    else if |bytes| == expected.value then Complete
    else Failed
  }

  /** The announced size never changes once it is known. */
  lemma ExpectedSizeIsStable(bytes: seq<Byte>, more: seq<Byte>)
    requires ExpectedSize(bytes).Some?
    ensures ExpectedSize(bytes + more) == ExpectedSize(bytes)
  {
    assert (bytes + more)[1] == bytes[1];
    assert |bytes| >= 3 ==> (bytes + more)[2] == bytes[2];
  }

  class Assembler {
    var bytes: seq<Byte>
    var expectedSize: Option<nat>

    ghost predicate Valid()
      reads this
    {
      expectedSize == ExpectedSize(bytes)
    }

    constructor ()
      ensures Valid() && bytes == []
    {
      bytes, expectedSize := [], None;
    }

    method UpdateExpectedSize()
      requires expectedSize.Some? ==> expectedSize == ExpectedSize(bytes)
      modifies this`expectedSize
      ensures Valid()
    {
      if expectedSize.Some? || |bytes| < 2 {
        return;
      }
      if bytes[1] == READ_HOLDING_EXCEPTION {
        expectedSize := Some(5);
      } else if |bytes| >= 3 {
        expectedSize := Some(bytes[2] as nat + 5);
      }
    }

    method Append(fragment: seq<Byte>) returns (status: Status)
      requires Valid()
      modifies this
      ensures Valid()
      ensures fragment == [] ==> status == Failed && bytes == old(bytes)
      ensures fragment != [] ==> bytes == old(bytes) + fragment && status == StatusOf(bytes)
    {
      if fragment == [] {
        return Failed;
      }
      if expectedSize.Some? {
        ExpectedSizeIsStable(bytes, fragment);
      }
      bytes := bytes + fragment;
      UpdateExpectedSize();
      if expectedSize.None? {
        return Incomplete;
      }
      if |bytes| > expectedSize.value {
        return Failed;
      }
      if |bytes| == expectedSize.value {
        return Complete;
      }
      return Incomplete;
    }
  }

  /** What the receive loop of an exchange returns: the assembled response, or nothing. A
      `Threw` fragment stands for a failed or timed-out receive. */
  function Exchanged(bytes: seq<Byte>, received: seq<Reply<seq<Byte>>>): Option<seq<Byte>>
    decreases |received|
  {
    if received == [] || received[0].Threw? || received[0].value == [] then None
    else
      var grown := bytes + received[0].value;
      match StatusOf(grown)
      case Complete => Some(grown)
      case Failed => None
      case Incomplete => Exchanged(grown, received[1..])
  }

  /** The receive loop: `received` is what the transport delivers until the deadline. */
  method ReceiveResponse(received: seq<Reply<seq<Byte>>>) returns (response: Option<seq<Byte>>)
    ensures response == Exchanged([], received)
  {
    var assembler := new Assembler();
    var index := 0;
    while index < |received|
      invariant 0 <= index <= |received|
      invariant assembler.Valid() && fresh(assembler)
      invariant Exchanged([], received) == Exchanged(assembler.bytes, received[index..])
    {
      if received[index].Threw? {
        return None;
      }
      assert received[index..][0] == received[index] && received[index..][1..] == received[index + 1..];
      var status := assembler.Append(received[index].value);
      if status == Failed {
        return None;
      }
      if status == Complete {
        return Some(assembler.bytes);
      }
      index := index + 1;
    }
    return None;
  }

  /** The CAN line during one exchange: whether the socket is open, whether the write goes through,
      and what is received afterwards. */
  datatype Line = Line(connected: bool, writes: bool, received: seq<Reply<seq<Byte>>>)

  predicate FitsOneFrame(bytes: seq<Byte>) { 1 <= |bytes| <= 8 }

  function Exchange(request: seq<Byte>, line: Line): Option<seq<Byte>> {
    if line.connected && FitsOneFrame(request) && line.writes then Exchanged([], line.received) else None
  }

  /** `written` collects the frames handed to the socket, whether or not the write goes through. */
  method ExchangeFrame(request: seq<Byte>, line: Line) returns (written: seq<seq<Byte>>, response: Option<seq<Byte>>)
    ensures response == Exchange(request, line)
    ensures written == if line.connected && FitsOneFrame(request) then [request] else []
  {
    if !line.connected {
      return [], None;
    }
    if request == [] || |request| > 8 {
      return [], None;
    }
    written := [request];
    if !line.writes {
      return written, None;
    }
    response := ReceiveResponse(line.received);
  }

  // ---------------------------------------------------------------------------
  // Reading holding registers
  // ---------------------------------------------------------------------------

  datatype ReadResult =
    | Registers(data: seq<Byte>)
    | NoRegisters | NoResponse | BadCrc | Exception(code: Byte) | BadLength | BadHeader | BadCount

  function AppendedCrc(bytes: seq<Byte>): seq<Byte> {
    bytes + [Low(Crc(bytes)), High(Crc(bytes))]
  }

  predicate ValidCrc(bytes: seq<Byte>) {
    |bytes| >= 4 && Checked(bytes)
  }

  /** The checks of `read_holding_registers` on a received response, in the order of the source. */
  function Accepted(device: Byte, count: nat, response: seq<Byte>): ReadResult {
    if !ValidCrc(response) then BadCrc
    else if |response| == 5 && response[1] == READ_HOLDING_EXCEPTION then Exception(response[2])
    else if |response| != 2 * count + 5 then BadLength
    else if response[0] != device || response[1] != READ_HOLDING then BadHeader
    else if response[2] as nat != 2 * count then BadCount
    else Registers(response[3..3 + 2 * count])
  }

  /** The outcome of a read whose request was written. */
  function ReadOutcome(device: Byte, count: nat, received: seq<Reply<seq<Byte>>>): ReadResult {
    if count == 0 then NoRegisters
    else
      var response := Exchanged([], received);
      if response.None? then NoResponse else Accepted(device, count, response.value)
  }

  /** A request as the standard lays it out: both numbers high byte first, then a passing CRC. */
  predicate IsRequest(request: seq<Byte>, device: Byte, address: bv16, count: bv16) {
    && |request| == 8 && ValidCrc(request)
    && request[0] == device && request[1] == READ_HOLDING
    && Word(request[3], request[2]) == address && Word(request[5], request[4]) == count
  }

  method ValidateCrc(bytes: seq<Byte>) returns (valid: bool)
    ensures valid <==> ValidCrc(bytes)
  {
    if |bytes| < 4 {
      return false;
    }
    var crc := ComputeCrc(bytes[..|bytes| - 2]);
    return crc == Word(bytes[|bytes| - 2], bytes[|bytes| - 1]);
  }

  /** The exchange of a read and the checks on what comes back. */
  method ReadBack(device: Byte, count: nat, request: seq<Byte>, line: Line)
    returns (written: seq<seq<Byte>>, result: ReadResult)
    ensures written == if line.connected && FitsOneFrame(request) then [request] else []
    ensures result ==
      if Exchange(request, line).None? then NoResponse else Accepted(device, count, Exchange(request, line).value)
  {
    var exchanged;
    written, exchanged := ExchangeFrame(request, line);
    if exchanged.None? {
      return written, NoResponse;
    }
    result := CheckResponse(device, count, exchanged.value);
  }

  /** One read: exactly one frame is written, the request, unless nothing is asked for or the socket
      is closed; and the outcome is that of the checks on what comes back. */
  method ReadHoldingRegisters(device: Byte, address: bv16, count: bv16, line: Line)
    returns (written: seq<seq<Byte>>, result: ReadResult)
    ensures count == 0 || !line.connected ==> written == []
    ensures count != 0 && line.connected ==> |written| == 1 && IsRequest(written[0], device, address, count)
    ensures result ==
      if count == 0 || (line.connected && line.writes) then ReadOutcome(device, count as nat, line.received)
      else NoResponse
  {
    var registers := count as nat;
    if registers == 0 {
      return [], NoRegisters;
    }
    var request := BuildRequest(device, address, count);
    written, result := ReadBack(device, registers, request, line);
  }

  method CheckResponse(device: Byte, count: nat, response: seq<Byte>) returns (result: ReadResult)
    ensures result == Accepted(device, count, response)
  {
    var valid := ValidateCrc(response);
    if !valid {
      return BadCrc;
    }
    if |response| == 5 && response[1] == READ_HOLDING_EXCEPTION {
      return Exception(response[2]);
    }
    if |response| != 2 * count + 5 {
      return BadLength;
    }
    if response[0] != device || response[1] != READ_HOLDING {
      return BadHeader;
    }
    if response[2] as nat != 2 * count {
      return BadCount;
    }
    return Registers(response[3..3 + 2 * count]);
  }

  method BuildRequest(device: Byte, address: bv16, count: bv16) returns (request: seq<Byte>)
    ensures IsRequest(request, device, address, count)
  {
    var bytes := [device, READ_HOLDING, High(address), Low(address), High(count), Low(count)];
    var crc := ComputeCrc(bytes);
    request := bytes + [Low(crc)] + [High(crc)];
    assert request == AppendedCrc(bytes);
    AppendedCrcPasses(bytes);
    PartsOfWord(address);
    PartsOfWord(count);
  }

  // ---------------------------------------------------------------------------
  // Fragmentation independence
  // ---------------------------------------------------------------------------

  /** A response that is as long as it announces. */
  predicate WellFormed(response: seq<Byte>) {
    ExpectedSize(response) == Some(|response|)
  }

  /** Every proper prefix of a well-formed response is incomplete, and the whole is complete. */
  lemma PrefixStatus(response: seq<Byte>, n: nat)
    requires WellFormed(response) && n <= |response|
    ensures StatusOf(response[..n]) == if n == |response| then Complete else Incomplete
  {
    if n == |response| {
      assert response[..n] == response;
    } else if ExpectedSize(response[..n]).Some? {
      ExpectedSizeIsStable(response[..n], response[n..]);
      assert response[..n] + response[n..] == response;
    }
  }

  /** Any split of a well-formed response into non-empty fragments is incomplete until the last
      fragment and complete with it. */
  lemma FragmentsAssemble(response: seq<Byte>, fragments: seq<seq<Byte>>, k: nat)
    requires WellFormed(response) && NonEmpty(fragments) && Joined(fragments) == response
    requires 0 < k <= |fragments|
    ensures StatusOf(Joined(fragments[..k])) == if k == |fragments| then Complete else Incomplete
  {
    JoinedPrefix(fragments, k);
    PrefixStatus(response, |Joined(fragments[..k])|);
    assert fragments[..|fragments|] == fragments;
  }

  function Delivered(fragments: seq<seq<Byte>>): seq<Reply<seq<Byte>>> {
    seq(|fragments|, i requires 0 <= i < |fragments| => Returned(fragments[i]))
  }

  /** The loop, resumed after the first `k` fragments. */
  lemma {:induction false} ExchangeResumes(
      response: seq<Byte>, fragments: seq<seq<Byte>>, tail: seq<Reply<seq<Byte>>>, k: nat)
    requires WellFormed(response) && NonEmpty(fragments) && Joined(fragments) == response
    requires k < |fragments|
    ensures Exchanged(Joined(fragments[..k]), Delivered(fragments)[k..] + tail) == Some(response)
    decreases |fragments| - k
  {
    var rest := Delivered(fragments)[k..] + tail;
    assert rest[0] == Returned(fragments[k]);
    assert rest[1..] == Delivered(fragments)[k + 1..] + tail;
    assert fragments[..k + 1][..k] == fragments[..k];
    FragmentsAssemble(response, fragments, k + 1);
    if k + 1 < |fragments| {
      ExchangeResumes(response, fragments, tail, k + 1);
    } else {
      assert fragments[..k + 1] == fragments;
    }
  }

  /** Fragmentation independence of an exchange: any split of a well-formed response gives the
      exact response, whatever arrives afterwards. */
  lemma FragmentationDoesNotMatter(response: seq<Byte>, fragments: seq<seq<Byte>>, tail: seq<Reply<seq<Byte>>>)
    requires WellFormed(response) && NonEmpty(fragments) && Joined(fragments) == response
    ensures Exchanged([], Delivered(fragments) + tail) == Some(response)
  {
    assert fragments != [];
    ExchangeResumes(response, fragments, tail, 0);
    assert fragments[..0] == [];
    assert Delivered(fragments)[0..] == Delivered(fragments);
  }

  /** And an exchange returns nothing else than a well-formed response. */
  lemma {:induction false} ExchangeIsWellFormed(bytes: seq<Byte>, received: seq<Reply<seq<Byte>>>)
    ensures Exchanged(bytes, received).Some? ==> WellFormed(Exchanged(bytes, received).value)
    decreases |received|
  {
    if received != [] && received[0].Returned? && received[0].value != [] {
      ExchangeIsWellFormed(bytes + received[0].value, received[1..]);
    }
  }

  // ---------------------------------------------------------------------------
  // Replies
  // ---------------------------------------------------------------------------

  /** The reply the standard prescribes for reading `|data| / 2` registers; `size` is the byte
      that counts the data. */
  function BuiltReply(device: Byte, size: Byte, data: seq<Byte>): seq<Byte>
    requires size as nat == |data|
  {
    AppendedCrc([device, READ_HOLDING, size] + data)
  }

  lemma SizeBound(size: Byte)
    ensures size as nat <= 255
  {
  }

  /** The parts a built reply is made of. */
  lemma BuiltReplyParts(device: Byte, size: Byte, data: seq<Byte>)
    requires size as nat == |data|
    ensures var reply := BuiltReply(device, size, data);
      && |reply| == |data| + 5 && reply[0] == device && reply[1] == READ_HOLDING
      && reply[2] == size && reply[3..3 + |data|] == data
      && Checked(reply)
  {
    AppendedCrcPasses([device, READ_HOLDING, size] + data);
  }

  lemma BuiltReplyIsAccepted(device: Byte, size: Byte, data: seq<Byte>, count: nat)
    requires count >= 1 && size as nat == |data| == 2 * count
    ensures Accepted(device, count, BuiltReply(device, size, data)) == Registers(data)
    ensures WellFormed(BuiltReply(device, size, data))
  {
    BuiltReplyParts(device, size, data);
  }

  /** A checked buffer is its content with the CRC appended. */
  lemma CheckedIsAppended(bytes: seq<Byte>)
    requires Checked(bytes)
    ensures bytes == AppendedCrc(bytes[..|bytes| - 2])
  {
    var content := bytes[..|bytes| - 2];
    assert bytes == content + [bytes[|content|], bytes[|content| + 1]];
    WordOfParts(bytes[|content|], bytes[|content| + 1]);
  }

  /** An accepted response is the reply built from its data. */
  lemma AcceptedIsBuiltReply(device: Byte, count: nat, response: seq<Byte>)
    requires Accepted(device, count, response).Registers?
    ensures var data := Accepted(device, count, response).data;
      && |response| == 2 * count + 5
      && response[2] as nat == |data| == 2 * count <= 254
      && response == BuiltReply(device, response[2], data)
  {
    SizeBound(response[2]);
    CheckedIsAppended(response);
    assert response[..|response| - 2] == [device, READ_HOLDING, response[2]] + response[3..3 + 2 * count];
  }

  /** A response is accepted with data exactly if it is the reply built from that data. For more
      than 127 registers no byte counts the data, so no response is ever accepted. */
  lemma AcceptedIff(device: Byte, count: nat, response: seq<Byte>, data: seq<Byte>)
    requires count >= 1
    ensures Accepted(device, count, response) == Registers(data) <==>
      exists size: Byte :: size as nat == |data| == 2 * count && response == BuiltReply(device, size, data)
    ensures Accepted(device, count, response) == Registers(data) ==> count <= 127
  {
    if Accepted(device, count, response).Registers? {
      AcceptedIsBuiltReply(device, count, response);
    }
    if size: Byte :| size as nat == |data| == 2 * count && response == BuiltReply(device, size, data) {
      BuiltReplyIsAccepted(device, size, data, count);
    }
  }

  /** End to end: a correctly built reply, in any fragmentation, yields exactly its data. */
  lemma ReplyYieldsItsData(
      device: Byte, size: Byte, data: seq<Byte>, count: nat, fragments: seq<seq<Byte>>, tail: seq<Reply<seq<Byte>>>)
    requires count >= 1 && size as nat == |data| == 2 * count
    requires NonEmpty(fragments) && Joined(fragments) == BuiltReply(device, size, data)
    ensures ReadOutcome(device, count, Delivered(fragments) + tail) == Registers(data)
  {
    BuiltReplyIsAccepted(device, size, data, count);
    FragmentationDoesNotMatter(BuiltReply(device, size, data), fragments, tail);
  }

  /** The exception reply of the standard: the function code with its high bit set, and a code. */
  function BuiltException(sender: Byte, code: Byte): seq<Byte> {
    AppendedCrc([sender, 0x83, code])
  }

  lemma BuiltExceptionParts(sender: Byte, code: Byte)
    ensures var reply := BuiltException(sender, code);
      && |reply| == 5 && reply[0] == sender && reply[1] == 0x83 && reply[2] == code
      && Checked(reply)
  {
    AppendedCrcPasses([sender, 0x83, code]);
  }

  /** A response is taken for an exception exactly if it is the exception reply with that code,
      whichever device sent it. */
  lemma ExceptionIff(device: Byte, count: nat, response: seq<Byte>, code: Byte)
    ensures Accepted(device, count, response) == Exception(code) <==>
      exists sender: Byte :: response == BuiltException(sender, code)
  {
    if Accepted(device, count, response) == Exception(code) {
      CheckedIsAppended(response);
      assert response[..3] == [response[0], 0x83, code];
      assert response == BuiltException(response[0], code);
    }
    if sender: Byte :| response == BuiltException(sender, code) {
      BuiltExceptionParts(sender, code);
    }
  }

  /** End to end: an exception reply, in any fragmentation, ends the read with its code. */
  lemma ExceptionYieldsItsCode(
      sender: Byte, code: Byte, device: Byte, count: nat, fragments: seq<seq<Byte>>, tail: seq<Reply<seq<Byte>>>)
    requires count >= 1 && NonEmpty(fragments) && Joined(fragments) == BuiltException(sender, code)
    ensures ReadOutcome(device, count, Delivered(fragments) + tail) == Exception(code)
  {
    BuiltExceptionParts(sender, code);
    FragmentationDoesNotMatter(BuiltException(sender, code), fragments, tail);
  }

  /** No response is ever accepted for zero registers or for more than 127. */
  lemma OversizedReadsNeverSucceed(device: Byte, count: nat, received: seq<Reply<seq<Byte>>>)
    ensures ReadOutcome(device, count, received).Registers? ==> 1 <= count <= 127
  {
    if ReadOutcome(device, count, received).Registers? {
      AcceptedIsBuiltReply(device, count, Exchanged([], received).value);
    }
  }

  /** Damage to at most two adjacent bytes of a reply is always rejected by the CRC. */
  lemma DamagedReplyIsRejected(
      device: Byte, size: Byte, data: seq<Byte>, count: nat, response: seq<Byte>, at: nat)
    requires size as nat == |data| && response != BuiltReply(device, size, data)
    requires DifferWithinTwo(BuiltReply(device, size, data), response, at)
    ensures Accepted(device, count, response) == BadCrc
  {
    BuiltReplyParts(device, size, data);
    if Checked(response) {
      AdjacentErrorsAreDetected(BuiltReply(device, size, data), response, at);
    }
  }

  lemma {:induction false} ExchangeExtends(bytes: seq<Byte>, received: seq<Reply<seq<Byte>>>)
    ensures Exchanged(bytes, received).Some? ==> |Exchanged(bytes, received).value| > |bytes|
    decreases |received|
  {
    if received != [] && received[0].Returned? && received[0].value != [] {
      ExchangeExtends(bytes + received[0].value, received[1..]);
    }
  }

  /** Whatever the fragments hold, an exchange ends at one of their boundaries or after them all. */
  lemma {:induction false} ExchangeEndsAtABoundary(
      fragments: seq<seq<Byte>>, tail: seq<Reply<seq<Byte>>>, k: nat, response: seq<Byte>)
    requires NonEmpty(fragments) && k <= |fragments|
    requires Exchanged(Joined(fragments[..k]), Delivered(fragments)[k..] + tail) == Some(response)
    ensures |response| > |Joined(fragments)| || exists j :: k < j <= |fragments| && response == Joined(fragments[..j])
    decreases |fragments| - k
  {
    var rest := Delivered(fragments)[k..] + tail;
    if k == |fragments| {
      assert fragments[..k] == fragments && rest == tail;
      ExchangeExtends(Joined(fragments), tail);
    } else {
      assert rest[0] == Returned(fragments[k]) && rest[1..] == Delivered(fragments)[k + 1..] + tail;
      assert fragments[..k + 1][..k] == fragments[..k];
      var grown := Joined(fragments[..k + 1]);
      assert grown == Joined(fragments[..k]) + fragments[k];
      if StatusOf(grown) == Incomplete {
        ExchangeEndsAtABoundary(fragments, tail, k + 1, response);
      }
    }
  }

  /** End to end: a reply damaged within two adjacent bytes, the byte that counts its data included,
      yields no registers, in any fragmentation and whatever arrives afterwards. */
  lemma DamagedReplyYieldsNothing(
      device: Byte, size: Byte, data: seq<Byte>, count: nat, damaged: seq<Byte>, at: nat,
      fragments: seq<seq<Byte>>, tail: seq<Reply<seq<Byte>>>)
    requires size as nat == |data| == 2 * count && damaged != BuiltReply(device, size, data)
    requires DifferWithinTwo(BuiltReply(device, size, data), damaged, at)
    requires NonEmpty(fragments) && Joined(fragments) == damaged
    ensures !ReadOutcome(device, count, Delivered(fragments) + tail).Registers?
  {
    var received := Delivered(fragments) + tail;
    if ReadOutcome(device, count, received).Registers? {
      var response := Exchanged([], received).value;
      AcceptedIsBuiltReply(device, count, response);
      assert fragments[..0] == [] && Delivered(fragments)[0..] == Delivered(fragments);
      ExchangeEndsAtABoundary(fragments, tail, 0, response);
      BuiltReplyParts(device, size, data);
      var j :| 0 < j <= |fragments| && response == Joined(fragments[..j]);
      JoinedPrefix(fragments, j);
      assert fragments[..|fragments|] == fragments;
      DamagedReplyIsRejected(device, size, data, count, damaged, at);
    }
  }
}
