/** `WindowsPipe`: the probe of `\\.\pipe\discord-ipc-0` to `-9`, the
    polling wait of `read()`, and the decoding of a packet from the pipe,
    where every `IOException` becomes a `null` packet. The file system is an
    oracle: `fileExists` is `File.exists`, `opensReadWrite` says whether
    `new RandomAccessFile(file, "rw")` succeeds. */
module WindowsPipe {
  import opened Wrappers
  import opened JavaInt
  import opened Json
  import opened DiscordPacket
  import opened Exceptions
  import opened Pipe

  /** The name `\\.\pipe\discord-ipc-` */
  const PIPE_PREFIX: string := "\\\\.\\pipe\\discord-ipc-"

  const CANDIDATE_COUNT: nat := 10

  function Candidate(i: nat): (r: string)
  {
    PIPE_PREFIX + NatToString(i)
  }

  function Candidates(): (c: seq<string>)
    ensures |c| == CANDIDATE_COUNT
  {
    seq(CANDIDATE_COUNT, i requires 0 <= i => Candidate(i))
  }

  /** Where the constructor ends up: the name of the first candidate that
      exists and opens for reading and writing, or the
      `NoDiscordException` it throws when none does. */
  function Discover(fileExists: string -> bool, opensReadWrite: string -> bool): (r: Result<Endpoint, DiscordException>)
    ensures r.Err? ==>
      && r.error == NoDiscord("Discord client not found")
      && forall i :: 0 <= i < CANDIDATE_COUNT ==> !Reachable(Candidates(), fileExists, opensReadWrite, i)
    ensures r.Ok? ==>
      exists i :: 0 <= i < CANDIDATE_COUNT
        && r.value == NamedPipe(Candidate(i))
        && Reachable(Candidates(), fileExists, opensReadWrite, i)
        && forall j :: 0 <= j < i ==> !Reachable(Candidates(), fileExists, opensReadWrite, j)
  {
    FirstReachableIsFirst(Candidates(), fileExists, opensReadWrite, 0);
    match FirstReachable(Candidates(), fileExists, opensReadWrite, 0)
    case None => Err(NoDiscord("Discord client not found"))
    case Some(i) => Ok(NamedPipe(Candidates()[i]))
  }

  /** The constructor: keeps the first candidate that exists and opens for
      reading and writing, skipping those that fail to open, and throws
      `NoDiscordException` when none opens. */
  method Open(fileExists: string -> bool, opensReadWrite: string -> bool)
    returns (r: Result<Pipe, DiscordException>)
    ensures r.Err? ==> Discover(fileExists, opensReadWrite) == Err(r.error)
    ensures r.Ok? ==>
      && Discover(fileExists, opensReadWrite) == Ok(r.value.endpoint)
      && fresh(r.value) && r.value.open && r.value.writes == []
  {
    var candidates := Candidates();
    var chosen, _ := Probe(candidates, fileExists, opensReadWrite);
    if chosen.None? {
      return Err(NoDiscord("Discord client not found"));
    }
    var pipe := new Pipe(NamedPipe(candidates[chosen.value]));
    r := Ok(pipe);
  }

  /** One evaluation of the wait loop's condition: the client's
      `isConnected`, and what `pipe.length()` returns or throws. */
  datatype Poll = Poll(connected: bool, length: Result<int, IOException>)

  /** The loop goes on sleeping after this poll. */
  predicate Waits(p: Poll)
  {
    p.connected && p.length == Ok(0)
  }

  /** The wait loop of `read()`: polls until the client is disconnected or
      the pipe has pending bytes (or `length()` throws). `k` is the poll at
      which it exits, `|polls|` if it is still waiting after all of them. */
  method AwaitData(polls: seq<Poll>) returns (k: nat)
    ensures k <= |polls|
    ensures forall j :: 0 <= j < k ==> Waits(polls[j])
    ensures k < |polls| ==> !Waits(polls[k])
  {
    k := 0;
    while k < |polls| && polls[k].connected && polls[k].length == Ok(0)
      invariant k <= |polls|
      invariant forall j :: 0 <= j < k ==> Waits(polls[j])
    {
      k := k + 1;
    }
  }

  /** The reads inside the `try` block of `read()`. */
  datatype ReadCall = OpcodeRead | SizeRead | PayloadRead

  /** What the `try` block of `read()` does with the bytes `input` the pipe
      holds when `fault` names the read call that throws an `IOException`, if
      any; `parse` is Gson. `readInt` at end of file throws `EOFException`. */
  function Decode(input: seq<byte>, fault: Option<ReadCall>, parse: seq<byte> -> Parsed): (r: ReadOutcome)
    ensures !r.Threw?
  {
    if fault == Some(OpcodeRead) || |input| < INTEGER_BYTES then NoPacket
    else
      var ordinal := ReverseBytes(GetInt(input[0..4]));
      match FromOrdinal(ordinal)
      case None => Unchecked(OrdinalOutOfRange(ordinal))
      case Some(op) =>
        if fault == Some(SizeRead) || |input| < 2 * INTEGER_BYTES then NoPacket
        else
          var size := ReverseBytes(GetInt(input[4..8]));
          if size < 0 then Unchecked(NegativeSize(size))
          else if fault == Some(PayloadRead) then NoPacket
          else PacketOf(op, parse(Payload(input[8..], size)))
  }

  /** `pipe.read(payload)`: stores the bytes the pipe delivers at the start of
      the array, in place. */
  method FillFrom(payload: array<byte>, delivered: seq<byte>)
    requires |delivered| <= payload.Length
    modifies payload
    ensures payload[..] == delivered + old(payload[|delivered|..])
  {
    var i := 0;
    while i < |delivered|
      invariant 0 <= i <= |delivered|
      invariant forall k :: 0 <= k < payload.Length ==>
        payload[k] == if k < i then delivered[k] else old(payload[k])
    {
      payload[i] := delivered[i];
      i := i + 1;
    }
    assert forall k :: 0 <= k < payload.Length ==> payload[..][k] == (delivered + old(payload[|delivered|..]))[k];
  }

  /** The `try` block of `read()`: two `reverseBytes(readInt())`, an array of
      exactly `size` bytes filled by one `read`, and Gson; an `IOException`
      anywhere in it gives `null`. */
  method ReadPacket(input: seq<byte>, fault: Option<ReadCall>, parse: seq<byte> -> Parsed)
    returns (outcome: ReadOutcome)
    ensures outcome == Decode(input, fault, parse)
  {
    if fault == Some(OpcodeRead) || |input| < INTEGER_BYTES {
      return NoPacket;
    }
    var ordinal := ReverseBytes(GetInt(input[0..4]));
    var opCode := FromOrdinal(ordinal);
    if opCode.None? {
      return Unchecked(OrdinalOutOfRange(ordinal));
    }
    if fault == Some(SizeRead) || |input| < 2 * INTEGER_BYTES {
      return NoPacket;
    }
    var size := ReverseBytes(GetInt(input[4..8]));
    if size < 0 {
      return Unchecked(NegativeSize(size));
    }
    var payload := new byte[size](_ => 0);
    if fault == Some(PayloadRead) {
      return NoPacket;
    }
    var got := Min(size, |input| - 8);
    FillFrom(payload, input[8..8 + got]);
    assert payload[..] == Payload(input[8..], size);
    outcome := PacketOf(opCode.value, parse(payload[..]));
  }

  /** `read()`: the wait loop, then the `try` block; `None` while the loop is
      still waiting after the given polls. A `length()` that throws ends the
      wait with its `IOException`, which `read()` does not catch. */
  method Read(polls: seq<Poll>, input: seq<byte>, fault: Option<ReadCall>, parse: seq<byte> -> Parsed)
    returns (r: Option<ReadOutcome>)
    ensures (forall j :: 0 <= j < |polls| ==> Waits(polls[j])) ==> r == None
    ensures forall k :: 0 <= k < |polls| && !Waits(polls[k]) && (forall j :: 0 <= j < k ==> Waits(polls[j])) ==>
      r == Some(if polls[k].connected && polls[k].length.Err? then Threw(Io(polls[k].length.error))
                else Decode(input, fault, parse))
  {
    var k := AwaitData(polls);
    if k == |polls| {
      return None;
    }
    if polls[k].connected && polls[k].length.Err? {
      return Some(Threw(Io(polls[k].length.error)));
    }
    var outcome := ReadPacket(input, fault, parse);
    r := Some(outcome);
  }

  /** Reading a whole frame gives back its opcode and the object Gson makes
      of its payload. */
  lemma ReadsFrame(op: OpCode, text: JsonText, rest: seq<byte>, parse: seq<byte> -> Parsed)
    ensures Decode(Frame(op, text) + rest, None, parse) == PacketOf(op, parse(text))
  {
    DecodeFrameHeader(op, text, rest);
    var input := Frame(op, text) + rest;
    assert Payload(input[8..], |text|) == text;
  }

  /** An `IOException` in any of the three reads gives `null`, unless an
      unchecked error (a bad ordinal or a negative size) came first. */
  lemma FaultsBecomeNull(input: seq<byte>, call: ReadCall, parse: seq<byte> -> Parsed)
    ensures Decode(input, Some(call), parse) == NoPacket || Decode(input, Some(call), parse).Unchecked?
    ensures call == OpcodeRead ==> Decode(input, Some(call), parse) == NoPacket
  {
  }
}
