/** `Pipe`: what the client needs of a platform pipe (write, read, close),
    the default `send`, the outcomes of a `read`, and the probe loop both
    platform constructors run over their ten candidate endpoints. */
module Pipe {
  import opened Wrappers
  import opened JavaInt
  import opened Json
  import Nio
  import opened DiscordPacket
  import opened Exceptions

  /** The exceptions out of `read` that the reader loop catches. */
  datatype ReadFailure =
    | AsynchronousClose          // AsynchronousCloseException
    | BufferUnderflow            // BufferUnderflowException
    | Io(e: IOException)         // any other IOException

  /** Unchecked exceptions out of `read`; nothing catches them. */
  datatype RuntimeFault =
    | OrdinalOutOfRange(ordinal: int32)   // OpCode.values()[ordinal]
    | NegativeSize(size: int32)           // allocating a negative-size buffer or array
    | MalformedJson                       // Gson's JsonSyntaxException

  /** What Gson's `fromJson(text, JsonObject.class)` gives for a payload:
      an object, `null` (for an empty text), or an exception. */
  datatype Parsed = Object(members: Members) | NullObject | Malformed

  /** The result of one `Pipe.read()`: a packet, `null`, or an exception. */
  datatype ReadOutcome =
    | Received(packet: Packet)
    | NoPacket
    | Threw(failure: ReadFailure)
    | Unchecked(fault: RuntimeFault)

  /** An exception a channel's `read` throws. */
  datatype ChannelFault = Closed | Failed(e: IOException)

  function ChannelFailure(f: ChannelFault): (r: ReadFailure)
    ensures r != BufferUnderflow
  {
    match f
    case Closed => AsynchronousClose
    case Failed(e) => Io(e)
  }

  /** The buffer a read of a `size`-byte payload hands to Gson when the
      stream holds `input` after the header: exactly `size` bytes, those the
      stream delivered first and zeros for the rest (neither pipe loops on a
      short read). */
  function Payload(input: seq<byte>, size: nat): (p: seq<byte>)
    ensures |p| == size
    ensures forall i :: 0 <= i < size ==> p[i] == if i < |input| then input[i] else 0
  {
    var got := Min(size, |input|);
    input[..got] + Nio.Zeros(size - got)
  }

  /** The end of both reads: `new DiscordPacket(opCode, GSON.fromJson(...))`. */
  function PacketOf(op: OpCode, parsed: Parsed): (r: ReadOutcome)
    ensures r.Received? <==> !parsed.Malformed?
    ensures r.Received? ==> r.packet.opCode == op
  {
    match parsed
    case Object(ms) => Received(Packet(op, Some(ms)))
    case NullObject => Received(Packet(op, None))
    case Malformed => Unchecked(MalformedJson)
  }

  /** The endpoint a pipe is connected to. */
  datatype Endpoint = UnixSocket(path: string) | NamedPipe(name: string)

  /** An open pipe. `writes` records the data of every `write` call in order;
      what the other side receives from a failing write is not modelled. */
  class Pipe {
    const endpoint: Endpoint
    var writes: seq<seq<byte>>
    var open: bool

    constructor (endpoint: Endpoint)
      ensures this.endpoint == endpoint && writes == [] && open
    {
      this.endpoint := endpoint;
      writes := [];
      open := true;
    }

    /** `write(data)`; `fault` is the `IOException` the device raises, if any. */
    method Write(data: seq<byte>, fault: Option<IOException>) returns (r: Option<IOException>)
      modifies this
      ensures writes == old(writes) + [data] && open == old(open) && r == fault
    {
      writes := writes + [data];
      r := fault;
    }

    /** The default `send`: adds a `nonce` member to the caller's object in
        place, then makes exactly one `write` of the frame of that object
        under the opcode passed in. */
    method Send(op: OpCode, json: JsonObject, nonce: string, serialize: Members -> JsonText,
                fault: Option<IOException>) returns (r: Option<IOException>)
      modifies this, json
      ensures json.members == Put(old(json.members), "nonce", JString(nonce))
      ensures writes == old(writes) + [Frame(op, serialize(json.members))]
      ensures open == old(open) && r == fault
    {
      json.AddProperty("nonce", JString(nonce));
      var bytes := ToBytes(Packet(op, Some(json.members)), serialize);
      r := Write(bytes[..], fault);
    }

    /** `close()`; `fault` is the `IOException` the device raises, if any. */
    method Close(fault: Option<IOException>) returns (r: Option<IOException>)
      modifies this
      ensures !open && writes == old(writes) && r == fault
    {
      open := false;
      r := fault;
    }
  }

  /** Candidate `i` can be used: it exists and opening or connecting to it
      succeeds. */
  predicate Reachable(candidates: seq<string>, fileExists: string -> bool, opens: string -> bool, i: nat)
    requires i < |candidates|
  {
    fileExists(candidates[i]) && opens(candidates[i])
  }

  /** The first candidate at or after `from` that can be used, if any: the
      one a probe settles on. */
  function FirstReachable(candidates: seq<string>, fileExists: string -> bool, opens: string -> bool, from: nat): (r: Option<nat>)
    requires from <= |candidates|
    decreases |candidates| - from
  {
    if from == |candidates| then None
    else if Reachable(candidates, fileExists, opens, from) then Some(from)
    else FirstReachable(candidates, fileExists, opens, from + 1)
  }

  /** `FirstReachable` finds a usable candidate exactly when there is one, and
      every candidate it skips is unusable. */
  lemma {:induction false} FirstReachableIsFirst(candidates: seq<string>, fileExists: string -> bool, opens: string -> bool, from: nat)
    requires from <= |candidates|
    ensures FirstReachable(candidates, fileExists, opens, from).Some? ==>
      var i := FirstReachable(candidates, fileExists, opens, from).value;
      && from <= i < |candidates|
      && Reachable(candidates, fileExists, opens, i)
      && forall j :: from <= j < i ==> !Reachable(candidates, fileExists, opens, j)
    ensures FirstReachable(candidates, fileExists, opens, from).None? ==>
      forall j :: from <= j < |candidates| ==> !Reachable(candidates, fileExists, opens, j)
    decreases |candidates| - from
  {
    if from < |candidates| && !Reachable(candidates, fileExists, opens, from) {
      FirstReachableIsFirst(candidates, fileExists, opens, from + 1);
    }
  }

  /** The indices below `n` whose candidate exists, ascending: the candidates
      a probe of the first `n` tries to open. */
  function Existing(candidates: seq<string>, fileExists: string -> bool, n: nat): (r: seq<nat>)
    requires n <= |candidates|
    ensures forall k :: 0 <= k < |r| ==> r[k] < n && fileExists(candidates[r[k]])
    ensures forall k, l :: 0 <= k < l < |r| ==> r[k] < r[l]
    ensures forall j :: 0 <= j < n && fileExists(candidates[j]) ==> j in r
  {
    if n == 0 then []
    else
      var prefix := Existing(candidates, fileExists, n - 1);
      if fileExists(candidates[n - 1]) then prefix + [n - 1] else prefix
  }

  /** The probe loop of both constructors: tries the candidates in ascending
      order, skips those that do not exist, and stops at the first one that
      opens. `attempted` lists the candidates it tried to open. */
  method Probe(candidates: seq<string>, fileExists: string -> bool, opens: string -> bool)
    returns (chosen: Option<nat>, attempted: seq<nat>)
    ensures chosen.Some? ==>
      && chosen.value < |candidates|
      && Reachable(candidates, fileExists, opens, chosen.value)
      && (forall j :: 0 <= j < chosen.value ==> !Reachable(candidates, fileExists, opens, j))
    ensures chosen.None? ==> forall j :: 0 <= j < |candidates| ==> !Reachable(candidates, fileExists, opens, j)
    ensures attempted == Existing(candidates, fileExists,
                                  if chosen.Some? then chosen.value + 1 else |candidates|)
    ensures chosen == FirstReachable(candidates, fileExists, opens, 0)
  {
    chosen, attempted := None, [];
    var i := 0;
    while i < |candidates|
      invariant 0 <= i <= |candidates|
      invariant forall j :: 0 <= j < i ==> !Reachable(candidates, fileExists, opens, j)
      invariant FirstReachable(candidates, fileExists, opens, 0) == FirstReachable(candidates, fileExists, opens, i)
      invariant attempted == Existing(candidates, fileExists, i)
    {
      var file := candidates[i];
      if fileExists(file) {
        attempted := attempted + [i];
        if opens(file) {
          chosen := Some(i);
          return;
        }
      }
      i := i + 1;
    }
  }
}
