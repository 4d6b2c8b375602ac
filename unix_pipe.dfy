/** `UnixPipe`: the socket directory taken from the environment, the probe of
    `<dir>/discord-ipc-0` to `-9`, and the decoding of a packet from the
    socket. The environment, the file system and the socket are oracles:
    `env` is what `System.getenv` returns, `fileExists` is `File.exists`,
    `connects` says whether `socket.connect` succeeds. */
module UnixPipe {
  import opened Wrappers
  import opened JavaInt
  import opened Json
  import opened Nio
  import opened DiscordPacket
  import opened Exceptions
  import opened Pipe

  /** The environment variables tried for the socket directory, in order. */
  const LOCATIONS: seq<string> := ["XDG_RUNTIME_DIR", "TMPDIR", "TMP", "TEMP"]

  /** The directory used when none of them is set. */
  const FALLBACK: string := "/tmp"

  const CANDIDATE_COUNT: nat := 10

  /** The value of the first of `names` that is set in `env`. */
  function FirstSet(names: seq<string>, env: map<string, string>): (r: Option<string>)
  {
    if names == [] then None
    else if names[0] in env then Some(env[names[0]])
    else FirstSet(names[1..], env)
  }

  /** The directory the constructor searches. */
  function Directory(env: map<string, string>): (dir: string)
  {
    match FirstSet(LOCATIONS, env)
    case Some(location) => location
    case None => FALLBACK
  }

  /** `FirstSet` picks the first set name, and finds nothing exactly when
      none is set. */
  lemma {:induction false} FirstSetIsFirst(names: seq<string>, env: map<string, string>)
    ensures forall i :: 0 <= i < |names| && names[i] in env && (forall j :: 0 <= j < i ==> names[j] !in env)
                        ==> FirstSet(names, env) == Some(env[names[i]])
    ensures FirstSet(names, env) == None <==> forall j :: 0 <= j < |names| ==> names[j] !in env
    decreases |names|
  {
    if names != [] {
      var tail := names[1..];
      FirstSetIsFirst(tail, env);
      assert forall j :: 1 <= j < |names| ==> names[j] == tail[j - 1];
      if names[0] !in env {
        forall i | 1 <= i < |names| && names[i] in env && (forall j :: 0 <= j < i ==> names[j] !in env)
          ensures FirstSet(names, env) == Some(env[names[i]])
        {
          assert tail[i - 1] == names[i];
          assert forall j :: 0 <= j < i - 1 ==> tail[j] == names[j + 1];
        }
      }
    }
  }

  /** The directory is the value of the first of the four variables that is
      set (an empty value counts as set), and `/tmp` when none is. */
  lemma DirectoryIsFirstSet(env: map<string, string>)
    ensures forall i :: 0 <= i < |LOCATIONS| && LOCATIONS[i] in env
                        && (forall j :: 0 <= j < i ==> LOCATIONS[j] !in env)
                        ==> Directory(env) == env[LOCATIONS[i]]
    ensures (forall j :: 0 <= j < |LOCATIONS| ==> LOCATIONS[j] !in env) ==> Directory(env) == FALLBACK
  {
    FirstSetIsFirst(LOCATIONS, env);
  }

  /** The first loop of the constructor: tries each variable in turn and
      stops at the first that is not `null`. */
  method ResolveDirectory(env: map<string, string>) returns (location: string)
    ensures location == Directory(env)
  {
    var found: Option<string> := None;
    var k := 0;
    while k < |LOCATIONS|
      invariant 0 <= k <= |LOCATIONS|
      invariant found.None? ==> FirstSet(LOCATIONS, env) == FirstSet(LOCATIONS[k..], env)
      invariant found.Some? ==> FirstSet(LOCATIONS, env) == found
    {
      assert LOCATIONS[k..][1..] == LOCATIONS[k + 1..];
      if LOCATIONS[k] in env {
        found := Some(env[LOCATIONS[k]]);
        break;
      }
      k := k + 1;
    }
    location := if found.Some? then found.value else FALLBACK;
  }

  /** `location + "/discord-ipc-" + i` */
  function Candidate(dir: string, i: nat): (r: string)
  {
    dir + "/discord-ipc-" + NatToString(i)
  }

  function Candidates(dir: string): (c: seq<string>)
    ensures |c| == CANDIDATE_COUNT
  {
    seq(CANDIDATE_COUNT, i requires 0 <= i => Candidate(dir, i))
  }

  /** Where the constructor ends up: the endpoint of the first candidate
      that exists and accepts a connection, or the `NoDiscordException` it
      throws (`socketOpens` says whether `SocketChannel.open` succeeds). */
  function Discover(env: map<string, string>, socketOpens: bool,
                    fileExists: string -> bool, connects: string -> bool): (r: Result<Endpoint, DiscordException>)
    ensures !socketOpens ==> r == Err(NoDiscord("Failed to open socket"))
    ensures socketOpens && r.Err? ==>
      && r.error == NoDiscord("Discord client not found")
      && forall i :: 0 <= i < CANDIDATE_COUNT ==> !Reachable(Candidates(Directory(env)), fileExists, connects, i)
    ensures r.Ok? ==>
      && socketOpens
      && exists i :: 0 <= i < CANDIDATE_COUNT
           && r.value == UnixSocket(Candidate(Directory(env), i))
           && Reachable(Candidates(Directory(env)), fileExists, connects, i)
           && forall j :: 0 <= j < i ==> !Reachable(Candidates(Directory(env)), fileExists, connects, j)
  {
    var candidates := Candidates(Directory(env));
    FirstReachableIsFirst(candidates, fileExists, connects, 0);
    if !socketOpens then Err(NoDiscord("Failed to open socket"))
    else match FirstReachable(candidates, fileExists, connects, 0)
      case None => Err(NoDiscord("Discord client not found"))
      case Some(i) => Ok(UnixSocket(candidates[i]))
  }

  /** The constructor: opens a socket, resolves the directory, connects to
      the first candidate that exists and accepts the connection, and throws
      `NoDiscordException` when none does. */
  method Open(env: map<string, string>, socketOpens: bool,
              fileExists: string -> bool, connects: string -> bool)
    returns (r: Result<Pipe, DiscordException>)
    ensures r.Err? ==> Discover(env, socketOpens, fileExists, connects) == Err(r.error)
    ensures r.Ok? ==>
      && Discover(env, socketOpens, fileExists, connects) == Ok(r.value.endpoint)
      && fresh(r.value) && r.value.open && r.value.writes == []
  {
    if !socketOpens {
      return Err(NoDiscord("Failed to open socket"));
    }
    var location := ResolveDirectory(env);
    var candidates := Candidates(location);
    var chosen, _ := Probe(candidates, fileExists, connects);
    if chosen.None? {
      return Err(NoDiscord("Discord client not found"));
    }
    var pipe := new Pipe(UnixSocket(candidates[chosen.value]));
    r := Ok(pipe);
  }

  /** What `read()` does with the bytes `input` the socket can deliver:
      `headerFault` and `payloadFault` are exceptions thrown by the two
      `socket.read` calls, and `parse` is Gson. It also gives the number of
      bytes taken from the stream. */
  function Decode(input: seq<byte>, headerFault: Option<ChannelFault>, payloadFault: Option<ChannelFault>,
                  parse: seq<byte> -> Parsed): (r: (ReadOutcome, nat))
    ensures r.1 <= |input|
    ensures r.0.Received? ==> 2 * INTEGER_BYTES <= r.1
  {
    if headerFault.Some? then (Threw(ChannelFailure(headerFault.value)), 0)
    else
      var n := Min(2 * INTEGER_BYTES, |input|);
      if n < INTEGER_BYTES then (Threw(BufferUnderflow), n)
      else
        var ordinal := ReverseBytes(GetInt(input[0..4]));
        match FromOrdinal(ordinal)
        case None => (Unchecked(OrdinalOutOfRange(ordinal)), n)
        case Some(op) =>
          if n < 2 * INTEGER_BYTES then (Threw(BufferUnderflow), n)
          else
            var size := ReverseBytes(GetInt(input[4..8]));
            if size < 0 then (Unchecked(NegativeSize(size)), n)
            else if payloadFault.Some? then (Threw(ChannelFailure(payloadFault.value)), n)
            else (PacketOf(op, parse(Payload(input[8..], size))), n + Min(size, |input| - 8))
  }

  /** `read()`: reads at most eight header bytes into a buffer, flips it,
      takes opcode and size with `reverseBytes(getInt())`, then reads the
      payload into a buffer of exactly `size` bytes. */
  method Read(input: seq<byte>, headerFault: Option<ChannelFault>, payloadFault: Option<ChannelFault>,
              parse: seq<byte> -> Parsed) returns (outcome: ReadOutcome, consumed: nat)
    ensures (outcome, consumed) == Decode(input, headerFault, payloadFault, parse)
  {
    if headerFault.Some? {
      return Threw(ChannelFailure(headerFault.value)), 0;
    }
    var header, n := ReadHeader(input);
    var first := header.GetInt();
    if first.None? {
      return Threw(BufferUnderflow), n;
    }
    assert header.hb[0..4] == input[0..4];
    var ordinal := ReverseBytes(first.value);
    var opCode := FromOrdinal(ordinal);
    if opCode.None? {
      return Unchecked(OrdinalOutOfRange(ordinal)), n;
    }
    var second := header.GetInt();
    if second.None? {
      return Threw(BufferUnderflow), n;
    }
    assert header.hb[4..8] == input[4..8];
    var size := ReverseBytes(second.value);
    if size < 0 {
      return Unchecked(NegativeSize(size)), n;
    }
    if payloadFault.Some? {
      return Threw(ChannelFailure(payloadFault.value)), n;
    }
    assert input[n..] == input[8..];
    outcome, consumed := ReadPayload(input[n..], size, opCode.value, parse);
    consumed := n + consumed;
  }

  /** The header half of `read()`: an eight-byte buffer filled by one
      `socket.read` and flipped for reading. */
  method ReadHeader(available: seq<byte>) returns (header: ByteBuffer, n: nat)
    ensures fresh(header) && header.Valid() && header.hb.Length == 2 * INTEGER_BYTES
    ensures n == Min(2 * INTEGER_BYTES, |available|)
    ensures header.position == 0 && header.limit == n && header.hb[..n] == available[..n]
  {
    header := new ByteBuffer.Allocate(2 * INTEGER_BYTES);
    n := header.ReadFrom(available);
    header.Flip();
  }

  /** The payload half of `read()`: a buffer of exactly `size` bytes, filled
      by one `socket.read`, flipped, and its whole backing array given to
      Gson. */
  method ReadPayload(available: seq<byte>, size: nat, op: OpCode, parse: seq<byte> -> Parsed)
    returns (outcome: ReadOutcome, got: nat)
    ensures outcome == PacketOf(op, parse(Payload(available, size)))
    ensures got == Min(size, |available|)
  {
    var payload := new ByteBuffer.Allocate(size);
    got := payload.ReadFrom(available);
    payload.Flip();
    assert payload.hb[..] == Payload(available, size);
    outcome := PacketOf(op, parse(payload.hb[..]));
  }

  /** Reading a whole frame gives back its opcode and the object Gson makes
      of its payload, and takes exactly the frame from the stream. */
  lemma ReadsFrame(op: OpCode, text: JsonText, rest: seq<byte>, parse: seq<byte> -> Parsed)
    ensures Decode(Frame(op, text) + rest, None, None, parse) == (PacketOf(op, parse(text)), |Frame(op, text)|)
  {
    DecodeFrameHeader(op, text, rest);
    var input := Frame(op, text) + rest;
    assert Payload(input[8..], |text|) == text;
  }

  /** At end of stream the header stays empty and the first `getInt` throws
      `BufferUnderflowException`. */
  lemma EndOfStreamUnderflows(payloadFault: Option<ChannelFault>, parse: seq<byte> -> Parsed)
    ensures Decode([], None, payloadFault, parse).0 == Threw(BufferUnderflow)
  {
  }

  /** An ordinal outside 0..2 is an unchecked error whenever the header has
      at least four bytes, even when the size field is missing. */
  lemma BadOrdinalIsUnchecked(input: seq<byte>, payloadFault: Option<ChannelFault>, parse: seq<byte> -> Parsed)
    requires |input| >= INTEGER_BYTES
    requires ReverseBytes(GetInt(input[0..4])) !in {0, 1, 2}
    ensures Decode(input, None, payloadFault, parse).0 == Unchecked(OrdinalOutOfRange(ReverseBytes(GetInt(input[0..4]))))
  {
  }
}
