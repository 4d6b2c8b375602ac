# Discord IPC client — a Dafny model

This project models the core of a Java client for Discord's local IPC
protocol (package `club.bottomservices.discordrpc.lib`): the binary frame
of `DiscordPacket`, endpoint discovery and packet decoding in `UnixPipe`
and `WindowsPipe`, the default `Pipe.send`, the connection state and the
background reader of `DiscordRPCClient`, and `RichPresence.Builder`.

Modules follow the source files:

- `DiscordPacket` (discord_packet.dfy): the `OpCode` ordinals and `toBytes`,
  which fills a `ByteBuffer` with `putInt(reverseBytes(ordinal))`,
  `putInt(reverseBytes(jsonSize))` and the payload bytes.
- `Pipe` (pipe.dfy): the pipe object (`write`, `close`, the default `send`
  that adds a `nonce` in place and writes one frame), the outcomes of
  `read()`, and the ten-candidate probe loop both constructors run.
- `UnixPipe` (unix_pipe.dfy): the socket directory from `XDG_RUNTIME_DIR`,
  `TMPDIR`, `TMP`, `TEMP` or `/tmp`, the probe of `<dir>/discord-ipc-0..9`,
  and `read()` over the bytes the socket can deliver.
- `WindowsPipe` (windows_pipe.dfy): the probe of `\\.\pipe\discord-ipc-0..9`,
  the polling wait of `read()`, and the decoding in which every
  `IOException` becomes a `null` packet.
- `DiscordRPCClient` (discord_rpc_client.dfy): the `Client` class with
  `isConnected`, the pipe and an event log of listener calls; `connect`
  with its handshake, `sendMessage`, `sendPresence`, `respond`,
  `disconnect`, the private `close`, and the reader thread. The reader is
  modelled sequentially: it consumes a list of `read()` outcomes, and a
  pure function `Run` specifies it.
- `RichPresence` (rich_presence.dfy): the presence records as datatypes,
  the `Builder` class with its setters and `addButton`, and `build`,
  specified by the pure function `BuildOf`.
- Support: `JavaInt` (Java `int`, `long`, `Integer.reverseBytes`, the
  big-endian `putInt`/`getInt`), `Nio` (the part of `ByteBuffer` used),
  `Json` (Gson's `JsonObject` as an ordered member list with `addProperty`
  semantics), `Exceptions`, `Wrappers`.

The environment, the file system, the socket and the pipe are oracles
passed as parameters: `System.getenv` is a map, `File.exists` and a
successful `connect`/`RandomAccessFile` open are functions from path to
`bool`, and every `IOException` an I/O call may throw is an `Option`
parameter. Gson's serialisation is a function from members to bytes and
its parsing a function from bytes to an object, `null` or a syntax error.
The UUID nonce and the process id are parameters.

Behaviours of the code that the model keeps, which a reader might not
expect:

- A `null` packet ends the read loop without clearing `isConnected`
  (`DiscordRPCClient.java:111-113`).
- The socket directory is the first variable that is set, even when its
  value is empty (`UnixPipe.java:33-38` tests `!= null`).
- A bad opcode ordinal, a negative payload size or a malformed payload is
  an unchecked exception that ends the reader thread with `isConnected`
  still true and no listener call; so is a message with a non-null `evt`
  whose `data` is not an object, even with no listener or an unknown
  event name (`DiscordRPCClient.java:122-124`).
- At Unix end of stream the header buffer stays empty and the first
  `getInt` throws `BufferUnderflowException`, which the reader treats as a
  silent disconnect.
- The flag and the pipe are not one-to-one: a connected client always has
  an open pipe, but `AsynchronousCloseException` or
  `BufferUnderflowException` clear the flag without closing the pipe
  (`DiscordRPCClient.java:138-140`).
- Neither `read` loops on short reads: the payload handed to Gson is
  exactly `size` bytes, those delivered followed by zeros.

## Model

| member | source | states |
|---|---|---|
| `DiscordPacket.Ordinal` | src/main/java/club/bottomservices/discordrpc/lib/DiscordPacket.java:28-32 | opcode ordinals lie in 0..2 (HANDSHAKE=0, MESSAGE=1, CLOSE=2) |
| `DiscordPacket.FromOrdinal` | src/main/java/club/bottomservices/discordrpc/lib/pipe/UnixPipe.java:73 | `OpCode.values()[n]` succeeds exactly for 0..2 and inverts the ordinal |
| `DiscordPacket.FromOrdinalOfOrdinal` | src/main/java/club/bottomservices/discordrpc/lib/DiscordPacket.java:28-32 | `values()[ordinal()]` gives back every opcode |
| `DiscordPacket.ToBytes` | src/main/java/club/bottomservices/discordrpc/lib/DiscordPacket.java:15-23 | the buffer filled by the two `putInt(reverseBytes(..))` and `put` is exactly the frame: LE ordinal, LE payload length, payload |
| `DiscordPacket.FrameLayout` | src/main/java/club/bottomservices/discordrpc/lib/DiscordPacket.java:16-21 | a frame is payload length + 8 bytes; byte 0 is the ordinal and bytes 1..3 zero; bytes 4..7 are the length least significant first; bytes 8.. are the payload in order |
| `DiscordPacket.DecodeFrameHeader` | src/main/java/club/bottomservices/discordrpc/lib/DiscordPacket.java:19-20 | `reverseBytes(getInt())` on bytes 0..3 and 4..7 of a frame gives back the ordinal and the payload length, and the payload follows |
| `JavaInt.PutReversedIsLittleEndian` | src/main/java/club/bottomservices/discordrpc/lib/DiscordPacket.java:19-20 | big-endian `putInt` of `reverseBytes(x)` lays `x` out little-endian |
| `JavaInt.ReversedGetIntOfLittleEndian` | src/main/java/club/bottomservices/discordrpc/lib/pipe/UnixPipe.java:73-74 | `reverseBytes(getInt())` of the little-endian bytes of `x` is `x` |
| `JavaInt.ReverseBytesInvolution` | src/main/java/club/bottomservices/discordrpc/lib/DiscordPacket.java:19 | reversing the bytes twice gives back the value |
| `Json.PutGet` | src/main/java/club/bottomservices/discordrpc/lib/pipe/Pipe.java:22 | after `addProperty(key, v)` the object maps `key` to `v` |
| `Json.PutGetOther` | src/main/java/club/bottomservices/discordrpc/lib/pipe/Pipe.java:22 | `addProperty` leaves every other member's value unchanged |
| `Json.PutKeys` | src/main/java/club/bottomservices/discordrpc/lib/pipe/Pipe.java:22 | `addProperty` keeps member order and appends a new key at the end |
| `Pipe.Pipe.Send` | src/main/java/club/bottomservices/discordrpc/lib/pipe/Pipe.java:21-24 | the caller's object gains `nonce` in place, and exactly one write of the frame of that object under the unchanged opcode is made |
| `Pipe.Pipe.Write` | src/main/java/club/bottomservices/discordrpc/lib/pipe/UnixPipe.java:62-64 | a write appends its data to the pipe's output and reports the device's fault |
| `Pipe.Pipe.Close` | src/main/java/club/bottomservices/discordrpc/lib/pipe/UnixPipe.java:81-83 | close closes the pipe, writes nothing, reports the device's fault |
| `Pipe.Payload` | src/main/java/club/bottomservices/discordrpc/lib/pipe/UnixPipe.java:75-77 | the payload array has exactly `size` bytes: those delivered, then zeros |
| `Pipe.PacketOf` | src/main/java/club/bottomservices/discordrpc/lib/pipe/UnixPipe.java:77 | a packet results exactly when Gson does not throw, and carries the decoded opcode |
| `Pipe.Existing` | src/main/java/club/bottomservices/discordrpc/lib/pipe/UnixPipe.java:44-46 | the existing candidates below `n`, ascending, with none missing |
| `Pipe.FirstReachableIsFirst` | src/main/java/club/bottomservices/discordrpc/lib/pipe/UnixPipe.java:44-54 | the candidate a probe settles on can be used and every earlier one cannot; none is found exactly when no candidate can be used |
| `Pipe.Probe` | src/main/java/club/bottomservices/discordrpc/lib/pipe/UnixPipe.java:44-54 | the chosen candidate exists and opens and every earlier one does not; none chosen means none is usable; exactly the existing candidates up to the chosen one are tried, ascending; the chosen index is `FirstReachable` |
| `UnixPipe.FirstSetIsFirst` | src/main/java/club/bottomservices/discordrpc/lib/pipe/UnixPipe.java:33-38 | the first set name's value is picked; nothing is found exactly when no name is set |
| `UnixPipe.DirectoryIsFirstSet` | src/main/java/club/bottomservices/discordrpc/lib/pipe/UnixPipe.java:30-42 | the directory is the value of the first set of XDG_RUNTIME_DIR, TMPDIR, TMP, TEMP (empty counts as set), else `/tmp` |
| `UnixPipe.ResolveDirectory` | src/main/java/club/bottomservices/discordrpc/lib/pipe/UnixPipe.java:30-42 | the loop with `break` computes that directory |
| `UnixPipe.Candidates` | src/main/java/club/bottomservices/discordrpc/lib/pipe/UnixPipe.java:44-45 | there are ten candidates `<dir>/discord-ipc-i` |
| `UnixPipe.Discover` | src/main/java/club/bottomservices/discordrpc/lib/pipe/UnixPipe.java:22-59 | a socket that fails to open gives `NoDiscordException("Failed to open socket")`; otherwise the endpoint is the first candidate that exists and connects, or `NoDiscordException("Discord client not found")` when none does |
| `UnixPipe.Open` | src/main/java/club/bottomservices/discordrpc/lib/pipe/UnixPipe.java:22-59 | throws exactly the exception `Discover` gives, else returns a fresh open pipe, with nothing written, on the endpoint `Discover` gives |
| `UnixPipe.Decode` | src/main/java/club/bottomservices/discordrpc/lib/pipe/UnixPipe.java:68-78 | a read never takes more bytes than the stream delivers, and a packet is only returned after the full eight-byte header |
| `UnixPipe.Read` | src/main/java/club/bottomservices/discordrpc/lib/pipe/UnixPipe.java:68-78 | the buffer code computes `Decode`: header faults, underflow on a short header, bad ordinal before the size is read, negative size, payload fault, then the packet |
| `UnixPipe.ReadHeader` | src/main/java/club/bottomservices/discordrpc/lib/pipe/UnixPipe.java:69-72 | one read fills at most eight header bytes, which the flip makes readable |
| `UnixPipe.ReadPayload` | src/main/java/club/bottomservices/discordrpc/lib/pipe/UnixPipe.java:75-77 | the payload buffer holds exactly `size` bytes and is handed whole to Gson |
| `UnixPipe.ReadsFrame` | src/main/java/club/bottomservices/discordrpc/lib/pipe/UnixPipe.java:73-77 | reading an encoded frame gives back its opcode and payload and consumes exactly the frame |
| `UnixPipe.EndOfStreamUnderflows` | src/main/java/club/bottomservices/discordrpc/lib/pipe/UnixPipe.java:70-73 | at end of stream the first `getInt` throws `BufferUnderflowException` |
| `UnixPipe.BadOrdinalIsUnchecked` | src/main/java/club/bottomservices/discordrpc/lib/pipe/UnixPipe.java:73 | an ordinal outside 0..2 is an unchecked error |
| `WindowsPipe.Candidates` | src/main/java/club/bottomservices/discordrpc/lib/pipe/WindowsPipe.java:26-27 | there are ten candidates `\\.\pipe\discord-ipc-i` |
| `WindowsPipe.Discover` | src/main/java/club/bottomservices/discordrpc/lib/pipe/WindowsPipe.java:22-40 | the endpoint is the first candidate that exists and opens read/write, those failing to open being skipped; none gives `NoDiscordException("Discord client not found")` |
| `WindowsPipe.Open` | src/main/java/club/bottomservices/discordrpc/lib/pipe/WindowsPipe.java:22-40 | throws exactly the exception `Discover` gives, else returns a fresh open pipe, with nothing written, on the endpoint `Discover` gives |
| `WindowsPipe.AwaitData` | src/main/java/club/bottomservices/discordrpc/lib/pipe/WindowsPipe.java:51-56 | the wait continues only while connected with no bytes pending and stops at the first poll where either fails |
| `WindowsPipe.Decode` | src/main/java/club/bottomservices/discordrpc/lib/pipe/WindowsPipe.java:58-68 | no `IOException` escapes the `try` block |
| `WindowsPipe.FillFrom` | src/main/java/club/bottomservices/discordrpc/lib/pipe/WindowsPipe.java:62 | `read(payload)` stores the delivered bytes at the start of the array, in place |
| `WindowsPipe.ReadPacket` | src/main/java/club/bottomservices/discordrpc/lib/pipe/WindowsPipe.java:58-68 | two LE ints give opcode and size, the payload array has exactly `size` bytes, an `IOException` gives `null` |
| `WindowsPipe.Read` | src/main/java/club/bottomservices/discordrpc/lib/pipe/WindowsPipe.java:49-69 | the wait, then the packet read; a throwing `length()` propagates |
| `WindowsPipe.ReadsFrame` | src/main/java/club/bottomservices/discordrpc/lib/pipe/WindowsPipe.java:59-64 | reading an encoded frame gives back its opcode and payload |
| `WindowsPipe.FaultsBecomeNull` | src/main/java/club/bottomservices/discordrpc/lib/pipe/WindowsPipe.java:66-68 | an `IOException` in any read gives `null` unless an unchecked error came first |
| `DiscordRPCClient.Dispatch` | src/main/java/club/bottomservices/discordrpc/lib/DiscordRPCClient.java:120-135 | a `null` object throws; a listener call is made only when a listener is set and the message has a non-null `evt` and an object `data` |
| `DiscordRPCClient.DispatchKnownEvents` | src/main/java/club/bottomservices/discordrpc/lib/DiscordRPCClient.java:122-135 | each of READY, ERROR, ACTIVITY_JOIN, ACTIVITY_SPECTATE, ACTIVITY_JOIN_REQUEST makes exactly its listener call |
| `DiscordRPCClient.DispatchSilentCases` | src/main/java/club/bottomservices/discordrpc/lib/DiscordRPCClient.java:122-135 | absent or null `evt`, an unknown name, or no listener makes no call |
| `DiscordRPCClient.DispatchNeedsData` | src/main/java/club/bottomservices/discordrpc/lib/DiscordRPCClient.java:123-124 | a non-null `evt` without an object `data` throws, whatever the name or listener |
| `DiscordRPCClient.Step` | src/main/java/club/bottomservices/discordrpc/lib/DiscordRPCClient.java:107-147 | one pass never sets `isConnected`, and keeps a connected reader's pipe open |
| `DiscordRPCClient.StepAppendsEvents` | src/main/java/club/bottomservices/discordrpc/lib/DiscordRPCClient.java:107-147 | one pass only appends to the listener-call log |
| `DiscordRPCClient.Run` | src/main/java/club/bottomservices/discordrpc/lib/DiscordRPCClient.java:106-148 | the read loop never sets `isConnected` again once it is cleared |
| `DiscordRPCClient.RunAppendsEvents` | src/main/java/club/bottomservices/discordrpc/lib/DiscordRPCClient.java:106-148 | the loop only appends to the log, and waits only while connected with every outcome consumed |
| `DiscordRPCClient.RunKeepsLive` | src/main/java/club/bottomservices/discordrpc/lib/DiscordRPCClient.java:62-74 | `close` clears the flag before closing the pipe, so no read outcome leaves the client connected over a closed pipe |
| `DiscordRPCClient.DeliverableStep` | src/main/java/club/bottomservices/discordrpc/lib/DiscordRPCClient.java:120-136 | a dispatchable message makes its call and keeps the loop going |
| `DiscordRPCClient.RunDispatchesInOrder` | src/main/java/club/bottomservices/discordrpc/lib/DiscordRPCClient.java:106-136 | messages are dispatched in arrival order, each making its own call |
| `DiscordRPCClient.NullPacketStops` | src/main/java/club/bottomservices/discordrpc/lib/DiscordRPCClient.java:111-113 | a null packet stops the loop with no call and `isConnected` unchanged |
| `DiscordRPCClient.ClosePacketCloses` | src/main/java/club/bottomservices/discordrpc/lib/DiscordRPCClient.java:115-118 | a CLOSE packet disconnects, calls `onClose` once with a listener, and stops; a failing pipe close kills the thread |
| `DiscordRPCClient.DisconnectIsSilent` | src/main/java/club/bottomservices/discordrpc/lib/DiscordRPCClient.java:138-140 | `AsynchronousCloseException`/`BufferUnderflowException` clear `isConnected` and stop silently |
| `DiscordRPCClient.IoFailureReportsAndCloses` | src/main/java/club/bottomservices/discordrpc/lib/DiscordRPCClient.java:141-147 | another `IOException` calls `onError`, then `close` (`onClose`), and the loop ends |
| `DiscordRPCClient.UncheckedKillsReader` | src/main/java/club/bottomservices/discordrpc/lib/DiscordRPCClient.java:108 | an unchecked exception out of `read` ends the thread with `isConnected` still set |
| `DiscordRPCClient.ReadyThenClose` | src/main/java/club/bottomservices/discordrpc/lib/DiscordRPCClient.java:108-136 | READY then CLOSE gives exactly one `onReady` with the user, then exactly one `onClose`, no `onError`, disconnected |
| `DiscordRPCClient.NonceComesLast` | src/main/java/club/bottomservices/discordrpc/lib/pipe/Pipe.java:22 | the nonce is appended after the fields of the handshake and both command envelopes |
| `DiscordRPCClient.Client.constructor` | src/main/java/club/bottomservices/discordrpc/lib/DiscordRPCClient.java:38-51 | a new client is not connected and has made no listener call |
| `DiscordRPCClient.Client.Close` | src/main/java/club/bottomservices/discordrpc/lib/DiscordRPCClient.java:62-74 | clears `isConnected`, closes the pipe, calls `onClose` when the close succeeds and a listener is set, else throws `DiscordException` |
| `DiscordRPCClient.Client.SendMessage` | src/main/java/club/bottomservices/discordrpc/lib/DiscordRPCClient.java:76-89 | disconnected: throws `NotConnectedException`, writes nothing; connected: writes one MESSAGE frame, a write fault calls `onError(e, null)` and leaves `isConnected` |
| `DiscordRPCClient.Discover` | src/main/java/club/bottomservices/discordrpc/lib/DiscordRPCClient.java:98 | discovery fails, always with `NoDiscordException`, exactly when the Unix socket does not open or no candidate of the platform can be used; it gives a named pipe on Windows and a Unix socket elsewhere |
| `DiscordRPCClient.Client.OpenPipe` | src/main/java/club/bottomservices/discordrpc/lib/DiscordRPCClient.java:98 | the Windows pipe on Windows and the Unix socket elsewhere: the exception or endpoint is the platform's `Discover` on the host, the pipe is fresh, open and unwritten |
| `DiscordRPCClient.Client.Handshake` | src/main/java/club/bottomservices/discordrpc/lib/DiscordRPCClient.java:99-104 | a HANDSHAKE frame with `v=1` and `client_id=appId` is written before `isConnected` is set; a fault calls `onError` then `close` |
| `DiscordRPCClient.Client.Connect` | src/main/java/club/bottomservices/discordrpc/lib/DiscordRPCClient.java:97-157 | when discovery fails its `NoDiscordException` is thrown and nothing changes; otherwise the new pipe is on the first usable candidate, its only write is the handshake, then connected, or `onError`+`close` on a fault |
| `DiscordRPCClient.Client.SendPresence` | src/main/java/club/bottomservices/discordrpc/lib/DiscordRPCClient.java:163-172 | sends `{cmd: SET_ACTIVITY, args: {pid, activity}}` plus nonce, gated on `isConnected`; disconnected it throws `NotConnectedException` and leaves the pipe untouched; a write fault calls `onError(e, null)` when a listener is set, which it keeps |
| `DiscordRPCClient.Client.Respond` | src/main/java/club/bottomservices/discordrpc/lib/DiscordRPCClient.java:194-199 | sends SEND_ACTIVITY_JOIN_INVITE when accepted, else CLOSE_ACTIVITY_REQUEST, with `user_id`, gated on `isConnected` like `sendPresence`; a write fault calls `onError(e, null)` when a listener is set, which it keeps |
| `DiscordRPCClient.Client.Disconnect` | src/main/java/club/bottomservices/discordrpc/lib/DiscordRPCClient.java:180-186 | disconnected: throws `NotConnectedException` and changes nothing, the pipe neither written nor closed; connected: is `close` |
| `DiscordRPCClient.Client.ReadStep` | src/main/java/club/bottomservices/discordrpc/lib/DiscordRPCClient.java:107-147 | one pass on the object's state is the pure `Step`, and keeps a connected client's pipe open |
| `DiscordRPCClient.Client.RunReader` | src/main/java/club/bottomservices/discordrpc/lib/DiscordRPCClient.java:106-148 | the `while (isConnected)` loop over read outcomes is the pure `Run`, and keeps a connected client's pipe open |
| `DiscordRPCClient.Client.ReaderThread` | src/main/java/club/bottomservices/discordrpc/lib/DiscordRPCClient.java:105-149 | the thread `connect` starts runs the loop with the event dispatch |
| `RichPresence.PairsAt` | src/main/java/club/bottomservices/discordrpc/lib/RichPresence.java:152-157 | button `i` pairs name `i` with url `i`, one button per name |
| `RichPresence.BuildOf` | src/main/java/club/bottomservices/discordrpc/lib/RichPresence.java:130-160 | a builder whose button lists are paired and whose set image keys all have non-empty texts always builds |
| `RichPresence.BuildCopiesText` | src/main/java/club/bottomservices/discordrpc/lib/RichPresence.java:130-159 | `build` fails exactly when assets or buttons fail; it copies state and details and always makes timestamps with `start` and `end` |
| `RichPresence.BuildAssets` | src/main/java/club/bottomservices/discordrpc/lib/RichPresence.java:132-140 | assets exist exactly when a large or small key/text pair is set, holding the four strings |
| `RichPresence.BuildRejectsEmptyImages` | src/main/java/club/bottomservices/discordrpc/lib/RichPresence.java:134-138 | with every set key having its text, `IllegalArgumentException` exactly when a pair is set and a set key or its text is empty |
| `RichPresence.BuildNullTextFails` | src/main/java/club/bottomservices/discordrpc/lib/RichPresence.java:135 | a non-empty key with null text beside a complete pair dereferences null |
| `RichPresence.BuildParty` | src/main/java/club/bottomservices/discordrpc/lib/RichPresence.java:142-145 | a party exists exactly when id, size and max are set, with size array `[size, max]` |
| `RichPresence.BuildSecrets` | src/main/java/club/bottomservices/discordrpc/lib/RichPresence.java:147-150 | secrets exist exactly when one of join, spectate, match is set |
| `RichPresence.BuildButtons` | src/main/java/club/bottomservices/discordrpc/lib/RichPresence.java:152-158 | with paired lists, buttons never fail, pair names with urls in order, and an empty list becomes null |
| `RichPresence.BuildEmpty` | src/main/java/club/bottomservices/discordrpc/lib/RichPresence.java:37-57 | a fresh builder builds an empty presence with empty timestamps |
| `RichPresence.Builder.constructor` | src/main/java/club/bottomservices/discordrpc/lib/RichPresence.java:37-57 | every field starts `null` |
| `RichPresence.Builder.SetText` | src/main/java/club/bottomservices/discordrpc/lib/RichPresence.java:59-63 | stores details and state, changes nothing else, returns the builder |
| `RichPresence.Builder.SetTimestamps` | src/main/java/club/bottomservices/discordrpc/lib/RichPresence.java:69-73 | stores start and end, changes nothing else, returns the builder |
| `RichPresence.Builder.SetAssets` | src/main/java/club/bottomservices/discordrpc/lib/RichPresence.java:86-95 | stores the four image strings, changes nothing else, returns the builder |
| `RichPresence.Builder.SetPartyInfo` | src/main/java/club/bottomservices/discordrpc/lib/RichPresence.java:101-106 | stores id and sets size and max, changes nothing else, returns the builder |
| `RichPresence.Builder.SetSecrets` | src/main/java/club/bottomservices/discordrpc/lib/RichPresence.java:108-113 | stores the three secrets, changes nothing else, returns the builder |
| `RichPresence.Builder.AddButton` | src/main/java/club/bottomservices/discordrpc/lib/RichPresence.java:115-123 | creates both lists when absent and appends name and url, keeping the lists paired |
| `RichPresence.Builder.Build` | src/main/java/club/bottomservices/discordrpc/lib/RichPresence.java:130-160 | the checks and the button loop compute `BuildOf` of the builder's fields |

## Left out

- Real I/O: `SocketChannel`, `RandomAccessFile`, `File.exists`, `getCanonicalPath` and `System.getenv` are oracle parameters; every `IOException` is an optional parameter.
- The JDK's `SocketChannel` closes itself after a failed `connect`, so later candidates would fail too; the model takes each connect attempt independently, as the loop reads.
- Short reads: neither `read` loops on a partial read; the model decodes over the bytes a single read delivers and does not claim that short reads are handled.
- Concurrency: the reader thread, the `volatile` fields and the 60 ms sleeps; the reader is a sequential loop over a list of read outcomes and the wait loop a list of polls.
- Gson: serialisation and parsing, UTF-8 encoding, and the mapping of `User`, `ErrorEvent` and `RichPresence` to and from JSON; JSON text is opaque bytes and `sendPresence` takes the presence's JSON tree as a parameter.
- The UUID nonce, the process id and the operating-system test are parameters.
- slf4j logging; the exception classes, `User`, `ErrorEvent` and the listener's default methods are only data and event-log entries; what a listener callback itself does is not modelled.
- Direct writes to the builder's public fields other than through its methods; `build` still covers the field combinations they could produce.
- DiscordPacket.ToBytes: frames whose payload exceeds `2^31 - 9` bytes (where `jsonSize + 8` overflows a Java `int`) are excluded by the payload type.
- WindowsPipe.Read: an unbounded wait is represented by a finite list of polls; the result is `None` while still waiting.
