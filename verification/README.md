# A verified model of 10over

10over is a client for a launch monitor that talks over Bluetooth Low Energy. This project models, in Dafny, what the
client does between the raw link and its caller, and proves what that code promises:

- the wire stack: COBS framing, CRC-16/ARC, GFDI frames, chunks with a handle byte, and the reassembly buffer;
- the identity filter that keeps the device's identity out of recorded traffic;
- the client's session: registration, handshake, acknowledgments, wake requests, shot deduplication;
- the relay device, which hands connections from an acceptor thread to the caller's loop over two channels.

Code that works by changing things step by step is modelled the same way: the codecs and the CRC are loops, and the
reassembly buffer, the filter, the client and the relay device are classes whose methods update their fields. Each such
method is tied to a function of its inputs or of the old state, and the theorems are about those functions. Bytes and
16-bit words are bit vectors, so shifts, masks and wrap-around are the program's own.

The client and the relay device also keep, as ghost state, the calls made so far, and their invariant says that their
fields are what the model's run of those calls comes to. Every theorem about runs is therefore one about the objects,
and their public methods promise the main ones.

What crosses the edge of the model is a parameter. `Env.decode` is an arbitrary function from bytes to envelope events,
`Env.accepts` says which writes succeed, the clock is a natural number of nanoseconds given to each poll, and every
poll is given what its read returned. What holds of a session's fields and log does not depend on the chunks a frame is
written as, so these are a parameter there, too; for a `Client`, and for what is said of the bytes on the link, they
are the frame, wrapped and cut to the MTU. For the relay device, `Outside.between` is the schedule of the acceptor thread
and `Outside.outcome` the result of each send; a statement for all `Outside` is one about every interleaving.

Message types, sizes, time spans and places of bytes are parameters of most functions only through named constants. What
they are is stated apart from these functions, in numbers: `Identity` and `Releases` for the filter, `Gfdi.FrameBytes` and
`Gfdi.FragParse` for frames, `CobsRoundTrip.EncodeRun` and the lemmas after it for COBS blocks, `Answers` for the session
and `Relay` for the relay device.

## Modules

| file | holds |
|---|---|
| `Wrappers.dfy`, `Bytes.dfy` | option and result types, bytes, words, runs of nonzero bytes |
| `Crc.dfy` | the CRC by bits, by table, and its algebra |
| `Cobs.dfy`, `CobsRoundTrip.dfy` | the codec, and exactly what a round trip does to any input |
| `Gfdi.dfy`, `FrameOnWire.dfy` | frames, and one frame through CRC and COBS and back |
| `Multilink.dfy`, `StreamBuffer.dfy`, `FrameStream.dfy` | chunks, the reassembly buffer, streams of frames |
| `CaptureSpec.dfy`, `Capture.dfy`, `CaptureTheorems.dfy` | the filter's whole-stream specification, the filter, what it guarantees |
| `Identity.dfy`, `Releases.dfy` | the message types kept out, in numbers; exactly which chunks a capture keeps |
| `Pipeline.dfy` | messages to chunks and back; the buffer and the filter on one stream |
| `Shots.dfy` | the pruned cache against the full history |
| `ClientModel.dfy`, `Client.dfy` | the session on values, and the client object |
| `Ledger.dfy`, `Accounting.dfy` | what a session's log adds up to, and that it balances after every call |
| `Handshake.dfy`, `Sessions.dfy`, `LostWrites.dfy` | what holds of every session, and what a failed write costs |
| `Answers.dfy` | what a poll makes of each read and each message, and what the frames sent say, in numbers |
| `FullSession.dfy` | a session from the register command to the active phase |
| `ExampleRuns.dfy` | whole sessions, from chunks on, in which a failed write costs something |
| `OnTheLink.dfy`, `SessionCapture.dfy` | what a session writes, whichever writes fail, and what captures of what it writes and reads may keep |
| `FrpModel.dfy`, `Frp.dfy`, `HandOff.dfy` | the relay device on values, the device object and the acceptor's loop, what holds in every interleaving |
| `Relay.dfy` | what each call on the relay device sends and returns, envelope by envelope |

## What the proofs found

- COBS loses zeros. The encoder drops a zero that follows a nonzero run whose length is a multiple of 254, the decoder
  never restores a final zero, and it removes one more if one is left. `CobsRoundTrip.RoundTripExact` says exactly when
  the round trip is the identity; `FinalZeroLost` and `FullBlockZeroLost` are inputs for which it is not. The comment
  at `src/cobs.rs:95-97` takes it that frames never end in a zero byte, but the high byte of a CRC can be zero; the
  model follows the code.
- A built frame whose CRC is below 256 therefore arrives one or two bytes short, and still passes its CRC check,
  because a residue of zero survives the loss of trailing zeros (`FrameOnWire.AcceptedShort`). A protobuf response with
  the one-byte payload 55 is such a frame: it is accepted with an empty payload (`FrameOnWire.AcceptedShortHappens`).
- Frames of type 0x8000 and above read back with another type, as compressed headers (`Gfdi.ParseBuild`).
- Stray bytes with an odd number of zeros in front of the stream silence the reassembly buffer: it pairs each closing
  delimiter with the next opening one (`Pipeline.StrayZeroSilences`); a single zero is enough
  (`Pipeline.LoneZeroSilences`). This lasts until the buffer overflows, which empties it and can change the parity.
- A new shot enters the deduplication cache before its message is acknowledged. If the acknowledgment cannot be
  written, the shot is not reported, and neither is any shot with its id for 60 seconds, whatever arrives meanwhile
  (`Sessions.UnackedShotIsLost`). `ExampleRuns.ShotLossHappens` is a session in which a shot is lost that way although
  its second copy is acknowledged.
- A change of the device's state is remembered before its message is acknowledged, too. If a write fails it is never
  reported, and a change back repeats the report before it: two reports in a row name one state, without the second
  being queued, exactly if such a lost change is undone (`Sessions.RepeatsByPosition`,
  `Sessions.RepeatsExactly`). `ExampleRuns.RepeatHappens` is a session in which that happens. If no frame goes unsent,
  reports alternate (`Sessions.StateReportsAlternate`).
- The phase of the handshake is set before the request that belongs to it is written, so a session can become active
  without having subscribed (`ExampleRuns.UnsubscribedHappens`) or without having sent a wake request
  (`ExampleRuns.UnwokenHappens`). Whichever writes fail, an active session has tried to subscribe exactly once since the
  device capabilities it last answered, and it has subscribed exactly if that one request is not logged as unsent; the
  same goes for its first wake request (`Handshake.ActiveMeansAsked`, `Handshake.HandshakeExactly`).
- A frame whose opening delimiter is written but whose last chunk is not leaves the link with an odd number of
  delimiters, so a reader that pairs them gets the frames before it, the part of it that was written, and none after it
  (`OnTheLink.OneFrameUnsent`).
- None of this reaches the filter's promise: zeros are lost only at offset 254 or later or at the very end, so the
  type of an identity frame, or of what an ACK acknowledges, is always in place or the frame is rejected
  (`FrameOnWire.IdentityNeverCleared`, `Pipeline.SentIdentityNeverReleased`).

## Model

| member | source | states |
|---|---|---|
| Crc.ComputeCrc16 | src/crc.rs:16-25 | The table-driven loop computes the bit-at-a-time CRC-16/ARC (reflected polynomial 0xA001, initial value 0) of every byte sequence. |
| Crc.ComputeByteStep | src/crc.rs:19-22 | Two nibbles through the table, low one first, are eight bit steps. |
| Crc.NibbleStepIsFourBitSteps | src/crc.rs:19-22 | One table step is four bit steps of the state combined with the nibble. |
| Crc.CrcLinear | docs/WIRE.md:155-165 | The CRC of the XOR of two inputs of equal length is the XOR of their CRCs, from any pair of states. |
| Crc.CrcInjective | src/crc.rs:16-25 | Over the same bytes, different states never meet. |
| Crc.Residue | src/gfdi.rs:221-229 | Body and check value together have CRC zero exactly when the check value is the CRC of the body, low byte first. |
| Crc.ResidueTrailingZero | src/crc.rs:16-25 | A CRC of zero is kept, and only a CRC of zero arises, when a trailing zero byte is stripped. |
| Crc.AdjacentChangeDetected | src/crc.rs:16-25 | Changing one byte or two adjacent bytes, anywhere in any input, changes the CRC. |
| Crc.CheckValue | docs/WIRE.md:155-165 | The CRC of the string 123456789 is 0xBB3D, the check value of CRC-16/ARC. |
| Cobs.ComputeEncode | src/cobs.rs:8-26 | The encoder's loops write the block-by-block encoding the round-trip lemmas are about. |
| Cobs.ScanBlock | src/cobs.rs:12-15 | The inner loop stops where the block ends: at a zero, after 254 bytes or at the end of the input. |
| Cobs.BlockEndStops | src/cobs.rs:12-15 | Everything before a block's end is nonzero, and it ends for one of the three reasons the loop names. |
| Cobs.ComputeDecode | src/cobs.rs:33-58 | The decoder's loops, with the stop at a zero code and the final pop, compute the decoding the round-trip lemmas are about, and fail exactly where it fails. |
| Cobs.ComputeBlock | src/cobs.rs:37-51 | One turn of the decoder's loop: a truncated block fails the whole input, any other contributes its data and the zero it restores. |
| Cobs.CopyBlock | src/cobs.rs:42-48 | The inner loop copies the data of one block, or fails if the input ends inside it. |
| CobsRoundTrip.RoundTrip | src/cobs.rs:8-58 | For every input, decoding the encoding gives the input without the zeros that close a full block and without its last zero, and then without one more final zero. |
| CobsRoundTrip.RoundTripExact | src/cobs.rs:8-58 | The round trip is the identity exactly for inputs that do not end in zero and have no zero after a nonzero run of a positive multiple of 254 bytes. |
| CobsRoundTrip.RoundTripOnlyRemovesZeros | src/cobs.rs:8-58 | Decoding an encoding never fails; when the result differs it is strictly shorter and only zeros are missing. |
| CobsRoundTrip.RoundTripPrefix | src/cobs.rs:8-58 | Whatever is left of the first 254 bytes is in place. |
| CobsRoundTrip.RoundTripTail | src/cobs.rs:49-56 | With no zero closing a full block, exactly a final zero is lost, and one more zero if one precedes it. |
| CobsRoundTrip.FinalZeroLost | src/cobs.rs:95-97 | A single zero decodes to nothing. |
| CobsRoundTrip.FullBlockZeroLost | src/cobs.rs:13-23 | 254 nonzero bytes, a zero and a nonzero byte come back without the zero. |
| CobsRoundTrip.EncodeNoZero | src/cobs.rs:6-26 | The encoding never contains a zero byte, and is empty only for the empty input. |
| CobsRoundTrip.EncodeLength | src/cobs.rs:9 | The encoding is at least as long as the input and fits the capacity reserved for it. |
| CobsRoundTrip.EncodeRun | src/cobs.rs:8-26 | Up to 253 nonzero bytes and the zero after them encode as one more than their number, and they, before the encoding of the rest. |
| CobsRoundTrip.EncodeFull | src/cobs.rs:8-26 | 254 nonzero bytes encode as 255 and they, before the encoding of the rest, without the zero that may come first in it. |
| CobsRoundTrip.EncodeLast | src/cobs.rs:8-26 | A final run of up to 254 nonzero bytes encodes as one more than its length, and the run; nothing encodes as nothing. So the encoding of every input is determined. |
| CobsRoundTrip.DecodeBlock | src/cobs.rs:33-51 | A whole block decodes to its data, a zero unless its code is 255 or it is the last, and what the rest decodes to. |
| CobsRoundTrip.DecodeStops | src/cobs.rs:38-40 | A zero code ends the input, whatever follows. |
| CobsRoundTrip.DecodeTruncated | src/cobs.rs:42-46 | A block shorter than its code says makes decoding fail. |
| Gfdi.AcceptedIffResidueZero | src/gfdi.rs:213-229 | A frame is accepted exactly when it has at least 6 bytes and its CRC, check value included, is zero; too short is reported first. |
| Gfdi.ParseExactly | src/gfdi.rs:204-253 | Which error a frame gives: COBS first, then fewer than 6 bytes, then the CRC; otherwise its header and payload. |
| Gfdi.BuiltAccepted | src/gfdi.rs:261-272 | Every built frame passes the CRC check. |
| Gfdi.FrameBytes | src/gfdi.rs:261-272 | A built frame byte by byte: its length modulo 2^16, its type, its payload and the CRC of what precedes it, each number low byte first. |
| Gfdi.ParseBuild | src/gfdi.rs:213-272 | Parsing gives back type and payload exactly for types below 0x8000; any other type reads back as a compressed header with a transaction id. |
| Gfdi.ParseAck | src/gfdi.rs:278-284 | A built ACK parses as one, names the type it acknowledges, and carries status and payload after it. |
| Gfdi.AdjacentErrorDetected | src/gfdi.rs:221-229 | Any change confined to one byte or two adjacent bytes of an accepted frame, check value included, makes it fail with the CRC error. |
| Gfdi.FragParse | src/gfdi.rs:435-459 | Any fragment header parses back field by field, and the data is cut to the chunk size. |
| Gfdi.FragRoundTrip | src/gfdi.rs:464-472 | The payload made for a request parses back to its id, offset 0 and its data, lengths taken modulo 2^32. |
| Gfdi.RequestParses | src/gfdi.rs:464-475 | A built protobuf request parses as a message of type 5043 whose payload parses back to the id, offset 0, both lengths and the data. |
| FrameOnWire.ReceivedExactly | src/gfdi.rs:204-295 | A built, encoded frame is received as sent exactly when its type is below 0x8000, its CRC's high byte is nonzero and no zero in it closes a full COBS block. |
| FrameOnWire.AcceptedShort | src/gfdi.rs:213-253 | With a CRC below 256 it is accepted all the same, its payload short by exactly 1 byte, or 2 if the CRC is 0, whenever the payload is that long. |
| FrameOnWire.AcceptedShortHappens | src/gfdi.rs:213-272 | A concrete message for which that happens. |
| FrameOnWire.IdentityNeverCleared | src/capture.rs:149-151 | Any encoded frame whose header carries identity is excluded, whatever COBS loses of it and whatever its check value. |
| FrameOnWire.BuiltIdentityNeverCleared | src/gfdi.rs:62-117 | In particular every built message of an identity type, and every built ACK of one. |
| FrameOnWire.FaithfulCleared | src/capture.rs:149-151 | A frame that arrives as sent is excluded exactly if it carries identity. |
| Multilink.ChunksCarryData | src/multilink.rs:82-108 | For any MTU of at least 2 every chunk has 2 to MTU bytes and the handle in front, and the stripped chunks are the data, in order. |
| Multilink.ChunksAreFull | src/multilink.rs:96-108 | Every chunk but the last has as many bytes as the MTU, and an MTU of 0 or 1 yields no chunk. |
| StreamBuffers.StreamBuffer.constructor | src/gfdi.rs:152-156 | The buffer starts empty. |
| StreamBuffers.StreamBuffer.Extend | src/gfdi.rs:159-169 | Data within the 64 KiB bound is appended; beyond it the append fails and the buffer is emptied. |
| StreamBuffers.StreamBuffer.NextFrame | src/gfdi.rs:174-193 | Skips empty segments, consumes one pair of delimiters with the segment between them, and hands out its parse, or leaves what cannot be decided in the buffer. |
| StreamBuffers.RunFollowsStream | src/gfdi.rs:159-193 | Under any interleaving without overflow, the buffer is what follows an even number of zeros of the stream so far, and the frames handed out are the nonempty segments before it. |
| StreamBuffers.ChunkingIndependent | src/gfdi.rs:159-193 | So what is handed out depends on the stream only: the nonempty segments between zero number 2k and zero number 2k+1, all of them once no frame is left. |
| StreamBuffers.BufferBounded | src/gfdi.rs:136-169 | The buffer never exceeds 65536 bytes, overflow or not. |
| FrameStream.EvenPrefixSeesAll | src/gfdi.rs:174-193 | After bytes with an even number of zeros, all wrapped frames are seen, in order. |
| FrameStream.OddPrefixSeesNone | src/gfdi.rs:174-193 | After bytes with an odd number of zeros, none is. |
| FrameStream.FramesAreClosedRuns | src/gfdi.rs:174-193 | Every frame the buffer extracts is a maximal nonzero run that a zero closes. |
| Pipeline.SentChunksCarryMessages | src/client.rs:408-415 | The chunks of any messages, stripped of a matching handle, are the wrapped messages, in order. |
| Pipeline.PipelineDelivers | src/gfdi.rs:159-193 | Any messages, any handle, any MTU of at least 2, any interleaving of appends and requests without overflow: one result a message, in order, each what that message alone would be received as. |
| Pipeline.PipelineRoundTrip | src/gfdi.rs:204-295 | All messages arrive with their types and payloads exactly when every one of them meets the condition of `FrameOnWire.ReceivedExactly`. |
| Pipeline.StrayZeroSilences | src/gfdi.rs:174-193 | As long as the buffer does not overflow, stray bytes with an odd number of zeros suppress every frame after them. |
| Pipeline.LoneZeroSilences | src/gfdi.rs:174-193 | For a single stray zero: no frame is ever handed out. |
| Pipeline.ReadersAgree | src/capture.rs:111-131 | Every frame the buffer extracts, however often it overflowed before, is one the filter closes and judges; if it is excluded, no released chunk has a byte of it or its closing delimiter. |
| Pipeline.ReadersSeeTheSame | src/gfdi.rs:174-193 | On wrapped frames the buffer and the filter see the same sequence: the frames. |
| Pipeline.SentIdentityNeverReleased | src/capture.rs:20-60 | Whatever messages are sent, with any handle and any MTU of at least 2, no released chunk touches a byte or the closing delimiter of an identity message. |
| Capture.IdentityFilter.constructor | src/capture.rs:96-102 | A new filter has released nothing. |
| Capture.IdentityFilter.Feed | src/capture.rs:108-145 | After every call, everything released so far is exactly the values of the chunks the whole-stream specification clears, in order; at most 8192 bytes and 256 values are kept. |
| Capture.IdentityFilter.FeedByte | src/capture.rs:111-131 | One turn of the byte loop, tied to the step the agreement lemmas are about. |
| Capture.IdentityFilter.FeedEnd | src/capture.rs:132-143 | The bound on held chunks and where the chunk itself goes, tied to the step the agreement lemmas are about. |
| Capture.AnyByte | src/capture.rs:111-131 | Every byte keeps the filter's fields in agreement with the specification of the stream so far. |
| Capture.EndOfChunk | src/capture.rs:132-143 | So does the end of every chunk. |
| CaptureTheorems.CaptureExact | src/capture.rs:37-60 | Over a whole capture the released values are exactly those of the cleared chunks, memory stays bounded, and something is held or tainted only while a frame is open. |
| CaptureTheorems.ReleasedInOrder | src/capture.rs:37-60 | Released chunks come out in input order, none twice, and are exactly the cleared ones. |
| CaptureTheorems.ReleasedForever | src/capture.rs:108-145 | A cleared chunk stays cleared, whatever follows. |
| CaptureTheorems.DroppedForever | src/capture.rs:49-56 | A chunk neither cleared nor pending is never released, whatever follows. |
| CaptureTheorems.PendingNotCleared | src/capture.rs:43-48 | No chunk is both released and pending, so every chunk is exactly one of released, pending and dropped. |
| CaptureTheorems.HeldIsPending | src/capture.rs:43-48 | While the open frame is within its bounds the filter holds exactly the pending chunks; past them, none is pending. |
| CaptureTheorems.ExcludedNeverReleased | src/capture.rs:49-56 | A released chunk has no byte of an excluded frame, nor its closing delimiter. |
| CaptureTheorems.IdentityNeverReleased | src/capture.rs:20-24 | Inside any stream, cut into any chunks, no released chunk touches a built identity message or an ACK of one. |
| Identity.ExcludedExactly | src/capture.rs:149-151 | The bytes between two delimiters are kept out exactly if they do not decode, are shorter than 6 bytes, fail the CRC, or are of type 5003, 5004, 5011, 5012, 5024 or 5101 to 5112, or an ACK (5000) of one of these or too short to name a type. |
| Identity.CarriesIsGuarded | src/gfdi.rs:62-117 | So the classifier of types and ACKs is that list of numbers, for every frame. |
| Identity.SecretsExcluded | src/gfdi.rs:62-117 | Every frame built with one of these types, or as an ACK of one, is kept out, whatever its payload. |
| Identity.OthersCleared | src/gfdi.rs:62-117 | Every other built frame that arrives as sent is let through. |
| Identity.SecretsNeverReleased | src/capture.rs:20-24 | In any stream, cut into any chunks, no released chunk has a byte of such a frame or its closing delimiter. |
| Releases.ReleasedExactly | src/capture.rs:37-60 | In a stream that ends on a delimiter, a chunk that touches only frames of at most 8192 bytes and 256 chunk ends is released exactly if none of them is kept out. |
| Releases.LongFrameDropped | src/capture.rs:53-56 | No chunk that touches a frame of more than 8192 bytes is released. |
| Releases.CrowdedFrameDropped | src/capture.rs:53-56 | Nor is one that touches a frame inside which 257 chunks lie. |
| Releases.ConversationReleased | src/capture.rs:37-60 | Of any messages sent in chunks of any MTU of at least 2: every chunk of a message that arrives as sent and is not guarded is released, and of a guarded one only a chunk that is nothing but its opening delimiter, each if the message is within the bounds. |
| Shots.CacheIsFreshHistory | src/client.rs:357-368 | If time does not go back, the pruned cache is the part of all accepted shots that is less than 60 seconds old. |
| Shots.AcceptedIffNotRecent | src/client.rs:357-368 | A shot is accepted exactly when no shot with its id was accepted less than 60 seconds before. |
| Shots.AcceptedApart | src/client.rs:357-368 | Two accepted shots with the same id are at least 60 seconds apart. |
| Shots.CacheDistinct | src/client.rs:357-368 | The cache holds no id twice and is in time order. |
| Client.Client.constructor | src/client.rs:134-147 | A new client is in the initial state of a session, which no call has touched. |
| Client.Client.Start | src/client.rs:155-160 | Starting puts the session back to registering, unless the write fails, and the session goes on from there. |
| Client.Client.Poll | src/client.rs:172-208 | One poll takes the client's fields to the next state of the session; after it, an active client has been through the handshake, the acknowledgments owed have been sent, the cache is that of all arrivals, and a Ready queued before is what it returned. |
| Client.Client.SendEnvironment | src/client.rs:385-389 | Takes the session on by one request, failed writes included. |
| Client.Client.HandleRegisterResponse | src/client.rs:234-251 | A response with status 0 sets the handle, one with status 1 to 4 is an error, and other bytes are fed to the buffer; what that means byte by byte is in `Answers.Registers` and the two lemmas after it. |
| Client.Client.Dispatch | src/client.rs:253-269 | Each message type goes to its handler; FIT messages and handled protobuf messages are acknowledged. |
| Client.Client.HandleDeviceInfo | src/client.rs:271-277 | Tied to the session model, failed writes included. |
| Client.Client.HandleConfiguration | src/client.rs:279-288 | Acknowledges, sends the host's capabilities, and moves on only if both could be written. |
| Client.Client.HandleAck | src/client.rs:290-312 | A short ACK is ignored, a NAK is an error, the awaited ACK starts the subscription; in numbers, and at the poll, in `Answers.NakIsError` and the lemmas after it. |
| Client.Client.HandleProtobuf | src/client.rs:314-374 | What each envelope does, and the error of one that does not decode; in full, and at the poll, from `Answers.EnvelopeIs` on. |
| Client.Client.WriteAll | src/client.rs:408-415 | The chunks of a frame are written in order until one write fails. |
| Client.Client.SendRequest | src/client.rs:391-421 | A request uses up its id even if it cannot be written; what it says is `Answers.RequestSent`. |
| Answers.AckSent | src/gfdi.rs:278-284 | An ACK sent is a message of type 5000: the type it names, low byte first, the status and its own payload. |
| Answers.CapabilitiesSent | src/gfdi.rs:405-419 | The host's capabilities are a message of type 5050: 13 bytes of bitmap in which bit 30 alone is set. |
| Answers.HostInfoSays | src/gfdi.rs:354-380 | The host's device information: 150, 0xFFFF, 0xFFFFFFFF, 100, 0xFFFF, the names divotmaker, Linux and Desktop, and 1. |
| Answers.RequestSent | src/client.rs:385-406 | A request sent is a message of type 5043 that carries its id modulo 2^16 and its data. |
| Answers.ChunksSent | src/client.rs:408-415 | On a link with any MTU of at least 2 a frame goes out wrapped, under the handle, in writes of at most 20 bytes, all but the last of the full size. |
| Answers.FailedRead | src/client.rs:193-197 | A failed read is a transport error, and nothing else happens. |
| Answers.EmptyRead | src/client.rs:179-181 | Reading no bytes is as finding nothing to read. |
| Answers.QueuedFirst | src/client.rs:173-176 | A queued event is returned before anything is read. |
| Answers.ChunkRead | src/client.rs:187-193 | A chunk for the session's handle is appended, unless more than 65536 bytes would be buffered: then the buffer is emptied, with an error. |
| Answers.OtherChunk | src/client.rs:187-191 | A chunk for another handle is dropped. |
| Answers.Registers | src/client.rs:234-240 | For every register response with status 0: the session takes the handle at byte 13, waits for device information and reports the registration. |
| Answers.RegistrationRefused | src/client.rs:241 | For status 1 to 4: an error that names the status, and the session as it was. |
| Answers.DataWhileRegistering | src/client.rs:242-250 | Anything else read while registering is data, kept if it has the handle. |
| Answers.Restarted | src/client.rs:155-160 | The register command takes any session back to registering, if it can be written, and changes nothing else. |
| Answers.EnvironmentSent | src/client.rs:385-389 | An environment update is one request with the next id, in any phase, and an error exactly if it cannot be written. |
| Answers.BufferedIsTakenUp | src/client.rs:200-206 | A wrapped message at the front of the buffer that arrives as sent is what the next poll takes up. |
| Answers.BadFrame | src/client.rs:200-202 | A frame that does not parse is the error it gives, and gone. |
| Answers.NakIsError | src/client.rs:290-302 | An ACK with a status other than 0 is, in every phase, an error that names the type and the status, and nothing is written or changed. |
| Answers.ShortAckIgnored | src/client.rs:290-293 | An ACK of fewer than 3 bytes is ignored. |
| Answers.AwaitedAck | src/client.rs:304-309 | The awaited ACK moves the phase on in any case, tries the subscription under the next id, and is an event exactly if that goes out. |
| Answers.OtherAck | src/client.rs:304-312 | Any other ACK with status 0 changes nothing. |
| Answers.ShortDeviceInfo | src/gfdi.rs:318-324 | Device information of fewer than 12 bytes is an error and not acknowledged. |
| Answers.DeviceInfoAnswered | src/client.rs:271-277 | Any other is acknowledged with the host's own, and the phase moves on exactly if that goes out. |
| Answers.CapabilitiesAnswered | src/client.rs:279-288 | Capabilities are acknowledged and then answered, and the phase moves on exactly if both go out. |
| Answers.FitAcked | src/client.rs:258-261 | Messages of type 5011 and 5012 are acknowledged with one zero byte. |
| Answers.OtherMessage | src/client.rs:253-269 | Messages of any type but seven are taken off the buffer, and nothing else happens. |
| Answers.EnvelopeIs | src/gfdi.rs:435-459 | The envelope is what the data decodes to, cut to the chunk size of its header. |
| Answers.ProtobufRefused | src/client.rs:314-316 | A protobuf message without an envelope is an error and not acknowledged. |
| Answers.EnvironmentReported | src/client.rs:339-341 | The answer to an environment update is reported as it is, once acknowledged. |
| Answers.ErrorReported | src/client.rs:369 | So is an error of the device. |
| Answers.SilentEnvelope | src/client.rs:370-372 | Three envelopes are acknowledged and cause nothing. |
| Answers.WakeReported | src/client.rs:325-338 | The answer to the wake ends the handshake if it is awaited; from an awake device it also sets the state to waiting and queues a Ready. |
| Answers.ShotReported | src/client.rs:357-368 | A shot is remembered in any case, and an event exactly if none with its id is remembered from less than 60 seconds before, and the acknowledgment goes out. |
| Answers.StateRepeated | src/client.rs:342-344 | The state last seen is no event. |
| Answers.StateReported | src/client.rs:342-356 | Any other is, Ready if the device waits, except for standby while active. |
| Answers.StandbyAsksWake | src/client.rs:350-354 | Standby while active tries a wake under the next id before the acknowledgment, and is reported exactly if both go out. |
| Answers.SubscribedAsksWake | src/client.rs:319-324 | The awaited answer to the subscription does the same, and moves the phase on in any case. |
| Answers.SubscribedAgain | src/client.rs:319-324 | At any other time it is an event and no more. |
| FullSession.SessionActivates | src/client.rs:155-415 | From any session with nothing buffered or queued, on any link whose writes succeed: the register command and then a device that cooperates, one message a poll, end active under the handle granted, with exactly the seven frames of the handshake sent, in order, the two requests with consecutive ids, and four events reported. |
| Handshake.ActiveMeansAsked | src/client.rs:253-337 | In every session, whichever writes fail: if it is active then, since the device capabilities it last answered, it got its ACK, tried to subscribe, was answered, tried to wake the device and was answered, in that order; it tried to subscribe exactly once, and all its later requests of the two kinds are wakes. |
| Handshake.HandshakeExactly | src/client.rs:290-337 | What was sent of it: an active session subscribed since then exactly if its one request is not unsent, and the handshake's wake request, the first one tried, was sent exactly if that one is not unsent. |
| Handshake.ActiveMeansHandshaken | src/client.rs:253-337 | If no write failed since the last device capabilities arrived, it acknowledged them, sent its own, and sent both requests, each in its place. |
| Handshake.RunSecured | src/client.rs:253-337 | Every earlier phase has its own part of that history behind it, whatever restarted the handshake and whichever writes fail; and capabilities since whose arrival every write succeeded were answered at once. |
| Accounting.RunBalanced | src/client.rs:172-421 | The invariant of every session, whichever writes fail, behind the statements of `Sessions`. |
| Sessions.AckDiscipline | src/client.rs:253-312 | In every session the acknowledgments sent are exactly those owed, in order: one for each message handled, naming its type, and for device capabilities acknowledged but not answered; if no frame goes unsent, exactly those of the messages handled. |
| Sessions.NothingFails | src/client.rs:408-415 | If every write succeeds, no frame goes unsent. |
| Sessions.ChangesAlternate | src/client.rs:342-356 | In every session two changes of state taken up in a row name the same state only if the second is a queued Ready. |
| Sessions.StatesReported | src/client.rs:318-356 | In every session the states reported are exactly those of the changes whose messages had their writes go through, and every queued Ready, in order. |
| Sessions.RepeatsByPosition | src/client.rs:318-356 | In every session two reports in a row name the same state, the second unqueued, exactly if lost changes between the two changes they come from are undone: there is at least one change between them, and all of them had a write fail. |
| Sessions.RepeatsExactly | src/client.rs:318-356 | So that happens somewhere in a session exactly if somewhere in it a lost change is undone. |
| Sessions.StateReportsAlternate | src/client.rs:342-356 | So if no frame goes unsent, two reports in a row name the same state only if the second is the queued Ready. |
| Sessions.WakesBalance | src/client.rs:318-356 | In every session the wake requests tried are as many as subscriptions answered while subscribing and changes to standby while active. |
| Sessions.RequestIdsCount | src/client.rs:417-421 | In every session the k-th protobuf request tried carries id k modulo 65536. |
| Sessions.QueuedReadyIsNext | src/client.rs:172-176 | In every session what is queued is a Ready, and the very next poll returns it without reading. |
| Sessions.CacheOfSession | src/client.rs:357-368 | In every session whose clock does not go back, the pruned cache is the part of all shots it accepted that is less than 60 seconds old. |
| Sessions.ShotsReported | src/client.rs:357-368 | The shots reported are exactly those the full history accepts and whose acknowledgment was written, in order, and equal ids are at least 60 seconds apart. |
| Sessions.UnackedShotIsLost | src/client.rs:357-368 | A shot that was accepted but whose acknowledgment failed is not reported, and neither is any shot with its id for 60 seconds, whatever arrives meanwhile. |
| OnTheLink.RunMatches | src/client.rs:408-415 | At every point of a session, whichever writes fail, the chunks written are, without their handles, one part a frame tried, in order: the whole wrapped frame if it was sent, a proper beginning of it if not. |
| OnTheLink.DeviceSeesWhatIsSent | src/client.rs:408-415 | If no frame went unsent, a device that reassembles what a session wrote, however it arrives, gets exactly the frames sent, in order. |
| OnTheLink.OneFrameUnsent | src/client.rs:408-415 | If one frame went unsent, it gets all the others if nothing of that one was written, and otherwise those before it, the part written of it if anything follows, and none after it. |
| OnTheLink.CutSilences | src/gfdi.rs:174-193 | The reason: a frame cut after its opening delimiter suppresses every frame after it. |
| OnTheLink.OwnAckUntouched | src/capture.rs:20-60 | A filter fed what a session writes, whichever writes fail, releases no chunk with a byte of an ACK it sent for a message that carries identity. |
| LostWrites.StateReportedExactly | src/client.rs:253-269 | A change of state is remembered in any case, and reported exactly if the wake request it asks for, if any, and its acknowledgment can be written; if not, the result is a transport error. |
| LostWrites.ShotReportedIffAcked | src/client.rs:253-269 | A shot is remembered in any case, and reported exactly if it is new and its acknowledgment can be written. |
| LostWrites.WaitingTwice | src/client.rs:342-356 | If the device waits, records and waits again, and only the first write of the second acknowledgment fails, Ready is reported twice in a row, neither time queued. |
| LostWrites.ShotSentTwice | src/client.rs:357-368 | A shot whose acknowledgment fails, sent again within 60 seconds and acknowledged, is never reported. |
| LostWrites.AnswersActivate | src/client.rs:290-337 | A session awaiting the ACK of its capabilities becomes active on the three answers it waits for, having sent of its two requests exactly those that could be written. |
| LostWrites.ActiveUnsubscribed | src/client.rs:290-337 | So one whose subscription could not be written becomes active without having sent one. |
| LostWrites.AfterIsPoll | src/client.rs:172-208 | The steps of these sessions are polls that find the frame in the buffer. |
| ExampleRuns.Delivered | src/client.rs:172-208 | A chunk that holds one wrapped frame, read in any phase, and one more poll take a session on by exactly that frame. |
| ExampleRuns.RepeatHappens | src/client.rs:342-356 | A run from the first call on, on a concrete link, of chunks read, in which Ready is reported twice in a row, neither time queued. |
| ExampleRuns.ShotLossHappens | src/client.rs:357-368 | Another in which a shot is lost although its second copy is acknowledged. |
| ExampleRuns.UnsubscribedHappens | src/client.rs:290-337 | Another, on a link that fails one write, that ends active with no subscription sent. |
| ExampleRuns.UnwokenHappens | src/client.rs:314-337 | Another that ends active, subscribed, with no wake request sent. |
| SessionCapture.SessionReads | src/client.rs:172-208 | In every session the messages taken up are those of the frames its buffer hands out. |
| SessionCapture.SessionAppends | src/client.rs:187-193 | What the buffer is given are the bodies of the chunks read for the session's handle, in order. |
| SessionCapture.SessionIdentityUntouched | src/capture.rs:20-60 | Every message a session takes up comes from a frame that a filter fed the same chunks closes and judges; if it carries identity, no released chunk has a byte of it. |
| Frp.Accept | src/frp/mod.rs:109-126 | The acceptor's nested loop: one request yields one connection, whatever attempts fail in between, and each of its moves is a step of the interleaving. |
| Frp.FrpDevice.constructor | src/frp/mod.rs:128-138 | A new device has asked for its first connection, and no call has touched it. |
| Frp.FrpDevice.AskForConnection | src/frp/mod.rs:142-146 | A request is sent only if none is pending, and counts as pending only if it could be sent. |
| Frp.FrpDevice.Poll | src/frp/mod.rs:158-173 | Takes the device's fields to the next state of the run, after which there is exactly one connection, adopted or on its way, while the acceptor lives. |
| Frp.FrpDevice.Adopt | src/frp/mod.rs:162-171 | Adopts a waiting connection, if there is one, and resends the cached telemetry to it. |
| Frp.FrpDevice.Check | src/frp/mod.rs:191-201 | Returns a controller's command, or drops a connection that fails, and keeps the one connection. |
| Frp.FrpDevice.Drop | src/frp/mod.rs:213-216 | Drops the connection and asks for another. |
| Frp.FrpDevice.Send | src/frp/mod.rs:219-231 | A closed connection is dropped without an error; other failures are errors. |
| Frp.FrpDevice.SendDeviceInfo | src/frp/mod.rs:208-210 | Announces ready, and keeps the one connection. |
| Frp.FrpDevice.Handle | src/frp/mod.rs:242-278 | What each event sends and caches, and keeps the one connection. |
| Frp.FrpDevice.SendShot | src/frp/mod.rs:249-277 | The shot sequence, with the early return on a failed send. |
| Frp.FrpDevice.SendAll | src/frp/mod.rs:298-310 | Sends until the connection is gone or a send fails. |
| HandOff.OneToken | src/frp/mod.rs:104-173 | In every interleaving, while the acceptor lives: queued requests, acceptor at work, queued connections and the adopted connection add up to exactly 1, and `pending` holds exactly if none is adopted; if the acceptor dies, at most 1. |
| HandOff.NoneLost | src/frp/mod.rs:158-216 | Every connection made is adopted, in the order made, or next in line, and only the one adopted is open. |
| HandOff.Recovers | src/frp/mod.rs:109-173 | From every reachable unconnected state with a live acceptor, one attempt that gets through is enough for the next poll to adopt a connection. |
| HandOff.ControllersAreTold | src/frp/mod.rs:158-310 | Every connection without a failed send got the greeting and all that the events handled meanwhile owe it, in order, except for a part of the last call if that closed it. |
| HandOff.ShotsStayWhole | src/frp/mod.rs:242-310 | On such a connection telemetry comes first, every shot comes right after ready=false, in one piece, in order and under one key, and only the end of the connection can cut it short. |
| HandOff.GreetingIsLatest | src/frp/mod.rs:280-296 | What is cached for the next controller is the readiness last announced, connected or not, sent or not. |
| HandOff.ShotsNumbered | src/frp/mod.rs:253-257 | In every interleaving, whichever sends fail, the shot number is, modulo 2^32, the count of shots handled whose ready=false did not fail to go out, connected or not, in a build without overflow checks. |
| HandOff.AllAnnounced | src/frp/mod.rs:249-257 | If no send fails with the connection still open, those are all the shots handled. |
| Relay.ShotRelayed | src/frp/mod.rs:242-310 | In every run, a shot handled while connected adds exactly ready=false, the trigger, the ball's flight if the shot has one, the club's path if it has one, and the end, under one key with the next number; all of it if the connection stays open, a beginning if it closes, unless a send fails. |
| Relay.ReadyRelayed | src/frp/mod.rs:242-247 | A Ready adds ready=true and a change of state ready=false, each alone. |
| Relay.InfoRelayed | src/frp/mod.rs:208-210 | The device's information adds ready=true. |
| Relay.OtherEvent | src/frp/mod.rs:243-248 | No other event does anything. |
| Relay.CommandReturned | src/frp/mod.rs:191-201 | A command is returned exactly if the device is connected and the message read holds it, and nothing changes. |
| Relay.FailingDropped | src/frp/mod.rs:191-201 | A connection that fails when read is closed, hears no more, and another is asked for. |
| Relay.HandleResult | src/frp/mod.rs:242-310 | Handling an event is an error exactly if one of its sends failed without closing the connection. |
| Relay.PollResult | src/frp/mod.rs:158-173 | Polling says whether a connection was adopted, and is an error exactly if its greeting failed without closing it. |

## Left out

- The Bluetooth backends (`src/ble.rs`, `src/bluez.rs`, `src/btleplug.rs`): only the results of reads and writes are in the model.
- Protobuf encoding and decoding (`src/proto.rs`): an envelope decodes by an arbitrary function, and the two requests the client makes are arbitrary byte strings.
- Floating-point conversion of ball and club readings (`src/proto.rs`, `src/frp/convert.rs`): readings are passed on as opaque bytes.
- The strings inside the device information, the list of capability bits, and the debug name of a phase: they change nothing in the session.
- The layout of the register command and the transaction id of its response; the uniqueness of the shot ids the relay device generates, which are a parameter.
- Reads longer than the 512-byte read buffer: a chunk here has any length. Lengths and counters that the program keeps in `usize` are unbounded.
- Messages of errors, including the length reported after the reassembly buffer is emptied.
- The host's device information is a constant; the code builds the same bytes from constants.
- The clock is a natural number that does not go back, in nanoseconds; wall-clock retry delays are left out.
- What a device makes of several frames of which only some chunks could be written: `OnTheLink.RunMatches` gives the bytes it gets, `OnTheLink.OneFrameUnsent` what it makes of them for one such frame.
- An MTU of 0 or 1: no chunk is written then, yet every frame counts as sent, as `send_frame` at `src/client.rs:408-415` returns without an error. The session theorems hold there in that sense; what is said of the bytes on the link is for an MTU of at least 2.
- Overflow of the shot counter: it wraps here, as it does in a build without overflow checks; a build with them stops at the 2^32nd shot.
- The relay endpoint's own handshake and the text of controller commands: an attempt to establish a connection succeeds or fails, and a command is opaque. Manufacturer and model in telemetry are constants and left out.
- The end of the device object, after which the acceptor thread returns: no operation follows it. A send on a connection after the peer vanished is an outcome of the send.
- The 16 bits of the length field of a frame wrap for longer frames, as in the code; the parser does not read that field.
- Identity inside a protobuf payload: the filter classifies by message type only, and so does the model.
- A closed form for frames with a CRC below 256 in which a zero also closes a full COBS block; `CobsRoundTrip.RoundTrip` gives the bytes they decode to.
- What a controller hears on a connection after a send on it failed without closing it: the code keeps such a connection and abandons the rest of the call, and the theorems about what controllers hear are about the others.
