/** Between the session and the link: what is written is what was sent. */
module OnTheLink {
  import opened Wrappers
  import opened Bytes
  import opened Gfdi
  import opened Multilink
  import opened FrameStream
  import opened FrameOnWire
  import opened ClientModel
  import opened Accounting
  import opened Pipeline
  import opened StreamBuffers
  import Cobs

  // ----- What is written -----

  /** The frames a session tried to send, in order. */
  function Tries(log: seq<Entry>): seq<Entry> {
    if log == [] then []
    else
      var e := log[|log| - 1];
      Tries(log[..|log| - 1]) + (if e.Sent? || e.Unsent? then [e] else [])
  }

  lemma TriesPush(log: seq<Entry>, e: Entry)
    ensures Tries(log + [e]) == Tries(log) + (if e.Sent? || e.Unsent? then [e] else [])
  {
    assert (log + [e])[..|log|] == log;
  }

  function Wrapped(out: Out): seq<Byte> { WrapCobs(FrameOf(out)) }

  /** A frame sent is written in full, one unsent in part. */
  predicate PartOf(part: seq<Byte>, e: Entry) {
    && (e.Sent? ==> part == Wrapped(e.out))
    && (e.Unsent? ==> part <= Wrapped(e.out) && part != Wrapped(e.out))
  }

  predicate Parts(parts: seq<seq<Byte>>, tries: seq<Entry>) {
    |parts| == |tries| && forall i :: 0 <= i < |parts| ==> PartOf(parts[i], tries[i])
  }

  /** Stripped of their handles, the chunks written so far are these parts. */
  ghost predicate WireMatches(st: State) {
    exists parts :: Parts(parts, Tries(st.log)) && Flatten(parts) == Flatten(Bodies(st.written))
  }

  /** Frames are wrapped and cut to an MTU that leaves room for data. */
  ghost predicate Links(env: Env) { exists mtu: nat :: mtu >= 2 && Cuts(env, mtu) }

  lemma EnvForLinks(decode: seq<Byte> -> Option<EnvelopeEvent>, subscribe: seq<Byte>, wakeup: seq<Byte>, mtu: nat,
                    accepts: nat -> bool)
    requires mtu >= 2
    ensures Links(EnvFor(decode, subscribe, wakeup, mtu, accepts))
  {
    assert Cuts(EnvFor(decode, subscribe, wakeup, mtu, accepts), mtu);
  }

  /** The first chunks of some data are a prefix of it, and a proper one unless they are all. */
  lemma CutIsPrefix(data: seq<Byte>, handle: Byte, mtu: nat, chunks: seq<seq<Byte>>, g: nat)
    requires mtu >= 2 && chunks == ChunkWithHandle(data, handle, mtu) && g <= |chunks|
    ensures var part := Flatten(Bodies(chunks[..g])); part <= data && (g == |chunks| <==> part == data)
  {
    var front, back := Bodies(chunks[..g]), Bodies(chunks[g..]);
    ChunksCarryData(data, handle, mtu);
    assert chunks == chunks[..g] + chunks[g..];
    BodiesAppend(chunks[..g], chunks[g..]);
    FlattenAppend(front, back);
    if g < |chunks| {
      LastBody(chunks[g..]);
    } else {
      assert chunks[..g] == chunks;
    }
  }

  lemma LastBody(chunks: seq<seq<Byte>>)
    requires chunks != [] && |chunks[|chunks| - 1]| >= 2
    ensures Flatten(Bodies(chunks)) != []
  {
    assert Bodies(chunks)[|chunks| - 1] != [];
  }

  lemma PartsMore(parts: seq<seq<Byte>>, tries: seq<Entry>, part: seq<Byte>, e: Entry)
    requires Parts(parts, tries) && PartOf(part, e)
    ensures Parts(parts + [part], tries + [e]) && Flatten(parts + [part]) == Flatten(parts) + part
  {
    assert (parts + [part])[..|parts|] == parts;
  }

  lemma SendMatches(env: Env, st: State, out: Out)
    requires Links(env) && WireMatches(st)
    ensures WireMatches(SendFrame(env, st, out).0)
  {
    var (s, ok) := SendFrame(env, st, out);
    var chunks := ChunksOf(env, st, out);
    var g := Granted(env.accepts, st.attempts, |chunks|);
    SendIs(env, st, out);
    var mtu: nat :| mtu >= 2 && Cuts(env, mtu);
    CutIsPrefix(Wrapped(out), st.handle, if mtu < 20 then mtu else 20, chunks, g);
    WrittenMatches(st, s, Tried(out, ok), chunks[..g]);
  }

  lemma WrittenMatches(st: State, s: State, e: Entry, more: seq<seq<Byte>>)
    requires WireMatches(st) && (e.Sent? || e.Unsent?) && PartOf(Flatten(Bodies(more)), e)
    requires s.log == st.log + [e] && s.written == st.written + more
    ensures WireMatches(s)
  {
    var parts :| Parts(parts, Tries(st.log)) && Flatten(parts) == Flatten(Bodies(st.written));
    TriesPush(st.log, e);
    PartsMore(parts, Tries(st.log), Flatten(Bodies(more)), e);
    BodiesAppend(st.written, more);
    FlattenAppend(Bodies(st.written), Bodies(more));
  }

  lemma NoteMatches(st: State, e: Entry)
    requires WireMatches(st) && !e.Sent? && !e.Unsent?
    ensures WireMatches(st.Note(e))
  {
    TriesPush(st.log, e);
    assert Tries(st.log) + [] == Tries(st.log);
  }

  lemma RequestMatches(env: Env, st: State, kind: RequestKind, pb: seq<Byte>)
    requires Links(env) && WireMatches(st)
    ensures WireMatches(SendRequest(env, st, kind, pb).0)
  {
    SendMatches(env, NextReqId(st), Request(st.reqId, kind, pb));
  }

  lemma SubscribeResultMatches(env: Env, st: State, success: bool)
    requires Links(env) && WireMatches(st)
    ensures WireMatches(OnSubscribeResult(env, st, success).0)
  {
    if st.phase == Subscribing {
      RequestMatches(env, st.(phase := WakingUp), Wake, env.wakeup);
    }
  }

  lemma StateChangeMatches(env: Env, st: State, state: DeviceState)
    requires Links(env) && WireMatches(st)
    ensures WireMatches(OnStateChange(env, st, state).0)
  {
    if st.lastState != Some(state) && state == Standby && st.phase == Active {
      RequestMatches(env, st.(lastState := Some(state)), Wake, env.wakeup);
    }
  }

  lemma EnvelopeMatches(env: Env, st: State, e: EnvelopeEvent, now: nat)
    requires Links(env) && WireMatches(st)
    ensures WireMatches(OnEnvelope(env, st, e, now).0)
  {
    match e {
      case SubscribeResult(success) => SubscribeResultMatches(env, st, success);
      case StateChange(state) => StateChangeMatches(env, st, state);
      case _ =>
    }
  }

  lemma ProtobufMatches(env: Env, st: State, t: Word, payload: seq<Byte>, now: nat)
    requires Links(env) && WireMatches(st)
    ensures WireMatches(ProtobufMessage(env, st, t, payload, now).0)
  {
    var r := EnvelopeOf(env, payload);
    if r.Ok? {
      var entry := GotEnvelope(r.value, now, st.phase, st.lastState);
      NoteMatches(st, entry);
      EnvelopeMatches(env, st.Note(entry), r.value, now);
    }
    SendMatches(env, HandleProtobuf(env, st, payload, now).0, Ack(t, 0, []));
  }

  lemma ConfigurationMatches(env: Env, st: State)
    requires Links(env) && WireMatches(st)
    ensures WireMatches(HandleConfiguration(env, st).0)
  {
    SendMatches(env, st, Ack(MSG_CONFIGURATION, 0, []));
    SendIs(env, st, Ack(MSG_CONFIGURATION, 0, []));
    SendMatches(env, SendAck(env, st, MSG_CONFIGURATION, []).0, HostCapabilities);
  }

  lemma AckFrameMatches(env: Env, st: State, payload: seq<Byte>)
    requires Links(env) && WireMatches(st)
    ensures WireMatches(HandleAck(env, st, payload).0)
  {
    if |payload| >= 3 && payload[2] == 0 {
      var e := GotAckOf(FromLe(payload[0], payload[1]));
      NoteMatches(st, e);
      if StartsSubscription(st, payload) {
        RequestMatches(env, st.Note(e).(phase := Subscribing), Subscribe, env.subscribe);
      }
    }
  }

  lemma DispatchMatches(env: Env, st: State, f: GfdiFrame, now: nat)
    requires Links(env) && WireMatches(st)
    ensures WireMatches(Dispatch(env, st, f, now).0)
  {
    if f.msgType == MSG_DEVICE_INFO {
      SendMatches(env, st, Ack(MSG_DEVICE_INFO, 0, HOST_INFO));
    } else if f.msgType == MSG_CONFIGURATION {
      ConfigurationMatches(env, st);
    } else if f.msgType == MSG_ACK {
      AckFrameMatches(env, st, f.payload);
    } else if f.msgType == MSG_FIT_DEFINITION || f.msgType == MSG_FIT_DATA {
      SendMatches(env, st, Ack(f.msgType, 0, [0]));
    } else if f.msgType == MSG_PROTOBUF_REQUEST || f.msgType == MSG_PROTOBUF_RESPONSE {
      ProtobufMatches(env, st, f.msgType, f.payload, now);
    }
  }

  lemma NextFrameMatches(env: Env, st: State, now: nat)
    requires Links(env) && WireMatches(st)
    ensures WireMatches(NextFrame(env, st, now).0)
  {
    var (cobs, rest) := NextOf(st.buf);
    var s := st.(buf := rest);
    if cobs.Some? && ParseCobsFrame(cobs.value).Ok? {
      var f := ParseCobsFrame(cobs.value).value;
      NoteMatches(s, Got(f.msgType));
      DispatchMatches(env, s.Note(Got(f.msgType)), f, now);
      NoteMatches(Dispatch(env, s.Note(Got(f.msgType)), f, now).0, Done(f.msgType));
    }
  }

  lemma ReadMatches(env: Env, st: State, rd: Read, now: nat)
    requires Links(env) && WireMatches(st)
    ensures WireMatches(ReadAndHandle(env, st, rd, now).0)
  {
    match rd {
      case Failed =>
      case WouldBlock => NextFrameMatches(env, st, now);
      case Chunk(data) =>
        if data == [] {
          NextFrameMatches(env, st, now);
        } else if st.phase == Registering {
          RegisterIs(st, data);
        } else {
          NextFrameMatches(env, Feed(st, data).0, now);
        }
    }
  }

  lemma PollMatches(env: Env, st: State, rd: Read, now: nat)
    requires Links(env) && WireMatches(st)
    ensures WireMatches(Poll(env, st, rd, now).0)
  {
    if st.pending.Some? {
      NoteMatches(st, Emitted(st.pending.value, true));
    } else {
      ReadMatches(env, st, rd, now);
      var (s, r) := ReadAndHandle(env, st, rd, now);
      if r.Ok? && r.value.Some? {
        NoteMatches(s, Emitted(r.value.value, false));
      }
    }
  }

  /** What a session has written is, frame by frame, all of those it sent and a beginning of those it could not send. */
  lemma {:induction false} RunMatches(env: Env, ops: seq<Op>)
    requires Links(env)
    ensures WireMatches(Run(env, ops))
  {
    if ops == [] {
      NothingWritten(Run(env, ops));
    } else {
      var st := Run(env, ops[..|ops| - 1]);
      RunMatches(env, ops[..|ops| - 1]);
      match ops[|ops| - 1] {
        case Start(_) =>
        case DoPoll(rd, now) => PollMatches(env, st, rd, now);
        case SetEnvironment(pb) => RequestMatches(env, st, Environment, pb);
      }
    }
  }

  lemma NothingWritten(st: State)
    requires st == INITIAL
    ensures WireMatches(st)
  {
    assert Parts([], Tries(st.log)) && Flatten<Byte>([]) == Flatten(Bodies(st.written));
  }

  // ----- When everything is sent -----

  predicate AllSent(tries: seq<Entry>) { forall i :: 0 <= i < |tries| ==> tries[i].Sent? }

  /** The encodings of the frames tried. */
  function EncodedTries(tries: seq<Entry>): (r: seq<seq<Byte>>)
    requires forall i :: 0 <= i < |tries| ==> tries[i].Sent? || tries[i].Unsent?
    ensures |r| == |tries|
  {
    if tries == [] then []
    else EncodedTries(tries[..|tries| - 1]) + [Cobs.Encode(FrameOf(tries[|tries| - 1].out))]
  }

  lemma {:induction false} TriesAreTries(log: seq<Entry>)
    ensures forall i :: 0 <= i < |Tries(log)| ==> Tries(log)[i].Sent? || Tries(log)[i].Unsent?
    ensures NoneUnsent(log) ==> AllSent(Tries(log))
  {
    if log != [] {
      TriesAreTries(log[..|log| - 1]);
    }
  }

  lemma WireNext(u: seq<Byte>, es: seq<seq<Byte>>, e: seq<Byte>, all: seq<seq<Byte>>)
    requires all == es + [e] && Wrappable(es) && e != [] && NoZero(e)
    ensures Wire(u, all) == Push(Wire(u, es), e) && Wrappable(all)
  {
    assert all[..|es|] == es;
  }

  lemma OnePart(s: seq<Byte>, part: seq<Byte>, out: Out, e: seq<Byte>)
    requires part == Wrapped(out) && e == Cobs.Encode(FrameOf(out))
    ensures s + part == Push(s, e) && e != [] && NoZero(e)
  {
    FrameEncodes(out);
    WrapIsPush(s, FrameOf(out));
  }

  /** Frames written in full are the wire of their encodings, behind whatever was written before. */
  lemma {:induction false} PartsAreWire(u: seq<Byte>, parts: seq<seq<Byte>>, tries: seq<Entry>)
    requires AllSent(tries) && Parts(parts, tries)
    ensures u + Flatten(parts) == Wire(u, EncodedTries(tries)) && Wrappable(EncodedTries(tries))
  {
    if tries == [] {
      assert u + [] == u;
    } else {
      var n := |tries| - 1;
      var e := Cobs.Encode(FrameOf(tries[n].out));
      PartsAreWire(u, parts[..n], tries[..n]);
      assert PartOf(parts[n], tries[n]);
      OnePart(u + Flatten(parts[..n]), parts[n], tries[n].out, e);
      WireNext(u, EncodedTries(tries[..n]), e, EncodedTries(tries));
      Associative(u, Flatten(parts[..n]), parts[n]);
    }
  }

  lemma FrameEncodes(out: Out)
    ensures Cobs.Encode(FrameOf(out)) != [] && NoZero(Cobs.Encode(FrameOf(out)))
  {
    match out {
      case Ack(t, status, payload) => EncodedBuilt(MSG_ACK, Le(t) + [status] + payload);
      case HostCapabilities => EncodedBuilt(MSG_CONFIGURATION, HOST_CAPABILITIES);
      case Request(id, _, pb) => EncodedBuilt(MSG_PROTOBUF_REQUEST, FragPayload((id % 0x1_0000) as Word, pb));
    }
  }

  /** The encoded frames of a session's sends, in order. */
  function SentFrames(log: seq<Entry>): seq<seq<Byte>> {
    TriesAreTries(log);
    EncodedTries(Tries(log))
  }

  /**
    If no frame went unsent, a device that reassembles what a session wrote, however it arrives, gets the frames sent,
    in order, and no others.
   */
  lemma DeviceSeesWhatIsSent(env: Env, ops: seq<Op>, device: seq<BufOp>)
    requires Links(env) && NoneUnsent(Run(env, ops).log) && Drained(device, Run(env, ops).written)
    ensures RunOps(device).frames == SentFrames(Run(env, ops).log)
  {
    var st := Run(env, ops);
    RunMatches(env, ops);
    TriesAreTries(st.log);
    DrainedFrames(device, st.written);
    var parts :| Parts(parts, Tries(st.log)) && Flatten(parts) == Flatten(Bodies(st.written));
    PartsAreWire([], parts, Tries(st.log));
    assert [] + Flatten(parts) == Flatten(parts);
    FramesOfWire(EncodedTries(Tries(st.log)));
  }

  // ----- When one frame is cut -----

  /**
    What a frame cut after its opening delimiter makes a reader see: itself, as far as it got, and nothing after it.
   */
  function Glimpse(cut: seq<Byte>): seq<seq<Byte>> {
    if |cut| <= 1 then [] else [cut[1..]]
  }

  lemma CutZeros(before: seq<seq<Byte>>, s: seq<Byte>, e: seq<Byte>)
    requires Wrappable(before) && s == Wire([], before) && NoZero(e)
    ensures |Zeros(s)| == 2 * |before| && |Zeros(s + [0] + e)| == 2 * |before| + 1
  {
    ZerosWire([], before);
    OneMoreZero(s);
    AppendNonzero(s + [0], e);
  }

  /** The opening delimiter of the next frame closes the cut one. */
  lemma CutClosed(before: seq<seq<Byte>>, s: seq<Byte>, e: seq<Byte>)
    requires Wrappable(before) && s == Wire([], before) && NoZero(e)
    ensures AllFrames(s + [0] + e + [0]) == before + (if e == [] then [] else [e])
  {
    CutZeros(before, s, e);
    FramesOfWire(before);
    if e == [] {
      assert s + [0] + e == s + [0] && before + [] == before;
      EmptySegment(s + [0]);
      AppendOpening(s, s + [0], |before|);
    } else {
      InStep(s, e);
    }
  }

  lemma Odd(n: nat, p: nat)
    requires n == 2 * p + 1
    ensures n % 2 == 1
  {}

  lemma OddSeesNone(prefix: seq<Byte>, p: nat, es: seq<seq<Byte>>)
    requires |Zeros(prefix)| == 2 * p + 1 && Wrappable(es) && es != []
    ensures AllFrames(Wire(prefix, es)) == AllFrames(prefix + [0])
  {
    Odd(|Zeros(prefix)|, p);
    OddPrefixSeesNone(prefix, es);
  }

  lemma EvenSeesAll(prefix: seq<Byte>, p: nat, es: seq<seq<Byte>>)
    requires |Zeros(prefix)| == 2 * p && Wrappable(es)
    ensures AllFrames(Wire(prefix, es)) == AllFrames(prefix) + es
  {
    EvenPrefixSeesAll(prefix, es);
  }

  /** A stream of wrapped frames in which one is cut: every frame before it is seen, none after it. */
  lemma CutSilences(before: seq<seq<Byte>>, e: seq<Byte>, after: seq<seq<Byte>>)
    requires Wrappable(before) && NoZero(e) && Wrappable(after) && after != []
    ensures AllFrames(Wire(Wire([], before) + [0] + e, after)) == before + (if e == [] then [] else [e])
  {
    var s := Wire([], before);
    CutZeros(before, s, e);
    OddSeesNone(s + [0] + e, |before|, after);
    CutClosed(before, s, e);
  }

  /** If nothing comes after it, it is not seen at all. */
  lemma CutUnseen(before: seq<seq<Byte>>, e: seq<Byte>)
    requires Wrappable(before) && NoZero(e)
    ensures AllFrames(Wire([], before) + [0] + e) == before
  {
    var s := Wire([], before);
    ZerosWire([], before);
    AppendNonzero(s + [0], e);
    AppendOpening(s, s + [0], |before|);
    FramesOfWire(before);
  }

  /** A part of a frame that is not empty is its opening delimiter and bytes of its encoding. */
  lemma CutShape(cut: seq<Byte>, out: Out)
    requires PartOf(cut, Unsent(out)) && cut != []
    ensures cut == [0] + cut[1..] && NoZero(cut[1..])
  {
    FrameEncodes(out);
    CutOf(cut, Cobs.Encode(FrameOf(out)), Wrapped(out));
  }

  lemma CutOf(cut: seq<Byte>, e: seq<Byte>, wrapped: seq<Byte>)
    requires wrapped == [0] + e + [0] && cut <= wrapped && cut != wrapped && cut != [] && NoZero(e)
    ensures cut == [0] + cut[1..] && NoZero(cut[1..])
  {
    var n := |cut|;
    assert cut == wrapped[..n];
    assert cut[1..] == e[..n - 1];
  }

  /**
    What a reader sees of a session's writes in which exactly one frame went unsent, `cut` being the part written of
    it.
   */
  function SeenAround(before: seq<seq<Byte>>, cut: seq<Byte>, after: seq<seq<Byte>>): seq<seq<Byte>> {
    if cut == [] then before + after
    else if after == [] then before
    else before + Glimpse(cut)
  }

  lemma PartsFront(parts: seq<seq<Byte>>, before: seq<Entry>, rest: seq<Entry>, all: seq<Entry>)
    requires all == before + rest && Parts(parts, all)
    ensures Parts(parts[..|before|], before)
  {
    forall i | 0 <= i < |before| ensures PartOf(parts[i], before[i]) {
      assert PartOf(parts[i], all[i]);
    }
  }

  lemma PartsBack(parts: seq<seq<Byte>>, before: seq<Entry>, rest: seq<Entry>, all: seq<Entry>)
    requires all == before + rest && Parts(parts, all)
    ensures Parts(parts[|before|..], rest)
  {
    forall i | 0 <= i < |rest| ensures PartOf(parts[|before| + i], rest[i]) {
      assert PartOf(parts[|before| + i], all[|before| + i]);
    }
  }

  lemma PartsAround(parts: seq<seq<Byte>>, before: seq<Entry>, e: Entry, after: seq<Entry>)
    requires Parts(parts, before + [e] + after)
    ensures Parts(parts[..|before|], before) && PartOf(parts[|before|], e) && Parts(parts[|before| + 1..], after)
  {
    var all := before + [e] + after;
    assert all == before + ([e] + after) && all[|before|] == e && |before + [e]| == |before| + 1;
    PartsFront(parts, before, [e] + after, all);
    assert PartOf(parts[|before|], all[|before|]);
    PartsBack(parts, before + [e], after, all);
  }

  lemma OneCutStream(before: seq<Entry>, out: Out, after: seq<Entry>, parts: seq<seq<Byte>>)
    requires AllSent(before) && AllSent(after) && Parts(parts, before + [Unsent(out)] + after)
    ensures AllFrames(Flatten(parts)) == SeenAround(EncodedTries(before), parts[|before|], EncodedTries(after))
  {
    var n := |before|;
    PartsAround(parts, before, Unsent(out), after);
    PartsAreWire([], parts[..n], before);
    PartsAreWire(Flatten(parts[..n]) + parts[n], parts[n + 1..], after);
    FlattenSplit(parts, n, parts[n]);
    assert [] + Flatten(parts[..n]) == Flatten(parts[..n]);
    SeenAroundCut(EncodedTries(before), out, parts[n], EncodedTries(after));
  }

  lemma UnwrittenSeen(before: seq<seq<Byte>>, after: seq<seq<Byte>>)
    requires Wrappable(before) && Wrappable(after)
    ensures AllFrames(Wire(Wire([], before) + [], after)) == before + after
  {
    assert Wire([], before) + [] == Wire([], before);
    ZerosWire([], before);
    EvenSeesAll(Wire([], before), |before|, after);
    FramesOfWire(before);
  }

  lemma SeenAroundCut(before: seq<seq<Byte>>, out: Out, cut: seq<Byte>, after: seq<seq<Byte>>)
    requires Wrappable(before) && Wrappable(after) && PartOf(cut, Unsent(out))
    ensures AllFrames(Wire(Wire([], before) + cut, after)) == SeenAround(before, cut, after)
  {
    if cut == [] {
      UnwrittenSeen(before, after);
    } else {
      CutShape(cut, out);
      WrittenSeen(before, cut[1..], cut, after);
    }
  }

  lemma WrittenSeen(before: seq<seq<Byte>>, e: seq<Byte>, cut: seq<Byte>, after: seq<seq<Byte>>)
    requires Wrappable(before) && Wrappable(after) && NoZero(e) && cut == [0] + e
    ensures AllFrames(Wire(Wire([], before) + cut, after)) == SeenAround(before, cut, after)
  {
    assert Wire([], before) + cut == Wire([], before) + [0] + e && cut[1..] == e;
    if after == [] {
      CutUnseen(before, e);
    } else {
      CutSilences(before, e, after);
    }
  }

  /**
    One frame that could not be sent: if nothing of it was written, a device gets all the others; if its opening
    delimiter was, it gets those before, the part that was written of this one, and none of those after.
   */
  lemma OneFrameUnsent(env: Env, ops: seq<Op>, device: seq<BufOp>, before: seq<Entry>, out: Out, after: seq<Entry>)
    returns (cut: seq<Byte>)
    requires Links(env) && Drained(device, Run(env, ops).written)
    requires Tries(Run(env, ops).log) == before + [Unsent(out)] + after && AllSent(before) && AllSent(after)
    ensures PartOf(cut, Unsent(out))
    ensures RunOps(device).frames == SeenAround(EncodedTries(before), cut, EncodedTries(after))
  {
    var st := Run(env, ops);
    RunMatches(env, ops);
    DrainedFrames(device, st.written);
    var parts :| Parts(parts, Tries(st.log)) && Flatten(parts) == Flatten(Bodies(st.written));
    cut := parts[|before|];
    assert PartOf(cut, Tries(st.log)[|before|]);
    OneCutStream(before, out, after, parts);
  }

  // ----- A capture of what is written -----

  /** The stream has `e` at `first`, and no released chunk has a byte of it or of the delimiter after it. */
  predicate Hidden(bodies: seq<seq<Byte>>, first: nat, e: seq<Byte>) {
    && first + |e| < |Flatten(bodies)| && Flatten(bodies)[first..first + |e|] == e
    && Untouched(bodies, first, first + |e|)
  }

  lemma PartUntouched(bodies: seq<seq<Byte>>, parts: seq<seq<Byte>>, j: nat, t: Word, status: Byte, payload: seq<Byte>,
                      part: seq<Byte>, e: seq<Byte>)
    returns (first: nat)
    requires Flatten(parts) == Flatten(bodies) && j < |parts| && parts[j] == part
    requires part == Wrapped(Ack(t, status, payload)) && TypeCarriesIdentity(t) &&
      e == Cobs.Encode(BuildAck(t, status, payload))
    ensures Hidden(bodies, first, e)
  {
    var u, w := Flatten(parts[..j]), Flatten(parts[j + 1..]);
    FlattenSplit(parts, j, part);
    first := |u| + 1;
    AckUntouched(bodies, u, t, status, payload, w, part, e);
  }

  lemma SentAckUntouched(st: State, j: nat, t: Word, status: Byte, payload: seq<Byte>) returns (first: nat)
    requires WireMatches(st) && j < |Tries(st.log)|
    requires Tries(st.log)[j] == Sent(Ack(t, status, payload)) && TypeCarriesIdentity(t)
    ensures Hidden(Bodies(st.written), first, Cobs.Encode(BuildAck(t, status, payload)))
  {
    var parts :| Parts(parts, Tries(st.log)) && Flatten(parts) == Flatten(Bodies(st.written));
    assert PartOf(parts[j], Tries(st.log)[j]);
    first := PartUntouched(Bodies(st.written), parts, j, t, status, payload, parts[j],
                           Cobs.Encode(BuildAck(t, status, payload)));
  }

  /**
    A filter fed what a session writes, whichever writes fail: no released chunk has a byte of an ACK, sent in full, of
    a message that carries identity, or its closing delimiter.
   */
  lemma OwnAckUntouched(env: Env, ops: seq<Op>, st: State, j: nat, t: Word, status: Byte, payload: seq<Byte>)
    returns (first: nat)
    requires Links(env) && st == Run(env, ops) && j < |Tries(st.log)|
    requires Tries(st.log)[j] == Sent(Ack(t, status, payload)) && TypeCarriesIdentity(t)
    ensures Hidden(Bodies(st.written), first, Cobs.Encode(BuildAck(t, status, payload)))
  {
    RunMatches(env, ops);
    first := SentAckUntouched(st, j, t, status, payload);
  }

  lemma AckUntouched(bodies: seq<seq<Byte>>, u: seq<Byte>, t: Word, status: Byte, payload: seq<Byte>, w: seq<Byte>,
                     part: seq<Byte>, e: seq<Byte>)
    requires Flatten(bodies) == u + part + w && part == Wrapped(Ack(t, status, payload)) && TypeCarriesIdentity(t)
    requires e == Cobs.Encode(BuildAck(t, status, payload))
    ensures Hidden(bodies, |u| + 1, e)
  {
    var m := Message(MSG_ACK, Le(t) + [status] + payload);
    AckCarriesIdentity(t, status, payload);
    IdentityUntouched(bodies, u, m, w);
    InTheMiddle(Flatten(bodies), u, e, w);
  }

  lemma InTheMiddle(s: seq<Byte>, u: seq<Byte>, e: seq<Byte>, w: seq<Byte>)
    requires s == u + ([0] + e + [0]) + w
    ensures |u| + 1 + |e| < |s| && s[|u| + 1..|u| + 1 + |e|] == e
  {}

  lemma AckCarriesIdentity(t: Word, status: Byte, payload: seq<Byte>)
    requires TypeCarriesIdentity(t)
    ensures GfdiFrame(MSG_ACK, None, Le(t) + [status] + payload).CarriesIdentity()
  {
    LeRoundTrip(t);
  }
}
