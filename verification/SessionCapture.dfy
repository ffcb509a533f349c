/** The capture filter beside a session: what the client reads from its handle, and what a capture of it may keep. */
module SessionCapture {
  import opened Wrappers
  import opened Bytes
  import opened Gfdi
  import opened Multilink
  import opened FrameStream
  import opened FrameOnWire
  import opened StreamBuffers
  import opened Pipeline
  import opened ClientModel
  import opened Ledger
  import opened Accounting
  import opened Sessions
  import CaptureSpec

  /** The chunk a poll takes to be part of its handle's stream, if it reads one. */
  function StreamChunk(st: State, rd: Read): seq<seq<Byte>> {
    if st.pending == None && rd.Chunk? && rd.data != []
       && (st.phase != Registering || ParseRegisterResponse(rd.data) == None)
       && StripHandle(rd.data, st.handle).Some? then
      [rd.data]
    else []
  }

  /** What a poll does to the stream buffer. */
  function BufferOps(st: State, rd: Read): seq<BufOp> {
    var chunk := StreamChunk(st, rd);
    (if chunk == [] then [] else [Extend(Body(chunk[0]))]) +
      (if st.pending == None && GoesOn(st, rd) then [Next] else [])
  }

  function SessionChunks(env: Env, ops: seq<Op>): seq<seq<Byte>> {
    if ops == [] then []
    else
      SessionChunks(env, ops[..|ops| - 1]) +
      match ops[|ops| - 1]
      case DoPoll(rd, _) => StreamChunk(Run(env, ops[..|ops| - 1]), rd)
      case _ => []
  }

  function SessionBufferOps(env: Env, ops: seq<Op>): seq<BufOp> {
    if ops == [] then []
    else
      SessionBufferOps(env, ops[..|ops| - 1]) +
      match ops[|ops| - 1]
      case DoPoll(rd, _) => BufferOps(Run(env, ops[..|ops| - 1]), rd)
      case _ => []
  }

  /** The types of the frames that parse. */
  function TypesOf(frames: seq<seq<Byte>>): seq<Word> {
    if frames == [] then []
    else
      TypesOf(frames[..|frames| - 1]) +
      match ParseCobsFrame(frames[|frames| - 1])
      case Err(_) => []
      case Ok(f) => [f.msgType]
  }

  lemma TypesPush(frames: seq<seq<Byte>>, e: seq<Byte>)
    ensures TypesOf(frames + [e]) ==
      TypesOf(frames) + (match ParseCobsFrame(e) case Err(_) => [] case Ok(f) => [f.msgType])
  {
    assert (frames + [e])[..|frames|] == frames;
  }

  /** The session has read what these buffer operations give, and taken up the messages of their frames. */
  predicate Reads(st: State, got: seq<Word>, o: seq<BufOp>) {
    RunOps(o).buf == st.buf && got == TypesOf(RunOps(o).frames)
  }

  lemma ExtendReads(o: seq<BufOp>, data: seq<Byte>)
    ensures var r, s := RunOps(o), RunOps(o + [Extend(data)]);
      s.frames == r.frames && s.buf == if |r.buf| + |data| > STREAM_BUFFER_MAX then [] else r.buf + data
  {
    assert (o + [Extend(data)])[..|o|] == o;
  }

  lemma NextReads(o: seq<BufOp>, got: seq<Word>)
    requires got == TypesOf(RunOps(o).frames)
    ensures var r, s := RunOps(o), RunOps(o + [Next]);
      s.buf == NextOf(r.buf).1 && got + Taken(r.buf) == TypesOf(s.frames)
  {
    assert (o + [Next])[..|o|] == o;
    var frame := NextOf(RunOps(o).buf).0;
    if frame.Some? {
      TypesPush(RunOps(o).frames, frame.value);
    } else {
      assert RunOps(o).frames + [] == RunOps(o).frames && got + [] == got;
    }
  }

  /** The buffer after the append a poll makes, if any. */
  lemma AppendReads(st: State, rd: Read, o: seq<BufOp>, chunk: seq<seq<Byte>>, o': seq<BufOp>)
    requires RunOps(o).buf == st.buf && st.pending == None && chunk == StreamChunk(st, rd)
    requires o' == o + (if chunk == [] then [] else [Extend(Body(chunk[0]))])
    ensures RunOps(o').buf == FedBuffer(st, rd) && RunOps(o').frames == RunOps(o).frames
  {
    if chunk == [] {
      assert o' == o;
    } else {
      ExtendReads(o, Body(chunk[0]));
    }
  }

  lemma NextReadsAfter(st: State, rd: Read, s: State, got: seq<Word>, got': seq<Word>, o: seq<BufOp>, o': seq<BufOp>)
    requires RunOps(o).buf == FedBuffer(st, rd) && got == TypesOf(RunOps(o).frames) && o' == o + [Next]
    requires got' == got + Taken(FedBuffer(st, rd)) && s.buf == NextOf(FedBuffer(st, rd)).1
    ensures Reads(s, got', o')
  {
    NextReads(o, got);
  }

  lemma ReadsAfter(st: State, rd: Read, s: State, got: seq<Word>, got': seq<Word>, o: seq<BufOp>, chunk: seq<seq<Byte>>)
    requires Reads(st, got, o) && st.pending == None && chunk == StreamChunk(st, rd)
    requires if GoesOn(st, rd) then got' == got + Taken(FedBuffer(st, rd)) && s.buf == NextOf(FedBuffer(st, rd)).1
             else got' == got && s.buf == FedBuffer(st, rd)
    ensures Reads(s, got', o + BufferOps(st, rd))
  {
    var append := if chunk == [] then [] else [Extend(Body(chunk[0]))];
    AppendReads(st, rd, o, chunk, o + append);
    if GoesOn(st, rd) {
      assert o + BufferOps(st, rd) == o + append + [Next];
      NextReadsAfter(st, rd, s, got, got', o + append, o + BufferOps(st, rd));
    } else {
      assert o + BufferOps(st, rd) == o + append;
    }
  }

  lemma PollReads(env: Env, st: State, rd: Read, now: nat, s: State, o: seq<BufOp>)
    requires Balanced(env, st) && s == Poll(env, st, rd, now).0 && Reads(st, Tally(st.log).got, o)
    ensures Reads(s, Tally(s.log).got, o + BufferOps(st, rd))
  {
    PollBooks(env, st, rd, now);
    if st.pending == None {
      ReadsAfter(st, rd, s, Tally(st.log).got, Tally(s.log).got, o, StreamChunk(st, rd));
    } else {
      assert o + BufferOps(st, rd) == o;
    }
  }

  lemma StartKeepsBuffer(env: Env, st: State, ok: bool)
    ensures Apply(env, st, Start(ok)).buf == st.buf && Apply(env, st, Start(ok)).log == st.log
  {}

  /** The messages a session takes up are those of the frames its buffer hands out. */
  lemma {:induction false} SessionReads(env: Env, ops: seq<Op>)
    ensures Reads(Run(env, ops), BooksOf(env, ops).got, SessionBufferOps(env, ops))
  {
    if ops != [] {
      var n := |ops| - 1;
      var st, o := Run(env, ops[..n]), SessionBufferOps(env, ops[..n]);
      RunBalanced(env, ops[..n]);
      SessionReads(env, ops[..n]);
      match ops[n] {
        case Start(ok) => StartKeepsBuffer(env, st, ok);
        case DoPoll(rd, now) => PollReads(env, st, rd, now, Run(env, ops), o);
        case SetEnvironment(pb) => EnvironmentBooks(env, st, pb);
      }
      if !ops[n].DoPoll? {
        assert SessionBufferOps(env, ops) == o + [] == o;
      }
    }
  }

  lemma AppendedNext(o: seq<BufOp>)
    ensures Appended(o + [Next]) == Appended(o)
  {
    assert (o + [Next])[..|o|] == o;
  }

  lemma AppendedMore(o: seq<BufOp>, chunk: seq<seq<Byte>>, more: seq<BufOp>, p: seq<BufOp>)
    requires |chunk| <= 1 && (more == [] || more == [Next])
    requires p == (if chunk == [] then [] else [Extend(Body(chunk[0]))]) + more
    ensures Appended(o + p) == Appended(o) + Bodies(chunk)
  {
    var o' := o;
    if chunk != [] {
      o' := o + [Extend(Body(chunk[0]))];
      assert o'[..|o|] == o;
      assert Bodies(chunk) == [Body(chunk[0])];
    } else {
      assert Appended(o) + Bodies(chunk) == Appended(o);
    }
    AppendedNext(o');
    assert o + p == o' + more && o' + [] == o';
  }

  /** What it appends are the bodies of the chunks of its handle's stream. */
  lemma {:induction false} SessionAppends(env: Env, ops: seq<Op>)
    ensures Appended(SessionBufferOps(env, ops)) == Bodies(SessionChunks(env, ops))
  {
    if ops != [] {
      var n := |ops| - 1;
      var st, o, c := Run(env, ops[..n]), SessionBufferOps(env, ops[..n]), SessionChunks(env, ops[..n]);
      SessionAppends(env, ops[..n]);
      if ops[n].DoPoll? {
        var chunk := StreamChunk(st, ops[n].rd);
        AppendedMore(o, chunk, if st.pending == None && GoesOn(st, ops[n].rd) then [Next] else [],
                     BufferOps(st, ops[n].rd));
        BodiesAppend(c, chunk);
      } else {
        assert o + [] == o && c + [] == c;
      }
    }
  }

  /**
    Every message a session takes up comes from a frame of its handle's stream that the capture filter, fed the same
    chunks, closes and judges. If the message carries identity, no released chunk has a byte of it.
   */
  lemma SessionIdentityUntouched(env: Env, ops: seq<Op>, j: nat) returns (i: nat)
    requires j < |RunOps(SessionBufferOps(env, ops)).frames|
    ensures BooksOf(env, ops).got == TypesOf(RunOps(SessionBufferOps(env, ops)).frames)
    ensures var bodies, e := Bodies(SessionChunks(env, ops)), RunOps(SessionBufferOps(env, ops)).frames[j];
      && i < |Flatten(bodies)| && Closes(Flatten(bodies), i) && RunAt(Flatten(bodies), i) == e
      && (FrameExcluded(e) ==> Untouched(bodies, CaptureSpec.Start(Flatten(bodies), i), i))
  {
    SessionReads(env, ops);
    SessionAppends(env, ops);
    i := ReadersAgree(Bodies(SessionChunks(env, ops)), SessionBufferOps(env, ops), j);
  }
}
