/**
 * A peer that sends a message in fragments, with pings and pongs in between, and
 * what the reader makes of the bytes.
 */
module WebSocketMessages {
  import opened Wrappers
  import opened WebSocketFrames
  import opened WebSockets

  /** What a peer puts on the wire for one message; each frame masked with its own key or not at all. */
  datatype Piece =
    | Control(ping: bool, payload: seq<Byte>, key: Option<Key>)
    | Part(payload: seq<Byte>, key: Option<Key>)

  function Payloads(pieces: seq<Piece>): seq<seq<Byte>> {
    if pieces == [] then []
    else (if pieces[0].Part? then [pieces[0].payload] else []) + Payloads(pieces[1..])
  }

  function Pongs(pieces: seq<Piece>): seq<Reply> {
    if pieces == [] then []
    else (if pieces[0].Control? && pieces[0].ping then [Reply(PONG, pieces[0].payload)] else []) + Pongs(pieces[1..])
  }

  /** A message ends with its last fragment, and no frame is over the limit. */
  predicate WellFormed(pieces: seq<Piece>) {
    && pieces != [] && pieces[|pieces| - 1].Part?
    && forall p :: p in pieces ==> |p.payload| <= MAX_FRAME
  }

  /** The first fragment is a text frame, the others continue it, the last one is final. */
  function FrameOf(p: Piece, first: bool, last: bool): seq<Byte>
    requires |p.payload| <= MAX_FRAME
  {
    match p
    case Control(ping, payload, key) => EncodeFrame(if ping then PING else PONG, payload, key, true)
    case Part(payload, key) => EncodeFrame(if first then TEXT else 0, payload, key, last)
  }

  function Stream(pieces: seq<Piece>, first: bool): seq<Byte>
    requires forall p :: p in pieces ==> |p.payload| <= MAX_FRAME
  {
    if pieces == [] then []
    else
      FrameOf(pieces[0], first, Payloads(pieces[1..]) == []) + Stream(pieces[1..], first && pieces[0].Control?)
  }

  /** The first byte of each kind of frame on the wire. */
  lemma FirstBytes(p: Piece, first: bool, last: bool)
    requires |p.payload| <= MAX_FRAME
    ensures FrameOf(p, first, last) != []
    ensures FrameOf(p, first, last)[0]
            == match p {
                 case Control(ping, _, _) => if ping then 0x89 else 0x8A
                 case Part(_, _) => (if first then 0x01 else 0x00) + (if last then 0x80 else 0x00)
               }
    ensures EncodeFrame(PONG, p.payload, p.key, true)[0] == 0x8A
  {
    match p
    case Control(ping, payload, key) =>
      FrameBytes(if ping then PING else PONG, payload, key, true);
      FrameBytes(PONG, payload, key, true);
    case Part(payload, key) =>
      FrameBytes(if first then TEXT else 0, payload, key, last);
      FrameBytes(PONG, payload, key, true);
  }

  // ------------------------------------------------------------------ proofs

  lemma {:induction false} JoinedAppends(a: seq<seq<Byte>>, b: seq<seq<Byte>>)
    ensures Joined(a + b) == Joined(a) + Joined(b)
  {
    if b == [] {
      assert a + b == a;
    } else {
      var last := |b| - 1;
      JoinedAppends(a, b[..last]);
      assert (a + b)[..|a + b| - 1] == a + b[..last];
      assert (a + b)[|a + b| - 1] == b[last];
      Associates(Joined(a), Joined(b[..last]), b[last]);
    }
  }

  /** The frame a piece stands for. */
  function Meant(p: Piece, first: bool, last: bool): Frame {
    match p
    case Control(ping, payload, _) => Frame(true, if ping then PING else PONG, payload)
    case Part(payload, _) => Frame(last, if first then TEXT else 0, payload)
  }

  lemma PieceDecodes(p: Piece, first: bool, last: bool, tail: seq<Byte>)
    requires |p.payload| <= MAX_FRAME
    ensures DecodeFrame(FrameOf(p, first, last) + tail) == Got(Meant(p, first, last), tail)
  {
    match p
    case Control(ping, payload, key) => DecodeUndoesEncode(if ping then PING else PONG, payload, key, true, tail);
    case Part(payload, key) => DecodeUndoesEncode(if first then TEXT else 0, payload, key, last, tail);
  }

  /** `chunk` is read as `f`, whatever follows it. */
  ghost predicate Carries(chunk: seq<Byte>, f: Frame) {
    forall tail :: DecodeFrame(chunk + tail) == Got(f, tail)
  }

  ghost predicate CarriesAll(s: seq<Byte>, pieces: seq<Piece>, first: bool)
    decreases |pieces|
  {
    if pieces == [] then s == []
    else
      exists chunk, more :: s == chunk + more && Carries(chunk, Meant(pieces[0], first, Payloads(pieces[1..]) == []))
                            && CarriesAll(more, pieces[1..], first && pieces[0].Control?)
  }

  lemma PieceIsCarried(p: Piece, first: bool, last: bool)
    requires |p.payload| <= MAX_FRAME
    ensures Carries(FrameOf(p, first, last), Meant(p, first, last))
  {
    forall tail ensures DecodeFrame(FrameOf(p, first, last) + tail) == Got(Meant(p, first, last), tail) {
      PieceDecodes(p, first, last, tail);
    }
  }

  lemma {:induction false} StreamCarriesAll(pieces: seq<Piece>, first: bool)
    requires forall p :: p in pieces ==> |p.payload| <= MAX_FRAME
    ensures CarriesAll(Stream(pieces, first), pieces, first)
  {
    if pieces != [] {
      PieceIsCarried(pieces[0], first, Payloads(pieces[1..]) == []);
      StreamCarriesAll(pieces[1..], first && pieces[0].Control?);
    }
  }

  lemma CollectCarried(chunk: seq<Byte>, f: Frame, tail: seq<Byte>, parts: seq<seq<Byte>>, replies: seq<Reply>)
    requires Carries(chunk, f)
    ensures Collect(chunk + tail, parts, replies) == AfterFrame(f, tail, parts, replies)
  {
    assert DecodeFrame(chunk + tail) == Got(f, tail);
  }

  lemma {:induction false} LastPartRemains(pieces: seq<Piece>)
    requires pieces != [] && pieces[|pieces| - 1].Part?
    ensures Payloads(pieces) != []
  {
    if |pieces| > 1 {
      LastPartRemains(pieces[1..]);
    }
  }

  ghost predicate ComesThrough(reading: Reading, message: seq<Byte>, replies: seq<Reply>, tail: seq<Byte>) {
    if |message| <= MAX_FRAME then reading == Reading(Success(message), replies, tail)
    else reading.result == Failure(MessageTooBig)
  }

  /** What reading on past one frame of the message amounts to. */
  ghost predicate Continues(s: seq<Byte>, pieces: seq<Piece>, first: bool, tail: seq<Byte>)
  {
    forall parts: seq<seq<Byte>>, replies :: (first ==> parts == []) ==>
      ComesThrough(Collect(s + tail, parts, replies), Joined(parts + Payloads(pieces)), replies + Pongs(pieces), tail)
  }

  lemma ControlComesThrough(p: Piece, rest: seq<Piece>, first: bool, more: seq<Byte>, tail: seq<Byte>,
                            parts: seq<seq<Byte>>, replies: seq<Reply>)
    requires p.Control? && Continues(more, rest, first, tail) && (first ==> parts == [])
    ensures ComesThrough(AfterFrame(Meant(p, first, false), more + tail, parts, replies),
                         Joined(parts + Payloads([p] + rest)), replies + Pongs([p] + rest), tail)
  {
    assert ([p] + rest)[1..] == rest;
    var answered := if p.ping then replies + [Reply(PONG, p.payload)] else replies;
    assert answered + Pongs(rest) == replies + Pongs([p] + rest);
    assert Payloads([p] + rest) == Payloads(rest);
  }

  /** A fragment extends what is held, whether it opens the message or continues it. */
  lemma PartIsHeld(p: Piece, first: bool, last: bool, after: seq<Byte>, parts: seq<seq<Byte>>, replies: seq<Reply>)
    requires p.Part? && (first ==> parts == [])
    ensures var held := parts + [p.payload];
            TakeFrame(Meant(p, first, last), after, parts, replies)
            == if |Joined(held)| > MAX_FRAME then Done(Reading(Failure(MessageTooBig), replies, after))
               else if last then Done(Reading(Success(Joined(held)), replies, after))
               else More(after, held, replies)
  {
    assert first ==> parts + [p.payload] == [p.payload];
  }

  lemma PartAddsUp(p: Piece, rest: seq<Piece>, parts: seq<seq<Byte>>, replies: seq<Reply>)
    requires p.Part?
    ensures parts + Payloads([p] + rest) == (parts + [p.payload]) + Payloads(rest)
    ensures |Joined(parts + [p.payload])| <= |Joined(parts + Payloads([p] + rest))|
    ensures replies + Pongs([p] + rest) == replies + Pongs(rest)
  {
    PartLeads(p, rest);
    Associates(parts, [p.payload], Payloads(rest));
    JoinedAppends(parts + [p.payload], Payloads(rest));
  }

  lemma PartLeads(p: Piece, rest: seq<Piece>)
    requires p.Part?
    ensures Payloads([p] + rest) == [p.payload] + Payloads(rest) && Pongs([p] + rest) == Pongs(rest)
  {
    assert ([p] + rest)[1..] == rest;
  }

  lemma PartComesThrough(p: Piece, rest: seq<Piece>, first: bool, more: seq<Byte>, tail: seq<Byte>,
                         parts: seq<seq<Byte>>, replies: seq<Reply>)
    requires p.Part? && (first ==> parts == [])
    requires if rest == [] then more == [] else Continues(more, rest, false, tail) && Payloads(rest) != []
    ensures ComesThrough(AfterFrame(Meant(p, first, Payloads(rest) == []), more + tail, parts, replies),
                         Joined(parts + Payloads([p] + rest)), replies + Pongs([p] + rest), tail)
  {
    PartIsHeld(p, first, Payloads(rest) == [], more + tail, parts, replies);
    PartAddsUp(p, rest, parts, replies);
    var held := parts + [p.payload];
    if rest == [] {
      assert held + Payloads(rest) == held && more + tail == tail;
      assert replies + Pongs(rest) == replies;
    } else {
      assert ComesThrough(Collect(more + tail, held, replies), Joined(held + Payloads(rest)),
                          replies + Pongs(rest), tail);
    }
  }

  lemma {:induction false} CarriedComesThrough(s: seq<Byte>, pieces: seq<Piece>, first: bool, tail: seq<Byte>)
    requires pieces != [] && pieces[|pieces| - 1].Part? && CarriesAll(s, pieces, first)
    ensures Continues(s, pieces, first, tail)
    decreases |pieces|
  {
    var p, rest := pieces[0], pieces[1..];
    var last, still := Payloads(rest) == [], first && p.Control?;
    assert pieces == [p] + rest;
    var chunk, more :| s == chunk + more && Carries(chunk, Meant(p, first, last)) && CarriesAll(more, rest, still);
    if rest != [] {
      CarriedComesThrough(more, rest, still, tail);
      LastPartRemains(rest);
    }
    forall parts: seq<seq<Byte>>, replies | first ==> parts == []
      ensures ComesThrough(Collect(s + tail, parts, replies), Joined(parts + Payloads(pieces)),
                           replies + Pongs(pieces), tail)
    {
      Associates(chunk, more, tail);
      CollectCarried(chunk, Meant(p, first, last), more + tail, parts, replies);
      if p.Control? {
        ControlComesThrough(p, rest, first, more, tail, parts, replies);
      } else {
        PartComesThrough(p, rest, first, more, tail, parts, replies);
      }
    }
  }

  /**
   * A fragmented message with control frames in between is read as the concatenation
   * of its fragments, with one pong per ping in order, and nothing past it is consumed;
   * only a message over the limit is refused.
   */
  lemma FragmentedMessageComesThrough(pieces: seq<Piece>, tail: seq<Byte>)
    requires WellFormed(pieces)
    ensures ComesThrough(Collect(Stream(pieces, true) + tail, [], []), Joined(Payloads(pieces)), Pongs(pieces), tail)
  {
    StreamCarriesAll(pieces, true);
    CarriedComesThrough(Stream(pieces, true), pieces, true, tail);
    assert [] + Payloads(pieces) == Payloads(pieces);
    assert [] + Pongs(pieces) == Pongs(pieces);
  }

  lemma {:induction false} PongsArePongs(pieces: seq<Piece>)
    requires forall p :: p in pieces ==> |p.payload| <= MAX_FRAME
    ensures Answerable(Pongs(pieces)) && forall r :: r in Pongs(pieces) ==> r.opcode == PONG
  {
    if pieces != [] {
      PongsArePongs(pieces[1..]);
    }
  }

  /**
   * What comes of a reading that began at the first fragment: the message, with all
   * pongs on the wire; or a send failed, with those before it on the wire. A message
   * over the limit never gets through.
   */
  ghost predicate Arrives(pieces: seq<Piece>, r: Result<seq<Byte>, Trouble>, keys: seq<Key>, before: seq<Byte>,
                          after: seq<Byte>)
    requires WellFormed(pieces)
  {
    PongsArePongs(pieces);
    if |Joined(Payloads(pieces))| > MAX_FRAME then r == Failure(MessageTooBig) || r == Failure(SendFailed)
    else
      && |keys| <= |Pongs(pieces)|
      && after == before + Wire(Pongs(pieces)[..|keys|], keys)
      && r == if |keys| == |Pongs(pieces)| then Success(Joined(Payloads(pieces))) else Failure(SendFailed)
  }

  lemma MessageArrives(pieces: seq<Piece>, tail: seq<Byte>, r: Result<seq<Byte>, Trouble>, keys: seq<Key>,
                       before: seq<Byte>, after: seq<Byte>)
    requires WellFormed(pieces) && Answerable(Collect(Stream(pieces, true) + tail, [], []).replies)
    requires Fulfils(Collect(Stream(pieces, true) + tail, [], []), r, keys, before, after)
    ensures Arrives(pieces, r, keys, before, after)
    ensures r.Success? ==> Collect(Stream(pieces, true) + tail, [], []).rest == tail
  {
    FragmentedMessageComesThrough(pieces, tail);
    PongsArePongs(pieces);
  }

  /** End to end: however the bytes are chunked, the reader's next message is the one the peer sent. */
  method ReadMessage(ws: WebSocket, ghost pieces: seq<Piece>, ghost tail: seq<Byte>)
    returns (r: Result<seq<Byte>, Trouble>, ghost keys: seq<Key>)
    requires WellFormed(pieces) && ws.Pending() == Stream(pieces, true) + tail
    modifies ws, ws.sock
    ensures Arrives(pieces, r, keys, old(ws.sock.sent), ws.sock.sent)
    ensures r.Success? ==> ws.Pending() == tail
  {
    ghost var before := ws.sock.sent;
    r, keys := ws.NextText();
    MessageArrives(pieces, tail, r, keys, before, ws.sock.sent);
  }

  lemma IsCarried(opcode: nat, payload: seq<Byte>, key: Option<Key>, fin: bool)
    requires opcode < 16 && |payload| <= MAX_FRAME
    ensures Carries(EncodeFrame(opcode, payload, key, fin), Frame(fin, opcode, payload))
  {
    forall tail
      ensures DecodeFrame(EncodeFrame(opcode, payload, key, fin) + tail) == Got(Frame(fin, opcode, payload), tail)
    {
      DecodeUndoesEncode(opcode, payload, key, fin, tail);
    }
  }

  /** The peer's close ends the stream wherever it comes, and is answered with at most 125 bytes of its payload. */
  lemma CloseEndsTheStream(payload: seq<Byte>, key: Option<Key>, fin: bool, tail: seq<Byte>,
                           parts: seq<seq<Byte>>, replies: seq<Reply>)
    requires |payload| <= MAX_FRAME
    ensures Collect(EncodeFrame(CLOSE, payload, key, fin) + tail, parts, replies)
            == Reading(Failure(ClosedByPeer),
                       replies + [Reply(8, if |payload| <= 125 then payload else payload[..125])], tail)
    ensures EncodeFrame(CLOSE, payload, key, fin)[0] == (if fin then 0x88 else 0x08)
  {
    FrameBytes(CLOSE, payload, key, fin);
    IsCarried(CLOSE, payload, key, fin);
    CollectCarried(EncodeFrame(CLOSE, payload, key, fin), Frame(fin, CLOSE, payload), tail, parts, replies);
  }

  lemma TextTaken(payload: seq<Byte>, fin: bool, tail: seq<Byte>, parts: seq<seq<Byte>>, replies: seq<Reply>)
    requires |payload| <= MAX_FRAME
    ensures AfterFrame(Frame(fin, 1, payload), tail, parts, replies)
            == if fin then Reading(Success(payload), replies, tail) else Collect(tail, [payload], replies)
  {
    assert [payload][..0] == [] && Joined([payload]) == payload;
  }

  /** A text frame starts over: what was held of an unfinished message is forgotten. */
  lemma TextStartsOver(payload: seq<Byte>, key: Option<Key>, fin: bool, tail: seq<Byte>, parts: seq<seq<Byte>>,
                       replies: seq<Reply>)
    requires |payload| <= MAX_FRAME
    ensures Collect(EncodeFrame(1, payload, key, fin) + tail, parts, replies)
            == if fin then Reading(Success(payload), replies, tail) else Collect(tail, [payload], replies)
  {
    IsCarried(1, payload, key, fin);
    CollectCarried(EncodeFrame(1, payload, key, fin), Frame(fin, 1, payload), tail, parts, replies);
    TextTaken(payload, fin, tail, parts, replies);
  }

  lemma ContinuationTaken(payload: seq<Byte>, fin: bool, tail: seq<Byte>, parts: seq<seq<Byte>>, replies: seq<Reply>)
    ensures AfterFrame(Frame(fin, 0, payload), tail, parts, replies)
            == if |Joined(parts) + payload| > 1_000_000 then Reading(Failure(MessageTooBig), replies, tail)
               else if fin then Reading(Success(Joined(parts) + payload), replies, tail)
               else Collect(tail, parts + [payload], replies)
  {
    assert (parts + [payload])[..|parts|] == parts;
  }

  /** A continuation extends what is held, even if no text frame opened the message. */
  lemma ContinuationExtends(payload: seq<Byte>, key: Option<Key>, fin: bool, tail: seq<Byte>, parts: seq<seq<Byte>>,
                            replies: seq<Reply>)
    requires |payload| <= MAX_FRAME
    ensures Collect(EncodeFrame(0, payload, key, fin) + tail, parts, replies)
            == if |Joined(parts) + payload| > 1_000_000 then Reading(Failure(MessageTooBig), replies, tail)
               else if fin then Reading(Success(Joined(parts) + payload), replies, tail)
               else Collect(tail, parts + [payload], replies)
  {
    IsCarried(0, payload, key, fin);
    CollectCarried(EncodeFrame(0, payload, key, fin), Frame(fin, 0, payload), tail, parts, replies);
    ContinuationTaken(payload, fin, tail, parts, replies);
  }

  /** A ping is answered with its own payload and a pong is ignored, final or not, wherever they come. */
  lemma ControlsPassBy(ping: bool, payload: seq<Byte>, key: Option<Key>, fin: bool, tail: seq<Byte>,
                       parts: seq<seq<Byte>>, replies: seq<Reply>)
    requires |payload| <= MAX_FRAME
    ensures Collect(EncodeFrame(if ping then 9 else 10, payload, key, fin) + tail, parts, replies)
            == Collect(tail, parts, if ping then replies + [Reply(10, payload)] else replies)
  {
    var opcode := if ping then 9 else 10;
    IsCarried(opcode, payload, key, fin);
    CollectCarried(EncodeFrame(opcode, payload, key, fin), Frame(fin, opcode, payload), tail, parts, replies);
  }

  ghost function FramesOf(replies: seq<Reply>, keys: seq<Key>): seq<seq<Byte>>
    requires |keys| == |replies| && Answerable(replies)
  {
    seq(|replies|, i requires 0 <= i < |replies| =>
          EncodeFrame(replies[i].opcode, replies[i].payload, Some(keys[i]), true))
  }

  lemma {:induction false} WireIsJoined(replies: seq<Reply>, keys: seq<Key>)
    requires |keys| == |replies| && Answerable(replies)
    ensures Wire(replies, keys) == Joined(FramesOf(replies, keys))
  {
    if replies != [] {
      var last := |replies| - 1;
      WireIsJoined(replies[..last], keys[..last]);
      assert FramesOf(replies, keys)[..last] == FramesOf(replies[..last], keys[..last]);
    }
  }

  /** What goes out is one final frame per reply, in order, each masked with its own key. */
  lemma RepliesGoOut(replies: seq<Reply>, keys: seq<Key>)
    requires |keys| == |replies| && Answerable(replies) && forall r :: r in replies ==> r.opcode < 16
    ensures Wire(replies, keys) == Joined(FramesOf(replies, keys)) && |FramesOf(replies, keys)| == |replies|
    ensures forall i :: 0 <= i < |replies| ==>
              IsFrame(FramesOf(replies, keys)[i], replies[i].opcode, replies[i].payload, Some(keys[i]), true)
  {
    WireIsJoined(replies, keys);
    forall i | 0 <= i < |replies|
      ensures IsFrame(FramesOf(replies, keys)[i], replies[i].opcode, replies[i].payload, Some(keys[i]), true)
    {
      FrameBytes(replies[i].opcode, replies[i].payload, Some(keys[i]), true);
    }
  }

  /** A frame that is neither text, continuation, close, ping nor pong ends the reading. */
  lemma UnsupportedEndsTheStream(opcode: nat, payload: seq<Byte>, key: Option<Key>, fin: bool, tail: seq<Byte>,
                                 parts: seq<seq<Byte>>, replies: seq<Reply>)
    requires opcode < 16 && opcode !in {0, 1, 8, 9, 10} && |payload| <= MAX_FRAME
    ensures Collect(EncodeFrame(opcode, payload, key, fin) + tail, parts, replies)
            == Reading(Failure(Unsupported(opcode)), replies, tail)
  {
    IsCarried(opcode, payload, key, fin);
    CollectCarried(EncodeFrame(opcode, payload, key, fin), Frame(fin, opcode, payload), tail, parts, replies);
  }
}
