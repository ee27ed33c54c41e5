/**
 * Reading whole messages from a buffered socket: whatever the sizes in which bytes
 * arrive, the reader sees one byte stream, and on it a fragmented message with
 * control frames in between comes out whole (sections 5.4 and 5.5 of RFC 6455).
 */
module WebSockets {
  import opened Wrappers
  import opened WebSocketFrames

  const TEXT: nat := 1
  const CLOSE: nat := 8
  const PING: nat := 9
  const PONG: nat := 10

  datatype Reply = Reply(opcode: nat, payload: seq<Byte>)

  /** A message or the reason there is none, what was answered on the way, and what is left unread. */
  datatype Reading = Reading(result: Result<seq<Byte>, Trouble>, replies: seq<Reply>, rest: seq<Byte>)

  function Joined(parts: seq<seq<Byte>>): seq<Byte> {
    if parts == [] then [] else Joined(parts[..|parts| - 1]) + parts[|parts| - 1]
  }

  function CloseReply(payload: seq<Byte>): Reply {
    Reply(CLOSE, if |payload| <= 125 then payload else payload[..125])
  }

  /** One frame either ends the reading or adds to it. */
  datatype Move = Done(reading: Reading) | More(rest: seq<Byte>, parts: seq<seq<Byte>>, replies: seq<Reply>)

  function TakeFrame(f: Frame, rest: seq<Byte>, parts: seq<seq<Byte>>, replies: seq<Reply>): Move {
    if f.opcode == PING then More(rest, parts, replies + [Reply(PONG, f.payload)])
    else if f.opcode == PONG then More(rest, parts, replies)
    else if f.opcode == CLOSE then Done(Reading(Failure(ClosedByPeer), replies + [CloseReply(f.payload)], rest))
    else if f.opcode != 0 && f.opcode != TEXT then Done(Reading(Failure(Unsupported(f.opcode)), replies, rest))
    else
      var held := if f.opcode == 0 then parts + [f.payload] else [f.payload];
      if |Joined(held)| > MAX_FRAME then Done(Reading(Failure(MessageTooBig), replies, rest))
      else if f.fin then Done(Reading(Success(Joined(held)), replies, rest))
      else More(rest, held, replies)
  }

  function Take(s: seq<Byte>, parts: seq<seq<Byte>>, replies: seq<Reply>): (r: Move)
    ensures r.More? ==> |r.rest| < |s|
  {
    match DecodeFrame(s)
    case Stuck(trouble, rest) => Done(Reading(Failure(trouble), replies, rest))
    case Got(f, rest) => TakeFrame(f, rest, parts, replies)
  }

  /** The next message on a stream of bytes. */
  function Collect(s: seq<Byte>, parts: seq<seq<Byte>>, replies: seq<Reply>): Reading
    decreases |s|
  {
    match Take(s, parts, replies)
    case Done(reading) => reading
    case More(rest, held, answered) => Collect(rest, held, answered)
  }

  function AfterFrame(f: Frame, rest: seq<Byte>, parts: seq<seq<Byte>>, replies: seq<Reply>): Reading {
    match TakeFrame(f, rest, parts, replies)
    case Done(reading) => reading
    case More(after, held, answered) => Collect(after, held, answered)
  }

  ghost predicate Answerable(replies: seq<Reply>) { forall r :: r in replies ==> |r.payload| <= MAX_FRAME }

  /** Replies as they go out, each final and masked with its own key. */
  ghost function Wire(replies: seq<Reply>, keys: seq<Key>): seq<Byte>
    requires |replies| == |keys|
    requires Answerable(replies)
  {
    if replies == [] then []
    else
      var last := |replies| - 1;
      Wire(replies[..last], keys[..last])
      + EncodeFrame(replies[last].opcode, replies[last].payload, Some(keys[last]), true)
  }

  lemma WireGrows(before: seq<Byte>, replies: seq<Reply>, keys: seq<Key>, reply: Reply, key: Key)
    requires |replies| == |keys| && Answerable(replies) && |reply.payload| <= MAX_FRAME
    ensures Answerable(replies + [reply])
    ensures before + Wire(replies, keys) + EncodeFrame(reply.opcode, reply.payload, Some(key), true)
            == before + Wire(replies + [reply], keys + [key])
  {
    var more := replies + [reply];
    assert more[..|more| - 1] == replies && (keys + [key])[..|more| - 1] == keys;
    Associates(before, Wire(replies, keys), EncodeFrame(reply.opcode, reply.payload, Some(key), true));
  }

  lemma Associates<T>(a: seq<T>, b: seq<T>, c: seq<T>)
    ensures a + b + c == a + (b + c)
  {
  }

  /**
   * What a caller is promised: the outcome the stream determines and its replies on
   * the wire in order, unless a pong could not be sent or the reply to a close was lost.
   */
  ghost predicate Fulfils(reading: Reading, r: Result<seq<Byte>, Trouble>, keys: seq<Key>, before: seq<Byte>,
                          after: seq<Byte>)
    requires Answerable(reading.replies)
  {
    && |keys| <= |reading.replies|
    && after == before + Wire(reading.replies[..|keys|], keys)
    && if |keys| == |reading.replies| then r == reading.result
       else if reading.replies[|keys|].opcode == PONG then r == Failure(SendFailed)
       else r == Failure(ClosedByPeer) == reading.result && |keys| == |reading.replies| - 1
  }

  lemma AllWentOut(reading: Reading, keys: seq<Key>, before: seq<Byte>, after: seq<Byte>)
    requires Answerable(reading.replies) && |keys| == |reading.replies|
    requires after == before + Wire(reading.replies, keys)
    ensures Fulfils(reading, reading.result, keys, before, after)
  {
    assert reading.replies[..|keys|] == reading.replies;
  }

  lemma OneWasLost(reading: Reading, replies: seq<Reply>, lost: Reply, r: Result<seq<Byte>, Trouble>,
                   keys: seq<Key>, before: seq<Byte>, after: seq<Byte>)
    requires Answerable(reading.replies) && |keys| == |replies| && replies + [lost] <= reading.replies
    requires Answerable(replies) && after == before + Wire(replies, keys)
    requires if lost.opcode == PONG then r == Failure(SendFailed)
             else r == Failure(ClosedByPeer) == reading.result && replies + [lost] == reading.replies
    ensures Fulfils(reading, r, keys, before, after)
  {
    assert reading.replies[..|keys|] == replies;
    assert reading.replies[|keys|] == lost;
  }

  lemma TakeGrows(s: seq<Byte>, parts: seq<seq<Byte>>, replies: seq<Reply>)
    requires Answerable(replies)
    ensures var m := Take(s, parts, replies);
            var after := if m.Done? then m.reading.replies else m.replies;
            replies <= after && Answerable(after)
  {
    var d := DecodeFrame(s);
    if d.Got? {
      TakeFrameGrows(d.frame, d.rest, parts, replies);
    }
  }

  lemma TakeFrameGrows(f: Frame, rest: seq<Byte>, parts: seq<seq<Byte>>, replies: seq<Reply>)
    requires Answerable(replies) && |f.payload| <= MAX_FRAME
    ensures var m := TakeFrame(f, rest, parts, replies);
            var after := if m.Done? then m.reading.replies else m.replies;
            replies <= after && Answerable(after)
  {
  }

  lemma {:induction false} RepliesOnlyGrow(s: seq<Byte>, parts: seq<seq<Byte>>, replies: seq<Reply>)
    requires Answerable(replies)
    ensures replies <= Collect(s, parts, replies).replies
    ensures Answerable(Collect(s, parts, replies).replies)
    decreases |s|
  {
    TakeGrows(s, parts, replies);
    var m := Take(s, parts, replies);
    if m.More? {
      RepliesOnlyGrow(m.rest, m.parts, m.replies);
    }
  }

  // ----------------------------------------------------------------- socket

  /** The far end: the bytes it will deliver before its stream ends, and those handed to it. */
  class Socket {
    var incoming: seq<Byte>
    var sent: seq<Byte>

    /** At most `max` bytes, at least one unless the stream has ended. */
    method Recv(max: nat) returns (chunk: seq<Byte>)
      requires max > 0
      modifies this`incoming
      ensures chunk + incoming == old(incoming) && |chunk| <= max
      ensures chunk == [] <==> old(incoming) == []
    {
      if incoming == [] {
        return [];
      }
      var n :| 1 <= n <= max && n <= |incoming|;
      chunk, incoming := incoming[..n], incoming[n..];
    }

    /** Either everything goes out or the call fails. */
    method SendAll(bytes: seq<Byte>) returns (ok: bool)
      modifies this`sent
      ensures sent == if ok then old(sent) + bytes else old(sent)
    {
      ok := *;
      if ok {
        sent := sent + bytes;
      }
    }
  }

  class WebSocket {
    const sock: Socket
    var buf: seq<Byte>

    /** What the reader has still to consume, wherever it is. */
    function Pending(): seq<Byte>
      reads this, sock
    {
      buf + sock.incoming
    }

    constructor (sock: Socket, leftover: seq<Byte>)
      ensures this.sock == sock && Pending() == leftover + sock.incoming
    {
      this.sock, buf := sock, leftover;
    }

    method ReadExact(size: nat) returns (r: Option<seq<Byte>>)
      modifies this, sock`incoming
      ensures r.Some? <==> size <= |old(Pending())|
      ensures r.Some? ==> r.value == old(Pending())[..size] && Pending() == old(Pending())[size..]
      ensures r.None? ==> Pending() == old(Pending())
    {
      while |buf| < size
        invariant Pending() == old(Pending())
        decreases |sock.incoming|
      {
        var short := size - |buf|;
        var chunk := sock.Recv(if short > 4096 then short else 4096);
        if chunk == [] {
          return None;
        }
        buf := buf + chunk;
      }
      assert old(Pending())[..size] == buf[..size];
      r := Some(buf[..size]);
      buf := buf[size..];
    }

    method ReadBody(fin: bool, opcode: nat, masked: bool, length: nat) returns (r: Result<Frame, Trouble>)
      modifies this, sock`incoming
      ensures DecodeBody(old(Pending()), fin, opcode, masked, length)
              == if r.Success? then Got(r.value, Pending()) else Stuck(r.error, Pending())
    {
      if length > MAX_FRAME {
        return Failure(FrameTooBig);
      }
      var key := None;
      if masked {
        var bytes := ReadExact(4);
        if bytes.None? {
          return Failure(EndOfStream);
        }
        key := Some(KeyOf(bytes.value));
      }
      var payload := ReadExact(length);
      if payload.None? {
        return Failure(EndOfStream);
      }
      return Success(Frame(fin, opcode, Body(payload.value, key)));
    }

    method ReadFrame() returns (r: Result<Frame, Trouble>)
      modifies this, sock`incoming
      ensures DecodeFrame(old(Pending())) == if r.Success? then Got(r.value, Pending()) else Stuck(r.error, Pending())
    {
      var header := ReadExact(2);
      if header.None? {
        return Failure(EndOfStream);
      }
      var length := Low7(header.value[1]);
      if LengthWidth(length) != 0 {
        var extended := ReadExact(LengthWidth(length));
        if extended.None? {
          return Failure(EndOfStream);
        }
        length := Number(extended.value);
      }
      r := ReadBody(HasTopBit(header.value[0]), Low4(header.value[0]), HasTopBit(header.value[1]), length);
    }

    /** Sends one frame under a fresh key. */
    method SendFrame(opcode: nat, payload: seq<Byte>) returns (ok: bool, key: Key)
      requires |payload| < LENGTH_LIMIT
      modifies sock`sent
      ensures sock.sent == if ok then old(sock.sent) + EncodeFrame(opcode, payload, Some(key), true) else old(sock.sent)
    {
      key := *;
      ok := sock.SendAll(EncodeFrame(opcode, payload, Some(key), true));
    }

    /** Reads on within a message of which `parts` and `replies` have been seen. */
    method ReadOn(ghost parts: seq<seq<Byte>>, ghost replies: seq<Reply>) returns (r: Result<Frame, Trouble>)
      modifies this, sock`incoming
      ensures r.Failure? ==> Collect(old(Pending()), parts, replies) == Reading(Failure(r.error), replies, Pending())
      ensures r.Success? ==> |Pending()| < |old(Pending())| && |r.value.payload| <= MAX_FRAME
      ensures r.Success? ==> Collect(old(Pending()), parts, replies) == AfterFrame(r.value, Pending(), parts, replies)
    {
      r := ReadFrame();
    }

    /** Sends the reply that follows `replies` on the wire. */
    method SendReply(reply: Reply, ghost replies: seq<Reply>, ghost keys: seq<Key>, ghost before: seq<Byte>)
      returns (ok: bool, ghost sentKeys: seq<Key>)
      requires |replies| == |keys| && Answerable(replies) && |reply.payload| <= MAX_FRAME
      requires sock.sent == before + Wire(replies, keys)
      modifies sock`sent
      ensures Answerable(replies + [reply])
      ensures ok ==> |sentKeys| == |keys| + 1 && sock.sent == before + Wire(replies + [reply], sentKeys)
      ensures !ok ==> sentKeys == keys && sock.sent == old(sock.sent)
    {
      var key;
      ok, key := SendFrame(reply.opcode, reply.payload);
      WireGrows(before, replies, keys, reply, key);
      sentKeys := if ok then keys + [key] else keys;
    }

    /** A data frame: a text frame starts the message over, a continuation extends it. */
    method HoldFragment(f: Frame, parts: seq<seq<Byte>>)
      returns (held: seq<seq<Byte>>, end: Option<Result<seq<Byte>, Trouble>>)
      requires f.opcode != PING && f.opcode != PONG && f.opcode != CLOSE
      ensures forall rest, replies ::
                TakeFrame(f, rest, parts, replies)
                == if end.Some? then Done(Reading(end.value, replies, rest)) else More(rest, held, replies)
    {
      held, end := parts, None;
      if f.opcode == 0 {
        held := parts + [f.payload];
      } else if f.opcode == TEXT {
        held := [f.payload];
      } else {
        end := Some(Failure(Unsupported(f.opcode)));
        return;
      }
      if |Joined(held)| > MAX_FRAME {
        end := Some(Failure(MessageTooBig));
      } else if f.fin {
        end := Some(Success(Joined(held)));
      }
    }

    /**
     * The next message. Pings are answered as they come; the peer's close is
     * answered if that still works, and ends the stream either way. `keys` lists
     * the keys of the replies that went out.
     */
    method NextText() returns (r: Result<seq<Byte>, Trouble>, ghost keys: seq<Key>)
      modifies this, sock
      ensures Answerable(Collect(old(Pending()), [], []).replies)
      ensures Fulfils(Collect(old(Pending()), [], []), r, keys, old(sock.sent), sock.sent)
      ensures r != Failure(SendFailed) ==> Pending() == Collect(old(Pending()), [], []).rest
    {
      ghost var reading := Collect(Pending(), [], []);
      RepliesOnlyGrow(Pending(), [], []);
      var parts: seq<seq<Byte>> := [];
      ghost var replies: seq<Reply> := [];
      keys := [];
      while true
        invariant |keys| == |replies| && Answerable(replies)
        invariant sock.sent == old(sock.sent) + Wire(replies, keys)
        invariant reading == Collect(Pending(), parts, replies)
        decreases |Pending()|
      {
        RepliesOnlyGrow(Pending(), parts, replies);
        var next := ReadOn(parts, replies);
        if next.Failure? {
          AllWentOut(reading, keys, old(sock.sent), sock.sent);
          return Failure(next.error), keys;
        }
        var f := next.value;
        var ok;
        if f.opcode == PING {
          var pong := Reply(PONG, f.payload);
          ok, keys := SendReply(pong, replies, keys, old(sock.sent));
          RepliesOnlyGrow(Pending(), parts, replies + [pong]);
          if !ok {
            OneWasLost(reading, replies, pong, Failure(SendFailed), keys, old(sock.sent), sock.sent);
            return Failure(SendFailed), keys;
          }
          replies := replies + [pong];
        } else if f.opcode == CLOSE {
          var last := CloseReply(f.payload);
          ok, keys := SendReply(last, replies, keys, old(sock.sent));
          if ok {
            AllWentOut(reading, keys, old(sock.sent), sock.sent);
          } else {
            OneWasLost(reading, replies, last, Failure(ClosedByPeer), keys, old(sock.sent), sock.sent);
          }
          return Failure(ClosedByPeer), keys;
        } else if f.opcode != PONG {
          var end;
          parts, end := HoldFragment(f, parts);
          if end.Some? {
            AllWentOut(reading, keys, old(sock.sent), sock.sent);
            return end.value, keys;
          }
        }
      }
    }
  }
}
