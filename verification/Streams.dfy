/**
 Sending and receiving messages over a non-blocking pipe. What the operating system does at
 each call (how many bytes it moves, whether the call would block, whether it fails) is
 read off a script, so a contract that holds for every script holds for every splitting of
 the traffic. A call that is still waiting when the script ends is Pending.
 */
module Streams {
  import opened Framing
  import opened Options

  /** Moved(k): the call moves k bytes, or the nearest possible number. Fault(true) is
      EBADF, Fault(false) any other error. */
  datatype Event = Moved(k: nat) | WouldBlock | Fault(closed: bool)

  /** The calls of the script that move something. */
  function Moves(script: seq<Event>): nat {
    if script == [] then 0 else Moves(script[1..]) + if script[0].Moved? then 1 else 0
  }

  /** The calls made between two scripts: no fault among them is passed over, and the last
      of them is this fault, if there is one. */
  ghost predicate Uses(before: seq<Event>, after: seq<Event>, fault: Option<bool>) {
    var n := |before| - |after|;
    && n >= 0 && before[n..] == after
    && (forall i :: 0 <= i < n && before[i].Fault? ==> i == n - 1 && fault == Some(before[i].closed))
    && (fault.Some? ==> n > 0 && before[n - 1] == Fault(fault.value))
  }

  lemma UsesOne(before: seq<Event>, script: seq<Event>)
    requires Uses(before, script, None) && script != []
    ensures Uses(before, script[1..], if script[0].Fault? then Some(script[0].closed) else None)
  {
    var n := |before| - |script|;
    assert before[n] == script[0] && before[n + 1..] == script[1..];
  }

  lemma UsesThen(a: seq<Event>, b: seq<Event>, c: seq<Event>, fault: Option<bool>)
    requires Uses(a, b, None) && Uses(b, c, fault)
    ensures Uses(a, c, fault)
  {
    var n, k := |a| - |b|, |b| - |c|;
    assert a[n + k..] == a[n..][k..] == c;
    forall i | 0 <= i < n + k && a[i].Fault?
      ensures i == n + k - 1 && fault == Some(a[i].closed)
    {
      if i >= n {
        assert a[i] == b[i - n];
      }
    }
    if fault.Some? {
      assert a[n + k - 1] == b[k - 1];
    }
  }

  /** A write call: how much the pipe had taken before, and how much it is asked to take. */
  datatype WriteCall = WriteCall(at: nat, size: nat)

  /** These calls each ask for all that is left up to `end`. */
  ghost predicate UpTo(calls: seq<WriteCall>, from: nat, start: nat, end: nat) {
    forall k :: from <= k < |calls| ==> start <= calls[k].at && calls[k].size > 0 && calls[k].at + calls[k].size == end
  }

  /** These ask for what is left of the piece of the message's frame they are in. */
  ghost predicate Pieces(calls: seq<WriteCall>, from: nat, start: nat, m: Payload) {
    forall k :: from <= k < |calls| ==>
      && start <= calls[k].at <= start + |Frame(m)|
      && calls[k].size == Piece(|m|, start + |Frame(m)| - calls[k].at)
  }

  datatype SendStatus = Sent | SendPending | SendClosed | SendBroken | TooLong

  datatype Status<+T> = Got(value: T) | Ended | EndedInside | Oversized | Pending | Closed | Broken {
    /** The same failure where something else was wanted. */
    function Failure<U>(): Status<U>
      requires !Got?
    {
      match this
      case Ended => Ended
      case EndedInside => EndedInside
      case Oversized => Oversized
      case Pending => Pending
      case Closed => Closed
      case Broken => Broken
    }
  }

  function FaultOf<T>(r: Status<T>): Option<bool> {
    if r.Closed? then Some(true) else if r.Broken? then Some(false) else None
  }

  function SendFault(r: SendStatus): Option<bool> {
    if r.SendClosed? then Some(true) else if r.SendBroken? then Some(false) else None
  }

  /** Calls that ask for all up to the end of a piece. */
  lemma InPieces(calls: seq<WriteCall>, from: nat, start: nat, m: Payload, lo: nat, hi: nat)
    requires UpTo(calls, from, start + lo, start + hi)
    requires if |m| <= LARGE then lo == 0 && hi == |Frame(m)|
             else (lo == 0 && hi == 4) || (Extended(m) && lo == 4 && hi == 12) || (lo == |Frame(m)| - |m| && hi == |Frame(m)|)
    ensures Pieces(calls, from, start, m)
  {
  }

  lemma PiecesThen(made: seq<WriteCall>, calls: seq<WriteCall>, from: nat, start: nat, m: Payload)
    requires from <= |made| && made <= calls
    requires Pieces(made, from, start, m) && Pieces(calls, |made|, start, m)
    ensures Pieces(calls, from, start, m)
  {
    forall k | from <= k < |made|
      ensures calls[k] == made[k]
    {
    }
  }

  /** At least one byte, and no more than `limit`. */
  function Clamp(k: nat, limit: nat): (n: nat)
    requires limit > 0
    ensures 1 <= n <= limit
  {
    if k == 0 then 1 else if k > limit then limit else k
  }

  /** What has been read of `all` when `rest` is left. */
  function Read(all: Bytes, rest: Bytes): Bytes
    requires |rest| <= |all|
  {
    all[..|all| - |rest|]
  }

  /** What a sender changes. */
  datatype Sender = Sender(written: Bytes, script: seq<Event>, calls: seq<WriteCall>)

  /** Sending data, part of the frame of m that begins at `start`, or not all of it. */
  ghost predicate Sends(before: Sender, after: Sender, data: Bytes, r: SendStatus, start: nat, m: Payload) {
    && before.written <= after.written <= before.written + data
    && (r.Sent? <==> after.written == before.written + data)
    && (r.SendPending? ==> after.script == [])
    && (Moves(before.script) <= |after.written| - |before.written| + Moves(after.script) || r.SendClosed? || r.SendBroken?)
    && Uses(before.script, after.script, SendFault(r))
    && before.calls <= after.calls && Pieces(after.calls, |before.calls|, start, m)
    && r != TooLong
  }

  lemma SendsThen(a: Sender, b: Sender, c: Sender, x: Bytes, y: Bytes, r: SendStatus, start: nat, m: Payload)
    requires Sends(a, b, x, Sent, start, m) && Sends(b, c, y, r, start, m)
    ensures Sends(a, c, x + y, r, start, m)
  {
    UsesThen(a.script, b.script, c.script, SendFault(r));
    PiecesThen(b.calls, c.calls, |a.calls|, start, m);
    Regroup(a.written, x, y);
  }

  lemma SendsPart(a: Sender, b: Sender, x: Bytes, y: Bytes, r: SendStatus, start: nat, m: Payload)
    requires Sends(a, b, x, r, start, m) && !r.Sent?
    ensures Sends(a, b, x + y, r, start, m)
  {
    Regroup(a.written, x, y);
    assert b.written <= (a.written + x) + y && |b.written| < |a.written + x| <= |(a.written + x) + y|;
  }

  /** What a receiver changes. */
  datatype Receiver = Receiver(unread: Bytes, script: seq<Event>)

  /** Reading on: a wait for the peer means that the script is over, and until then no more
      calls move something than bytes were read. */
  ghost predicate Draws<T>(before: Receiver, after: Receiver, r: Status<T>) {
    && |after.unread| <= |before.unread|
    && (r.Pending? ==> after.script == [])
    && (r.Got? || r.Pending? ==>
          Moves(before.script) <= |before.unread| - |after.unread| + Moves(after.script))
    && Uses(before.script, after.script, FaultOf(r))
    && !r.Oversized?
  }

  lemma DrawsThen<S, T>(a: Receiver, b: Receiver, c: Receiver, q: Status<S>, r: Status<T>)
    requires Draws(a, b, q) && q.Got? && Draws(b, c, r)
    ensures Draws(a, c, r)
  {
    UsesThen(a.script, b.script, c.script, FaultOf(r));
  }

  /** One more read; an empty one is an end of file. */
  lemma DrawsOn(a: Receiver, b: Receiver, c: Receiver, q: Status<Bytes>, r: Status<Bytes>)
    requires Draws(a, b, q) && q.Got?
    requires |c.unread| <= |b.unread| && Uses(b.script, c.script, FaultOf(r)) && !r.Oversized?
    requires r.Pending? ==> c.script == [] && Moves(b.script) == 0
    requires r.Got? ==> Moves(b.script) <= 1 + Moves(c.script)
    ensures !r.Got? || |c.unread| < |b.unread| ==> Draws(a, c, r)
    ensures r.Got? ==> Draws(a, c, Status<Bytes>.Ended) && Draws(a, c, Status<Bytes>.EndedInside)
  {
    UsesThen(a.script, b.script, c.script, FaultOf(r));
  }

  class FdStream {
    var written: Bytes        // all the pipe has taken from this end
    var unread: Bytes         // what this end has still to read before end of file
    var script: seq<Event>
    var calls: seq<WriteCall>  // the writes it was asked for

    constructor (unread: Bytes, script: seq<Event>)
      ensures written == [] && this.unread == unread && this.script == script && calls == []
    {
      written, this.unread, this.script, calls := [], unread, script, [];
    }

    ghost function View(): Sender
      reads this
    {
      Sender(written, script, calls)
    }

    ghost function Inbox(): Receiver
      reads this
    {
      Receiver(unread, script)
    }

    /** Whatever happens, the pipe holds a prefix of the data: all of it exactly when Sent,
        and short of it only for want of room or because of a fault. A fault is told, of its
        kind, and ends it. */
    method SendAll(data: Bytes) returns (r: SendStatus)
      modifies this
      ensures unread == old(unread) && r != TooLong
      ensures old(written) <= written <= old(written) + data
      ensures r.Sent? <==> written == old(written) + data
      ensures r.SendPending? ==> script == []
      ensures Moves(old(script)) <= |written| - |old(written)| + Moves(script) || r.SendClosed? || r.SendBroken?
      ensures Uses(old(script), script, SendFault(r))
      ensures old(calls) <= calls && UpTo(calls, |old(calls)|, |old(written)|, |old(written)| + |data|)
    {
      var sent := 0;
      while sent < |data|
        invariant 0 <= sent <= |data|
        invariant unread == old(unread)
        invariant written == old(written) + data[..sent]
        invariant Moves(old(script)) <= sent + Moves(script)
        invariant Uses(old(script), script, None)
        invariant old(calls) <= calls && UpTo(calls, |old(calls)|, |old(written)|, |old(written)| + |data|)
        decreases |script|
      {
        if script == [] {
          return SendPending;
        }
        var event := script[0];
        UsesOne(old(script), script);
        script := script[1..];
        calls := calls + [WriteCall(|written|, |data| - sent)];
        match event
        case Moved(k) =>
          var n := Clamp(k, |data| - sent);
          written := written + data[sent..sent + n];
          sent := sent + n;
        case WouldBlock =>
        case Fault(closed) =>
          return if closed then SendClosed else SendBroken;
      }
      r := Sent;
    }

    /** Some bytes, at most `max`; none only at end of file. */
    method ReceiveSome(max: int) returns (r: Status<Bytes>)
      requires max != 0
      modifies this
      ensures written == old(written)
      ensures r.Got? || r.Pending? || r.Closed? || r.Broken?
      ensures if r.Got? then old(unread) == r.value + unread else unread == old(unread)
      ensures r.Got? ==> |r.value| <= max && (r.value == [] <==> old(unread) == [])
      ensures r.Got? ==> Moves(old(script)) <= 1 + Moves(script)
      ensures r.Pending? ==> script == [] && Moves(old(script)) == 0
      ensures if max < 0 then r.Broken? && script == old(script) else Uses(old(script), script, FaultOf(r))
    {
      if max < 0 {
        return Broken;
      }
      while true
        invariant written == old(written) && unread == old(unread)
        invariant Moves(old(script)) == Moves(script)
        invariant Uses(old(script), script, None)
        decreases |script|
      {
        if script == [] {
          return Pending;
        }
        var event := script[0];
        UsesOne(old(script), script);
        script := script[1..];
        match event
        case Moved(k) =>
          var n := if unread == [] then 0 else Clamp(k, if max < |unread| then max else |unread|);
          r := Got(unread[..n]);
          unread := unread[n..];
          return;
        case WouldBlock =>
        case Fault(closed) =>
          return if closed then Closed else Broken;
      }
    }
  }

  class FdChannel {
    const stream: FdStream

    constructor (stream: FdStream)
      ensures this.stream == stream
    {
      this.stream := stream;
    }

    /** All three ways of sending put the one frame of the message on the pipe; a send is
        left waiting only if the pipe took too little. */
    method Send(buf: Bytes) returns (r: SendStatus)
      modifies stream
      ensures stream.unread == old(stream.unread)
      ensures r.TooLong? <==> !Fits(buf)
      ensures r.TooLong? ==> stream.written == old(stream.written)
      ensures !r.TooLong? ==> old(stream.written) <= stream.written <= old(stream.written) + Frame(buf)
      ensures r.Sent? <==> Fits(buf) && stream.written == old(stream.written) + Frame(buf)
      ensures r.SendPending? ==> stream.script == [] && Moves(old(stream.script)) <= |stream.written| - |old(stream.written)|
      ensures Uses(old(stream.script), stream.script, SendFault(r))
      ensures old(stream.calls) <= stream.calls
      ensures if Fits(buf) then Pieces(stream.calls, |old(stream.calls)|, |old(stream.written)|, buf) else stream.calls == old(stream.calls)
      ensures Moves(old(stream.script)) <= |stream.written| - |old(stream.written)| + Moves(stream.script) || r.SendClosed? || r.SendBroken?
    {
      if |buf| > MAX_SHORT {
        if |buf| >= TWO_64 {
          return TooLong;
        }
        r := SendExtended(buf);
      } else {
        r := SendShort(buf);
      }
    }

    /** A piece of the frame of m: the bytes from lo to hi. */
    method SendPiece(data: Bytes, ghost m: Payload, ghost start: nat, ghost lo: nat) returns (r: SendStatus)
      requires |stream.written| == start + lo
      requires var hi := lo + |data|;
               if |m| <= LARGE then lo == 0 && hi == |Frame(m)|
               else (lo == 0 && hi == 4) || (Extended(m) && lo == 4 && hi == 12) || (lo == |Frame(m)| - |m| && hi == |Frame(m)|)
      modifies stream
      ensures stream.unread == old(stream.unread)
      ensures Sends(old(stream.View()), stream.View(), data, r, start, m)
    {
      r := stream.SendAll(data);
      InPieces(stream.calls, |old(stream.calls)|, start, m, lo, lo + |data|);
    }

    /** The branch for messages over MAX_SHORT bytes. */
    method SendExtended(buf: Payload) returns (r: SendStatus)
      requires Extended(buf)
      modifies stream
      ensures stream.unread == old(stream.unread)
      ensures Sends(old(stream.View()), stream.View(), Frame(buf), r, |old(stream.written)|, buf)
    {
      ghost var start, a := |stream.written|, stream.View();
      var preHeader := PackI32(-1);
      var header := PackU64(|buf|);
      assert Frame(buf) == (preHeader + header) + buf == preHeader + (header + buf);
      r := SendPiece(preHeader, buf, start, 0);
      ghost var b := stream.View();
      if !r.Sent? {
        SendsPart(a, b, preHeader, header + buf, r, start, buf);
        return;
      }
      r := SendPiece(header, buf, start, 4);
      ghost var c := stream.View();
      SendsThen(a, b, c, preHeader, header, r, start, buf);
      if !r.Sent? {
        SendsPart(a, c, preHeader + header, buf, r, start, buf);
        return;
      }
      r := SendPiece(buf, buf, start, 12);
      SendsThen(a, c, stream.View(), preHeader + header, buf, r, start, buf);
    }

    /** The branches for all other messages: large ones after their header, small ones
        together with it. */
    method SendShort(buf: Payload) returns (r: SendStatus)
      requires !Extended(buf)
      modifies stream
      ensures stream.unread == old(stream.unread)
      ensures Sends(old(stream.View()), stream.View(), Frame(buf), r, |old(stream.written)|, buf)
    {
      ghost var start, a := |stream.written|, stream.View();
      var header := PackI32(|buf|);
      assert Frame(buf) == header + buf;
      if |buf| > LARGE {
        r := SendPiece(header, buf, start, 0);
        ghost var b := stream.View();
        if !r.Sent? {
          SendsPart(a, b, header, buf, r, start, buf);
          return;
        }
        r := SendPiece(buf, buf, start, 4);
        SendsThen(a, b, stream.View(), header, buf, r, start, buf);
      } else {
        r := SendPiece(header + buf, buf, start, 0);
      }
    }

    /** The bytes asked for, or end of file told apart by whether any had come. A negative
        size fails before any call. */
    method RecvExactly(size: int) returns (r: Status<Bytes>)
      modifies stream
      ensures stream.written == old(stream.written) && |stream.unread| <= |old(stream.unread)|
      ensures old(stream.unread) == Read(old(stream.unread), stream.unread) + stream.unread
      ensures r.Pending? || r.Ended? || r.EndedInside? ==> |old(stream.unread)| - |stream.unread| < size
      ensures r.Got? ==> size >= 0 && Exactly(old(stream.unread), size) == Whole(r.value, stream.unread)
      ensures r.Ended? ==> size >= 0 && Exactly(old(stream.unread), size) == NothingThere
      ensures r.EndedInside? ==> size >= 0 && Exactly(old(stream.unread), size) == Short
      ensures if size < 0 then r.Broken? && stream.script == old(stream.script)
              else Draws(old(stream.Inbox()), stream.Inbox(), r)
    {
      ghost var before := stream.Inbox();
      var left := size;
      var result: Bytes := [];
      while left != 0
        invariant before.unread == result + stream.unread
        invariant stream.written == old(stream.written)
        invariant if size < 0 then left == size && stream.script == before.script
                  else 0 <= left <= size && |result| == size - left && Draws(before, stream.Inbox(), Got(result))
        decreases if left < 0 then 0 else left
      {
        ghost var between := stream.Inbox();
        var part := stream.ReceiveSome(left);
        if size > 0 {
          DrawsOn(before, between, stream.Inbox(), Got(result), part);
        }
        if !part.Got? {
          ReadIs(before.unread, result, stream.unread);
          return part;
        }
        var count := |part.value|;
        if count == 0 {
          ReadIs(before.unread, result, stream.unread);
          if result == [] {
            return Ended;
          } else {
            return EndedInside;
          }
        }
        Regroup(result, part.value, stream.unread);
        result := result + part.value;
        if count > left {
          return Oversized;
        } else {
          left := left - count;
        }
      }
      ReadIs(before.unread, result, stream.unread);
      Takes(result, stream.unread);
      r := Got(result);
    }

    /** The eight bytes after an escape. `all` is the stream from the escape on. */
    method ReceiveLength(ghost all: Bytes, ghost lead: Bytes) returns (r: Status<int>, ghost head: Bytes)
      requires |lead| == 4 && UnpackI32(lead) == -1 && all == lead + stream.unread
      modifies stream
      ensures stream.written == old(stream.written)
      ensures |stream.unread| <= |old(stream.unread)| && head == Read(all, stream.unread)
      ensures r.Got? ==> Heads(head, r.value) && all == head + stream.unread
      ensures r.Ended? ==> Decode(all) == EndOfChannel
      ensures r.EndedInside? ==> Decode(all) == Truncated
      ensures r.Pending? || r.Ended? || r.EndedInside? ==> Partial(head)
      ensures Draws(old(stream.Inbox()), stream.Inbox(), r)
    {
      ghost var rest := stream.unread;
      var buf := RecvExactly(8);
      EscapeSays(all, lead, rest, stream.unread);
      head := Read(all, stream.unread);
      r := if buf.Got? then Got(Number(buf.value)) else buf.Failure();
    }

    /** The first half of `Receive`: the bytes in front of the message, and its size. */
    method ReceiveSize() returns (r: Status<int>, ghost head: Bytes)
      modifies stream
      ensures stream.written == old(stream.written)
      ensures |stream.unread| <= |old(stream.unread)|
      ensures head == Read(old(stream.unread), stream.unread)
      ensures r.Got? ==> Heads(head, r.value) && old(stream.unread) == head + stream.unread
      ensures r.Ended? ==> Decode(old(stream.unread)) == EndOfChannel
      ensures r.EndedInside? ==> Decode(old(stream.unread)) == Truncated
      ensures r.Pending? || r.Ended? || r.EndedInside? ==> Partial(head)
      ensures Draws(old(stream.Inbox()), stream.Inbox(), r)
    {
      ghost var before := stream.Inbox();
      var buf := RecvExactly(4);
      head := Read(before.unread, stream.unread);
      LeadSays(before.unread, stream.unread);
      if !buf.Got? { return buf.Failure(), head; }
      var size := UnpackI32(buf.value);
      if size == -1 {
        ghost var between := stream.Inbox();
        r, head := ReceiveLength(before.unread, head);
        DrawsThen(before, between, stream.Inbox(), buf, r);
      } else {
        r := Got(size);
      }
    }

    /** One message: however the reads are split, the result is what `Decode` says of the
        stream up to its end of file, and on success exactly the message's frame is gone.
        A receive is left waiting only if the script has too few reads. */
    method Receive() returns (r: Status<Bytes>)
      modifies stream
      ensures stream.written == old(stream.written)
      ensures |stream.unread| <= |old(stream.unread)|
      ensures r.Got? ==> Decode(old(stream.unread)) == Message(r.value, stream.unread)
      ensures r.Got? ==> Need(Read(old(stream.unread), stream.unread)) == 0
      ensures r.Ended? ==> Decode(old(stream.unread)) == EndOfChannel
      ensures r.EndedInside? ==> Decode(old(stream.unread)) == Truncated
      ensures r.Pending? || r.Ended? || r.EndedInside? ==> Need(Read(old(stream.unread), stream.unread)) > 0
      ensures || Draws(old(stream.Inbox()), stream.Inbox(), r)
              || (r.Broken? && Decode(old(stream.unread)) == Malformed && Uses(old(stream.script), stream.script, None))
    {
      ghost var before := stream.Inbox();
      var size, head := ReceiveSize();
      if !size.Got? {
        PartialNeeds(head);
        return size.Failure();
      }
      ghost var between := stream.Inbox();
      r := RecvExactly(size.value);
      if size.value >= 0 {
        DrawsThen(before, between, stream.Inbox(), size, r);
      }
      BodySays(before.unread, head, size.value, between.unread, stream.unread);
    }
  }

  lemma ReadIs(all: Bytes, head: Bytes, rest: Bytes)
    requires all == head + rest
    ensures Read(all, rest) == head
  {
  }

  lemma Regroup<T>(a: seq<T>, b: seq<T>, c: seq<T>)
    ensures a + (b + c) == (a + b) + c
  {
  }

  /** Reading on from `rest` adds to what has been read. */
  lemma ReadOn(all: Bytes, head: Bytes, rest: Bytes, now: Bytes)
    requires all == head + rest && |now| <= |rest|
    ensures Read(all, now) == head + Read(rest, now)
  {
  }

  /** These are the bytes in front of a body of this size. */
  predicate Heads(head: Bytes, size: int) {
    && (|head| == 4 || |head| == 12)
    && var n := UnpackI32(head[..4]);
       if |head| == 4 then n != -1 && size == n else n == -1 && size == Number(head[4..])
  }

  /** Not enough bytes to tell the size. */
  predicate Partial(head: Bytes) {
    |head| < 4 || (|head| < 12 && UnpackI32(head[..4]) == -1)
  }

  lemma PartialNeeds(head: Bytes)
    ensures Partial(head) ==> Need(head) > 0
  {
  }

  /** The first four bytes decide, or tell that more must be read. */
  lemma LeadSays(all: Bytes, now: Bytes)
    requires |now| <= |all| && all == Read(all, now) + now
    ensures Exactly(all, 4) == NothingThere ==> Decode(all) == EndOfChannel
    ensures Exactly(all, 4) == Short ==> Decode(all) == Truncated
    ensures Exactly(all, 4).Whole? && Exactly(all, 4).rest == now ==>
              var head := Read(all, now);
              head == Exactly(all, 4).data && (UnpackI32(head) != -1 ==> Heads(head, UnpackI32(head)))
  {
    if Exactly(all, 4).Whole? && Exactly(all, 4).rest == now {
      assert Read(all, now) == all[..4] == Read(all, now)[..4];
    }
  }

  /** After an escape the next eight bytes decide. */
  lemma EscapeSays(all: Bytes, head: Bytes, rest: Bytes, now: Bytes)
    requires |head| == 4 && UnpackI32(head) == -1
    requires all == head + rest && |now| <= |rest| && rest == Read(rest, now) + now
    ensures Read(all, now) == head + Read(rest, now)
    ensures Exactly(rest, 8) == NothingThere ==> Decode(all) == EndOfChannel
    ensures Exactly(rest, 8) == Short ==> Decode(all) == Truncated
    ensures |Read(rest, now)| < 8 ==> Partial(Read(all, now))
    ensures |Read(rest, now)| == 8 ==> Heads(Read(all, now), Number(Read(rest, now))) && all == Read(all, now) + now
  {
    var part := Read(rest, now);
    ReadOn(all, head, rest, now);
    assert (head + part)[..4] == head && (head + part)[4..] == part;
    Takes(head, rest);
  }

  /** Once the size is known, the body decides. */
  lemma BodySays(all: Bytes, head: Bytes, size: int, body: Bytes, now: Bytes)
    requires Heads(head, size) && all == head + body && |now| <= |body|
    ensures Decode(all) == if size < 0 then Malformed else Body(Exactly(body, size))
    ensures Need(Read(all, now)) == if size < 0 then 0 else Max0(size - (|body| - |now|))
  {
    ReadOn(all, head, body, now);
    assert all[..4] == head[..4] && Read(all, now)[..4] == head[..4];
    if |head| == 4 {
      Takes(head, body);
    } else {
      assert Read(all, now)[4..12] == head[4..];
      assert all == head[..4] + (head[4..] + body);
      Takes(head[..4], head[4..] + body);
      Takes(head[4..], body);
    }
  }
}
