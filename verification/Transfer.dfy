/**
 Whole conversations: a sender that sends one message after the other, and a receiver that
 receives until it fails. The scripts stand for every splitting of the traffic.
 */
module Transfer {
  import opened Framing
  import opened Options
  import opened Streams

  /** Repeated `Send`: what is in the pipe is a prefix of the frames, all of them exactly on
      success, and short of it only for want of room or because of a fault. */
  method SendMany(channel: FdChannel, ms: seq<Payload>) returns (r: SendStatus)
    modifies channel.stream
    ensures var s := channel.stream;
            && s.unread == old(s.unread)
            && old(s.written) <= s.written <= old(s.written) + Frames(ms)
            && (r.Sent? <==> s.written == old(s.written) + Frames(ms))
            && (r.SendPending? ==> Moves(old(s.script)) <= |s.written| - |old(s.written)|)
            && Uses(old(s.script), s.script, SendFault(r))
            && r != TooLong
  {
    var stream := channel.stream;
    ghost var start := stream.written;
    for i := 0 to |ms|
      invariant stream.unread == old(stream.unread)
      invariant stream.written == start + Frames(ms[..i])
      invariant Moves(old(stream.script)) <= |stream.written| - |start| + Moves(stream.script)
      invariant Uses(old(stream.script), stream.script, None)
    {
      OneMore(start, ms, i);
      ghost var between := stream.script;
      r := channel.Send(ms[i]);
      UsesThen(old(stream.script), between, stream.script, SendFault(r));
      if !r.Sent? {
        return;
      }
    }
    assert ms[..|ms|] == ms;
    r := Sent;
  }

  lemma OneMore(start: Bytes, ms: seq<Payload>, i: nat)
    requires i < |ms|
    ensures Fits(ms[i]) && start + Frames(ms[..i]) + Frame(ms[i]) == start + Frames(ms[..i + 1])
    ensures start + Frames(ms[..i + 1]) <= start + Frames(ms)
  {
    FramesNext(ms, i);
    FramesPrefix(ms, i + 1);
    Grow(start, Frames(ms[..i]), Frame(ms[i]), Frames(ms));
  }

  lemma Grow(start: Bytes, a: Bytes, b: Bytes, all: Bytes)
    requires a + b <= all
    ensures start + a + b == start + (a + b) <= start + all
  {
    Regroup(start, a, b);
    PrefixAfter(start, a + b, all);
  }

  lemma PrefixAfter(start: Bytes, a: Bytes, b: Bytes)
    requires a <= b
    ensures start + a <= start + b
  {
  }

  /** Repeated `Receive`: the messages of the stream in order, a prefix of them if something
      goes wrong, and at its end the error that fits the way the stream ends. */
  method ReceiveAll(channel: FdChannel) returns (got: seq<Bytes>, end: Status<Bytes>)
    modifies channel.stream
    ensures var s := channel.stream;
            && !end.Got? && !end.Oversized?
            && got <= DecodeAll(old(s.unread)).0
            && (end.Ended? ==> DecodeAll(old(s.unread)) == (got, EndOfChannel))
            && (end.EndedInside? ==> DecodeAll(old(s.unread)) == (got, Truncated))
            && (end.Pending? ==> Moves(old(s.script)) <= |old(s.unread)|)
            && (|| Uses(old(s.script), s.script, FaultOf(end))
                || (end.Broken? && DecodeAll(old(s.unread)).1 == Malformed && Uses(old(s.script), s.script, None)))
  {
    var stream := channel.stream;
    ghost var all := DecodeAll(stream.unread);
    got := [];
    assert [] + all.0 == all.0;
    while true
      invariant |stream.unread| <= |old(stream.unread)|
      invariant all == (got + DecodeAll(stream.unread).0, DecodeAll(stream.unread).1)
      invariant Moves(old(stream.script)) <= |old(stream.unread)| - |stream.unread| + Moves(stream.script)
      invariant Uses(old(stream.script), stream.script, None)
      decreases |stream.unread|
    {
      ghost var before := stream.unread;
      ghost var between := stream.script;
      end := channel.Receive();
      if Uses(between, stream.script, FaultOf(end)) {
        UsesThen(old(stream.script), between, stream.script, FaultOf(end));
      } else {
        UsesThen(old(stream.script), between, stream.script, None);
      }
      if !end.Got? {
        NoneFewer(got, before);
        return;
      }
      OneFewer(got, before, end.value, stream.unread);
      got := got + [end.value];
    }
  }

  lemma OneFewer(got: seq<Bytes>, s: Bytes, m: Bytes, rest: Bytes)
    requires Decode(s) == Message(m, rest)
    ensures |rest| < |s|
    ensures (got + DecodeAll(s).0, DecodeAll(s).1) == ((got + [m]) + DecodeAll(rest).0, DecodeAll(rest).1)
  {
    Regroup(got, [m], DecodeAll(rest).0);
  }

  lemma NoneFewer(got: seq<Bytes>, s: Bytes)
    ensures got <= got + DecodeAll(s).0
    ensures !Decode(s).Message? ==> got + DecodeAll(s).0 == got && DecodeAll(s).1 == Decode(s)
  {
  }

  predicate Faultless(script: seq<Event>) {
    forall i :: 0 <= i < |script| ==> !script[i].Fault?
  }

  function Min(a: nat, b: nat): nat {
    if a < b then a else b
  }

  lemma CutSurvives(ms: seq<Payload>, written: Bytes, k: nat)
    requires written <= Frames(ms) && k <= |written|
    ensures DecodeAll(written[..k]) == Surviving(ms, k)
  {
    assert written[..k] == Frames(ms)[..k];
    Truncation(ms, k);
  }

  /** From one end to the other, through a pipe that loses its writer after `cut` bytes:
      whatever the operating system does at either end, what is received are messages that
      were sent, in order and unaltered. With enough calls that move something, and no
      fault, it is exactly what should survive, and every message if nothing is cut off. */
  method Deliver(ms: seq<Payload>, cut: nat, sending: seq<Event>, receiving: seq<Event>)
    returns (sent: SendStatus, arrived: nat, got: seq<Bytes>, end: Status<Bytes>)
    ensures arrived <= Min(cut, |Frames(ms)|) && (sent.Sent? ==> arrived == Min(cut, |Frames(ms)|))
    ensures got <= Surviving(ms, arrived).0 <= ms
    ensures end.Ended? ==> Surviving(ms, arrived) == (got, EndOfChannel)
    ensures end.EndedInside? ==> Surviving(ms, arrived) == (got, Truncated)
    ensures Faultless(sending) && Moves(sending) > |Frames(ms)| ==> sent.Sent?
    ensures Faultless(receiving) && Moves(receiving) > arrived ==> end.Ended? || end.EndedInside?
    ensures (Faultless(sending) && Moves(sending) > |Frames(ms)|
             && Faultless(receiving) && Moves(receiving) > |Frames(ms)| && cut >= |Frames(ms)|)
            ==> got == ms && end.Ended?
  {
    var sender := new FdStream([], sending);
    var out := new FdChannel(sender);
    sent := SendMany(out, ms);
    var written := sender.written;
    arrived := Min(cut, |written|);
    var receiver := new FdStream(written[..arrived], receiving);
    var into := new FdChannel(receiver);
    CutSurvives(ms, written, arrived);
    AllSurvive(ms);
    got, end := ReceiveAll(into);
  }
}
