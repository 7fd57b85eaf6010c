/**
 The wire format of the job and result pipes: a message is its length, big-endian, and
 then its bytes. Ordinary lengths are signed 32-bit; longer messages escape with -1 and
 an unsigned 64-bit length. `Frame` is what a sender puts on the pipe, `Decode` what a
 receiver makes of a byte stream that ends in end of file, and `Need` how many bytes the
 receiver asks the pipe for next.
 */
module Framing {

  type Byte = b: int | 0 <= b < 256
  type Bytes = seq<Byte>

  const TWO_31: int := 0x8000_0000
  const TWO_32: int := 0x1_0000_0000
  const TWO_64: int := 0x1_0000_0000_0000_0000
  const MAX_SHORT: int := 0x7FFF_FFFF

  function Power256(width: nat): (p: nat)
    ensures p > 0
  {
    if width == 0 then 1 else 256 * Power256(width - 1)
  }

  /** The last `width` base-256 digits of n, most significant first. */
  function Digits(n: nat, width: nat): (b: Bytes)
    ensures |b| == width
  {
    if width == 0 then [] else Digits(n / 256, width - 1) + [n % 256]
  }

  function Number(b: Bytes): (n: nat)
    ensures n < Power256(|b|)
  {
    if b == [] then 0
    else
      var last: int := b[|b| - 1];
      256 * Number(b[..|b| - 1]) + last
  }

  lemma Split256(n: nat, p: nat)
    requires n < 256 * p
    ensures n / 256 < p && n == 256 * (n / 256) + n % 256
  {
  }

  lemma NumberThen(b: Bytes, last: Byte)
    ensures Number(b + [last]) == 256 * Number(b) + last as int
  {
    assert (b + [last])[..|b|] == b;
  }

  lemma DigitThen(n: nat, q: nat, r: Byte, width: nat)
    requires width > 0 && n == 256 * q + r && q == n / 256 && r == n % 256
    requires Number(Digits(q, width - 1)) == q
    ensures Number(Digits(n, width)) == n
  {
    NumberThen(Digits(q, width - 1), r);
  }

  lemma {:induction false} NumberOfDigits(n: nat, width: nat)
    requires n < Power256(width)
    ensures Number(Digits(n, width)) == n
  {
    if width == 0 {
    } else {
      var q, r := n / 256, n % 256;
      Split256(n, Power256(width - 1));
      NumberOfDigits(q, width - 1);
      DigitThen(n, q, r, width);
    }
  }

  lemma Widths()
    ensures Power256(4) == TWO_32 && Power256(8) == TWO_64
  {
    assert Power256(2) == 0x1_0000 && Power256(4) == TWO_32;
    assert Power256(6) == 0x1_0000_0000_0000;
  }

  lemma Quotients(n: nat)
    ensures n / 256 / 256 == n / 0x1_0000 && n / 256 / 256 / 256 == n / 0x100_0000
  {
  }

  /** Most significant byte first. */
  lemma NetworkOrder(n: nat)
    ensures Digits(n, 4) == [n / 0x100_0000 % 256, n / 0x1_0000 % 256, n / 256 % 256, n % 256]
  {
    var a, b, c := n / 256, n / 256 / 256, n / 256 / 256 / 256;
    Quotients(n);
    assert Digits(c, 1) == [c % 256];
    assert Digits(b, 2) == [c % 256, b % 256];
    assert Digits(a, 3) == [c % 256, b % 256, a % 256];
  }

  lemma EscapeBytes()
    ensures PackI32(-1) == [255, 255, 255, 255]
  {
    NetworkOrder(TWO_32 - 1);
  }

  /** The bytes of an ordinary length. */
  lemma HeaderBytes(n: nat)
    requires n < TWO_31
    ensures PackI32(n) == [n / 0x100_0000, n / 0x1_0000 % 256, n / 256 % 256, n % 256]
  {
    NetworkOrder(n);
  }

  lemma LowTwo(n: nat, width: nat)
    ensures Digits(n, width + 2) == Digits(n / 256 / 256, width) + Digits(n, 2)
  {
    var a, b := n / 256, n / 256 / 256;
    assert Digits(n, 2) == Digits(a, 1) + [n % 256] && Digits(a, 1) == [a % 256];
    assert Digits(a, width + 1) == Digits(b, width) + [a % 256];
    assert Digits(n, width + 2) == Digits(a, width + 1) + [n % 256];
  }

  lemma LowDigits(n: nat, width: nat)
    ensures Digits(n, width + 4) == Digits(n / TWO_32, width) + Digits(n, 4)
  {
    var half := n / 256 / 256;
    assert half / 256 / 256 == n / TWO_32;
    LowTwo(n, width + 2);
    LowTwo(half, width);
    LowTwo(n, 2);
  }

  /** And of an extended length: its high word and then its low word. */
  lemma LengthBytes(n: nat)
    requires n < TWO_64
    ensures PackU64(n) == Digits(n / TWO_32, 4) + Digits(n, 4)
  {
    LowDigits(n, 4);
  }

  /** How four bytes read: the first is the most significant, and carries the sign. */
  lemma HeaderReads(b: Bytes)
    requires |b| == 4
    ensures UnpackI32(b) == 0x100_0000 * b[0] + 0x1_0000 * b[1] + 256 * b[2] + b[3] - if b[0] >= 128 then TWO_32 else 0
  {
    assert Number(b[..1]) == b[0] by {
      assert b[..1][..0] == [];
    }
    assert b[..2][..1] == b[..1] && b[..3][..2] == b[..2] && b[..4] == b && b[..4][..3] == b[..3];
    assert Number(b[..2]) == 256 * Number(b[..1]) + b[1] as int;
    assert Number(b[..3]) == 256 * Number(b[..2]) + b[2] as int;
  }

  /** struct.pack("!i", n): two's complement */
  function PackI32(n: int): (b: Bytes)
    requires -TWO_31 <= n < TWO_31
    ensures |b| == 4 && UnpackI32(b) == n
  {
    var u := if n < 0 then n + TWO_32 else n;
    Widths();
    NumberOfDigits(u, 4);
    Digits(u, 4)
  }

  function UnpackI32(b: Bytes): (n: int)
    requires |b| == 4
    ensures -TWO_31 <= n < TWO_31
  {
    Widths();
    var u := Number(b);
    if u < TWO_31 then u else u - TWO_32
  }

  /** struct.pack("!Q", n) */
  function PackU64(n: nat): (b: Bytes)
    requires n < TWO_64
    ensures |b| == 8 && Number(b) == n
  {
    Widths();
    NumberOfDigits(n, 8);
    Digits(n, 8)
  }

  /** A length that struct.pack("!Q", ...) accepts. */
  predicate Fits(m: Bytes) {
    |m| < TWO_64
  }

  type Payload = m: Bytes | Fits(m) witness []

  predicate Extended(m: Bytes) {
    |m| > MAX_SHORT
  }

  /** The first four bytes: the length, or the escape. */
  function Lead(m: Bytes): (h: Bytes)
    ensures |h| == 4
    ensures UnpackI32(h) == if Extended(m) then -1 else |m|
  {
    PackI32(if Extended(m) then -1 else |m|)
  }

  /** The eight bytes of an escaped length. */
  function Length(m: Payload): (l: Bytes)
    ensures |l| == if Extended(m) then 8 else 0
    ensures Extended(m) ==> Number(l) == |m|
  {
    if Extended(m) then PackU64(|m|) else []
  }

  /** One message as it travels. */
  function Frame(m: Payload): (f: Bytes)
    ensures |f| == 4 + |Length(m)| + |m|
  {
    Lead(m) + Length(m) + m
  }

  /** Messages over this size are written after their header, not together with it. */
  const LARGE: int := 16384

  /** What the write calls a sender makes are about, when `left` bytes of the frame of a
      message of n bytes are still unwritten: the rest of the escape or header, of the
      extended length, of the body, or of all of them in one. */
  function Piece(n: nat, left: nat): (p: nat)
    ensures p <= left && (left > 0 ==> p > 0)
  {
    if n <= LARGE then left
    else if left > n + 8 then left - n - 8
    else if left > n then left - n
    else left
  }

  // ---------------------------------------------------------------- receiving

  /** What asking a finished stream for exactly `size` bytes gives. */
  datatype Section = Whole(data: Bytes, rest: Bytes) | NothingThere | Short

  function Exactly(s: Bytes, size: nat): Section {
    if size == 0 then Whole([], s)
    else if s == [] then NothingThere
    else if |s| < size then Short
    else Whole(s[..size], s[size..])
  }

  /** The result of receiving one message: a negative length other than -1 makes the
      following read fail in the operating system. */
  datatype Decoded = Message(payload: Bytes, rest: Bytes) | EndOfChannel | Truncated | Malformed

  function Body(s: Section): Decoded {
    match s
    case Whole(data, rest) => Message(data, rest)
    case NothingThere => EndOfChannel
    case Short => Truncated
  }

  function Decode(s: Bytes): Decoded {
    match Exactly(s, 4)
    case NothingThere => EndOfChannel
    case Short => Truncated
    case Whole(h, rest) =>
      var n := UnpackI32(h);
      if n == -1 then
        match Exactly(rest, 8)
        case NothingThere => EndOfChannel
        case Short => Truncated
        case Whole(l, body) => Body(Exactly(body, Number(l)))
      else if n < 0 then Malformed
      else Body(Exactly(rest, n))
  }

  /** How many bytes the receiver asks for next, having `got` of the current message:
      zero when the message is complete, or can never be. */
  function Need(got: Bytes): nat {
    if |got| < 4 then 4 - |got|
    else
      var n := UnpackI32(got[..4]);
      if n == -1 then
        if |got| < 12 then 12 - |got|
        else Max0(12 + Number(got[4..12]) - |got|)
      else if n < 0 then 0
      else Max0(4 + n - |got|)
  }

  function Max0(n: int): nat {
    if n < 0 then 0 else n
  }

  /** The offsets within a frame at which a fresh read begins. */
  predicate SectionStart(m: Bytes, k: nat) {
    k == 0 || k == 4 || (Extended(m) && k == 12)
  }

  lemma Parts(a: Bytes, b: Bytes, c: Bytes, k: nat)
    requires k <= |a + b + c|
    ensures var s := (a + b + c)[..k];
            && (|a| <= k ==> s[..|a|] == a && s == a + s[|a|..])
            && (|a + b| <= k ==> s[|a|..|a + b|] == b && s[|a|..] == b + s[|a + b|..])
  {
  }

  lemma Takes(data: Bytes, rest: Bytes)
    ensures Exactly(data + rest, |data|) == Whole(data, rest)
  {
    assert (data + rest)[..|data|] == data && (data + rest)[|data|..] == rest;
    assert data == [] ==> data + rest == rest;
  }

  /** Reading back: a frame at the head of any stream decodes to its message and leaves
      the rest of the stream untouched. */
  lemma FrameDecodes(m: Payload, rest: Bytes)
    ensures Decode(Frame(m) + rest) == Message(m, rest)
  {
    assert Frame(m) + rest == Lead(m) + (Length(m) + (m + rest));
    Takes(Lead(m), Length(m) + (m + rest));
    Takes(Length(m), m + rest);
    Takes(m, rest);
    assert !Extended(m) ==> Length(m) + (m + rest) == m + rest;
  }

  /** The three ways of sending make one prefix-free code. */
  lemma PrefixFree(a: Payload, x: Bytes, b: Payload, y: Bytes)
    requires Frame(a) + x == Frame(b) + y
    ensures a == b && x == y
  {
    FrameDecodes(a, x);
    FrameDecodes(b, y);
  }

  /** A cut inside a frame never yields a message; which error is raised depends only on
      whether the cut falls where a read begins. */
  lemma CutDecodes(m: Payload, k: nat)
    requires k < |Frame(m)|
    ensures Decode(Frame(m)[..k]) == if SectionStart(m, k) then EndOfChannel else Truncated
  {
    var s := Frame(m)[..k];
    Parts(Lead(m), Length(m), m, k);
    if k >= 4 {
      Takes(Lead(m), s[4..]);
      if Extended(m) && k >= 12 {
        Takes(Length(m), s[12..]);
      }
    }
  }

  /** While part of a frame has arrived the receiver asks for at least one byte and for
      none beyond the frame; it stops asking exactly at the end of the frame. */
  lemma NeedWithinFrame(m: Payload, k: nat)
    requires k <= |Frame(m)|
    ensures Need(Frame(m)[..k]) <= |Frame(m)| - k
    ensures Need(Frame(m)[..k]) == 0 <==> k == |Frame(m)|
  {
    Parts(Lead(m), Length(m), m, k);
  }

  /** The bytes of a frame. */
  lemma WireFormat(m: Payload)
    ensures var n := |m|;
            Frame(m) == if n < TWO_31
                        then [n / 0x100_0000, n / 0x1_0000 % 256, n / 256 % 256, n % 256] + m
                        else [255, 255, 255, 255] + Digits(n / TWO_32, 4) + Digits(n, 4) + m
  {
    if |m| < TWO_31 {
      HeaderBytes(|m|);
    } else {
      EscapeBytes();
      LengthBytes(|m|);
    }
  }

  /** A length is refused exactly when it is negative and not the escape. */
  lemma RefusedExactly(s: Bytes)
    ensures Decode(s).Malformed? <==> |s| >= 4 && s[0] >= 128 && s[..4] != [255, 255, 255, 255]
  {
    if |s| >= 4 {
      HeaderReads(s[..4]);
    }
  }

  // ------------------------------------------------------- streams of messages

  function Frames(ms: seq<Payload>): Bytes
  {
    if ms == [] then [] else Frame(ms[0]) + Frames(ms[1..])
  }

  /** Sending one message more puts its frame behind those sent before. */
  lemma {:induction false} FramesAppend(ms: seq<Payload>, m: Payload)
    ensures Frames(ms + [m]) == Frames(ms) + Frame(m)
  {
    if ms == [] {
      assert [m][1..] == [];
    } else {
      var first, later, last := Frame(ms[0]), Frames(ms[1..]), Frame(m);
      assert (ms + [m])[1..] == ms[1..] + [m];
      FramesAppend(ms[1..], m);
      assert first + (later + last) == first + later + last;
    }
  }

  /** Receive until an error: the messages in order, and the error. */
  function DecodeAll(s: Bytes): (r: (seq<Bytes>, Decoded))
    ensures !r.1.Message?
    decreases |s|
  {
    var d := Decode(s);
    if d.Message? then
      var r := DecodeAll(d.rest);
      ([d.payload] + r.0, r.1)
    else ([], d)
  }

  /** Any finite sequence of messages survives the trip. */
  lemma {:induction false} RoundTrip(ms: seq<Payload>)
    ensures DecodeAll(Frames(ms)) == (ms, EndOfChannel)
  {
    if ms == [] {
    } else {
      FrameDecodes(ms[0], Frames(ms[1..]));
      RoundTrip(ms[1..]);
      assert [ms[0]] + ms[1..] == ms;
    }
  }

  /** What the receiver should see of a stream of frames cut after `k` bytes: the messages
      whose frames lie wholly before the cut, nothing of the one it falls in, and an error
      that tells a cut where a read begins from a cut anywhere else. */
  function Surviving(ms: seq<Payload>, k: nat): (r: (seq<Payload>, Decoded))
    ensures r.0 <= ms && |Frames(r.0)| <= k
    ensures |r.0| < |ms| ==> k < |Frames(r.0)| + |Frame(ms[|r.0|])|
    ensures r.1.EndOfChannel? || r.1.Truncated?
  {
    if ms == [] then ([], EndOfChannel)
    else if k < |Frame(ms[0])| then ([], if SectionStart(ms[0], k) then EndOfChannel else Truncated)
    else
      var r := Surviving(ms[1..], k - |Frame(ms[0])|);
      assert ([ms[0]] + r.0)[1..] == r.0;
      ([ms[0]] + r.0, r.1)
  }

  lemma CutBehind(a: Bytes, b: Bytes, k: nat)
    requires k <= |a + b|
    ensures (a + b)[..k] == if k < |a| then a[..k] else a + b[..k - |a|]
  {
  }

  /** End of file at any offset of any stream of frames. */
  lemma {:induction false} Truncation(ms: seq<Payload>, k: nat)
    requires k <= |Frames(ms)|
    ensures DecodeAll(Frames(ms)[..k]) == Surviving(ms, k)
  {
    if ms != [] {
      var first, later := Frame(ms[0]), Frames(ms[1..]);
      CutBehind(first, later, k);
      if k < |first| {
        CutDecodes(ms[0], k);
      } else {
        var cut := later[..k - |first|];
        FrameDecodes(ms[0], cut);
        Truncation(ms[1..], k - |first|);
      }
    }
  }

  lemma FramesNext(ms: seq<Payload>, i: nat)
    requires i < |ms|
    ensures Frames(ms[..i + 1]) == Frames(ms[..i]) + Frame(ms[i])
  {
    var first, m := ms[..i], ms[i];
    FramesAppend(first, m);
    assert ms[..i + 1] == first + [m];
  }

  lemma {:induction false} FramesPrefix(ms: seq<Payload>, i: nat)
    requires i <= |ms|
    ensures Frames(ms[..i]) <= Frames(ms)
  {
    if i == |ms| {
      assert ms[..i] == ms;
    } else {
      FramesPrefix(ms[..|ms| - 1], i);
      assert ms[..|ms| - 1][..i] == ms[..i] && ms == ms[..|ms| - 1] + [ms[|ms| - 1]];
      FramesAppend(ms[..|ms| - 1], ms[|ms| - 1]);
    }
  }

  /** Reading all of an intact stream finds every message. */
  lemma {:induction false} AllSurvive(ms: seq<Payload>)
    ensures Surviving(ms, |Frames(ms)|) == (ms, EndOfChannel)
  {
    if ms == [] {
    } else {
      AllSurvive(ms[1..]);
      assert [ms[0]] + ms[1..] == ms;
    }
  }
}
