// The length-prefixed frames between the guest agent (_guest_agent.py) and its
// client (_backend.py), over a byte stream that arrives in arbitrary chunks.
module Frames {
  import opened Wrappers

  newtype byte = x: int | 0 <= x < 0x100
  type Bytes = seq<byte>

  const MAX_FRAME: nat := 64 * 1024 * 1024
  const MAX_LENGTH: nat := 0x1_0000_0000

  // ---- the length header ----

  // struct.pack(">I", n)
  function Header(n: nat): (h: Bytes)
    requires n < MAX_LENGTH
    ensures |h| == 4
  {
    [(n / 0x100_0000) as byte, (n / 0x1_0000 % 0x100) as byte, (n / 0x100 % 0x100) as byte, (n % 0x100) as byte]
  }

  // struct.unpack(">I", h)
  function Length(h: Bytes): nat
    requires |h| == 4
  {
    (h[0] as nat) * 0x100_0000 + (h[1] as nat) * 0x1_0000 + (h[2] as nat) * 0x100 + (h[3] as nat)
  }

  lemma HeaderRoundTrip(n: nat)
    requires n < MAX_LENGTH
    ensures Length(Header(n)) == n
  {
    assert n == n / 0x100_0000 * 0x100_0000 + n / 0x1_0000 % 0x100 * 0x1_0000 + n / 0x100 % 0x100 * 0x100 + n % 0x100;
  }

  // ---- frames ----

  predicate Sendable(body: Bytes) {
    |body| < MAX_LENGTH
  }

  // What the receiver takes; the sender does not check.
  predicate Receivable(body: Bytes) {
    1 <= |body| <= MAX_FRAME
  }

  function Frame(body: Bytes): (f: Bytes)
    requires Sendable(body)
    ensures |f| == 4 + |body|
  {
    Header(|body|) + body
  }

  function Stream(bodies: seq<Bytes>): Bytes
    requires forall b :: b in bodies ==> Sendable(b)
  {
    if bodies == [] then [] else Frame(bodies[0]) + Stream(bodies[1..])
  }

  // One frame read off the front of a stream.
  datatype Parse = Got(body: Bytes, rest: Bytes) | Eof | OutOfRange(rest: Bytes)

  function ParseFrame(s: Bytes): Parse {
    if |s| < 4 then Eof
    else
      var n := Length(s[..4]);
      if n == 0 || n > MAX_FRAME then OutOfRange(s[4..])
      else if |s| - 4 < n then Eof
      else Got(s[4..4 + n], s[4 + n..])
  }

  datatype End = Closed | BadLength

  // All the frames of a stream, and how reading ends.
  function Decode(s: Bytes): (seq<Bytes>, End)
    decreases |s|
  {
    match ParseFrame(s)
    case Eof => ([], Closed)
    case OutOfRange(_) => ([], BadLength)
    case Got(body, rest) =>
      var (bodies, end) := Decode(rest);
      ([body] + bodies, end)
  }

  lemma ParseFramed(body: Bytes, rest: Bytes)
    requires Sendable(body)
    ensures ParseFrame(Frame(body) + rest) ==
      if Receivable(body) then Got(body, rest) else OutOfRange(body + rest)
  {
    var s := Frame(body) + rest;
    HeaderRoundTrip(|body|);
    assert s[..4] == Header(|body|);
    assert s[4..] == body + rest;
    assert s[4..4 + |body|] == body && s[4 + |body|..] == rest;
  }

  // The receiver recovers every body up to the first one out of range; so it
  // recovers them all, and only then, if none is.
  function Taken(bodies: seq<Bytes>): (k: nat)
    ensures k <= |bodies|
    ensures forall i :: 0 <= i < k ==> Receivable(bodies[i])
    ensures k < |bodies| ==> !Receivable(bodies[k])
  {
    if bodies == [] || !Receivable(bodies[0]) then 0 else 1 + Taken(bodies[1..])
  }

  lemma {:induction false} DecodeStream(bodies: seq<Bytes>)
    requires forall b :: b in bodies ==> Sendable(b)
    ensures var k := Taken(bodies);
      Decode(Stream(bodies)) == (bodies[..k], if k == |bodies| then Closed else BadLength)
  {
    if bodies == [] {
    } else {
      ParseFramed(bodies[0], Stream(bodies[1..]));
      DecodeStream(bodies[1..]);
      if Receivable(bodies[0]) {
        assert bodies[..Taken(bodies)] == [bodies[0]] + bodies[1..][..Taken(bodies[1..])];
      }
    }
  }

  lemma RoundTripIff(bodies: seq<Bytes>)
    requires forall b :: b in bodies ==> Sendable(b)
    ensures Decode(Stream(bodies)) == (bodies, Closed) <==> forall b :: b in bodies ==> Receivable(b)
  {
    DecodeStream(bodies);
    var k := Taken(bodies);
    if k < |bodies| {
      assert bodies[k] in bodies;
    } else {
      assert bodies[..k] == bodies;
    }
  }

  // How many frames the first n bytes of a stream wholly contain.
  function Contained(bodies: seq<Bytes>, n: nat): (k: nat)
    ensures k <= |bodies|
  {
    if bodies == [] || n < 4 + |bodies[0]| then 0 else 1 + Contained(bodies[1..], n - (4 + |bodies[0]|))
  }

  lemma {:induction false} ContainedFits(bodies: seq<Bytes>, n: nat)
    requires forall b :: b in bodies ==> Sendable(b)
    ensures var k := Contained(bodies, n);
      && |Stream(bodies[..k])| <= n
      && (k < |bodies| ==> n < |Stream(bodies[..k + 1])|)
  {
    if bodies != [] && n >= 4 + |bodies[0]| {
      ContainedFits(bodies[1..], n - (4 + |bodies[0]|));
      var k := Contained(bodies[1..], n - (4 + |bodies[0]|));
      assert bodies[..k + 1] == [bodies[0]] + bodies[1..][..k];
      if k < |bodies| - 1 {
        assert bodies[..k + 2] == [bodies[0]] + bodies[1..][..k + 1];
      }
    } else if bodies != [] {
      assert bodies[..1] == [bodies[0]] && bodies[1..][..0] == [];
      assert Stream(bodies[..1]) == Frame(bodies[0]) + Stream([]);
    }
  }

  lemma ParseCut(body: Bytes, rest: Bytes, n: nat)
    requires Receivable(body) && n < 4 + |body|
    ensures ParseFrame((Frame(body) + rest)[..n]) == Eof
  {
    var s := (Frame(body) + rest)[..n];
    if n >= 4 {
      HeaderRoundTrip(|body|);
      assert s[..4] == Header(|body|);
    }
  }

  // A stream cut anywhere yields exactly the frames it wholly contains, and
  // then the end of the stream.
  lemma {:induction false} DecodeCut(bodies: seq<Bytes>, n: nat)
    requires forall b :: b in bodies ==> Sendable(b) && Receivable(b)
    requires n <= |Stream(bodies)|
    ensures Decode(Stream(bodies)[..n]) == (bodies[..Contained(bodies, n)], Closed)
  {
    if bodies == [] {
    } else {
      var first, rest := bodies[0], Stream(bodies[1..]);
      if n < 4 + |first| {
        ParseCut(first, rest, n);
      } else {
        var m := n - (4 + |first|);
        assert Stream(bodies)[..n] == Frame(first) + rest[..m];
        ParseFramed(first, rest[..m]);
        DecodeCut(bodies[1..], m);
        assert bodies[..Contained(bodies, n)] == [first] + bodies[1..][..Contained(bodies[1..], m)];
      }
    }
  }

  // ---- the receiving code ----

  // The receiving end of a socket: the bytes still to arrive.
  class Socket {
    var incoming: Bytes

    constructor (data: Bytes)
      ensures incoming == data
    {
      incoming := data;
    }

    // Some non-empty chunk of at most n bytes, or nothing at the end.
    method Recv(n: nat) returns (chunk: Bytes)
      requires n > 0
      modifies this
      ensures old(incoming) == chunk + incoming
      ensures |chunk| <= n && (chunk == [] <==> old(incoming) == [])
    {
      if incoming == [] {
        return [];
      }
      var k: nat :| 1 <= k <= n && k <= |incoming|;
      chunk := incoming[..k];
      incoming := incoming[k..];
    }
  }

  // None is EOFError.
  method RecvExactly(conn: Socket, n: nat) returns (r: Option<Bytes>)
    modifies conn
    ensures old(|conn.incoming|) >= n ==> r == Some(old(conn.incoming)[..n]) && conn.incoming == old(conn.incoming)[n..]
    ensures old(|conn.incoming|) < n ==> r == None && conn.incoming == []
  {
    var buf: Bytes := [];
    while |buf| < n
      invariant |buf| <= n && buf + conn.incoming == old(conn.incoming)
      decreases n - |buf|
    {
      var chunk := conn.Recv(n - |buf|);
      if chunk == [] {
        return None;
      }
      buf := buf + chunk;
    }
    return Some(buf);
  }

  method RecvFrame(conn: Socket) returns (r: Parse)
    modifies conn
    ensures r == ParseFrame(old(conn.incoming))
    ensures conn.incoming == if r.Eof? then [] else r.rest
  {
    var header := RecvExactly(conn, 4);
    if header.None? {
      return Eof;
    }
    var length := Length(header.value);
    if length == 0 || length > MAX_FRAME {
      return OutOfRange(conn.incoming);
    }
    var body := RecvExactly(conn, length);
    if body.None? {
      return Eof;
    }
    return Got(body.value, conn.incoming);
  }

  // The answers to the requests, one frame each, in order.
  function Answers(handler: Bytes -> Bytes, requests: seq<Bytes>): (r: seq<Bytes>)
    ensures |r| == |requests|
    ensures forall i :: 0 <= i < |r| ==> r[i] == handler(requests[i])
  {
    seq(|requests|, i requires 0 <= i < |requests| => handler(requests[i]))
  }

  // The agent's loop: answer frame after frame until the connection ends or a
  // length is out of range.
  method ServeConnection(conn: Socket, handler: Bytes -> Bytes)
      returns (requests: seq<Bytes>, sent: seq<Bytes>, end: End)
    modifies conn
    ensures (requests, end) == Decode(old(conn.incoming))
    ensures sent == Answers(handler, requests)
  {
    requests, sent := [], [];
    assert [] + Decode(conn.incoming).0 == Decode(conn.incoming).0;
    while true
      invariant sent == Answers(handler, requests)
      invariant var (more, end) := Decode(conn.incoming); Decode(old(conn.incoming)) == (requests + more, end)
      decreases |conn.incoming|
    {
      ghost var more := Decode(conn.incoming).0;
      var frame := RecvFrame(conn);
      match frame
      case Eof =>
        assert requests + more == requests;
        return requests, sent, Closed;
      case OutOfRange(_) =>
        assert requests + more == requests;
        return requests, sent, BadLength;
      case Got(body, rest) =>
        assert requests + more == (requests + [body]) + Decode(rest).0;
        requests := requests + [body];
        sent := sent + [handler(body)];
    }
  }

  // What the client reads back after sending the agent a connection's bytes.
  function Reply(handler: Bytes -> Bytes, sent: Bytes): Parse
    requires forall b :: b in Answers(handler, Decode(sent).0) ==> Sendable(b)
  {
    ParseFrame(Stream(Answers(handler, Decode(sent).0)))
  }

  // One exchange on a connection of its own: the client gets the handler's
  // answer exactly when request and answer are within range.
  lemma Exchange(handler: Bytes -> Bytes, request: Bytes)
    requires Sendable(request) && Sendable(handler(request))
    ensures forall b :: b in Answers(handler, Decode(Frame(request)).0) ==> Sendable(b)
    ensures Reply(handler, Frame(request)) == Got(handler(request), []) <==>
      Receivable(request) && Receivable(handler(request))
  {
    ParseFramed(request, []);
    assert Frame(request) + [] == Frame(request);
    ParseFramed(handler(request), []);
    assert Frame(handler(request)) + [] == Frame(handler(request));
    assert Decode([]) == ([], Closed) && [request] + [] == [request];
    var answers := Answers(handler, Decode(Frame(request)).0);
    if Receivable(request) {
      assert answers == [handler(request)] && Stream(answers) == Frame(handler(request));
    } else {
      assert answers == [] && Stream(answers) == [];
    }
  }
}
