/** The wire format shared by request_handler.py and client.py: a message is
    the UTF-8 JSON text of a value, preceded by its length as a 4-byte
    big-endian unsigned integer (`struct.pack(">I", n)`). The socket is a
    sequence of events: a chunk of bytes, an empty read (the peer closed), or
    a `select` that timed out. */
module Framing {
  import opened Values

  // ---------------------------------------------------------------------
  // JSON as bytes

  /** `json.dumps` followed by UTF-8 encoding, and `json.loads` of the UTF-8
      decoding; the JSON text itself is not modelled. */
  datatype Codec = Codec(encode: Json -> seq<byte>, decode: seq<byte> -> Result<Json>)

  /** What the model relies on from the codec: the encoding of a value is
      never empty and decodes back to it, and bytes that do not decode raise
      a decoding error. */
  ghost predicate ValidCodec(c: Codec)
  {
    (forall v :: |c.encode(v)| > 0 && c.decode(c.encode(v)) == Ok(v)) &&
    (forall b :: c.decode(b).Raise? ==> c.decode(b).exc == DecodeError)
  }

  // ---------------------------------------------------------------------
  // The length header

  const Limit: nat := 0x1_0000_0000

  /** `struct.pack(">I", n)`, most significant byte first. */
  function BE32(n: nat): (r: seq<byte>)
    requires n < Limit
    ensures |r| == 4
  {
    var n1 := n / 256;
    var n2 := n1 / 256;
    [(n2 / 256) as byte, (n2 % 256) as byte, (n1 % 256) as byte, (n % 256) as byte]
  }

  /** `struct.unpack(">I", h)[0]`. */
  function UnBE32(h: seq<byte>): (r: nat)
    requires |h| == 4
    ensures r < Limit
  {
    ((h[0] as int * 256 + h[1] as int) * 256 + h[2] as int) * 256 + h[3] as int
  }

  lemma UnpackPack(n: nat)
    requires n < Limit
    ensures UnBE32(BE32(n)) == n
  {
    var n1 := n / 256;
    var n2 := n1 / 256;
    assert n == n1 * 256 + n % 256;
    assert n1 == n2 * 256 + n1 % 256;
    assert n2 == (n2 / 256) * 256 + n2 % 256;
  }

  lemma PackUnpack(h: seq<byte>)
    requires |h| == 4
    ensures BE32(UnBE32(h)) == h
  {
    var n2 := h[0] as int * 256 + h[1] as int;
    var n1 := n2 * 256 + h[2] as int;
    var n := n1 * 256 + h[3] as int;
    assert n / 256 == n1 && n % 256 == h[3] as int;
    assert n1 / 256 == n2 && n1 % 256 == h[2] as int;
    assert n2 / 256 == h[0] as int && n2 % 256 == h[1] as int;
  }

  /** `struct.pack(">I", n)`, which refuses a length of 2**32 or more. */
  function Pack(n: nat): (r: Result<seq<byte>>)
    ensures r.Ok? <==> n < Limit
    ensures r.Raise? ==> r.exc == StructError
    ensures r.Ok? ==> |r.value| == 4 && UnBE32(r.value) == n
  {
    if n < Limit then UnpackPack(n); Ok(BE32(n)) else Raise(StructError)
  }

  /** The bytes `__send` puts on the socket for `msg`. */
  function Frame(c: Codec, msg: Json): (r: Result<seq<byte>>)
    ensures r.Ok? <==> |c.encode(msg)| < Limit
    ensures r.Raise? ==> r.exc == StructError
    ensures r.Ok? ==> |r.value| == 4 + |c.encode(msg)| && r.value[4..] == c.encode(msg) && UnBE32(r.value[..4]) == |c.encode(msg)|
  {
    var body := c.encode(msg);
    match Pack(|body|)
    case Raise(e) => Raise(e)
    case Ok(header) =>
      assert (header + body)[..4] == header;
      Ok(header + body)
  }

  // ---------------------------------------------------------------------
  // Reading exactly n bytes

  datatype Event = Data(bytes: seq<byte>) | Empty | Timeout

  /** The outcome of `__receive_length`: the bytes read (None for `b""`
      returned on failure), and the events not yet consumed. */
  datatype Taken = Taken(data: Option<seq<byte>>, rest: seq<Event>)

  /** The bytes Python sees: `b""` on failure. */
  function Bytes(d: Option<seq<byte>>): seq<byte>
  {
    if d.None? then [] else d.value
  }

  /** What follows a chunk once its first n bytes are taken. */
  function Leftover(bs: seq<byte>, n: nat): seq<Event>
    requires n <= |bs|
  {
    if n < |bs| then [Data(bs[n..])] else []
  }

  /** Bytes already read in front of a later read: a failure discards them. */
  function Combine(prefix: seq<byte>, t: Taken): Taken
  {
    Taken(if t.data.None? then None else Some(prefix + t.data.value), t.rest)
  }

  /** `__receive_length(want)`: chunks are gathered until `want` bytes are
      there; an empty read, a timeout, or no further event gives up and the
      bytes gathered so far are lost. A chunk longer than needed is split,
      and its remainder stays on the socket. */
  function Take(events: seq<Event>, want: nat): (r: Taken)
    ensures r.data.Some? ==> |r.data.value| == want
    decreases |events|
  {
    if want == 0 then Taken(Some([]), events)
    else if events == [] then Taken(None, [])
    else match events[0]
      case Data(bs) =>
        if bs == [] then Taken(None, events[1..])
        else if |bs| >= want then Taken(Some(bs[..want]), Leftover(bs, want) + events[1..])
        else Combine(bs, Take(events[1..], want - |bs|))
      case _ => Taken(None, events[1..])
  }

  /** A measure of what is left to read: every event counts one, and a
      chunk counts its bytes as well. */
  function Weight(events: seq<Event>): nat
  {
    if events == [] then 0
    else (if events[0].Data? then 1 + |events[0].bytes| else 1) + Weight(events[1..])
  }

  lemma {:induction false} WeightConcat(a: seq<Event>, b: seq<Event>)
    ensures Weight(a + b) == Weight(a) + Weight(b)
  {
    if a == [] {
      assert a + b == b;
    } else {
      assert (a + b)[0] == a[0] && (a + b)[1..] == a[1..] + b;
      WeightConcat(a[1..], b);
    }
  }

  /** A read never adds to what is left, and a read of at least one byte
      from a socket with events left consumes something. */
  lemma {:induction false} TakeShrinks(events: seq<Event>, want: nat)
    ensures Weight(Take(events, want).rest) <= Weight(events)
    ensures want > 0 && events != [] ==> Weight(Take(events, want).rest) < Weight(events)
    decreases |events|
  {
    if want > 0 && events != [] && events[0].Data? {
      var bs := events[0].bytes;
      if bs != [] && |bs| >= want {
        WeightConcat(Leftover(bs, want), events[1..]);
        if want < |bs| {
          var l := [Data(bs[want..])];
          assert l[1..] == [];
          assert Weight(l) == 1 + |bs| - want;
        }
      } else if bs != [] {
        TakeShrinks(events[1..], want - |bs|);
      }
    }
  }

  lemma CombineCombine(a: seq<byte>, b: seq<byte>, t: Taken)
    ensures Combine(a, Combine(b, t)) == Combine(a + b, t)
  {
    if t.data.Some? {
      assert a + (b + t.data.value) == (a + b) + t.data.value;
    }
  }

  /** The concatenation of some chunks. */
  function Flatten(cs: seq<seq<byte>>): (r: seq<byte>)
  {
    if cs == [] then [] else cs[0] + Flatten(cs[1..])
  }

  /** The events that deliver some chunks one after the other. */
  function Chunks(cs: seq<seq<byte>>): (r: seq<Event>)
    ensures |r| == |cs|
    ensures forall i | 0 <= i < |cs| :: r[i] == Data(cs[i])
  {
    seq(|cs|, i requires 0 <= i < |cs| => Data(cs[i]))
  }

  predicate NonEmptyChunks(cs: seq<seq<byte>>)
  {
    forall i | 0 <= i < |cs| :: cs[i] != []
  }

  /** Bytes that arrive in any number of non-empty chunks are read whole,
      and exactly the events after them are left. */
  lemma {:induction false} TakeChunks(cs: seq<seq<byte>>, more: seq<Event>)
    requires NonEmptyChunks(cs)
    ensures Take(Chunks(cs) + more, |Flatten(cs)|) == Taken(Some(Flatten(cs)), more)
  {
    if cs != [] {
      var events := Chunks(cs) + more;
      var bs := cs[0];
      assert events[0] == Data(bs);
      assert events[1..] == Chunks(cs[1..]) + more;
      assert NonEmptyChunks(cs[1..]);
      if |cs| == 1 {
        assert Flatten(cs) == bs by {
          assert Flatten(cs[1..]) == [];
          assert bs + [] == bs;
        }
        assert bs[..|bs|] == bs;
        assert Leftover(bs, |bs|) == [];
        assert Chunks(cs[1..]) + more == more;
      } else {
        TakeChunks(cs[1..], more);
        assert cs[1] != [];
        assert |Flatten(cs[1..])| >= |cs[1]|;
      }
    } else {
      assert Chunks(cs) + more == more;
    }
  }

  /** A timeout or a closed peer before all bytes arrive loses the bytes
      read so far. */
  lemma {:induction false} TakeCutShort(cs: seq<seq<byte>>, stop: Event, more: seq<Event>, want: nat)
    requires NonEmptyChunks(cs) && !stop.Data? && want > |Flatten(cs)|
    ensures Take(Chunks(cs) + [stop] + more, want) == Taken(None, more)
  {
    var events := Chunks(cs) + [stop] + more;
    if cs == [] {
      assert events == [stop] + more;
    } else {
      assert events[0] == Data(cs[0]);
      assert events[1..] == Chunks(cs[1..]) + [stop] + more;
      assert NonEmptyChunks(cs[1..]);
      TakeCutShort(cs[1..], stop, more, want - |cs[0]|);
    }
  }

  /** The whole frame in one chunk (or a longer one) is read as its header
      and then its body. */
  lemma TakeFromOneChunk(a: seq<byte>, b: seq<byte>, more: seq<Event>)
    requires a != []
    ensures Take([Data(a + b)] + more, |a|) ==
            Taken(Some(a), (if b == [] then [] else [Data(b)]) + more)
  {
    var events := [Data(a + b)] + more;
    assert events[0] == Data(a + b) && events[1..] == more;
    assert (a + b)[..|a|] == a;
    if b != [] {
      assert (a + b)[|a|..] == b;
    }
  }

  // ---------------------------------------------------------------------
  // Reading one chunk

  /** `recv(max)` on a socket without a timeout: a timeout event only
      marks time passing and is waited through; the next chunk is returned,
      at most `max` bytes of it with the remainder left on the socket, and
      None stands for `b''` once the peer has closed. */
  function RecvChunk(events: seq<Event>, max: nat): (r: Taken)
    requires max > 0
    ensures r.data.Some? ==> 0 < |r.data.value| <= max
    decreases |events|
  {
    if events == [] then Taken(None, [])
    else match events[0]
      case Timeout => RecvChunk(events[1..], max)
      case Empty => Taken(None, events[1..])
      case Data(bs) =>
        if bs == [] then Taken(None, events[1..])
        else if |bs| <= max then Taken(Some(bs), events[1..])
        else Taken(Some(bs[..max]), [Data(bs[max..])] + events[1..])
  }

  /** A chunk read consumes something whenever there is something left. */
  lemma {:induction false} RecvChunkShrinks(events: seq<Event>, max: nat)
    requires max > 0
    ensures events != [] ==> Weight(RecvChunk(events, max).rest) < Weight(events)
    ensures events == [] ==> RecvChunk(events, max) == Taken(None, [])
    decreases |events|
  {
    if events != [] && events[0].Timeout? && events[1..] != [] {
      RecvChunkShrinks(events[1..], max);
    } else if events != [] && events[0].Data? && |events[0].bytes| > max {
      var bs := events[0].bytes;
      var l := [Data(bs[max..])];
      WeightConcat(l, events[1..]);
      assert l[1..] == [];
    }
  }

  // ---------------------------------------------------------------------
  // The socket

  /** A connected socket: the events still to come, the bytes sent so far,
      and whether it has been shut down and closed. */
  class Channel {
    var incoming: seq<Event>
    var sent: seq<byte>
    var closed: bool

    constructor(incoming: seq<Event>)
      ensures this.incoming == incoming && sent == [] && !closed
    {
      this.incoming := incoming;
      sent := [];
      closed := false;
    }

    /** `__receive_length(length)`. */
    method ReceiveLength(length: nat) returns (data: seq<byte>)
      modifies this
      ensures data == Bytes(Take(old(incoming), length).data)
      ensures incoming == Take(old(incoming), length).rest
      ensures sent == old(sent) && closed == old(closed)
    {
      data := [];
      assert Combine([], Take(incoming, length)) == Take(incoming, length) by {
        if Take(incoming, length).data.Some? {
          assert [] + Take(incoming, length).data.value == Take(incoming, length).data.value;
        }
      }
      while |data| < length
        invariant |data| <= length
        invariant Take(old(incoming), length) == Combine(data, Take(incoming, length - |data|))
        invariant sent == old(sent) && closed == old(closed)
        decreases length - |data|
      {
        var want := length - |data|;
        if incoming == [] {
          return [];
        }
        var e := incoming[0];
        if !e.Data? || e.bytes == [] {
          incoming := incoming[1..];
          return [];
        }
        var bs := e.bytes;
        if |bs| >= want {
          assert Take(incoming, want) == Taken(Some(bs[..want]), Leftover(bs, want) + incoming[1..]);
          data := data + bs[..want];
          incoming := Leftover(bs, want) + incoming[1..];
          assert Take(incoming, 0) == Taken(Some([]), incoming);
          assert data + [] == data;
        } else {
          assert Take(incoming, want) == Combine(bs, Take(incoming[1..], want - |bs|));
          CombineCombine(data, bs, Take(incoming[1..], want - |bs|));
          data := data + bs;
          incoming := incoming[1..];
        }
      }
      assert Take(incoming, 0) == Taken(Some([]), incoming);
      assert data + [] == data;
    }

    /** `recv(max)`: waits through timeouts and returns the next chunk, or
        nothing once the peer has closed. */
    method Recv(max: nat) returns (bytes: seq<byte>)
      requires max > 0
      modifies this
      ensures bytes == Bytes(RecvChunk(old(incoming), max).data)
      ensures incoming == RecvChunk(old(incoming), max).rest
      ensures sent == old(sent) && closed == old(closed)
    {
      while incoming != [] && incoming[0].Timeout?
        invariant RecvChunk(old(incoming), max) == RecvChunk(incoming, max)
        invariant sent == old(sent) && closed == old(closed)
        decreases |incoming|
      {
        incoming := incoming[1..];
      }
      if incoming == [] {
        return [];
      }
      var e := incoming[0];
      if !e.Data? || e.bytes == [] {
        incoming := incoming[1..];
        return [];
      }
      if |e.bytes| <= max {
        bytes := e.bytes;
        incoming := incoming[1..];
      } else {
        bytes := e.bytes[..max];
        incoming := [Data(e.bytes[max..])] + incoming[1..];
      }
    }

    /** `socket.send(bytes)`: the bytes are appended to what was sent. */
    method Send(bytes: seq<byte>)
      modifies this
      ensures sent == old(sent) + bytes
      ensures incoming == old(incoming) && closed == old(closed)
    {
      sent := sent + bytes;
    }

    /** `shutdown(SHUT_RDWR)` then `close()`; a shutdown after the peer has
        gone raises OSError, which is ignored. */
    method Close()
      modifies this
      ensures closed
      ensures incoming == old(incoming) && sent == old(sent)
    {
      closed := true;
    }
  }
}
