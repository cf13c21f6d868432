/** client.py: the client side of the protocol. It frames its requests like
    the server, reads replies with the same exact-length reads, and turns
    the server's error replies into exceptions. Opening the socket is not
    modelled: a client starts from a connected channel. */
module Client {
  import opened Values
  import opened Framing
  import opened RequestHandler

  const ConnectionClosed := "Connection to server closed!"
  const SpreadsheetNotFound := "The requested spreadsheet was not found."
  const NoSheetNames := "Could not retrieve sheet names."

  // ---------------------------------------------------------------------
  // Receiving a reply

  /** The client's `__receive`: like the server's, except that an empty
      body raises instead of reading as False. */
  function ClientReceive(c: Codec, events: seq<Event>): (r: Received)
  {
    var header := Take(events, 4);
    if header.data.None? then Received(Ok(JBool(false)), header.rest)
    else
      var body := Take(header.rest, UnBE32(header.data.value));
      if body.data.None? || body.data.value == [] then Received(Raise(ClientError(ConnectionClosed)), body.rest)
      else Received(c.decode(body.data.value), body.rest)
  }

  /** Both ends consume the same bytes for one message, and they agree on
      its value except where the body is missing, which the server reads
      as False and the client reports as a closed connection. */
  lemma ReceiversAgree(c: Codec, events: seq<Event>)
    requires ValidCodec(c)
    ensures ClientReceive(c, events).rest == ServerReceive(c, events).rest
    ensures ClientReceive(c, events).value.Ok? ==> ClientReceive(c, events).value == ServerReceive(c, events).value
    ensures ClientReceive(c, events).value.Raise? && ClientReceive(c, events).value.exc == ClientError(ConnectionClosed) ==>
              ServerReceive(c, events).value == Ok(JBool(false))
  {
  }

  /** A reply the server frames is read back whole by the client. */
  lemma ClientReceivesFrame(c: Codec, v: Json, more: seq<Event>)
    requires ValidCodec(c) && Frame(c, v).Ok?
    ensures ClientReceive(c, [Data(Frame(c, v).value)] + more) == Received(Ok(v), more)
  {
    ReceiveFrame(c, v, more);
    ReceiversAgree(c, [Data(Frame(c, v).value)] + more);
  }

  /** A frame announcing zero bytes makes the client raise. */
  lemma ClientZeroLengthFrameRaises(c: Codec, more: seq<Event>)
    ensures ClientReceive(c, [Data([0, 0, 0, 0])] + more).value == Raise(ClientError(ConnectionClosed))
  {
    var zero: seq<byte> := [0, 0, 0, 0];
    var events := [Data(zero)] + more;
    assert events[0] == Data(zero) && events[1..] == more;
    assert zero[..4] == zero;
  }

  // ---------------------------------------------------------------------
  // What the client makes of a reply

  /** `__set_spreadsheet`: anything other than "OK" is a refusal. */
  function HandshakeReply(got: Result<Json>): (r: Result<()>)
    ensures got.Ok? ==> (r.Ok? <==> got.value == OkReply)
    ensures got.Ok? && r.Raise? ==> r.exc == RuntimeError(JStr(SpreadsheetNotFound))
    ensures got.Raise? ==> r == Raise(got.exc)
  {
    match got
    case Raise(e) => Raise(e)
    case Ok(v) => if v == NotFoundReply || v != OkReply then Raise(RuntimeError(JStr(SpreadsheetNotFound))) else Ok(())
  }

  /** The dict check of `set_cells` and `get_cells`: a dict is an error
      reply, raised with its "ERROR" entry (KeyError without one); any other
      value is the answer. */
  function CheckReply(got: Result<Json>): (r: Result<Json>)
    ensures got.Ok? && !got.value.JObj? ==> r == got
    ensures r.Ok? ==> r == got
  {
    match got
    case Raise(e) => Raise(e)
    case Ok(v) =>
      if v.JObj? then
        if "ERROR" in v.fields then Raise(RuntimeError(v.fields["ERROR"])) else Raise(KeyError)
      else Ok(v)
  }

  /** `get_sheet_names`: the string "ERROR" is a failure. */
  function NamesReply(got: Result<Json>): (r: Result<Json>)
    ensures got == Ok(JStr("ERROR")) ==> r == Raise(ClientError(NoSheetNames))
    ensures got != Ok(JStr("ERROR")) ==> r == got
  {
    if got == Ok(JStr("ERROR")) then Raise(ClientError(NoSheetNames)) else got
  }

  /** The server's error reply reaches the caller as a RuntimeError that
      carries the server's message. */
  lemma ErrorReplyRaises(c: Codec, msg: string, more: seq<Event>)
    requires ValidCodec(c) && Frame(c, ErrorReply(msg)).Ok?
    ensures CheckReply(ClientReceive(c, [Data(Frame(c, ErrorReply(msg)).value)] + more).value)
            == Raise(RuntimeError(JStr(msg)))
  {
    ClientReceivesFrame(c, ErrorReply(msg), more);
  }

  /** The server's "OK" completes the client's handshake, and its
      "NOT FOUND" makes the client raise. */
  lemma HandshakeRepliesUnderstood(c: Codec, more: seq<Event>)
    requires ValidCodec(c) && Frame(c, OkReply).Ok? && Frame(c, NotFoundReply).Ok?
    ensures HandshakeReply(ClientReceive(c, [Data(Frame(c, OkReply).value)] + more).value) == Ok(())
    ensures HandshakeReply(ClientReceive(c, [Data(Frame(c, NotFoundReply).value)] + more).value)
            == Raise(RuntimeError(JStr(SpreadsheetNotFound)))
  {
    ClientReceivesFrame(c, OkReply, more);
    ClientReceivesFrame(c, NotFoundReply, more);
  }

  // ---------------------------------------------------------------------
  // The client object

  class SpreadsheetClient {
    const channel: Channel
    const codec: Codec

    constructor(channel: Channel, codec: Codec)
      ensures this.channel == channel && this.codec == codec
    {
      this.channel := channel;
      this.codec := codec;
    }

    /** `__send`: the length is packed before anything is sent, so a
        message of 2**32 bytes or more raises and sends nothing. */
    method Send(msg: Json) returns (r: Result<()>)
      modifies channel
      ensures Frame(codec, msg).Ok? ==> r == Ok(()) && channel.sent == old(channel.sent) + Frame(codec, msg).value
      ensures Frame(codec, msg).Raise? ==> r == Raise(StructError) && channel.sent == old(channel.sent)
      ensures channel.incoming == old(channel.incoming) && channel.closed == old(channel.closed)
    {
      var frame := Frame(codec, msg);
      if frame.Raise? {
        return Raise(frame.exc);
      }
      channel.Send(frame.value);
      r := Ok(());
    }

    /** `__receive`. */
    method Receive() returns (r: Result<Json>)
      modifies channel
      ensures r == ClientReceive(codec, old(channel.incoming)).value
      ensures channel.incoming == ClientReceive(codec, old(channel.incoming)).rest
      ensures channel.sent == old(channel.sent) && channel.closed == old(channel.closed)
    {
      var header := channel.ReceiveLength(4);
      if header == [] {
        return Ok(JBool(false));
      }
      var body := channel.ReceiveLength(UnBE32(header));
      if body == [] {
        return Raise(ClientError(ConnectionClosed));
      }
      r := codec.decode(body);
    }

    /** A request and its reply: the request's frame is sent, then one
        message is read, unless the request could not be framed. */
    method Request(msg: Json) returns (r: Result<Json>)
      modifies channel
      ensures Frame(codec, msg).Raise? ==>
                r == Raise(StructError) && channel.sent == old(channel.sent) && channel.incoming == old(channel.incoming)
      ensures Frame(codec, msg).Ok? ==>
                channel.sent == old(channel.sent) + Frame(codec, msg).value &&
                r == ClientReceive(codec, old(channel.incoming)).value &&
                channel.incoming == ClientReceive(codec, old(channel.incoming)).rest
      ensures channel.closed == old(channel.closed)
    {
      var sent := Send(msg);
      if sent.Raise? {
        return Raise(sent.exc);
      }
      r := Receive();
    }

    /** `disconnect`. */
    method Disconnect()
      modifies channel
      ensures channel.closed
      ensures channel.incoming == old(channel.incoming) && channel.sent == old(channel.sent)
    {
      channel.Close();
    }

    /** `__set_spreadsheet`: a refusal disconnects before raising. */
    method SetSpreadsheet(spreadsheet: Json) returns (r: Result<()>)
      modifies channel
      ensures var msg := JArr([JStr(Greeting), spreadsheet]);
              (Frame(codec, msg).Raise? ==> r == Raise(StructError)) &&
              (Frame(codec, msg).Ok? ==>
                 channel.sent == old(channel.sent) + Frame(codec, msg).value &&
                 channel.incoming == ClientReceive(codec, old(channel.incoming)).rest &&
                 r == HandshakeReply(ClientReceive(codec, old(channel.incoming)).value) &&
                 (channel.closed <==> old(channel.closed) || (ClientReceive(codec, old(channel.incoming)).value.Ok? && r.Raise?)))
    {
      var received := Request(JArr([JStr(Greeting), spreadsheet]));
      if received.Raise? {
        return Raise(received.exc);
      }
      r := HandshakeReply(received);
      if r.Raise? {
        Disconnect();
      }
    }

    /** `set_cells`. */
    method SetCells(sheet: Json, cellRef: Json, data: Json) returns (r: Result<()>)
      modifies channel
      ensures var msg := JArr([JStr("SET"), sheet, cellRef, data]);
              (Frame(codec, msg).Raise? ==> r == Raise(StructError)) &&
              (Frame(codec, msg).Ok? ==>
                 channel.sent == old(channel.sent) + Frame(codec, msg).value &&
                 channel.incoming == ClientReceive(codec, old(channel.incoming)).rest &&
                 var checked := CheckReply(ClientReceive(codec, old(channel.incoming)).value);
                 r == (if checked.Ok? then Ok(()) else Raise(checked.exc)))
      ensures channel.closed == old(channel.closed)
    {
      var received := Request(JArr([JStr("SET"), sheet, cellRef, data]));
      var checked := CheckReply(received);
      r := if checked.Ok? then Ok(()) else Raise(checked.exc);
    }

    /** `get_sheet_names`. */
    method GetSheetNames() returns (r: Result<Json>)
      modifies channel
      ensures var msg := JArr([JStr("GET_SHEETS")]);
              (Frame(codec, msg).Raise? ==> r == Raise(StructError)) &&
              (Frame(codec, msg).Ok? ==>
                 channel.sent == old(channel.sent) + Frame(codec, msg).value &&
                 channel.incoming == ClientReceive(codec, old(channel.incoming)).rest &&
                 r == NamesReply(ClientReceive(codec, old(channel.incoming)).value))
      ensures channel.closed == old(channel.closed)
    {
      var received := Request(JArr([JStr("GET_SHEETS")]));
      r := NamesReply(received);
    }

    /** `get_cells`. */
    method GetCells(sheet: Json, cellRef: Json) returns (r: Result<Json>)
      modifies channel
      ensures var msg := JArr([JStr("GET"), sheet, cellRef]);
              (Frame(codec, msg).Raise? ==> r == Raise(StructError)) &&
              (Frame(codec, msg).Ok? ==>
                 channel.sent == old(channel.sent) + Frame(codec, msg).value &&
                 channel.incoming == ClientReceive(codec, old(channel.incoming)).rest &&
                 r == CheckReply(ClientReceive(codec, old(channel.incoming)).value))
      ensures channel.closed == old(channel.closed)
    {
      var received := Request(JArr([JStr("GET"), sheet, cellRef]));
      r := CheckReply(received);
    }

    /** `save_spreadsheet`: the reply is returned as it is. */
    method SaveSpreadsheet(filename: Json) returns (r: Result<Json>)
      modifies channel
      ensures var msg := JArr([JStr("SAVE"), filename]);
              (Frame(codec, msg).Raise? ==> r == Raise(StructError)) &&
              (Frame(codec, msg).Ok? ==>
                 channel.sent == old(channel.sent) + Frame(codec, msg).value &&
                 channel.incoming == ClientReceive(codec, old(channel.incoming)).rest &&
                 r == ClientReceive(codec, old(channel.incoming)).value)
      ensures channel.closed == old(channel.closed)
    {
      r := Request(JArr([JStr("SAVE"), filename]));
    }
  }
}
