/** request_handler.py: one thread per client. The first message binds the
    client to a spreadsheet by name and locks it; every later message is a
    command (SET, GET, GET_SHEETS, SAVE) answered with one reply; when the
    client goes away the lock is released and the socket closed. Messages
    travel in the length-prefixed frames of the Framing module. */
module RequestHandler {
  import opened Values
  import opened Engine
  import opened Framing
  import opened ServerState
  import opened Connection

  const Greeting := "SPREADSHEET"
  const NotFoundReply := JStr("NOT FOUND")
  const OkReply := JStr("OK")

  // ---------------------------------------------------------------------
  // Receiving a message

  /** What `__receive` returns, and the events left on the socket. */
  datatype Received = Received(value: Result<Json>, rest: seq<Event>)

  /** `__receive`: a 4-byte header, then that many bytes of JSON. A missing
      header or an empty body reads as False; bytes that are not JSON raise
      the decoder's error. */
  function ServerReceive(c: Codec, events: seq<Event>): (r: Received)
  {
    var header := Take(events, 4);
    if header.data.None? then Received(Ok(JBool(false)), header.rest)
    else
      var body := Take(header.rest, UnBE32(header.data.value));
      if body.data.None? || body.data.value == [] then Received(Ok(JBool(false)), body.rest)
      else Received(c.decode(body.data.value), body.rest)
  }

  /** A receive on a socket with nothing left reads False, and any other
      receive consumes something; this is what ends the main loop. */
  lemma ReceiveShrinks(c: Codec, events: seq<Event>)
    ensures events == [] ==> ServerReceive(c, events) == Received(Ok(JBool(false)), [])
    ensures Weight(ServerReceive(c, events).rest) <= Weight(events)
    ensures events != [] ==> Weight(ServerReceive(c, events).rest) < Weight(events)
  {
    var header := Take(events, 4);
    TakeShrinks(events, 4);
    if header.data.Some? {
      TakeShrinks(header.rest, UnBE32(header.data.value));
    }
  }

  /** A frame sent in one chunk is received as the value it carries, and
      the events after it are left for the next receive. */
  lemma ReceiveFrame(c: Codec, v: Json, more: seq<Event>)
    requires ValidCodec(c) && Frame(c, v).Ok?
    ensures ServerReceive(c, [Data(Frame(c, v).value)] + more) == Received(Ok(v), more)
  {
    var frame := Frame(c, v).value;
    var header, body := frame[..4], frame[4..];
    assert frame == header + body;
    TakeFromOneChunk(header, body, more);
    var rest := [Data(body)] + more;
    assert body + [] == body;
    TakeFromOneChunk(body, [], rest[1..]);
    assert rest[1..] == more;
  }

  /** The header and the body may arrive in two chunks. */
  lemma ReceiveFrameInTwoChunks(c: Codec, v: Json, more: seq<Event>)
    requires ValidCodec(c) && Frame(c, v).Ok?
    ensures ServerReceive(c, [Data(Frame(c, v).value[..4]), Data(Frame(c, v).value[4..])] + more)
            == Received(Ok(v), more)
  {
    var frame := Frame(c, v).value;
    var header, body := frame[..4], frame[4..];
    var events := [Data(header), Data(body)] + more;
    assert Chunks([header]) == [Data(header)];
    assert Flatten([header]) == header by { assert Flatten([header][1..]) == []; assert header + [] == header; }
    assert Chunks([header]) + ([Data(body)] + more) == events;
    TakeChunks([header], [Data(body)] + more);
    assert Chunks([body]) == [Data(body)];
    assert Flatten([body]) == body by { assert Flatten([body][1..]) == []; assert body + [] == body; }
    TakeChunks([body], more);
  }

  /** A frame announcing zero bytes reads as False, like a closed socket. */
  lemma ZeroLengthFrameReadsFalse(c: Codec, more: seq<Event>)
    ensures ServerReceive(c, [Data([0, 0, 0, 0])] + more).value == Ok(JBool(false))
  {
    var zero: seq<byte> := [0, 0, 0, 0];
    var events := [Data(zero)] + more;
    assert events[0] == Data(zero) && events[1..] == more;
    assert zero[..4] == zero;
  }

  /** A timeout before the header arrives reads as False. */
  lemma TimeoutReadsFalse(c: Codec, more: seq<Event>)
    ensures ServerReceive(c, [Timeout] + more) == Received(Ok(JBool(false)), more)
  {
    var events := [Timeout] + more;
    assert events[0] == Timeout && events[1..] == more;
  }

  // ---------------------------------------------------------------------
  // The handshake

  /** The first message must be `["SPREADSHEET", name]`. */
  predicate IsGreeting(data: Json)
  {
    data.JArr? && |data.items| == 2 && data.items[0] == JStr(Greeting)
  }

  /** `spreadsheets[name]` then `locks[name]`: a string key is looked up,
      another scalar is never a key, and a list or an object cannot be
      hashed. */
  function Lookup(spreadsheets: map<string, Document>, locks: map<string, Lock>, key: Json): (r: Result<(Document, Lock)>)
    ensures r.Ok? <==> key.JStr? && key.s in spreadsheets && key.s in locks
    ensures r.Ok? ==> r.value == (spreadsheets[key.s], locks[key.s])
    ensures r.Raise? ==> r.exc == (if key.JArr? || key.JObj? then TypeError else KeyError)
  {
    match key
    case JStr(name) =>
      if name in spreadsheets && name in locks then Ok((spreadsheets[name], locks[name])) else Raise(KeyError)
    case JArr(_) => Raise(TypeError)
    case JObj(_) => Raise(TypeError)
    case _ => Raise(KeyError)
  }

  /** What the handshake makes of the first message: the document and lock
      to bind, None for a name that is not there, or the exception that ends
      the handler. A message that is not a greeting reaches
      `protocol_error`, whose first statement reads the missing attribute
      `self.logging`, so the AttributeError escapes before anything is sent. */
  function Admission(spreadsheets: map<string, Document>, locks: map<string, Lock>, first: Result<Json>): (r: Result<Option<(Document, Lock)>>)
    ensures first.Raise? ==> r == Raise(first.exc)
    ensures first.Ok? && !IsGreeting(first.value) ==> r == Raise(AttributeError)
    ensures first.Ok? && IsGreeting(first.value) ==>
              var key := first.value.items[1];
              (key.JStr? && key.s in spreadsheets && key.s in locks ==> r == Ok(Some((spreadsheets[key.s], locks[key.s])))) &&
              (key.JArr? || key.JObj? ==> r == Raise(TypeError)) &&
              (!key.JArr? && !key.JObj? && !(key.JStr? && key.s in spreadsheets && key.s in locks) ==> r == Ok(None))
    ensures r.Ok? && r.value.Some? ==>
              (first.Ok? && IsGreeting(first.value) && first.value.items[1].JStr? &&
               first.value.items[1].s in spreadsheets && first.value.items[1].s in locks)
    ensures r.Ok? && r.value.None? ==>
              (first.Ok? && IsGreeting(first.value) &&
               !(first.value.items[1].JStr? && first.value.items[1].s in spreadsheets && first.value.items[1].s in locks))
  {
    match first
    case Raise(e) => Raise(e)
    case Ok(data) =>
      if !IsGreeting(data) then Raise(AttributeError)
      else
        match Lookup(spreadsheets, locks, data.items[1])
        case Ok(p) => Ok(Some(p))
        case Raise(e) => if e == KeyError then Ok(None) else Raise(e)
  }

  // ---------------------------------------------------------------------
  // The commands

  /** The sheet names as a JSON list. */
  function NamesJson(names: seq<string>): (r: Json)
    ensures r.JArr? && |r.items| == |names|
    ensures forall i | 0 <= i < |names| :: r.items[i] == JStr(names[i])
  {
    JArr(seq(|names|, i requires 0 <= i < |names| => JStr(names[i])))
  }

  /** The reply to a command, if any, and the document's sheets and saves
      after it. */
  datatype Outcome = Outcome(reply: Option<Json>, sheets: seq<Sheet>, saved: seq<string>)

  /** The error reply for the exceptions SET and GET catch (ValueError and
      the engine's RuntimeException); None for any other. */
  function Caught(e: Exc): Option<Json>
  {
    match e
    case ValueError(m) => Some(ErrorReply(m))
    case EngineError(m) => Some(ErrorReply(m))
    case _ => None
  }

  /** One pass of the main loop's body for a message that is not False:
      `data[0]` selects the command, and an exception the loop does not
      catch ends the handler. */
  function Dispatch(sheets: seq<Sheet>, saved: seq<string>, held: bool, data: Json): (r: Result<Outcome>)
    ensures r.Ok? && r.value.reply.None? ==> r.value.sheets == sheets && r.value.saved == saved
    ensures r.Ok? && r.value.sheets != sheets ==> r.value.reply == Some(OkReply)
    ensures (data.JArr? && data.items != [] &&
             data.items[0] !in [JStr("SET"), JStr("GET"), JStr("GET_SHEETS"), JStr("SAVE")]) ==>
              r == Ok(Outcome(None, sheets, saved))
  {
    match data
    case JArr(items) =>
      if items == [] then Raise(IndexError)
      else if items[0] == JStr("SET") then
        if |items| < 4 then Raise(IndexError)
        else if !items[2].JStr? then Raise(AttributeError)
        else
          match SetCellsOn(sheets, held, items[1], items[2].s, items[3])
          case Ok(after) => Ok(Outcome(Some(OkReply), after, saved))
          case Raise(e) =>
            if Caught(e).Some? then Ok(Outcome(Caught(e), sheets, saved)) else Raise(e)
      else if items[0] == JStr("GET") then
        if |items| < 3 then Raise(IndexError)
        else if !items[2].JStr? then Raise(AttributeError)
        else
          match GetCells(sheets, items[1], items[2].s)
          case Ok(cells) => Ok(Outcome(Some(cells), sheets, saved))
          case Raise(e) =>
            if Caught(e).Some? then Ok(Outcome(Caught(e), sheets, saved)) else Raise(e)
      else if items[0] == JStr("GET_SHEETS") then
        Ok(Outcome(Some(NamesJson(SheetNames(sheets))), sheets, saved))
      else if items[0] == JStr("SAVE") then
        if |items| < 2 then Raise(IndexError)
        else if !held then Ok(Outcome(Some(OkReply), sheets, saved))
        else if !items[1].JStr? then Raise(TypeError)
        else Ok(Outcome(Some(OkReply), sheets, saved + [SaveDirectory + items[1].s]))
      else Ok(Outcome(None, sheets, saved))
    case JStr(s) =>
      // a one-character string is none of the commands
      if s == [] then Raise(IndexError) else Ok(Outcome(None, sheets, saved))
    case JObj(_) => Raise(KeyError)
    case _ => Raise(TypeError)
  }

  /** SET writes what `set_cells` writes and answers "OK"; a ValueError or
      an engine error is answered with `{"ERROR": msg}` and leaves the
      document alone; any other exception ends the handler. */
  lemma SetReplies(sheets: seq<Sheet>, saved: seq<string>, held: bool, sheet: Json, cellRef: string, data: Json)
    ensures var r := Dispatch(sheets, saved, held, JArr([JStr("SET"), sheet, JStr(cellRef), data]));
            var e := SetCellsOn(sheets, held, sheet, cellRef, data);
            (e.Ok? ==> r == Ok(Outcome(Some(OkReply), e.value, saved))) &&
            (e.Raise? && (e.exc.ValueError? || e.exc.EngineError?) ==>
               r == Ok(Outcome(Some(ErrorReply(e.exc.msg)), sheets, saved))) &&
            (e.Raise? && !(e.exc.ValueError? || e.exc.EngineError?) ==> r == Raise(e.exc))
  {
    var items := [JStr("SET"), sheet, JStr(cellRef), data];
    assert items[0] == JStr("SET") && items[2] == JStr(cellRef);
  }

  /** GET answers with what `get_cells` reads, or with `{"ERROR": msg}`
      for a ValueError or an engine error, and changes nothing. */
  lemma GetReplies(sheets: seq<Sheet>, saved: seq<string>, held: bool, sheet: Json, cellRef: string)
    ensures var r := Dispatch(sheets, saved, held, JArr([JStr("GET"), sheet, JStr(cellRef)]));
            var g := GetCells(sheets, sheet, cellRef);
            (g.Ok? ==> r == Ok(Outcome(Some(g.value), sheets, saved))) &&
            (g.Raise? && (g.exc.ValueError? || g.exc.EngineError?) ==>
               r == Ok(Outcome(Some(ErrorReply(g.exc.msg)), sheets, saved))) &&
            (g.Raise? && !(g.exc.ValueError? || g.exc.EngineError?) ==> r == Raise(g.exc))
  {
    var items := [JStr("GET"), sheet, JStr(cellRef)];
    assert items[0] == JStr("GET") && items[2] == JStr(cellRef);
  }

  // ---------------------------------------------------------------------
  // The session

  /** What the main loop can change: the document's sheets and saves, the
      bytes sent and the events still to come. */
  datatype Session = Session(sheets: seq<Sheet>, saved: seq<string>, sent: seq<byte>, incoming: seq<Event>)

  /** How a handler ends: the client went away and the connection was
      closed, the name was not found, the spreadsheet was locked by another
      client (the thread would wait for it), or an exception escaped. */
  datatype Ending = Closed | NotFound | Blocked | Crashed(exc: Exc)

  datatype Finished = Finished(ending: Ending, session: Session)

  /** `__main_loop` from a session state: receive, stop on a value equal to
      False, answer the command, and go on. */
  function Serve(c: Codec, held: bool, s: Session): (r: Finished)
    ensures r.ending.Closed? || r.ending.Crashed?
    decreases Weight(s.incoming)
  {
    var got := ServerReceive(c, s.incoming);
    ReceiveShrinks(c, s.incoming);
    var s1 := s.(incoming := got.rest);
    match got.value
    case Raise(e) => Finished(Crashed(e), s1)
    case Ok(data) =>
      if EqualsFalse(data) then Finished(Closed, s1)
      else
        match Dispatch(s.sheets, s.saved, held, data)
        case Raise(e) => Finished(Crashed(e), s1)
        case Ok(o) =>
          var s2 := s1.(sheets := o.sheets, saved := o.saved);
          if o.reply.None? then Serve(c, held, s2)
          else
            match Frame(c, o.reply.value)
            case Raise(e) => Finished(Crashed(e), s2)
            case Ok(bytes) => Serve(c, held, s2.(sent := s1.sent + bytes))
  }

  /** A message decoding to false or to zero ends the session like a
      closed socket: nothing after it is read and nothing is answered. */
  lemma FalseEndsSession(c: Codec, held: bool, s: Session, v: Json, more: seq<Event>)
    requires ValidCodec(c) && Frame(c, v).Ok? && EqualsFalse(v)
    ensures Serve(c, held, s.(incoming := [Data(Frame(c, v).value)] + more)) == Finished(Closed, s.(incoming := more))
  {
    ReceiveFrame(c, v, more);
  }

  /** A command the loop does not know is read and left unanswered, and the
      loop goes on with the next message. */
  lemma UnknownCommandIgnored(c: Codec, held: bool, s: Session, command: string, args: seq<Json>, more: seq<Event>)
    requires command !in ["SET", "GET", "GET_SHEETS", "SAVE"]
    requires ValidCodec(c) && Frame(c, JArr([JStr(command)] + args)).Ok?
    ensures Serve(c, held, s.(incoming := [Data(Frame(c, JArr([JStr(command)] + args)).value)] + more))
            == Serve(c, held, s.(incoming := more))
  {
    var msg := JArr([JStr(command)] + args);
    ReceiveFrame(c, msg, more);
    assert msg.items[0] == JStr(command);
    assert JStr(command) !in [JStr("SET"), JStr("GET"), JStr("GET_SHEETS"), JStr("SAVE")];
    assert Dispatch(s.sheets, s.saved, held, msg) == Ok(Outcome(None, s.sheets, s.saved));
  }

  /** A command answered in one frame: the document changes as the
      command says, the reply's frame is sent, and the loop goes on with the
      next message. */
  lemma AnsweredCommandStep(c: Codec, held: bool, s: Session, v: Json, more: seq<Event>)
    requires ValidCodec(c) && Frame(c, v).Ok? && !EqualsFalse(v)
    requires Dispatch(s.sheets, s.saved, held, v).Ok?
    requires Dispatch(s.sheets, s.saved, held, v).value.reply.Some?
    requires Frame(c, Dispatch(s.sheets, s.saved, held, v).value.reply.value).Ok?
    ensures var o := Dispatch(s.sheets, s.saved, held, v).value;
            Serve(c, held, s.(incoming := [Data(Frame(c, v).value)] + more)) ==
            Serve(c, held, Session(o.sheets, o.saved, s.sent + Frame(c, o.reply.value).value, more))
  {
    ReceiveFrame(c, v, more);
  }

  // ---------------------------------------------------------------------
  // The handler object

  /** The parts of the session that live in a document and a socket. */
  ghost function SessionOf(doc: Document, channel: Channel): Session
    reads doc, channel
  {
    Session(doc.sheets, doc.savedTo, channel.sent, channel.incoming)
  }

  class Handler {
    const channel: Channel
    const server: Server
    const codec: Codec
    /** `self.con`, which exists only once the handshake found the name. */
    var con: Option<SpreadsheetConnection>

    constructor(channel: Channel, server: Server, codec: Codec)
      ensures this.channel == channel && this.server == server && this.codec == codec
      ensures con.None?
    {
      this.channel := channel;
      this.server := server;
      this.codec := codec;
      con := None;
    }

    /** The lock `__close_connection` may release. */
    function Bound(): set<object>
      reads this
    {
      if con.Some? then {con.value.lock} else {}
    }

    /** `__send`: a failure to pack the length raises before anything is
        sent. */
    method Send(msg: Json) returns (r: Result<()>)
      modifies channel
      ensures Frame(codec, msg).Ok? ==> r == Ok(()) && channel.sent == old(channel.sent) + Frame(codec, msg).value
      ensures Frame(codec, msg).Raise? ==> r == Raise(StructError) && channel.sent == old(channel.sent)
      ensures channel.incoming == old(channel.incoming) && channel.closed == old(channel.closed)
    {
      var frame := Frame(codec, msg);
      if frame.Raise? {
        return Raise(frame.exc);
      }
      channel.Send(frame.value);
      r := Ok(());
    }

    /** `__receive`. */
    method Receive() returns (r: Result<Json>)
      modifies channel
      ensures r == ServerReceive(codec, old(channel.incoming)).value
      ensures channel.incoming == ServerReceive(codec, old(channel.incoming)).rest
      ensures channel.sent == old(channel.sent) && channel.closed == old(channel.closed)
    {
      var header := channel.ReceiveLength(4);
      if header == [] {
        return Ok(JBool(false));
      }
      var body := channel.ReceiveLength(UnBE32(header));
      if body == [] {
        return Ok(JBool(false));
      }
      r := codec.decode(body);
    }

    /** `__close_connection`: `self.con.lock.locked` is a method that is
        never called, so the test is always true and the lock is released
        whenever a connection exists; without one the AttributeError is
        caught. The socket is closed either way. */
    method CloseConnection()
      modifies channel, Bound()
      ensures con.Some? ==> !con.value.lock.held
      ensures channel.closed
      ensures channel.incoming == old(channel.incoming) && channel.sent == old(channel.sent)
    {
      if con.Some? {
        var _ := con.value.UnlockSpreadsheet();
      }
      channel.Close();
    }

    /** `__make_connection`: `ending` is None when the client is bound to
        its spreadsheet and holds its lock, and otherwise says how the
        handler ends; `attempts` counts the failed lookups. The maps do not
        change while the handler sleeps between attempts, so a name is found
        at once or never. */
    method MakeConnection() returns (ending: Option<Ending>, attempts: nat)
      requires server.Valid() && con.None?
      modifies this, channel, server.Locks
      ensures var got := ServerReceive(codec, old(channel.incoming));
              var a := Admission(server.spreadsheets, server.locks, got.value);
              channel.incoming == got.rest &&
              (a.Raise? ==> ending == Some(Crashed(a.exc)) && con.None? &&
                            channel.sent == old(channel.sent) && channel.closed == old(channel.closed)) &&
              (a == Ok(None) ==> con.None? && attempts == server.monitorFrequency + 1 &&
                                 (Frame(codec, NotFoundReply).Ok? ==>
                                    ending == Some(NotFound) && channel.closed &&
                                    channel.sent == old(channel.sent) + Frame(codec, NotFoundReply).value) &&
                                 (Frame(codec, NotFoundReply).Raise? ==> ending == Some(Crashed(StructError)))) &&
              (a.Ok? && a.value.Some? ==>
                 attempts == 0 && con.Some? &&
                 con.value.spreadsheet == a.value.value.0 && con.value.lock == a.value.value.1 &&
                 (Frame(codec, OkReply).Ok? ==>
                    channel.sent == old(channel.sent) + Frame(codec, OkReply).value &&
                    con.value.lock.held &&
                    ending == (if old(a.value.value.1.held) then Some(Blocked) else None)) &&
                 (Frame(codec, OkReply).Raise? ==> ending == Some(Crashed(StructError))))
      ensures attempts <= server.monitorFrequency + 1
      ensures ending.None? ==> con.Some? && con.value.lock.held && channel.closed == old(channel.closed)
      ensures con.Some? ==> con.value.spreadsheet in server.Documents && con.value.lock in server.Locks
    {
      attempts := 0;
      var data := Receive();
      if data.Raise? {
        return Some(Crashed(data.exc)), 0;
      }
      if !IsGreeting(data.value) {
        // protocol_error() fails on `self.logging` before sending anything
        return Some(Crashed(AttributeError)), 0;
      }
      var name := data.value.items[1];
      var maxAttempts := server.monitorFrequency + 1;
      var found := Lookup(server.spreadsheets, server.locks, name);
      while true
        invariant attempts <= maxAttempts && con.None?
        invariant found == Lookup(server.spreadsheets, server.locks, name)
        invariant attempts > 0 ==> found == Raise(KeyError)
        invariant channel.incoming == ServerReceive(codec, old(channel.incoming)).rest
        invariant channel.sent == old(channel.sent) && channel.closed == old(channel.closed)
        decreases maxAttempts - attempts
      {
        if attempts >= maxAttempts {
          var sent := Send(NotFoundReply);
          if sent.Raise? {
            return Some(Crashed(sent.exc)), attempts;
          }
          CloseConnection();
          return Some(NotFound), attempts;
        }
        found := Lookup(server.spreadsheets, server.locks, name);
        if found.Ok? {
          var bound := new SpreadsheetConnection(found.value.0, found.value.1);
          con := Some(bound);
          break;
        }
        if found.exc != KeyError {
          return Some(Crashed(found.exc)), attempts;
        }
        attempts := attempts + 1;
      }
      var sent := Send(OkReply);
      if sent.Raise? {
        return Some(Crashed(sent.exc)), attempts;
      }
      if con.value.lock.held {
        // acquire() would wait for the client holding the lock
        return Some(Blocked), attempts;
      }
      con.value.LockSpreadsheet();
      ending := None;
    }
  
    /** One message of the main loop: the command's effect on the document
        and its reply, as Dispatch states them. */
    method Answer(data: Json) returns (r: Result<Option<Json>>)
      requires con.Some?
      modifies con.value.spreadsheet
      ensures var d := Dispatch(old(con.value.spreadsheet.sheets), old(con.value.spreadsheet.savedTo), con.value.lock.held, data);
              (d.Raise? ==> r == Raise(d.exc) && con.value.spreadsheet.sheets == old(con.value.spreadsheet.sheets) &&
                            con.value.spreadsheet.savedTo == old(con.value.spreadsheet.savedTo)) &&
              (d.Ok? ==> r == Ok(d.value.reply) && con.value.spreadsheet.sheets == d.value.sheets &&
                         con.value.spreadsheet.savedTo == d.value.saved)
      ensures con.value.spreadsheet.closed == old(con.value.spreadsheet.closed)
    {
      var conn := con.value;
      match data
      case JArr(items) =>
        if items == [] {
          return Raise(IndexError);
        }
        if items[0] == JStr("SET") {
          if |items| < 4 {
            return Raise(IndexError);
          }
          if !items[2].JStr? {
            return Raise(AttributeError);
          }
          var w := conn.SetCells(items[1], items[2].s, items[3]);
          if w.Ok? {
            return Ok(Some(OkReply));
          }
          if Caught(w.exc).Some? {
            return Ok(Caught(w.exc));
          }
          return Raise(w.exc);
        } else if items[0] == JStr("GET") {
          if |items| < 3 {
            return Raise(IndexError);
          }
          if !items[2].JStr? {
            return Raise(AttributeError);
          }
          var g := GetCells(conn.spreadsheet.sheets, items[1], items[2].s);
          if g.Ok? {
            return Ok(Some(g.value));
          }
          if Caught(g.exc).Some? {
            return Ok(Caught(g.exc));
          }
          return Raise(g.exc);
        } else if items[0] == JStr("GET_SHEETS") {
          return Ok(Some(NamesJson(SheetNames(conn.spreadsheet.sheets))));
        } else if items[0] == JStr("SAVE") {
          if |items| < 2 {
            return Raise(IndexError);
          }
          if items[1].JStr? {
            var _ := conn.SaveSpreadsheet(items[1].s);
          } else if conn.lock.held {
            // directory + filename with a filename that is not a string
            return Raise(TypeError);
          }
          return Ok(Some(OkReply));
        }
        return Ok(None);
      case JStr(text) =>
        if text == [] {
          return Raise(IndexError);
        }
        return Ok(None);
      case JObj(_) =>
        return Raise(KeyError);
      case _ =>
        return Raise(TypeError);
    }

    /** `__main_loop`, proved against Serve. */
    method MainLoop() returns (ending: Ending)
      requires con.Some?
      modifies channel, con.value.spreadsheet
      ensures var f := Serve(codec, con.value.lock.held, old(SessionOf(con.value.spreadsheet, channel)));
              ending == f.ending && SessionOf(con.value.spreadsheet, channel) == f.session
      ensures channel.closed == old(channel.closed) && con.value.spreadsheet.closed == old(con.value.spreadsheet.closed)
    {
      var doc := con.value.spreadsheet;
      var held := con.value.lock.held;
      while true
        invariant Serve(codec, held, old(SessionOf(doc, channel))) == Serve(codec, held, SessionOf(doc, channel))
        invariant channel.closed == old(channel.closed) && doc.closed == old(doc.closed)
        decreases Weight(channel.incoming)
      {
        ghost var before := SessionOf(doc, channel);
        var data := Receive();
        ReceiveShrinks(codec, before.incoming);
        if data.Raise? {
          return Crashed(data.exc);
        }
        if EqualsFalse(data.value) {
          // the connection has been lost
          return Closed;
        }
        var reply := Answer(data.value);
        if reply.Raise? {
          return Crashed(reply.exc);
        }
        if reply.value.Some? {
          var sent := Send(reply.value.value);
          if sent.Raise? {
            return Crashed(sent.exc);
          }
        }
      }
    }

    /** `handle`: the handshake, then the main loop, then the close. An
        exception that escapes skips the close, so the lock stays held. */
    method Handle() returns (ending: Ending)
      requires server.Valid() && con.None?
      modifies this, channel, server.Documents, server.Locks
      ensures ending.Closed? ==> con.Some? && !con.value.lock.held && channel.closed
      ensures ending.NotFound? ==> con.None? && channel.closed
      ensures ending.Blocked? ==> con.Some? && con.value.lock.held
      ensures ending.Crashed? && con.Some? && Frame(codec, OkReply).Ok? ==> con.value.lock.held
      ensures var got := ServerReceive(codec, old(channel.incoming));
              var a := Admission(old(server.spreadsheets), old(server.locks), got.value);
              (a.Raise? ==> ending == Crashed(a.exc) && con.None? && channel.sent == old(channel.sent)) &&
              (a == Ok(None) && Frame(codec, NotFoundReply).Ok? ==>
                 ending == NotFound && channel.sent == old(channel.sent) + Frame(codec, NotFoundReply).value) &&
              (a.Ok? && a.value.Some? && Frame(codec, OkReply).Ok? ==>
                 con.Some? && con.value.spreadsheet == a.value.value.0 && con.value.lock == a.value.value.1 &&
                 (old(a.value.value.1.held) ==> ending == Blocked) &&
                 (!old(a.value.value.1.held) ==>
                    var f := Serve(codec, true, Session(old(a.value.value.0.sheets), old(a.value.value.0.savedTo),
                                                        old(channel.sent) + Frame(codec, OkReply).value, got.rest));
                    ending == f.ending && channel.sent == f.session.sent && channel.incoming == f.session.incoming &&
                    con.value.spreadsheet.sheets == f.session.sheets && con.value.spreadsheet.savedTo == f.session.saved))
    {
      var refused, _ := MakeConnection();
      if refused.Some? {
        return refused.value;
      }
      ending := MainLoop();
      if ending.Closed? {
        CloseConnection();
      }
    }
  }
}
