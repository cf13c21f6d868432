/** server.py: the first version of the server, with its request handler,
    its directory monitor and its start-up code in one file. Messages are
    raw JSON with no length prefix, read with one `recv(4096)`; SET and GET
    let every exception escape; the monitor looks only at the regular files
    at the top of the spreadsheet directory. */
module LegacyServer {
  import opened Values
  import opened Engine
  import opened Framing
  import opened ServerState
  import opened Connection
  import opened Monitor
  import opened RequestHandler

  const SpreadsheetsPath := "./spreadsheets"
  const RecvSize: nat := 4096
  const WrongGreeting := "Received incorrect connection string."
  const ErrorText := JStr("ERROR")

  // ---------------------------------------------------------------------
  // Messages

  /** `__receive`: one `recv(4096)`, decoded as it is; `b''` is False. */
  function LegacyReceive(c: Codec, events: seq<Event>): (r: Received)
  {
    var chunk := RecvChunk(events, RecvSize);
    if chunk.data.None? then Received(Ok(JBool(false)), chunk.rest)
    else Received(c.decode(chunk.data.value), chunk.rest)
  }

  /** A message of at most 4096 bytes that arrives in one chunk is read
      whole. */
  lemma LegacyReceivesShortMessage(c: Codec, v: Json, more: seq<Event>)
    requires ValidCodec(c) && |c.encode(v)| <= RecvSize
    ensures LegacyReceive(c, [Data(c.encode(v))] + more) == Received(Ok(v), more)
  {
    var events := [Data(c.encode(v))] + more;
    assert events[0] == Data(c.encode(v)) && events[1..] == more;
  }

  /** A longer message is cut after 4096 bytes: the first 4096 bytes are
      decoded on their own and the rest is left for the next receive. */
  lemma LegacyCutsLongMessage(c: Codec, v: Json, more: seq<Event>)
    requires |c.encode(v)| > RecvSize
    ensures LegacyReceive(c, [Data(c.encode(v))] + more) ==
            Received(c.decode(c.encode(v)[..RecvSize]), [Data(c.encode(v)[RecvSize..])] + more)
  {
    var events := [Data(c.encode(v))] + more;
    assert events[0] == Data(c.encode(v)) && events[1..] == more;
  }

  /** A closed socket reads False, and any other read consumes something. */
  lemma LegacyReceiveShrinks(c: Codec, events: seq<Event>)
    ensures events == [] ==> LegacyReceive(c, events) == Received(Ok(JBool(false)), [])
    ensures events != [] ==> Weight(LegacyReceive(c, events).rest) < Weight(events)
  {
    RecvChunkShrinks(events, RecvSize);
  }

  /** `data[0]`. */
  function FirstItem(data: Json): (r: Result<Json>)
    ensures r.Ok? <==> (data.JArr? && data.items != []) || (data.JStr? && data.s != [])
    ensures r.Ok? && data.JArr? ==> r.value == data.items[0]
  {
    match data
    case JArr(items) => if items == [] then Raise(IndexError) else Ok(items[0])
    case JStr(s) => if s == [] then Raise(IndexError) else Ok(JStr([s[0]]))
    case JObj(_) => Raise(KeyError)
    case _ => Raise(TypeError)
  }

  // ---------------------------------------------------------------------
  // The handshake

  /** `__make_connection` up to the lookup: `data[0]` must be
      "SPREADSHEET" (a closed socket gives False, which cannot be indexed),
      then the name is looked up in both maps with no retry. */
  function LegacyAdmission(spreadsheets: map<string, Document>, locks: map<string, Lock>, first: Result<Json>): (r: Result<(Document, Lock)>)
    ensures first == Ok(JBool(false)) ==> r == Raise(TypeError)
    ensures first.Raise? ==> r == Raise(first.exc)
    ensures first.Ok? && FirstItem(first.value).Raise? ==> r == Raise(FirstItem(first.value).exc)
    ensures first.Ok? && FirstItem(first.value).Ok? && FirstItem(first.value).value != JStr(Greeting) ==>
              r == Raise(RuntimeError(JStr(WrongGreeting)))
    ensures first.Ok? && first.value.JArr? && first.value.items != [] && first.value.items[0] == JStr(Greeting) ==>
              r == (if |first.value.items| < 2 then Raise(IndexError) else Lookup(spreadsheets, locks, first.value.items[1]))
    ensures r.Ok? ==> first.Ok? && first.value.JArr? && |first.value.items| >= 2 &&
                      first.value.items[0] == JStr(Greeting) &&
                      r == Lookup(spreadsheets, locks, first.value.items[1])
  {
    match first
    case Raise(e) => Raise(e)
    case Ok(data) =>
      match FirstItem(data)
      case Raise(e) => Raise(e)
      case Ok(head) =>
        if head != JStr(Greeting) then Raise(RuntimeError(JStr(WrongGreeting)))
        else if |data.items| < 2 then Raise(IndexError)
        else Lookup(spreadsheets, locks, data.items[1])
  }

  // ---------------------------------------------------------------------
  // The commands

  /** One pass of the legacy main loop's body for a message that is not
      False. No exception is caught; GET answers "ERROR" for cells equal to
      False, and there is no GET_SHEETS. */
  function LegacyDispatch(sheets: seq<Sheet>, saved: seq<string>, held: bool, data: Json): (r: Result<Outcome>)
    ensures FirstItem(data).Raise? ==> r == Raise(FirstItem(data).exc)
    ensures r.Ok? && r.value.reply.None? ==> r.value.sheets == sheets && r.value.saved == saved
    ensures (data.JArr? && data.items != [] &&
             data.items[0] !in [JStr("SET"), JStr("GET"), JStr("SAVE")]) ==>
              r == Ok(Outcome(None, sheets, saved))
  {
    match data
    case JArr(items) =>
      if items == [] then Raise(IndexError)
      else if items[0] == JStr("SET") then
        if |items| < 4 then Raise(IndexError)
        else if !items[2].JStr? then Raise(AttributeError)
        else
          match SetCellsOn(sheets, held, items[1], items[2].s, items[3])
          case Ok(after) => Ok(Outcome(Some(OkReply), after, saved))
          case Raise(e) => Raise(e)
      else if items[0] == JStr("GET") then
        if |items| < 3 then Raise(IndexError)
        else if !items[2].JStr? then Raise(AttributeError)
        else
          match GetCells(sheets, items[1], items[2].s)
          case Ok(cells) => Ok(Outcome(Some(if EqualsFalse(cells) then ErrorText else cells), sheets, saved))
          case Raise(e) => Raise(e)
      else if items[0] == JStr("SAVE") then
        if |items| < 2 then Raise(IndexError)
        else if !held then Ok(Outcome(Some(OkReply), sheets, saved))
        else if !items[1].JStr? then Raise(TypeError)
        else Ok(Outcome(Some(OkReply), sheets, saved + [SaveDirectory + items[1].s]))
      else Ok(Outcome(None, sheets, saved))
    case JStr(s) =>
      if s == [] then Raise(IndexError) else Ok(Outcome(None, sheets, saved))
    case JObj(_) => Raise(KeyError)
    case _ => Raise(TypeError)
  }

  /** A cell holding zero is reported to the client as "ERROR", because
      the reply is chosen by `cells != False`. */
  lemma ZeroCellAnsweredAsError(sheets: seq<Sheet>, saved: seq<string>, held: bool, sheet: Json, cellRef: string)
    requires GetCells(sheets, sheet, cellRef) == Ok(JFloat(0.0))
    ensures LegacyDispatch(sheets, saved, held, JArr([JStr("GET"), sheet, JStr(cellRef)]))
            == Ok(Outcome(Some(ErrorText), sheets, saved))
  {
    var items := [JStr("GET"), sheet, JStr(cellRef)];
    assert items[0] == JStr("GET") && items[2] == JStr(cellRef);
  }

  /** A failed write is not answered: the exception ends the handler, where
      the newer handler answers `{"ERROR": msg}` for the same message. */
  lemma FailedSetEndsHandler(sheets: seq<Sheet>, saved: seq<string>, sheet: Json, cellRef: string, data: Json, msg: string)
    requires SetCellsOn(sheets, true, sheet, cellRef, data) == Raise(ValueError(msg))
    ensures LegacyDispatch(sheets, saved, true, JArr([JStr("SET"), sheet, JStr(cellRef), data])) == Raise(ValueError(msg))
    ensures Dispatch(sheets, saved, true, JArr([JStr("SET"), sheet, JStr(cellRef), data]))
            == Ok(Outcome(Some(ErrorReply(msg)), sheets, saved))
  {
    var items := [JStr("SET"), sheet, JStr(cellRef), data];
    assert items[0] == JStr("SET") && items[2] == JStr(cellRef);
  }

  /** A cell reference that is not a string makes `__is_single_cell` call
      `split` on it, which raises AttributeError; neither handler catches
      it. */
  lemma NonStringReferenceCrashes(sheets: seq<Sheet>, saved: seq<string>, held: bool, sheet: Json, cellRef: Json, data: Json)
    requires !cellRef.JStr?
    ensures Dispatch(sheets, saved, held, JArr([JStr("SET"), sheet, cellRef, data])) == Raise(AttributeError)
    ensures Dispatch(sheets, saved, held, JArr([JStr("GET"), sheet, cellRef])) == Raise(AttributeError)
    ensures LegacyDispatch(sheets, saved, held, JArr([JStr("SET"), sheet, cellRef, data])) == Raise(AttributeError)
    ensures LegacyDispatch(sheets, saved, held, JArr([JStr("GET"), sheet, cellRef])) == Raise(AttributeError)
  {
    var setItems := [JStr("SET"), sheet, cellRef, data];
    var getItems := [JStr("GET"), sheet, cellRef];
    assert setItems[0] == JStr("SET") && setItems[2] == cellRef;
    assert getItems[0] == JStr("GET") && getItems[2] == cellRef;
  }

  /** `__main_loop` of server.py from a session state; replies are sent as
      raw JSON bytes. */
  function LegacyServe(c: Codec, held: bool, s: Session): (r: Finished)
    ensures r.ending.Closed? || r.ending.Crashed?
    decreases Weight(s.incoming)
  {
    var got := LegacyReceive(c, s.incoming);
    LegacyReceiveShrinks(c, s.incoming);
    var s1 := s.(incoming := got.rest);
    match got.value
    case Raise(e) => Finished(Crashed(e), s1)
    case Ok(data) =>
      if EqualsFalse(data) then Finished(Closed, s1)
      else
        match LegacyDispatch(s.sheets, s.saved, held, data)
        case Raise(e) => Finished(Crashed(e), s1)
        case Ok(o) =>
          var s2 := s1.(sheets := o.sheets, saved := o.saved);
          if o.reply.None? then LegacyServe(c, held, s2)
          else LegacyServe(c, held, s2.(sent := s1.sent + c.encode(o.reply.value)))
  }

  // ---------------------------------------------------------------------
  // The request handler

  class LegacyHandler {
    const channel: Channel
    const server: Server
    const codec: Codec
    var con: Option<SpreadsheetConnection>

    constructor(channel: Channel, server: Server, codec: Codec)
      ensures this.channel == channel && this.server == server && this.codec == codec
      ensures con.None?
    {
      this.channel := channel;
      this.server := server;
      this.codec := codec;
      con := None;
    }

    /** `__send`: the JSON bytes alone. */
    method Send(msg: Json)
      modifies channel
      ensures channel.sent == old(channel.sent) + codec.encode(msg)
      ensures channel.incoming == old(channel.incoming) && channel.closed == old(channel.closed)
    {
      channel.Send(codec.encode(msg));
    }

    /** `__receive`. */
    method Receive() returns (r: Result<Json>)
      modifies channel
      ensures r == LegacyReceive(codec, old(channel.incoming)).value
      ensures channel.incoming == LegacyReceive(codec, old(channel.incoming)).rest
      ensures channel.sent == old(channel.sent) && channel.closed == old(channel.closed)
    {
      var recv := channel.Recv(RecvSize);
      if recv == [] {
        return Ok(JBool(false));
      }
      r := codec.decode(recv);
    }

    /** `__make_connection`: None when the client is bound and holds the
        lock, otherwise how the handler ends. */
    method MakeConnection() returns (ending: Option<Ending>)
      requires server.Valid() && con.None?
      modifies this, channel, server.Locks
      ensures var got := LegacyReceive(codec, old(channel.incoming));
              var a := LegacyAdmission(server.spreadsheets, server.locks, got.value);
              channel.incoming == got.rest && channel.closed == old(channel.closed) &&
              (a.Raise? ==> ending == Some(Crashed(a.exc)) && con.None? && channel.sent == old(channel.sent)) &&
              (a.Ok? ==> con.Some? && con.value.spreadsheet == a.value.0 && con.value.lock == a.value.1 &&
                         channel.sent == old(channel.sent) + codec.encode(OkReply) && con.value.lock.held &&
                         ending == (if old(a.value.1.held) then Some(Blocked) else None))
      ensures con.Some? ==> con.value.spreadsheet in server.Documents && con.value.lock in server.Locks
    {
      var data := Receive();
      var a := LegacyAdmission(server.spreadsheets, server.locks, data);
      if a.Raise? {
        return Some(Crashed(a.exc));
      }
      var bound := new SpreadsheetConnection(a.value.0, a.value.1);
      con := Some(bound);
      Send(OkReply);
      if bound.lock.held {
        // acquire() would wait for the client holding the lock
        return Some(Blocked);
      }
      bound.LockSpreadsheet();
      ending := None;
    }

    /** One message of the legacy main loop. */
    method Answer(data: Json) returns (r: Result<Option<Json>>)
      requires con.Some?
      modifies con.value.spreadsheet
      ensures var d := LegacyDispatch(old(con.value.spreadsheet.sheets), old(con.value.spreadsheet.savedTo), con.value.lock.held, data);
              (d.Raise? ==> r == Raise(d.exc) && con.value.spreadsheet.sheets == old(con.value.spreadsheet.sheets) &&
                            con.value.spreadsheet.savedTo == old(con.value.spreadsheet.savedTo)) &&
              (d.Ok? ==> r == Ok(d.value.reply) && con.value.spreadsheet.sheets == d.value.sheets &&
                         con.value.spreadsheet.savedTo == d.value.saved)
      ensures con.value.spreadsheet.closed == old(con.value.spreadsheet.closed)
    {
      var conn := con.value;
      match data
      case JArr(items) =>
        if items == [] {
          return Raise(IndexError);
        }
        if items[0] == JStr("SET") {
          if |items| < 4 {
            return Raise(IndexError);
          }
          if !items[2].JStr? {
            return Raise(AttributeError);
          }
          var w := conn.SetCells(items[1], items[2].s, items[3]);
          if w.Raise? {
            return Raise(w.exc);
          }
          return Ok(Some(OkReply));
        } else if items[0] == JStr("GET") {
          if |items| < 3 {
            return Raise(IndexError);
          }
          if !items[2].JStr? {
            return Raise(AttributeError);
          }
          var cells := GetCells(conn.spreadsheet.sheets, items[1], items[2].s);
          if cells.Raise? {
            return Raise(cells.exc);
          }
          if !EqualsFalse(cells.value) {
            return Ok(Some(cells.value));
          }
          return Ok(Some(ErrorText));
        } else if items[0] == JStr("SAVE") {
          if |items| < 2 {
            return Raise(IndexError);
          }
          if items[1].JStr? {
            var _ := conn.SaveSpreadsheet(items[1].s);
          } else if conn.lock.held {
            return Raise(TypeError);
          }
          return Ok(Some(OkReply));
        }
        return Ok(None);
      case JStr(text) =>
        if text == [] {
          return Raise(IndexError);
        }
        return Ok(None);
      case JObj(_) =>
        return Raise(KeyError);
      case _ =>
        return Raise(TypeError);
    }

    /** `__main_loop`, proved against LegacyServe. */
    method MainLoop() returns (ending: Ending)
      requires con.Some?
      modifies channel, con.value.spreadsheet
      ensures var f := LegacyServe(codec, con.value.lock.held, old(SessionOf(con.value.spreadsheet, channel)));
              ending == f.ending && SessionOf(con.value.spreadsheet, channel) == f.session
      ensures channel.closed == old(channel.closed) && con.value.spreadsheet.closed == old(con.value.spreadsheet.closed)
    {
      var doc := con.value.spreadsheet;
      var held := con.value.lock.held;
      while true
        invariant LegacyServe(codec, held, old(SessionOf(doc, channel))) == LegacyServe(codec, held, SessionOf(doc, channel))
        invariant channel.closed == old(channel.closed) && doc.closed == old(doc.closed)
        decreases Weight(channel.incoming)
      {
        ghost var before := SessionOf(doc, channel);
        var data := Receive();
        LegacyReceiveShrinks(codec, before.incoming);
        if data.Raise? {
          return Crashed(data.exc);
        }
        if EqualsFalse(data.value) {
          return Closed;
        }
        var reply := Answer(data.value);
        if reply.Raise? {
          return Crashed(reply.exc);
        }
        if reply.value.Some? {
          Send(reply.value.value);
        }
      }
    }

    /** `__close_connection`: as in the newer handler, `locked` is never
        called, so the lock is always released. */
    method CloseConnection()
      requires con.Some?
      modifies channel, con.value.lock
      ensures !con.value.lock.held && channel.closed
      ensures channel.incoming == old(channel.incoming) && channel.sent == old(channel.sent)
    {
      var _ := con.value.UnlockSpreadsheet();
      channel.Close();
    }

    /** `handle`: any exception skips the close, so the lock stays held. */
    method Handle() returns (ending: Ending)
      requires server.Valid() && con.None?
      modifies this, channel, server.Documents, server.Locks
      ensures ending.Closed? ==> con.Some? && !con.value.lock.held && channel.closed
      ensures ending.Blocked? ==> con.Some? && con.value.lock.held
      ensures ending.Crashed? ==> !channel.closed || old(channel.closed)
      ensures ending.Crashed? && con.Some? ==> con.value.lock.held
      ensures var got := LegacyReceive(codec, old(channel.incoming));
              var a := LegacyAdmission(old(server.spreadsheets), old(server.locks), got.value);
              (a.Raise? ==> ending == Crashed(a.exc) && con.None? && channel.sent == old(channel.sent)) &&
              (a.Ok? ==>
                 con.Some? && con.value.spreadsheet == a.value.0 && con.value.lock == a.value.1 &&
                 (old(a.value.1.held) ==> ending == Blocked) &&
                 (!old(a.value.1.held) ==>
                    var f := LegacyServe(codec, true, Session(old(a.value.0.sheets), old(a.value.0.savedTo),
                                                              old(channel.sent) + codec.encode(OkReply), got.rest));
                    ending == f.ending && channel.sent == f.session.sent && channel.incoming == f.session.incoming &&
                    con.value.spreadsheet.sheets == f.session.sheets && con.value.spreadsheet.savedTo == f.session.saved))
    {
      var refused := MakeConnection();
      if refused.Some? {
        return refused.value;
      }
      ending := MainLoop();
      if ending.Closed? {
        CloseConnection();
      }
    }
  }

  // ---------------------------------------------------------------------
  // The monitor

  /** `[f for f in listdir(SPREADSHEETS_PATH) if isfile(...)]`: the regular
      files at the top only, with nothing skipped. */
  function TopFiles(listing: seq<Entry>): (r: seq<string>)
    ensures forall i | 0 <= i < |r| :: r[i] != []
  {
    if listing == [] then []
    else TopFiles(listing[..|listing| - 1]) + (if listing[|listing| - 1].File? then [listing[|listing| - 1].name] else [])
  }

  /** For a directory without sub-directories the legacy listing loads the
      same spreadsheets as the newer scan: the names the newer scan skips
      all start with '.', which neither version loads. */
  lemma {:induction false} FlatListingLoadsTheSame(listing: seq<Entry>)
    requires forall i | 0 <= i < |listing| :: !listing[i].Folder?
    ensures Visible(TopFiles(listing)) == Visible(Scanned(listing, ""))
  {
    if listing != [] {
      var init, last := listing[..|listing| - 1], listing[|listing| - 1];
      FlatListingLoadsTheSame(init);
      var a := if last.File? then [last.name] else [];
      var b := ScannedOne(last, "");
      VisibleConcat(TopFiles(init), a);
      VisibleConcat(Scanned(init, ""), b);
      if last.File? {
        assert "" + last.name == last.name;
        assert Ignored(last.name) ==> Hidden(last.name);
        assert Visible(a) == Visible(b);
      } else {
        assert a == [] && b == [];
      }
    }
  }

  lemma VisibleConcat(a: seq<string>, b: seq<string>)
    ensures Visible(a + b) == Visible(a) + Visible(b)
  {
    assert forall d :: d in a + b <==> d in a || d in b;
  }

  /** The files inside a sub-directory are never loaded by the legacy
      monitor. */
  lemma SubdirectoriesNotLoaded(folder: Name, file: Name)
    ensures TopFiles([Folder(folder, [File(file)])]) == []
  {
    assert [Folder(folder, [File(file)])][..0] == [];
  }

  /** The monitor of server.py: its load, unload, check-added and
      check-removed steps are those of monitor.py, applied to the top-level
      file list of "./spreadsheets". */
  class LegacyMonitor {
    const thread: MonitorThread

    constructor(thread: MonitorThread)
      requires thread.spreadsheetsPath == SpreadsheetsPath
      ensures this.thread == thread
    {
      this.thread := thread;
    }

    /** The start-up code: fresh, empty maps, then every top-level file
        whose name does not start with '.' is opened with a fresh lock. */
    method Populate(listing: seq<Entry>)
      modifies thread.server, thread.server.Documents, thread.server.Locks
      ensures thread.server.Valid() && thread.server.Held() == {}
      ensures thread.server.spreadsheets.Keys == Visible(TopFiles(listing))
      ensures fresh(thread.server.Documents - old(thread.server.Documents))
      ensures fresh(thread.server.Locks - old(thread.server.Locks))
    {
      var server := thread.server;
      server.spreadsheets := map[];
      server.locks := map[];
      var docs := TopFiles(listing);
      var i := 0;
      while i < |docs|
        invariant 0 <= i <= |docs|
        invariant server.Valid() && server.Held() == {}
        invariant server.spreadsheets.Keys == Visible(docs[..i])
        invariant fresh(server.Documents - old(server.Documents)) && fresh(server.Locks - old(server.Locks))
      {
        VisibleStep(docs, i);
        if docs[i][0] != '.' {
          thread.LoadSpreadsheet(docs[i]);
        }
        i := i + 1;
      }
      assert docs[..i] == docs;
    }

    /** One pass of `run`: list the top level, unload what is gone, load
        what is new. A pass that meets a lock a client holds waits while
        unloading and gets no further. */
    method Pass(listing: seq<Entry>) returns (blocked: bool)
      requires thread.server.Valid()
      modifies thread, thread.server, thread.server.Documents, thread.server.Locks
      ensures thread.server.Valid()
      ensures thread.server.Held() == old(thread.server.Held())
      ensures fresh(thread.server.Documents - old(thread.server.Documents))
      ensures fresh(thread.server.Locks - old(thread.server.Locks))
      ensures thread.docs == TopFiles(listing)
      ensures blocked <==> exists k | k in old(thread.server.Held()) :: k !in thread.docs
      ensures !blocked ==> thread.server.spreadsheets.Keys == Reconcile(old(thread.server.spreadsheets.Keys), thread.docs)
    {
      thread.docs := TopFiles(listing);
      blocked := thread.CheckRemoved();
      if blocked {
        return;
      }
      thread.CheckAdded();
    }

    /** `run`, for as many passes as there are listings, or until a pass
        blocks on a lock a client holds: after the last pass every
        registered name is a top-level file and every visible top-level
        file is registered. */
    method Run(listings: seq<seq<Entry>>) returns (blocked: bool)
      requires thread.server.Valid()
      modifies thread, thread.server, thread.server.Documents, thread.server.Locks
      ensures thread.server.Valid()
      ensures thread.server.Held() == old(thread.server.Held())
      ensures blocked ==> exists k | k in thread.server.Held() :: k !in thread.docs
      ensures listings != [] && !blocked ==>
                thread.server.spreadsheets.Keys == Reconcile(thread.server.spreadsheets.Keys, thread.docs)
      ensures listings != [] && !blocked ==> forall k | k in thread.server.spreadsheets :: k in thread.docs
      ensures listings != [] && !blocked ==>
                forall d | d in thread.docs && !Hidden(d) :: d in thread.server.spreadsheets
    {
      ghost var held := thread.server.Held();
      blocked := false;
      var i := 0;
      while i < |listings|
        invariant 0 <= i <= |listings|
        invariant thread.server.Valid() && thread.server.Held() == held
        invariant i > 0 ==> thread.server.spreadsheets.Keys == Reconcile(thread.server.spreadsheets.Keys, thread.docs)
        invariant fresh(thread.server.Documents - old(thread.server.Documents))
        invariant fresh(thread.server.Locks - old(thread.server.Locks))
      {
        var before := thread.server.spreadsheets.Keys;
        blocked := Pass(listings[i]);
        if blocked {
          return;
        }
        ReconcileIdempotent(before, thread.docs);
        i := i + 1;
      }
      if i > 0 {
        ReconcileMatchesDisk(thread.server.spreadsheets.Keys, thread.docs);
      }
    }
  }
}
