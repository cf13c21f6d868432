# spreadsheet_server in Dafny

spreadsheet_server keeps LibreOffice spreadsheets open and lets clients
read and write their cells over TCP. The server loads every file in its
spreadsheet directory and gives each one a lock. A client names the
spreadsheet it wants, takes that lock for the rest of the session, and then
sends `SET`, `GET`, `GET_SHEETS` and `SAVE` commands as length-prefixed
JSON messages. A monitor thread keeps the open spreadsheets in step with the
directory.

This project models that core in Dafny. It covers:

- the three generations of the connection object: `connection.py`,
  `spreadsheet_connection.py` and `con.py`;
- the framed request handler and its client: `request_handler.py` and
  `client.py`;
- the directory monitor: `monitor.py`;
- the older unframed server with its own monitor: `server.py`.

Modules, one per file:

| module | file | models |
|---|---|---|
| `Values` | values.dfy | JSON values, Python exceptions and the string and number built-ins the code uses (`split`, `isdigit`, `int`, `float`) |
| `Engine` | engine.dfy | the spreadsheet engine as the code uses it: sheets addressed by name or index, cells, ranges, documents that can be saved and closed, `threading.Lock` |
| `Ranges` | ranges.dfy | `_range_to_index` and `get_cells`, which `spreadsheet_connection.py` and `con.py` share except for the column formula |
| `Connection` | connection.dfy | `connection.py` |
| `WorkbookConnection` | workbook_connection.dfy | `spreadsheet_connection.py` |
| `ConHandler` | con_handler.dfy | `con.py` |
| `Framing` | framing.dfy | the socket as a sequence of events, the 4-byte big-endian length header and the receive loops |
| `ServerState` | server_state.dfy | the `spreadsheets` and `locks` dictionaries the threads share |
| `RequestHandler` | request_handler.dfy | `request_handler.py` |
| `Client` | client.dfy | `client.py` |
| `Monitor` | monitor.dfy | `monitor.py` |
| `LegacyServer` | legacy_server.dfy | `server.py`: its handler, its monitor and its start-up load |

Objects that the source updates in place are classes:

- the lock, the document, the socket channel and the shared server state;
- the connection objects, the handlers, the client and the monitor thread.

Where a method runs a loop or a whole session, its contract ties its result
and new state to a pure function of its inputs and old state. For example, `Handler.MainLoop` ends exactly as the function `Serve` says a
session ends, and `MonitorThread.Pass` leaves the registry equal to
`Reconcile` of the old names and the scanned files unless it blocks on a
lock a client holds. The properties the code
promises are then lemmas about those functions.

Python's `x == False` is true for `False`, `0` and `0.0`, and the model
keeps that. An empty message, a closed socket or a receive timeout
therefore ends a session, and so does a message that decodes to `0`.

The three files compute columns differently, and the model keeps each
formula as written:

- `connection.py` reads the letters as plain base 26 with A = 0. That makes
  "AA" column 0 and "AMJ" column 321, where the file's tests expect 26 and
  1023 (`Connection.DoubleAIsFirstColumn`, `Connection.LastColumnMisread`).
- `spreadsheet_connection.py` uses bijective base 26. It gives the tests'
  values (`WorkbookConnection.ExpectedColumns`), and distinct references get
  distinct columns (`WorkbookConnection.ColumnsDistinct`).
- `con.py` adds up the letter values, which is right only for A to Z
  (`ConHandler.CollidingColumns`).

`request_handler.py` builds `SpreadsheetConnection` with three arguments and
calls `get_sheet_names()`. The `connection.py` it imports has neither. The
model binds the connection with the two arguments `connection.py` takes.
`GET_SHEETS` answers the names of the document's sheets, in order, which is
what the client documents.

## Model

| member | source | states |
|---|---|---|
| Values.FloatOf | connection.py:130-135 | `float()` raises TypeError exactly for null, lists and dicts, and ValueError exactly for text that is not a number; numeric text converts to the number it spells, and booleans to 1.0 and 0.0 |
| Values.ParseInt | connection.py:72 | `int()` of a run of digits fails exactly on the empty string, and otherwise gives the decimal value of the digits |
| Connection.XyIndex | connection.py:52-73 | a reference has an index exactly when it contains a digit; otherwise `int('')` raises ValueError; the row is never below -1 |
| Connection.GetXyIndex | connection.py:52-73 | the two loops of `__get_xy_index` (filter, then sum `c_index * 26^(n-i-1)`) compute exactly `XyIndex` |
| Connection.LeadingAIgnored | connection.py:56-70 | an extra leading 'A' never changes the column, because A counts as 0 |
| Connection.Base26Bounds | connection.py:56-70 | the column of n letters lies in [0, 26^n) |
| Connection.Base26Upper | connection.py:57-70 | the base-26 column does not depend on letter case |
| Connection.XyIndexCaseInsensitive | connection.py:59 | upper-casing a reference does not change its index |
| Connection.XyIndexOfWellFormed | connection.py:52-73 | letters followed by digits index the row the digits name and the base-26 value of the letters |
| Connection.FirstAndDiagonalCells | tests/test_connection.py:80-89 | "A1" is (0, 0) and "Z26" is (25, 25), as the tests expect |
| Connection.ThreeLetterColumn | tests/test_connection.py:116-119 | "ABC" followed by any digits is column 28, not the 730 the tests expect |
| Connection.DoubleAIsFirstColumn | tests/test_connection.py:92-95 | "AA" followed by any digits is column 0, not the 26 the tests expect |
| Connection.LastColumnMisread | tests/test_connection.py:122-125 | "AMJ" followed by any digits is column 321, not the 1023 the tests expect |
| Connection.IsSingleCell | connection.py:76-79 | a reference is a single cell exactly when it has no ':' |
| Connection.CheckSingleCell | connection.py:82-85 | it passes exactly when there is no ':' and otherwise raises the range-given ValueError |
| Connection.CellRangeToIndex | connection.py:102-121 | any number of colons other than one fails to unpack with ValueError; every failure is a ValueError |
| Connection.CellRangeHalves | connection.py:113-121 | "l:r" succeeds exactly when both halves index, with rows and columns taken from the left and right halves |
| Connection.KnownRange | tests/test_connection.py:155-162 | "C9:Z26" is rows 8 to 25 and columns 2 to 25 |
| Connection.SpreadsheetConnection.constructor | connection.py:26-28 | binds the given spreadsheet and lock |
| Connection.SpreadsheetConnection.LockSpreadsheet | connection.py:31-39 | afterwards the lock is held |
| Connection.SpreadsheetConnection.UnlockSpreadsheet | connection.py:42-49 | answers whether the lock was held, and the lock is free afterwards |
| Connection.SpreadsheetConnection.CheckForLock | connection.py:124-127 | passes exactly when the lock is held and otherwise raises the not-acquired RuntimeError |
| Connection.CheckNumeric | connection.py:130-135 | raises exactly when `float()` raises something other than ValueError; a convertible value becomes that float; any other value is a string and is returned unchanged |
| Connection.CheckNumericIdempotent | connection.py:130-135 | coercing a coerced value changes nothing |
| Connection.CheckList | connection.py:138-140 | passes exactly for a list and otherwise raises "Expecting list type." |
| Connection.ReadBackOfCoerced | connection.py:184-185 | storing a coerced value and reading it back gives the value's read-back form |
| Connection.CoerceRow | connection.py:222-223 | succeeds exactly when every cell coerces, giving each coerced cell in place |
| Connection.CoerceGrid | connection.py:217-223 | on success every row is a list of the same length, with each cell coerced; failures are TypeError or "Expected a list of cells." |
| Connection.CoerceCells | connection.py:222-223 | the inner loop computes exactly `CoerceRow` |
| Connection.CoerceGridAt | connection.py:218-223 | one step of the outer loop: a non-list row fails, a failing cell fails, otherwise the coerced row is appended |
| Connection.CoerceRows | connection.py:217-223 | the outer loop computes exactly `CoerceGrid`, failing at the first bad row |
| Connection.GetCell | connection.py:242-253 | a reference with ':' raises the range-given ValueError; a value read is a float or a string |
| Connection.GetCellRange | connection.py:256-276 | without exactly one ':' it raises; a success is a list |
| Connection.GetCells | connection.py:229-239 | a single reference reads one value, and a range reads a list |
| Connection.SetCellOn | connection.py:165-185 | without the lock or with a list value the write raises; a write keeps the sheet names |
| Connection.SetCellRangeOn | connection.py:188-226 | without the lock it raises the not-acquired RuntimeError; a row or a column raises NameError (the unqualified `check_list`); a write keeps the sheet names |
| Connection.SetCellsOn | connection.py:152-162 | without the lock it raises |
| Connection.SetCellThenGet | connection.py:165-185 | after a successful `set_cell`, `get_cell` of the same reference reads the value back |
| Connection.SetCellFrame | connection.py:185 | a successful `set_cell` changes only its own cell on its own sheet |
| Connection.SetGridThenGet | connection.py:216-226 | after a successful grid write, `get_cell_range` of the same range reads the data back |
| Connection.CoercedRowReadsBack | connection.py:222-226 | a row of coerced cells, stored, reads back as the read-back form of the row |
| Connection.CoercedGridReadsBack | connection.py:217-226 | a coerced grid, stored, reads back as the read-back form of the data |
| Connection.SpreadsheetConnection.SetCell | connection.py:165-185 | the result and the new sheets are those of `SetCellOn`; a failure leaves the sheets unchanged |
| Connection.SpreadsheetConnection.SetCellRange | connection.py:188-226 | the result and the new sheets are those of `SetCellRangeOn` |
| Connection.SpreadsheetConnection.SetCells | connection.py:152-162 | the result and the new sheets are those of `SetCellsOn` |
| Connection.SpreadsheetConnection.SaveSpreadsheet | connection.py:279-289 | with the lock held it saves to `directory + filename` (by default "./saved_spreadsheets/") and answers None; otherwise it answers "Spreadsheet not locked" and saves nothing |
| WorkbookConnection.FirstDigit | spreadsheet_connection.py:22-25 | the position found holds a digit and no earlier position does; None means there is no digit |
| WorkbookConnection.SplitCharNum | spreadsheet_connection.py:18-36 | the loop computes the column of the part before the first digit, and every digit in order |
| WorkbookConnection.PartColumn | spreadsheet_connection.py:28-33 | the inner loop computes the bijective base-26 column, counting from 0 |
| WorkbookConnection.CharNumOfWellFormed | spreadsheet_connection.py:18-36 | letters followed by digits give the letters' column and the digits |
| WorkbookConnection.ExpectedColumns | tests/test_connection.py:80-125 | A=0, Z=25, AA=26, ZZ=701, AAA=702, AAB=703, ABA=728, ABC=730, AMJ=1023 |
| WorkbookConnection.WellFormedIndex | spreadsheet_connection.py:38-41 | letters followed by digits name a single cell on the digits' row, in the letters' column |
| WorkbookConnection.ExpectedIndexes | tests/test_connection.py:92-125 | "AA" and "AMJ" followed by digits index columns 26 and 1023 |
| WorkbookConnection.BijectiveInjective | spreadsheet_connection.py:28-33 | two runs of capitals with the same value are equal |
| WorkbookConnection.ColumnsDistinct | spreadsheet_connection.py:28-33 | different non-empty runs of capitals name different columns |
| WorkbookConnection.BijectiveUpper | spreadsheet_connection.py:31-33 | the column does not depend on letter case |
| WorkbookConnection.Coerce | spreadsheet_connection.py:58-61 | `float(data)` raises TypeError exactly for null, lists and dicts; numbers and numeric text become that float; any other text is kept as it is |
| WorkbookConnection.CoerceLine | spreadsheet_connection.py:65-69 | a coerced row or column keeps its length |
| WorkbookConnection.CoerceList | spreadsheet_connection.py:65-69 | the loop computes exactly `CoerceLine` |
| WorkbookConnection.GridLoop | spreadsheet_connection.py:79-84 | the nested loop, which indexes `data[x][y]` with the outer list's cells, computes exactly `GridAsWritten` |
| WorkbookConnection.GridWritesNothing | spreadsheet_connection.py:79-85 | a grid the loop lets through and the engine accepts is empty, and writing it changes no cell |
| WorkbookConnection.InertAreNotRows | spreadsheet_connection.py:79-85 | a non-empty list of values the loop cannot index is never a grid of rows |
| WorkbookConnection.CoerceData | spreadsheet_connection.py:55-85 | the coercion step computes exactly `CoerceFor` of the shape |
| WorkbookConnection.SetCellsOn | spreadsheet_connection.py:48-90 | without the lock it answers False; a write keeps the sheet names |
| WorkbookConnection.SetLineThenGet | spreadsheet_connection.py:64-77 | after a row or column write, `get_cells` reads back the coerced data |
| WorkbookConnection.SetCellThenGet | spreadsheet_connection.py:56-62 | after a single-cell write, `get_cells` reads back the coerced value |
| WorkbookConnection.SpreadsheetConnection.constructor | spreadsheet_connection.py:7-9 | binds the given workbook and lock |
| WorkbookConnection.SpreadsheetConnection.LockWorkbook | spreadsheet_connection.py:13-14 | afterwards the lock is held |
| WorkbookConnection.SpreadsheetConnection.UnlockWorkbook | spreadsheet_connection.py:111-116 | answers whether the lock was held, and the lock is free afterwards |
| WorkbookConnection.SpreadsheetConnection.SetCells | spreadsheet_connection.py:48-90 | an exception escapes with the sheets unchanged; no lock or an engine error answers False with the sheets unchanged; otherwise it answers True with the new sheets of `SetCellsOn` |
| WorkbookConnection.SpreadsheetConnection.SaveWorkbook | spreadsheet_connection.py:118-122 | with the lock held it saves to "./saved_workbooks/" + filename; otherwise it answers "Workbook not locked" |
| Ranges.RowOf | spreadsheet_connection.py:41 | `int(num) - 1` succeeds exactly when there are digits, giving their value minus one |
| Ranges.IndexWith | spreadsheet_connection.py:38-46 | no ':' gives a single cell when there are digits; more than one ':' fails to unpack; one ':' gives a pair; every failure is a ValueError |
| Ranges.IndexWithHalves | con.py:31-35 | "l:r" gives the pair of rows and columns of its halves exactly when both have digits |
| Ranges.WriteIndexes | con.py:42-51 | a write fails only with an engine error and keeps the sheet's name |
| Ranges.ReadIndexes | con.py:64-73 | a read fails only outside the sheet, and a single cell reads exactly when it lies on the sheet |
| Ranges.WriteThenReadIndexes | con.py:42-73 | what was written to a cell or range reads back in stored form |
| Ranges.GetCellsWith | con.py:58-75 | `get_cells` answers False exactly when the index, the sheet lookup or the read fails |
| ConHandler.SplitCharNum | con.py:17-25 | the loop computes the sum of the letter values of the non-digits, and the digits |
| ConHandler.SplitCharNumStep | con.py:20-24 | one character either joins the digits or adds its letter value |
| ConHandler.LetterSumConcat | con.py:20-24 | the column of a concatenation is the sum of the parts' columns |
| ConHandler.LetterSumOfDigits | con.py:21-22 | digits add nothing to the column |
| ConHandler.SwapKeepsColumn | con.py:20-24 | swapping two adjacent characters keeps the column |
| ConHandler.OneLetterColumn | con.py:17-25 | one letter followed by digits is that letter's value, in [0, 26) |
| ConHandler.CollidingColumns | con.py:17-25 | "AB" and "BA" are both column 1, and "AA" is column 0 like "A" |
| ConHandler.SetCellsOn | con.py:37-56 | without the lock it answers False; a bad reference or sheet raises its own exception; a write keeps the sheet names and count |
| ConHandler.SetThenGet | con.py:37-75 | after a successful write, `get_cells` of the same reference reads back the data as stored |
| ConHandler.SetLeavesOtherSheets | con.py:40-51 | a write leaves every other sheet unchanged |
| ConHandler.ConnectionHandler.constructor | con.py:6-8 | binds the given workbook and lock |
| ConHandler.ConnectionHandler.LockWorkbook | con.py:12-13 | afterwards the lock is held |
| ConHandler.ConnectionHandler.UnlockWorkbook | con.py:77-82 | answers whether the lock was held, and the lock is free afterwards |
| ConHandler.ConnectionHandler.SetCells | con.py:37-56 | an exception escapes with the sheets unchanged; no lock or an engine error answers False; otherwise True with the new sheets of `SetCellsOn` |
| ConHandler.ConnectionHandler.SaveWorkbook | con.py:84-88 | with the lock held it saves to the bare filename; otherwise it answers "Workbook not locked" |
| Engine.SheetNames | connection.py:178 | one name per sheet, in order |
| Engine.FindName | connection.py:178 | finds the first sheet with the name, and None exactly when no sheet has it |
| Engine.SheetIndex | connection.py:178 | a string key finds a sheet exactly when a sheet has that name; an integer key exactly when it is in range; other failures are KeyError, IndexError or TypeError |
| Engine.ShapeOf | connection.py:206-216 | a range is a row when its rows are equal, otherwise a column when its columns are equal, otherwise a grid |
| Engine.ReadCell | connection.py:253 | reading succeeds exactly inside the sheet |
| Engine.WriteCell | connection.py:185 | writing succeeds exactly inside the sheet with a storable value, and keeps the sheet's name |
| Engine.WriteRange | connection.py:208-226 | a range write fails only with an engine error and keeps the sheet's name |
| Engine.WriteCellThenRead | connection.py:185 | a written cell reads back the stored value |
| Engine.WriteRangeThenRead | connection.py:208-226 | a written range reads back the stored data |
| Engine.WriteRangeFrame | connection.py:208-226 | a range write leaves every cell outside the range unchanged |
| Engine.ReadBlock | connection.py:274-276 | reading a block gives `h` rows of `w` cells |
| Engine.WriteBlock | connection.py:225-226 | a block write succeeds only when the data has the block's shape, the block lies on the sheet and every value is storable; it then puts the data's cells on the sheet; a failure is an engine error |
| Engine.AsRows | connection.py:206-214 | a row range takes the data as one row, and a column range as rows of one cell |
| Engine.ReadPutBlock | connection.py:225-226 | a block put on a sheet reads back as itself |
| Engine.PutBlockEffect | connection.py:225-226 | a cell inside the block takes the block's value and any other cell keeps its own |
| Engine.Lock.constructor | monitor.py:58 | a new lock is free |
| Engine.Lock.Acquire | connection.py:39 | afterwards the lock is held |
| Engine.Lock.Release | connection.py:45-49 | answers whether the lock was held, and the lock is free afterwards |
| Engine.Document.Open | monitor.py:56-57 | an opened document has the sheets of its file and is neither saved nor closed |
| Engine.Document.Save | connection.py:287 | the path is appended to the saves and nothing else changes |
| Engine.Document.Close | monitor.py:64 | the document is closed and nothing else changes |
| Framing.UnpackPack | request_handler.py:49 | unpacking a packed length gives the length back |
| Framing.PackUnpack | request_handler.py:66 | packing an unpacked header gives the header back |
| Framing.Pack | request_handler.py:49 | `struct.pack(">I", n)` succeeds exactly for n < 2^32 and is four bytes that unpack to n; otherwise struct.error |
| Framing.Frame | request_handler.py:45-49 | a frame is the 4-byte length of the JSON bytes followed by those bytes; it fails with struct.error exactly when they are 2^32 bytes or more |
| Framing.Take | request_handler.py:80-99 | when the bytes arrive they are exactly the number asked for |
| Framing.TakeShrinks | request_handler.py:80-99 | receiving never grows what is left to read, and shrinks it when bytes are asked for |
| Framing.TakeChunks | request_handler.py:84-93 | bytes split over any number of non-empty packets are reassembled in order |
| Framing.TakeCutShort | request_handler.py:91-97 | a closed peer or a timeout before enough bytes have arrived gives `b""` |
| Framing.TakeFromOneChunk | request_handler.py:90-93 | asking for a prefix of one packet leaves the rest of the packet to be read |
| Framing.Chunks | request_handler.py:84-93 | packets become one data event each, in order |
| Framing.RecvChunk | server.py:59 | a `recv` returns between 1 and the maximum number of bytes |
| Framing.RecvChunkShrinks | server.py:59 | every `recv` on a non-empty socket shrinks what is left |
| Framing.Channel.constructor | request_handler.py:37 | a new connection has its incoming events, nothing sent, and is open |
| Framing.Channel.ReceiveLength | request_handler.py:80-99 | the loop returns exactly `Take` of the incoming events and consumes them |
| Framing.Channel.Recv | server.py:59 | one `recv` returns exactly `RecvChunk`, waiting through timeouts |
| Framing.Channel.Send | request_handler.py:51 | the bytes are appended to what was sent |
| Framing.Channel.Close | request_handler.py:171-178 | the connection is closed and nothing else changes |
| ServerState.InsertConsistent | monitor.py:54-58 | a name with a fresh lock keeps the two dictionaries consistent |
| ServerState.RemoveConsistent | monitor.py:61-66 | dropping a name from both dictionaries keeps them consistent |
| ServerState.Server.constructor | server.py:253-254 | the server starts with no spreadsheets and no locks |
| RequestHandler.ReceiveShrinks | request_handler.py:55-78 | on a closed socket `__receive` answers False; each receive consumes input |
| RequestHandler.ReceiveFrame | request_handler.py:55-78 | a frame sent in one packet is received as the value it encodes |
| RequestHandler.ReceiveFrameInTwoChunks | request_handler.py:63-78 | a frame whose header and body arrive separately is received the same way |
| RequestHandler.ZeroLengthFrameReadsFalse | request_handler.py:68-72 | a zero-length body reads as False, which the main loop takes for a closed connection |
| RequestHandler.TimeoutReadsFalse | request_handler.py:86-97 | a timeout while waiting for the header reads as False |
| RequestHandler.Lookup | request_handler.py:141-145 | a lookup succeeds exactly for a registered string name; a list or dict raises TypeError and anything else KeyError |
| RequestHandler.Admission | request_handler.py:115-153 | a receive error is passed on; a first message that is not `["SPREADSHEET", name]` ends in AttributeError (`self.logging` does not exist); for a greeting, a registered string name is admitted with `(spreadsheets[name], locks[name])`, a list or dict name raises TypeError, and any other name gives None (not found) |
| RequestHandler.NamesJson | request_handler.py:204-206 | the reply lists each sheet name in order |
| RequestHandler.Dispatch | request_handler.py:184-210 | an unknown command changes nothing and sends nothing; a change to the sheets always comes with an "OK" reply |
| RequestHandler.SetReplies | request_handler.py:188-194 | SET answers "OK" with the new sheets, or `{"ERROR": msg}` for a ValueError or engine error; any other exception escapes |
| RequestHandler.GetReplies | request_handler.py:196-202 | GET answers the cells, or `{"ERROR": msg}` for a ValueError or engine error; any other exception escapes |
| RequestHandler.Serve | request_handler.py:180-210 | a session ends only when the connection is lost or an exception escapes |
| RequestHandler.FalseEndsSession | request_handler.py:184-186 | a message equal to False ends the session and nothing is answered |
| RequestHandler.UnknownCommandIgnored | request_handler.py:180-210 | an unknown command is skipped without a reply |
| RequestHandler.AnsweredCommandStep | request_handler.py:180-210 | an answered command sends its framed reply and the session continues with the new sheets |
| RequestHandler.Handler.constructor | request_handler.py:37 | a handler starts without a connection |
| RequestHandler.Handler.Send | request_handler.py:38-53 | sends exactly the frame of the message, or raises struct.error and sends nothing |
| RequestHandler.Handler.Receive | request_handler.py:55-78 | receives exactly `ServerReceive` of the incoming events |
| RequestHandler.Handler.CloseConnection | request_handler.py:161-178 | the spreadsheet's lock is free and the socket is closed |
| RequestHandler.Handler.MakeConnection | request_handler.py:101-159 | a bad greeting crashes; after `monitor_frequency + 1` attempts an unknown name gets "NOT FOUND" and the socket closes; a known name gets "OK", is bound, and its lock is taken, ending Blocked when another client held it |
| RequestHandler.Handler.Answer | request_handler.py:188-210 | the reply and the new sheets and saves are those of `Dispatch` |
| RequestHandler.Handler.MainLoop | request_handler.py:180-210 | the loop ends as `Serve` says, with the sheets, saves, sent bytes and remaining input `Serve` gives |
| RequestHandler.Handler.Handle | request_handler.py:212-219 | the ending follows `Admission` of the first message: its exception crashes the handler before anything is sent; None sends "NOT FOUND"; an admitted name binds that document and lock, ends Blocked if the lock was held, and otherwise ends as `Serve` ends, with the document and socket as `Serve` leaves them; a normal end frees the lock and closes the socket; a crash with a connection keeps the lock held |
| Client.ReceiversAgree | client.py:127-166 | the client and the server read the same frames; the client raises where the server answers False for an empty body |
| Client.ClientReceivesFrame | client.py:127-145 | a frame is received as the value it encodes |
| Client.ClientZeroLengthFrameRaises | client.py:136-140 | an empty body raises "Connection to server closed!" |
| Client.HandshakeReply | client.py:44-48 | only "OK" admits the client; any other reply raises "The requested spreadsheet was not found." |
| Client.CheckReply | client.py:67-70 | a reply that is not a dict is passed on unchanged |
| Client.NamesReply | client.py:76-81 | "ERROR" raises "Could not retrieve sheet names."; anything else is returned |
| Client.ErrorReplyRaises | client.py:97-101 | a server `{"ERROR": msg}` reply raises RuntimeError(msg) in the client |
| Client.HandshakeRepliesUnderstood | client.py:42-48 | the server's "OK" admits the client and "NOT FOUND" raises not-found |
| Client.SpreadsheetClient.constructor | client.py:29-35 | the client holds the given connection |
| Client.SpreadsheetClient.Send | client.py:112-125 | sends exactly the frame of the message, or raises struct.error |
| Client.SpreadsheetClient.Receive | client.py:127-145 | receives exactly `ClientReceive` of the incoming events |
| Client.SpreadsheetClient.Request | client.py:112-145 | sends the frame and then receives one reply |
| Client.SpreadsheetClient.Disconnect | client.py:168-177 | the socket is closed |
| Client.SpreadsheetClient.SetSpreadsheet | client.py:42-48 | sends the greeting, answers `HandshakeReply` of the reply, and disconnects exactly when it is refused |
| Client.SpreadsheetClient.SetCells | client.py:50-70 | sends SET and raises exactly when the reply is an error |
| Client.SpreadsheetClient.GetSheetNames | client.py:72-81 | sends GET_SHEETS and answers `NamesReply` of the reply |
| Client.SpreadsheetClient.GetCells | client.py:83-103 | sends GET and answers `CheckReply` of the reply |
| Client.SpreadsheetClient.SaveSpreadsheet | client.py:105-110 | sends SAVE and answers the reply as received |
| Monitor.ScannedTopFile | monitor.py:109-122 | a top-level file is listed under its own name unless it is ignored |
| Monitor.Scanned | monitor.py:104-124 | every scanned path is non-empty |
| Monitor.VisibleStep | monitor.py:72-73 | one more scanned name adds itself unless it is hidden |
| Monitor.Reconcile | monitor.py:127-136 | after a complete pass a name is registered exactly when it was scanned and was either registered before or is not hidden |
| Monitor.ReconcileMatchesDisk | monitor.py:69-101 | after a pass every registered name is on disk and every visible file is registered |
| Monitor.ReconcileIdempotent | monitor.py:127-136 | a second pass over the same files changes nothing |
| Monitor.RenameSwapsKey | tests/test_monitor.py:59-83 | renaming a registered file swaps the old name for the new one |
| Monitor.MonitorThread.constructor | monitor.py:26-39 | a new thread has scanned nothing and has not been asked to stop |
| Monitor.MonitorThread.StopThread | monitor.py:42-47 | afterwards the thread reports that it was stopped |
| Monitor.MonitorThread.LoadSpreadsheet | monitor.py:54-58 | `doc` is bound to a freshly opened document and a fresh free lock; every other name keeps its entries and its lock state |
| Monitor.MonitorThread.UnloadSpreadsheet | monitor.py:61-66 | the lock is taken and kept, the document closed, and `doc` leaves both dictionaries; no other lock changes |
| Monitor.MonitorThread.Registered | monitor.py:76-79 | the search finds the name exactly when it is registered |
| Monitor.MonitorThread.CheckOne | monitor.py:73-82 | a hidden name is skipped, a registered one left alone, any other loaded; no held lock is touched |
| Monitor.MonitorThread.CheckAdded | monitor.py:69-82 | every visible scanned name is registered afterwards, the existing entries are unchanged, and every lock keeps its state |
| Monitor.MonitorThread.Listed | monitor.py:92-96 | the search finds the key exactly when it is among the scanned files |
| Monitor.MonitorThread.Missing | monitor.py:90-98 | lists, each once, exactly the registered names not scanned |
| Monitor.MonitorThread.UnloadAll | monitor.py:100-101 | the listed names leave the registry in order up to the first one whose lock a client holds, where the loop waits; the survivors keep their entries and every lock its state |
| Monitor.MonitorThread.CheckRemoved | monitor.py:85-101 | it blocks exactly when a client holds the lock of a name no longer scanned; otherwise exactly the registered names that were scanned remain, with their entries |
| Monitor.MonitorThread.ScanDirectory | monitor.py:104-124 | appends the scanned paths of a listing: files in order, each folder's files where it is listed, ignored names skipped |
| Monitor.MonitorThread.Pass | monitor.py:128-136 | `docs` is the scan of the listing; the pass blocks exactly when a client holds the lock of a name no longer scanned; otherwise the registry becomes `Reconcile` of the old names and the scanned files, and a scan is recorded; lock states never change |
| Monitor.MonitorThread.Run | monitor.py:127-138 | a stopped thread changes nothing; a run that blocks has a held lock on a name no longer scanned; otherwise, after at least one pass, the registry is exactly the visible scanned files |
| LegacyServer.LegacyReceivesShortMessage | server.py:59-68 | a message of at most 4096 bytes in one packet is received whole |
| LegacyServer.LegacyCutsLongMessage | server.py:59-68 | a longer message is cut at 4096 bytes, and the rest is left for the next receive |
| LegacyServer.LegacyReceiveShrinks | server.py:59-62 | on a closed socket `__receive` answers False; each receive consumes input |
| LegacyServer.FirstItem | server.py:77 | `data[0]` exists exactly for a non-empty list or string |
| LegacyServer.LegacyAdmission | server.py:76-81 | a receive error is passed on; `data[0]` failing raises its error (TypeError for False); a first item other than "SPREADSHEET" raises the wrong-greeting RuntimeError; a greeting without a name raises IndexError, and one with a name is exactly the lookup of `spreadsheets[name]` and `locks[name]` |
| LegacyServer.LegacyDispatch | server.py:106-128 | a message without a first item raises; an unknown command changes nothing; there is no GET_SHEETS |
| LegacyServer.ZeroCellAnsweredAsError | server.py:118-124 | a cell holding 0 is answered "ERROR", because `0 != False` is false |
| LegacyServer.NonStringReferenceCrashes | connection.py:76-79 | a SET or GET whose cell reference is not a string raises AttributeError from `split` in both handlers' dispatch, and neither catches it |
| LegacyServer.FailedSetEndsHandler | server.py:114-116 | a SET that raises ValueError escapes the handler, where `request_handler.py` answers `{"ERROR": msg}` |
| LegacyServer.LegacyServe | server.py:106-128 | a session ends only when the connection is lost or an exception escapes |
| LegacyServer.LegacyHandler.constructor | server.py:36 | a handler starts without a connection |
| LegacyServer.LegacyHandler.Send | server.py:37-48 | sends the raw JSON bytes, with no length header |
| LegacyServer.LegacyHandler.Receive | server.py:51-68 | receives exactly `LegacyReceive` of the incoming events |
| LegacyServer.LegacyHandler.MakeConnection | server.py:71-84 | a failed admission crashes and sends nothing; a success sends "OK", binds the spreadsheet and takes its lock |
| LegacyServer.LegacyHandler.Answer | server.py:114-128 | the reply and the new sheets and saves are those of `LegacyDispatch` |
| LegacyServer.LegacyHandler.MainLoop | server.py:106-128 | the loop ends as `LegacyServe` says, with the state `LegacyServe` gives |
| LegacyServer.LegacyHandler.CloseConnection | server.py:87-103 | the lock is free and the socket is closed |
| LegacyServer.LegacyHandler.Handle | server.py:131-138 | the ending follows `LegacyAdmission`: its exception crashes the handler before anything is sent; an admitted name binds that document and lock, ends Blocked if the lock was held, and otherwise ends as `LegacyServe` ends; a normal end frees the lock and closes the socket; a crash leaves the socket as it was and any bound lock held |
| LegacyServer.TopFiles | server.py:196-198 | only the files at the top of the directory are listed |
| LegacyServer.FlatListingLoadsTheSame | server.py:196-198 | without subdirectories, the flat listing and the recursive scan register the same names |
| LegacyServer.VisibleConcat | server.py:197-198 | the visible names of two listings together are the visible names of each |
| LegacyServer.SubdirectoriesNotLoaded | server.py:196-198 | a file inside a subdirectory is never listed |
| LegacyServer.LegacyMonitor.constructor | server.py:33 | the monitor runs over a thread that watches "./spreadsheets" |
| LegacyServer.LegacyMonitor.Populate | server.py:250-262 | at start-up the registry is exactly the visible top-level files, each with a free lock |
| LegacyServer.LegacyMonitor.Pass | server.py:194-201 | one pass lists the top-level files; it blocks exactly when a client holds the lock of a name no longer listed, and otherwise reconciles the registry with them; lock states never change |
| LegacyServer.LegacyMonitor.Run | server.py:194-203 | a run that blocks has a held lock on a name no longer listed; otherwise, after at least one pass, every registered name was listed, every visible listed file is registered, and the registry is a fixed point of `Reconcile` |

## Left out

- The spreadsheet engine (pyoo over LibreOffice) is not part of this model. The model assumes the engine raises its RuntimeException for a position outside 1048576 rows by 1024 columns, for data whose shape does not match the range, and for a value it cannot store.
- Floating point: numbers are reals, and `float()` of a string accepts plain decimals with an optional sign, nothing else (no exponents, `inf` or `nan`).
- Characters are ASCII: `isalpha`, `isnumeric`, `isdigit` and `upper` are modelled for ASCII only.
- JSON text and UTF-8 are a codec given as a parameter; the model relies only on every value's encoding being non-empty and decoding back to the value.
- Sockets: `connect`, `shutdown` and the errors `send` and `sendall` can raise are not modelled; the peer is a fixed sequence of packets, empty reads and timeouts.
- Partial sends: `request_handler.py:51` and `server.py:46` call `send`, which may send only part of a message; the model appends the whole message each time.
- Logging is left out, except that `request_handler.py`'s `protocol_error` calls `self.logging`, which raises AttributeError; the model keeps that crash.
- Concurrency: handlers and the monitor run one at a time, and the registry does not change during the one-second sleeps of the handshake.
- Engine.Lock.Acquire: a blocking acquire of a held lock is a precondition. The handshake shows a held lock as the Blocked ending instead of waiting.
- Monitor.MonitorThread.UnloadSpreadsheet: requires the lock to be free, because a held lock would block until its client leaves.
- Monitor.MonitorThread.UnloadAll: acquiring a lock a client holds waits until the client releases it. Threads run one at a time here, so nothing releases it during the wait: the loop stops at that name and the pass ends as blocked (`CheckRemoved`, `Pass` and `Run` of both monitors report it). A client that later releases the lock and lets the pass go on is not modelled.
- Monitor.MonitorThread.Pass: `full_path.split(self.spreadsheets_path)[1][1:]` is modelled as the path below the spreadsheet directory. That holds when the directory's path does not end in '/' and does not occur again inside a file's full path, and `Pass` and `Run` require this of each listing (`RootedListing`); the other cases of the split are not modelled.
- Monitor.MonitorThread.Run: a finite list of ticks stands for the endless loop, and the sleep is left out.
- LegacyServer.LegacyMonitor.Run: a finite list of directory listings stands for the endless loop of `server.py`.
- The iteration order of Python dictionaries is left open: `Missing` may list names in any order.
- The data the callers pass is copied rather than updated in place. The coercion loops of `connection.py` and `spreadsheet_connection.py` rewrite the caller's list; the model builds a new one.
- Engine.SheetIndex: the sheet lookup of the engine, which is not part of this model, is assumed to raise KeyError for an unknown name, IndexError for an integer outside `[0, number of sheets)` (negative integers included), and TypeError for any other key, a bool included, although Python counts a bool as an integer. `tests/test_connection.py:214-223` expects ValueError for an unknown sheet name instead. Under the model's choice, a SET or GET naming an unknown sheet escapes the `(ValueError, RuntimeException)` handler of `request_handler.py`, and the handler crashes holding its lock.
- Connection.XyIndex: `pow` from `math` makes the column of a reference of two or more letters a float in `connection.py`; the model keeps it an integer, which has the same value while the column is below 2^53.
- `request_handler.py`'s 3-argument `SpreadsheetConnection` and its `save_path` are not modelled: the connection is bound with 2 arguments and SAVE uses the default directory of `connection.py`.
- `get_sheet_names` is missing from `connection.py`: RequestHandler.Dispatch answers GET_SHEETS with the document's sheet names, in order.
- After an exception escapes a handler, socketserver's own cleanup is not modelled, and the lock stays held because `__close_connection` is never reached.
- The legacy server's `recv` blocks while the peer is silent. The model waits through timeouts, and an empty event list counts as a closed peer.
- Start-up of `server.py` (launching soffice, connecting to it with 60 retries, binding the port) and `request_handler.py`'s `ThreadedTCPServer` are not modelled beyond an empty registry and the initial load.
- `spreadsheet_client.py`, `client_python2.py` and the example clients are not part of this model.
