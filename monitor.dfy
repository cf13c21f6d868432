/** monitor.py: the thread that keeps the server's spreadsheets in step with
    the spreadsheet directory. Each pass lists the directory tree, unloads
    every spreadsheet whose file is gone, and loads every new file that is
    not hidden, with a fresh lock. */
module Monitor {
  import opened Values
  import opened Engine
  import opened ServerState

  // ---------------------------------------------------------------------
  // The directory tree

  /** A file name; the file system has no empty names. */
  type Name = s: string | s != [] witness "a"

  /** What `listdir` lists, with what `isfile` and `isdir` say about it:
      a regular file, a directory with its own listing, or something that is
      neither (a dangling link, say), which the scan passes over. */
  datatype Entry = File(name: Name) | Folder(name: Name, entries: seq<Entry>) | Special(name: Name)

  /** The names the scan skips: office lock markers and `.gitignore`. */
  predicate Ignored(f: string)
  {
    (|f| >= 7 && f[..7] == ".~lock.") || f == ".gitignore"
  }

  /** A name starting with '.', which `__check_added` never loads. */
  predicate Hidden(doc: string)
  {
    doc != [] && doc[0] == '.'
  }

  function Size(e: Entry): (r: nat)
    ensures r >= 1
  {
    match e
    case Folder(_, es) => 1 + SizeAll(es)
    case _ => 1
  }

  function SizeAll(es: seq<Entry>): nat
  {
    if es == [] then 0 else SizeAll(es[..|es| - 1]) + Size(es[|es| - 1])
  }

  lemma {:induction false} SizeAllBound(es: seq<Entry>, i: nat)
    requires i < |es|
    ensures Size(es[i]) <= SizeAll(es)
  {
    if i < |es| - 1 {
      SizeAllBound(es[..|es| - 1], i);
    }
  }

  /** The paths `__scan_directory` appends, relative to the spreadsheet
      directory, for a listing found under `prefix` (empty at the top, then
      "sub/", and so on): files in listing order, each directory's files
      where the directory is listed. */
  function Scanned(es: seq<Entry>, prefix: string): (r: seq<string>)
    ensures forall i | 0 <= i < |r| :: r[i] != []
    decreases SizeAll(es), 1
  {
    if es == [] then []
    else Scanned(es[..|es| - 1], prefix) + ScannedOne(es[|es| - 1], prefix)
  }

  function ScannedOne(e: Entry, prefix: string): (r: seq<string>)
    ensures forall i | 0 <= i < |r| :: r[i] != []
    decreases Size(e), 0
  {
    if Ignored(e.name) then []
    else match e
      case File(name) => [prefix + name]
      case Folder(name, es) => Scanned(es, prefix + name + "/")
      case Special(_) => []
  }

  /** One more entry of a listing adds what that entry scans to. */
  lemma ScannedStep(es: seq<Entry>, i: nat, prefix: string)
    requires i < |es|
    ensures Scanned(es[..i + 1], prefix) == Scanned(es[..i], prefix) + ScannedOne(es[i], prefix)
  {
    assert es[..i + 1][..i] == es[..i];
  }

  /** A top-level file is scanned under its own name, unless it is ignored. */
  lemma ScannedTopFile(name: Name)
    ensures Scanned([File(name)], "") == (if Ignored(name) then [] else [name])
  {
    assert [File(name)][..0] == [];
    assert "" + name == name;
  }

  /** `full_path.split(spreadsheets_path)[1][1:]` is the path below the
      spreadsheet directory when the directory's own path does not end in
      '/' and does not occur again further along the full path. */
  predicate SplitsAtRoot(root: string, rel: string)
  {
    root != [] && root[|root| - 1] != '/' &&
    forall i | 0 < i <= |root| + 1 + |rel| :: !(root <= (root + "/" + rel)[i..])
  }

  /** Every path a listing scans to is cut from its full path as `Scanned`
      says. This is the condition under which `Scanned`'s `prefix + name`
      equals the source's split of the full path; the monitor's proofs do
      not use it, and `Pass` and `Run` require it only to record when the
      model applies. */
  predicate RootedListing(root: string, listing: seq<Entry>)
  {
    forall p {:trigger SplitsAtRoot(root, p)} | p in Scanned(listing, "") :: SplitsAtRoot(root, p)
  }

  // ---------------------------------------------------------------------
  // Reconciling the registry with the scan

  /** The scanned files that are not hidden. */
  function Visible(docs: seq<string>): set<string>
  {
    set d | d in docs && !Hidden(d)
  }

  lemma VisibleStep(docs: seq<string>, i: nat)
    requires i < |docs|
    ensures Visible(docs[..i + 1]) == Visible(docs[..i]) + (if Hidden(docs[i]) then {} else {docs[i]})
  {
    assert docs[..i + 1] == docs[..i] + [docs[i]];
  }

  /** The names registered after a pass that found `docs`: the old names
      still on disk, and every file on disk that is not hidden. */
  function Reconcile(keys: set<string>, docs: seq<string>): (r: set<string>)
    ensures forall k :: k in r <==> k in docs && (k in keys || !Hidden(k))
  {
    (set k | k in keys && k in docs) + Visible(docs)
  }

  /** After a pass every registered name is on disk and every visible file
      is registered. */
  lemma ReconcileMatchesDisk(keys: set<string>, docs: seq<string>)
    ensures forall k | k in Reconcile(keys, docs) :: k in docs
    ensures forall d | d in docs && !Hidden(d) :: d in Reconcile(keys, docs)
  {
  }

  /** Unloading the names not scanned, then loading the visible scanned
      ones, is `Reconcile`. */
  lemma ReconcileAfterRemoval(keys: set<string>, kept: set<string>, docs: seq<string>)
    requires kept == set k | k in keys && k in docs
    ensures kept + Visible(docs) == Reconcile(keys, docs)
  {
  }

  /** A second pass over the same files changes nothing. */
  lemma ReconcileIdempotent(keys: set<string>, docs: seq<string>)
    ensures Reconcile(Reconcile(keys, docs), docs) == Reconcile(keys, docs)
  {
  }

  /** Renaming one visible file swaps the old name for the new one. */
  lemma RenameSwapsKey(keys: set<string>, before: seq<string>, i: nat, newName: string)
    requires i < |before| && !Hidden(before[i]) && !Hidden(newName) && newName != before[i]
    requires keys == Reconcile(keys, before)
    requires forall j | 0 <= j < |before| && j != i :: before[j] != before[i] && before[j] != newName
    ensures Reconcile(keys, before[i := newName]) == keys - {before[i]} + {newName}
  {
    var after := before[i := newName];
    assert newName == after[i];
    assert before[i] !in after by {
      assert forall j | 0 <= j < |after| :: after[j] != before[i];
    }
    assert forall d | d in after && d != newName :: d in before by {
      forall d | d in after && d != newName
        ensures d in before
      {
        var j :| 0 <= j < |after| && after[j] == d;
        assert before[j] == d;
      }
    }
    assert forall d | d in before && d != before[i] :: d in after by {
      forall d | d in before && d != before[i]
        ensures d in after
      {
        var j :| 0 <= j < |before| && before[j] == d;
        assert after[j] == d;
      }
    }
  }

  // ---------------------------------------------------------------------
  // The monitor thread

  /** One observation of the directory: the tree a pass lists, and whether
      the thread is asked to stop while it sleeps after that pass. */
  datatype Tick = Tick(listing: seq<Entry>, stopAfter: bool)

  class MonitorThread {
    const server: Server
    const spreadsheetsPath: string
    const monitorFrequency: nat
    /** What the office engine opens from each path. */
    const library: string -> seq<Sheet>
    var docs: seq<string>
    var doneScan: bool
    var stopRequested: bool

    constructor(server: Server, spreadsheetsPath: string, monitorFrequency: nat, library: string -> seq<Sheet>)
      ensures this.server == server && this.spreadsheetsPath == spreadsheetsPath
      ensures this.monitorFrequency == monitorFrequency && this.library == library
      ensures docs == [] && !doneScan && !stopRequested
    {
      this.server := server;
      this.spreadsheetsPath := spreadsheetsPath;
      this.monitorFrequency := monitorFrequency;
      this.library := library;
      docs := [];
      doneScan := false;
      stopRequested := false;
    }

    /** `stop_thread`. */
    method StopThread()
      modifies this
      ensures Stopped()
      ensures docs == old(docs) && doneScan == old(doneScan)
    {
      stopRequested := true;
    }

    /** `stopped`. */
    function Stopped(): bool
      reads this
    {
      stopRequested
    }

    /** `initial_scan`: whether a pass has completed. */
    function InitialScan(): bool
      reads this
    {
      doneScan
    }

    /** `__load_spreadsheet`: the document opened from the spreadsheet
        directory and a fresh, free lock are put under `doc` in both maps. */
    method LoadSpreadsheet(doc: string)
      requires server.Valid()
      modifies server
      ensures server.Valid()
      ensures server.spreadsheets.Keys == old(server.spreadsheets.Keys) + {doc}
      ensures forall k | k in old(server.spreadsheets) && k != doc ::
                server.spreadsheets[k] == old(server.spreadsheets[k]) && server.locks[k] == old(server.locks[k])
      ensures fresh(server.spreadsheets[doc]) && fresh(server.locks[doc])
      ensures server.spreadsheets[doc].path == spreadsheetsPath + "/" + doc
      ensures server.spreadsheets[doc].sheets == library(spreadsheetsPath + "/" + doc)
      ensures !server.spreadsheets[doc].closed && !server.locks[doc].held
      ensures server.Documents == old(server.Documents) + {server.spreadsheets[doc]}
      ensures server.Locks == old(server.Locks) + {server.locks[doc]}
      ensures server.Held() == old(server.Held()) - {doc}
    {
      var path := spreadsheetsPath + "/" + doc;
      var d := new Document.Open(path, library(path));
      var l := new Lock();
      InsertConsistent(server.spreadsheets, server.locks, server.Documents, server.Locks, doc, d, l);
      HeldAfterInsert(server.locks, doc, l);
      server.spreadsheets := server.spreadsheets[doc := d];
      server.locks := server.locks[doc := l];
      server.Documents := server.Documents + {d};
      server.Locks := server.Locks + {l};
    }

    /** `__unload_spreadsheet`: the lock is taken and kept, the document is
        closed, and `doc` leaves both maps. Taking a held lock would wait
        for its client, so the lock must be free; `UnloadAll` checks that
        before each call. */
    method UnloadSpreadsheet(doc: string)
      requires server.Valid() && doc in server.spreadsheets
      requires !server.locks[doc].held
      modifies server, server.locks[doc], server.spreadsheets[doc]
      ensures server.Valid()
      ensures server.spreadsheets == old(server.spreadsheets) - {doc}
      ensures server.locks == old(server.locks) - {doc}
      ensures old(server.locks[doc]).held && old(server.spreadsheets[doc]).closed
      ensures server.Held() == old(server.Held())
      ensures server.Documents == old(server.Documents) && server.Locks == old(server.Locks)
    {
      ghost var held := server.Held();
      var l := server.locks[doc];
      var d := server.spreadsheets[doc];
      RemoveConsistent(server.spreadsheets, server.locks, server.Documents, server.Locks, doc);
      assert forall k | k in server.locks && k != doc :: server.locks[k] != l;
      l.Acquire();
      d.Close();
      server.spreadsheets := server.spreadsheets - {doc};
      server.locks := server.locks - {doc};
      assert forall k :: k in server.Held() <==> k in held;
    }

    /** The search of `__check_added` through the registered names, in the
        dictionary's order. */
    static method Registered(keys: set<string>, doc: string) returns (found: bool)
      ensures found == (doc in keys)
    {
      found := false;
      var pending := keys;
      while pending != {}
        invariant pending <= keys
        invariant doc !in keys - pending
        decreases |pending|
      {
        var key :| key in pending;
        if doc == key {
          return true;
        }
        pending := pending - {key};
      }
    }

    /** `__check_added`: every scanned file that is not hidden and not yet
        registered is loaded with a free lock; registered names keep their
        entries, and no lock a client holds is touched. */
    method CheckAdded()
      requires server.Valid()
      requires forall i | 0 <= i < |docs| :: docs[i] != []
      modifies server
      ensures server.Valid()
      ensures fresh(server.Documents - old(server.Documents)) && fresh(server.Locks - old(server.Locks))
      ensures server.spreadsheets.Keys == old(server.spreadsheets.Keys) + Visible(docs)
      ensures forall k | k in old(server.spreadsheets) ::
                server.spreadsheets[k] == old(server.spreadsheets[k]) && server.locks[k] == old(server.locks[k])
      ensures server.Held() == old(server.Held())
    {
      ghost var held := server.Held();
      var names := docs;
      var i := 0;
      while i < |names|
        invariant 0 <= i <= |names|
        invariant server.Valid() && server.Held() == held
        invariant fresh(server.Documents - old(server.Documents)) && fresh(server.Locks - old(server.Locks))
        invariant server.spreadsheets.Keys == old(server.spreadsheets.Keys) + Visible(names[..i])
        invariant forall k | k in old(server.spreadsheets) ::
                    server.spreadsheets[k] == old(server.spreadsheets[k]) && server.locks[k] == old(server.locks[k])
      {
        CheckOne(names[i]);
        VisibleStep(names, i);
        i := i + 1;
      }
      assert names[..i] == names;
    }

    /** The body of the loop of `__check_added`, for one scanned name: a
        hidden name is skipped, a registered one left alone, any other
        loaded. */
    method CheckOne(doc: string)
      requires server.Valid() && doc != []
      modifies server
      ensures server.Valid()
      ensures fresh(server.Documents - old(server.Documents)) && fresh(server.Locks - old(server.Locks))
      ensures server.spreadsheets.Keys == old(server.spreadsheets.Keys) + (if Hidden(doc) then {} else {doc})
      ensures forall k | k in old(server.spreadsheets) ::
                server.spreadsheets[k] == old(server.spreadsheets[k]) && server.locks[k] == old(server.locks[k])
      ensures server.Held() == old(server.Held())
    {
      if doc[0] != '.' {
        var found := Registered(server.spreadsheets.Keys, doc);
        if !found {
          LoadSpreadsheet(doc);
        }
      }
    }

    /** The first loop of `__check_removed`: the registered names that are
        not among the scanned files, each once, in the dictionary's order. */
    method Missing() returns (removed: seq<string>)
      ensures forall i, j | 0 <= i < j < |removed| :: removed[i] != removed[j]
      ensures forall k :: k in removed <==> k in server.spreadsheets && k !in docs
    {
      removed := [];
      var pending := server.spreadsheets.Keys;
      while pending != {}
        invariant pending <= server.spreadsheets.Keys
        invariant forall i, j | 0 <= i < j < |removed| :: removed[i] != removed[j]
        invariant forall k :: k in removed <==> k in server.spreadsheets.Keys - pending && k !in docs
        decreases |pending|
      {
        var key :| key in pending;
        var listed := Listed(docs, key);
        if !listed {
          removed := removed + [key];
        }
        pending := pending - {key};
      }
    }

    /** The inner loop of `__check_removed`: is `key` among the scanned files? */
    static method Listed(docs: seq<string>, key: string) returns (found: bool)
      ensures found == (key in docs)
    {
      var i := 0;
      while i < |docs|
        invariant 0 <= i <= |docs|
        invariant key !in docs[..i]
      {
        if key == docs[i] {
          return true;
        }
        assert docs[..i + 1] == docs[..i] + [docs[i]];
        i := i + 1;
      }
      assert docs[..i] == docs;
      return false;
    }

    /** `__check_removed`: the names no longer on disk are collected first,
        then unloaded; the rest keep their entries. The pass blocks exactly
        when a client holds the lock of a name that is gone. */
    method CheckRemoved() returns (blocked: bool)
      requires server.Valid()
      modifies server, server.Documents, server.Locks
      ensures server.Valid() && server.Documents == old(server.Documents) && server.Locks == old(server.Locks)
      ensures server.Held() == old(server.Held())
      ensures blocked <==> exists k | k in old(server.Held()) :: k !in docs
      ensures !blocked ==> server.spreadsheets.Keys == set k | k in old(server.spreadsheets) && k in docs
      ensures forall k | k in old(server.spreadsheets) && k in docs :: k in server.spreadsheets
      ensures server.spreadsheets.Keys <= old(server.spreadsheets.Keys)
      ensures forall k | k in server.spreadsheets ::
                server.spreadsheets[k] == old(server.spreadsheets[k]) && server.locks[k] == old(server.locks[k])
    {
      var removed := Missing();
      var unloaded := UnloadAll(removed);
      blocked := unloaded < |removed|;
      if blocked {
        assert removed[unloaded] in old(server.Held()) && removed[unloaded] !in docs;
      } else {
        assert removed[..unloaded] == removed;
      }
    }

    /** The second loop of `__check_removed`: each collected name is
        unloaded in turn. Acquiring the lock of a name a client holds waits
        for that client; nothing else runs meanwhile, so the loop stops
        there: `unloaded` names are gone and the next one is held. */
    method UnloadAll(removed: seq<string>) returns (unloaded: nat)
      requires server.Valid()
      requires forall i, j | 0 <= i < j < |removed| :: removed[i] != removed[j]
      requires forall i | 0 <= i < |removed| :: removed[i] in server.spreadsheets
      modifies server, server.Documents, server.Locks
      ensures server.Valid() && server.Documents == old(server.Documents) && server.Locks == old(server.Locks)
      ensures server.Held() == old(server.Held())
      ensures unloaded <= |removed|
      ensures forall j | 0 <= j < unloaded :: removed[j] !in old(server.Held())
      ensures unloaded < |removed| ==> removed[unloaded] in old(server.Held())
      ensures server.spreadsheets.Keys == old(server.spreadsheets.Keys) - (set r | r in removed[..unloaded])
      ensures forall k | k in server.spreadsheets ::
                server.spreadsheets[k] == old(server.spreadsheets[k]) && server.locks[k] == old(server.locks[k])
    {
      ghost var held := server.Held();
      var i := 0;
      while i < |removed|
        invariant 0 <= i <= |removed|
        invariant server.Valid() && server.Documents == old(server.Documents) && server.Locks == old(server.Locks)
        invariant server.Held() == held
        invariant forall j | 0 <= j < i :: removed[j] !in held
        invariant server.spreadsheets.Keys == old(server.spreadsheets.Keys) - (set r | r in removed[..i])
        invariant forall k | k in server.spreadsheets ::
                    server.spreadsheets[k] == old(server.spreadsheets[k]) && server.locks[k] == old(server.locks[k])
      {
        var doc := removed[i];
        assert doc !in removed[..i];
        if server.locks[doc].held {
          assert doc in server.Held();
          return i;
        }
        UnloadSpreadsheet(doc);
        assert removed[..i + 1] == removed[..i] + [doc];
        i := i + 1;
      }
      return i;
    }

    /** `__scan_directory`: the scanned paths of a listing are appended to
        `docs`, a directory's files where the directory is listed. */
    method ScanDirectory(entries: seq<Entry>, prefix: string)
      modifies this
      ensures docs == old(docs) + Scanned(entries, prefix)
      ensures doneScan == old(doneScan) && stopRequested == old(stopRequested)
      decreases SizeAll(entries)
    {
      var i := 0;
      while i < |entries|
        invariant 0 <= i <= |entries|
        invariant docs == old(docs) + Scanned(entries[..i], prefix)
        invariant doneScan == old(doneScan) && stopRequested == old(stopRequested)
      {
        var e := entries[i];
        ScannedStep(entries, i, prefix);
        if !Ignored(e.name) {
          match e
          case File(name) =>
            assert ScannedOne(e, prefix) == [prefix + name];
            docs := docs + [prefix + name];
          case Folder(name, children) =>
            SizeAllBound(entries, i);
            assert SizeAll(children) < SizeAll(entries);
            assert ScannedOne(e, prefix) == Scanned(children, prefix + name + "/");
            ScanDirectory(children, prefix + name + "/");
          case Special(_) =>
            assert ScannedOne(e, prefix) == [];
        } else {
          assert ScannedOne(e, prefix) == [];
        }
        i := i + 1;
      }
      assert entries[..i] == entries;
    }

    /** One pass of `run`: scan, unload what is gone, load what is new, and
        record that a scan was done. A pass that meets a lock a client holds
        waits in `__check_removed` and gets no further. */
    method Pass(listing: seq<Entry>) returns (blocked: bool)
      requires server.Valid() && RootedListing(spreadsheetsPath, listing)
      modifies this, server, server.Documents, server.Locks
      ensures server.Valid() && fresh(server.Documents - old(server.Documents)) && fresh(server.Locks - old(server.Locks))
      ensures server.Held() == old(server.Held())
      ensures docs == Scanned(listing, "")
      ensures blocked <==> exists k | k in old(server.Held()) :: k !in docs
      ensures !blocked ==> InitialScan() && server.spreadsheets.Keys == Reconcile(old(server.spreadsheets.Keys), docs)
      ensures blocked ==> doneScan == old(doneScan)
      ensures stopRequested == old(stopRequested)
    {
      ghost var held := server.Held();
      docs := [];
      ScanDirectory(listing, "");
      assert server.Held() == held && server.Valid();
      ghost var keys := server.spreadsheets.Keys;
      blocked := CheckRemoved();
      if blocked {
        return;
      }
      ghost var kept := server.spreadsheets.Keys;
      CheckAdded();
      ReconcileAfterRemoval(keys, kept, docs);
      doneScan := true;
    }

    /** `run`: a pass per observation until the stop flag is seen before a
        pass, or until a pass blocks on a lock a client holds. */
    method Run(ticks: seq<Tick>) returns (blocked: bool)
      requires server.Valid()
      requires forall i | 0 <= i < |ticks| :: RootedListing(spreadsheetsPath, ticks[i].listing)
      modifies this, server, server.Documents, server.Locks
      ensures server.Valid() && fresh(server.Documents - old(server.Documents)) && fresh(server.Locks - old(server.Locks))
      ensures server.Held() == old(server.Held())
      ensures old(stopRequested) ==> !blocked && docs == old(docs) && doneScan == old(doneScan) &&
                                      server.spreadsheets == old(server.spreadsheets)
      ensures blocked ==> exists k | k in server.Held() :: k !in docs
      ensures !old(stopRequested) && ticks != [] && !blocked ==>
                doneScan && forall k | k in server.spreadsheets :: k in docs
      ensures !old(stopRequested) && ticks != [] && !blocked ==>
                forall d | d in docs && !Hidden(d) :: d in server.spreadsheets
    {
      ghost var held := server.Held();
      blocked := false;
      var i := 0;
      while i < |ticks| && !stopRequested
        invariant 0 <= i <= |ticks|
        invariant server.Valid() && server.Held() == held
        invariant old(stopRequested) ==> i == 0
        invariant i == 0 ==> stopRequested == old(stopRequested) && docs == old(docs) &&
                             doneScan == old(doneScan) && server.spreadsheets == old(server.spreadsheets)
        invariant i > 0 ==> doneScan && server.spreadsheets.Keys == Reconcile(server.spreadsheets.Keys, docs)
        invariant fresh(server.Documents - old(server.Documents)) && fresh(server.Locks - old(server.Locks))
      {
        var before := server.spreadsheets.Keys;
        blocked := Pass(ticks[i].listing);
        if blocked {
          return;
        }
        ReconcileIdempotent(before, docs);
        if ticks[i].stopAfter {
          StopThread();
        }
        i := i + 1;
      }
      if i > 0 {
        ReconcileMatchesDisk(server.spreadsheets.Keys, docs);
      }
    }
  }
}
