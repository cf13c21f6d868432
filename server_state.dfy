/** The state the server shares between its threads: the open spreadsheets
    by name, and one lock per spreadsheet. The request handlers read both
    maps, and the directory monitor keeps them in step with the files on
    disk. */
module ServerState {
  import opened Engine

  ghost predicate Consistent(spreadsheets: map<string, Document>, locks: map<string, Lock>,
                             documents: set<Document>, lockSet: set<Lock>)
  {
    spreadsheets.Keys == locks.Keys &&
    (forall a, b | a in locks && b in locks && a != b :: locks[a] != locks[b]) &&
    (forall k | k in locks :: locks[k] in lockSet && spreadsheets[k] in documents)
  }

  /** A new lock keeps the maps consistent. */
  lemma InsertConsistent(spreadsheets: map<string, Document>, locks: map<string, Lock>,
                         documents: set<Document>, lockSet: set<Lock>, doc: string, d: Document, l: Lock)
    requires Consistent(spreadsheets, locks, documents, lockSet) && l !in lockSet
    ensures Consistent(spreadsheets[doc := d], locks[doc := l], documents + {d}, lockSet + {l})
  {
  }

  /** Removing a name keeps the maps consistent. */
  lemma RemoveConsistent(spreadsheets: map<string, Document>, locks: map<string, Lock>,
                         documents: set<Document>, lockSet: set<Lock>, doc: string)
    requires Consistent(spreadsheets, locks, documents, lockSet)
    ensures Consistent(spreadsheets - {doc}, locks - {doc}, documents, lockSet)
  {
  }

  /** The names whose lock is held. */
  function HeldIn(locks: map<string, Lock>): set<string>
    reads locks.Values
  {
    set k | k in locks && locks[k].held
  }

  /** A free lock under `doc` takes `doc` out of the held names. */
  lemma HeldAfterInsert(locks: map<string, Lock>, doc: string, l: Lock)
    requires !l.held
    ensures HeldIn(locks[doc := l]) == HeldIn(locks) - {doc}
  {
  }

  class Server {
    var spreadsheets: map<string, Document>
    var locks: map<string, Lock>
    /** Every document and every lock the server has held. */
    ghost var Documents: set<Document>
    ghost var Locks: set<Lock>
    /** Seconds between two scans of the monitor, which also bounds how
        often a request handler retries a name it cannot find. */
    const monitorFrequency: nat

    constructor(monitorFrequency: nat)
      ensures spreadsheets == map[] && locks == map[]
      ensures this.monitorFrequency == monitorFrequency
      ensures Valid()
    {
      spreadsheets := map[];
      locks := map[];
      Documents := {};
      Locks := {};
      this.monitorFrequency := monitorFrequency;
    }

    /** Both maps have the same names, no two names share a lock, and
        every document and lock is accounted for. */
    ghost predicate Valid()
      reads this
    {
      Consistent(spreadsheets, locks, Documents, Locks)
    }

    /** The names whose spreadsheet a client holds locked. */
    function Held(): (r: set<string>)
      reads this, locks.Values
      ensures r <= locks.Keys
    {
      HeldIn(locks)
    }
  }
}
