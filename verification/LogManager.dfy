/** The manager dispatches each call to the log at its address, creating logs on first touch. */
module LogManager {
  import opened TransactionLog

  datatype LogType = DATA | TRANSACTION
  datatype CallKind = Read | Write | Once
  datatype Call = Call(kind: CallKind, at: Address, log: LogType, data: string)

  /** The contents of the two logs at one address. */
  datatype Entry = Entry(decision: string, entries: string)

  const UNTOUCHED := Entry(WORKING, "")

  /** What a call answers, given the entry at its address. */
  function Reply(e: Entry, kind: CallKind, log: LogType, data: string): Result<string> {
    if log == DATA then
      match kind
      case Read => Ok(e.entries)
      case Write => Ok(data)
      case Once => Thrown
    else
      match kind
      case Read => Ok(e.decision)
      case Write => TxWrite(e.decision, data)
      case Once => TxOnce(e.decision, data)
  }

  /** What it leaves there. */
  function After(e: Entry, kind: CallKind, log: LogType, data: string): Entry {
    if kind == Read || Reply(e, kind, log, data).Thrown? then e
    else if log == DATA then e.(entries := Appended(e.entries, data))
    else e.(decision := Reply(e, kind, log, data).value)
  }

  class LogPair {
    const dataLog: DataLog
    const transactionLog: TransactionLog

    constructor (ghost home: Address)
      ensures fresh(dataLog) && fresh(transactionLog)
      ensures dataLog.dataLogEntries == "" && transactionLog.decision == WORKING
      ensures dataLog.home == transactionLog.home == home
    {
      dataLog := new DataLog(home);
      transactionLog := new TransactionLog(home);
    }
  }

  class LogManager {
    var logs: map<nat, map<string, LogPair>>
    ghost var repr: set<object>

    ghost predicate Has(a: Address)
      reads this
    {
      a.txId in logs && a.clientId in logs[a.txId]
    }

    ghost predicate Valid()
      reads this, repr
    {
      this in repr && forall a :: Has(a) ==> PairOK(a, logs[a.txId][a.clientId])
    }

    ghost predicate PairOK(a: Address, pair: LogPair)
      reads this, repr
    {
      pair.dataLog in repr && pair.transactionLog in repr && pair.dataLog.home == pair.transactionLog.home == a
    }

    /** The entry at an address; an address nobody has touched reads like an untouched log. */
    ghost function At(a: Address): Entry
      requires Valid()
      reads this, repr
    {
      if Has(a) then
        var pair := logs[a.txId][a.clientId];
        assert PairOK(a, pair);
        Entry(pair.transactionLog.decision, pair.dataLog.dataLogEntries)
      else UNTOUCHED
    }

    constructor ()
      ensures Valid() && fresh(repr)
      ensures forall a :: At(a) == UNTOUCHED
    {
      logs := map[];
      repr := {this};
    }

    /** operator[] on both maps: the pair at the address, constructed if it was not there. */
    method GetLogPair(at: Address) returns (pair: LogPair)
      requires Valid()
      modifies this`logs, this`repr
      ensures Valid() && fresh(repr - old(repr))
      ensures Has(at) && pair == logs[at.txId][at.clientId]
      ensures forall a :: At(a) == old(At(a))
    {
      if at.txId !in logs {
        logs := logs[at.txId := map[]];
      }
      if at.clientId !in logs[at.txId] {
        var p := new LogPair(at);
        logs := logs[at.txId := logs[at.txId][at.clientId := p]];
        repr := repr + {p.dataLog, p.transactionLog};
      }
      pair := logs[at.txId][at.clientId];
    }

    method LOG_ONCE(at: Address, log: LogType, data: string) returns (r: Result<string>)
      requires Valid()
      modifies repr
      ensures Valid() && fresh(repr - old(repr))
      ensures r == Reply(old(At(at)), Once, log, data)
      ensures forall a :: At(a) == if a == at then After(old(At(at)), Once, log, data) else old(At(a))
    {
      var pair := GetLogPair(at);
      if log == DATA {
        r := pair.dataLog.LOG_ONCE(data);
      } else {
        r := pair.transactionLog.LOG_ONCE(data);
      }
    }

    method LOG_READ(at: Address, log: LogType, data: string) returns (r: Result<string>)
      requires Valid()
      modifies repr
      ensures Valid() && fresh(repr - old(repr))
      ensures r == Reply(old(At(at)), Read, log, data)
      ensures forall a :: At(a) == old(At(a))
    {
      var pair := GetLogPair(at);
      var s: string;
      if log == DATA {
        s := pair.dataLog.LOG_READ();
      } else {
        s := pair.transactionLog.LOG_READ();
      }
      r := Ok(s);
    }

    method LOG_WRITE(at: Address, log: LogType, data: string) returns (r: Result<string>)
      requires Valid()
      modifies repr
      ensures Valid() && fresh(repr - old(repr))
      ensures r == Reply(old(At(at)), Write, log, data)
      ensures forall a :: At(a) == if a == at then After(old(At(at)), Write, log, data) else old(At(a))
    {
      var pair := GetLogPair(at);
      if log == DATA {
        r := pair.dataLog.LOG_WRITE(data);
      } else {
        r := pair.transactionLog.LOG_WRITE(data);
      }
    }
  }

  function Next(e: Entry, at: Address, call: Call): Entry {
    if call.at == at then After(e, call.kind, call.log, call.data) else e
  }

  /** A request to the DBMS server reaches the manager. */
  method Dispatch(manager: LogManager, call: Call) returns (r: Result<string>)
    requires manager.Valid()
    modifies manager.repr
    ensures manager.Valid() && fresh(manager.repr - old(manager.repr))
    ensures r == Reply(old(manager.At(call.at)), call.kind, call.log, call.data)
    ensures forall a :: manager.At(a) == Next(old(manager.At(a)), a, call)
  {
    if call.kind == Read {
      r := manager.LOG_READ(call.at, call.log, call.data);
    } else if call.kind == Write {
      r := manager.LOG_WRITE(call.at, call.log, call.data);
    } else {
      r := manager.LOG_ONCE(call.at, call.log, call.data);
    }
  }

  // ---------------------------------------------------------------------------------------
  // Histories

  predicate On(call: Call, at: Address, log: LogType) {
    call.at == at && call.log == log
  }

  /** The entry at an address after a history of calls on a new manager. */
  function EntryAfter(h: seq<Call>, at: Address): Entry {
    if h == [] then UNTOUCHED else Next(EntryAfter(h[..|h| - 1], at), at, h[|h| - 1])
  }

  /** What a call answers after a history of calls. */
  function Answer(h: seq<Call>, call: Call): Result<string> {
    Reply(EntryAfter(h, call.at), call.kind, call.log, call.data)
  }

  /** Any sequence of calls on a new manager is answered as the histories say. */
  method Serve(calls: seq<Call>) returns (answers: seq<Result<string>>)
    ensures |answers| == |calls|
    ensures forall i :: 0 <= i < |calls| ==> answers[i] == Answer(calls[..i], calls[i])
  {
    var manager := new LogManager();
    answers := [];
    for n := 0 to |calls|
      invariant manager.Valid() && fresh(manager.repr)
      invariant |answers| == n
      invariant forall i :: 0 <= i < n ==> answers[i] == Answer(calls[..i], calls[i])
      invariant forall a :: manager.At(a) == EntryAfter(calls[..n], a)
    {
      var r := Dispatch(manager, calls[n]);
      answers := answers + [r];
      assert calls[..n + 1][..n] == calls[..n];
    }
  }

  // ---------------------------------------------------------------------------------------
  // Write-once registers

  ghost predicate NoWrites(h: seq<Call>, at: Address) {
    forall i :: 0 <= i < |h| && On(h[i], at, TRANSACTION) ==> h[i].kind != Write
  }

  /** As long as nobody calls LOG_WRITE on it, the first value a transaction log takes stays. */
  lemma {:induction false} FirstValueStays(h: seq<Call>, later: seq<Call>, at: Address)
    requires NoWrites(later, at) && EntryAfter(h, at).decision != WORKING
    ensures EntryAfter(h + later, at).decision == EntryAfter(h, at).decision
  {
    if later == [] {
      assert h + later == h;
    } else {
      var front := later[..|later| - 1];
      assert (h + later)[..|h + later| - 1] == h + front;
      FirstValueStays(h, front, at);
    }
  }

  /** All successful LOG_ONCE calls on one transaction log return the same value, the first accepted one. */
  lemma WriteOnce(h: seq<Call>, at: Address, i: nat, j: nat)
    requires NoWrites(h, at) && i <= j < |h|
    requires On(h[i], at, TRANSACTION) && h[i].kind == Once && Answer(h[..i], h[i]).Ok?
    requires On(h[j], at, TRANSACTION) && h[j].kind == Once && Answer(h[..j], h[j]).Ok?
    ensures Answer(h[..j], h[j]) == Answer(h[..i], h[i])
    ensures EntryAfter(h[..i], at).decision == WORKING ==> Answer(h[..j], h[j]) == Ok(h[i].data)
  {
    if i < j {
      assert h[..i + 1][..i] == h[..i];
      assert h[..i + 1] + h[i + 1..j] == h[..j];
      FirstValueStays(h[..i + 1], h[i + 1..j], at);
    }
  }

  /** A transaction log reads WORKING until a call puts a decision there; an accepted LOG_WRITE, or the first
      accepted LOG_ONCE, is what it reads from then on, up to the next LOG_WRITE. */
  lemma ReadsBack(h: seq<Call>, call: Call, later: seq<Call>, data: string)
    requires call.log == TRANSACTION && call.data in {"ABORT", "COMMIT", "VOTEYES"} && NoWrites(later, call.at)
    requires call.kind == Write || (call.kind == Once && EntryAfter(h, call.at).decision == "WORKING")
    ensures Answer(h + [call] + later, Call(Read, call.at, TRANSACTION, data)) == Ok(call.data)
  {
    assert (h + [call])[..|h|] == h;
    FirstValueStays(h + [call], later, call.at);
  }

  lemma {:induction false} ReadsWorking(h: seq<Call>, at: Address, data: string)
    requires forall i :: 0 <= i < |h| && On(h[i], at, TRANSACTION) && h[i].kind != Read ==>
      h[i].data !in {"ABORT", "COMMIT", "VOTEYES"}
    ensures Answer(h, Call(Read, at, TRANSACTION, data)) == Ok("WORKING")
  {
    if h != [] {
      ReadsWorking(h[..|h| - 1], at, data);
      assert On(h[|h| - 1], at, TRANSACTION) && h[|h| - 1].kind != Read ==> !Defined(h[|h| - 1].data);
    }
  }

  /** What has been written to a data log, call by call, and the text it should make. */
  function Written(h: seq<Call>, at: Address): seq<string> {
    if h == [] then []
    else
      var front, last := Written(h[..|h| - 1], at), h[|h| - 1];
      if On(last, at, DATA) && last.kind == Write then front + [last.data] else front
  }

  function Joined(items: seq<string>): string {
    if items == [] then ""
    else if |items| == 1 then items[0]
    else Joined(items[..|items| - 1]) + ";" + items[|items| - 1]
  }

  lemma {:induction false} EntriesAre(h: seq<Call>, at: Address)
    ensures var w, e := Written(h, at), EntryAfter(h, at).entries;
      && (|w| <= 1 || w[0] != "" ==> e == Joined(w))
      && (|w| > 1 && w[0] == "" ==> |e| < |Joined(w)|)
  {
    if h != [] {
      var front, last := h[..|h| - 1], h[|h| - 1];
      EntriesAre(front, at);
      if On(last, at, DATA) && last.kind == Write {
        JoinOne(Written(front, at), last.data);
      }
    }
  }

  lemma JoinOne(items: seq<string>, item: string)
    ensures Joined(items + [item]) == if items == [] then item else Joined(items) + ";" + item
    ensures items != [] && items[0] != "" ==> Joined(items) != ""
  {
    assert (items + [item])[..|items|] == items;
  }

  /** A data log reads as the texts written to it, joined by semicolons, exactly unless the first of several
      was empty: the separator is left out as long as nothing stands before it. */
  lemma DataReadsIff(h: seq<Call>, at: Address, data: string)
    ensures var w := Written(h, at);
      Answer(h, Call(Read, at, DATA, data)) == Ok(Joined(w)) <==> |w| <= 1 || w[0] != ""
  {
    EntriesAre(h, at);
  }

  /** The calls on one log. */
  function Only(h: seq<Call>, at: Address, log: LogType): seq<Call> {
    if h == [] then []
    else
      var front, last := Only(h[..|h| - 1], at, log), h[|h| - 1];
      if On(last, at, log) then front + [last] else front
  }

  lemma {:induction false} DecisionIsolated(h: seq<Call>, at: Address)
    ensures EntryAfter(h, at).decision == EntryAfter(Only(h, at, TRANSACTION), at).decision
  {
    if h != [] {
      var front, last := h[..|h| - 1], h[|h| - 1];
      DecisionIsolated(front, at);
      var tx := Only(front, at, TRANSACTION);
      assert (tx + [last])[..|tx|] == tx;
    }
  }

  lemma {:induction false} EntriesIsolated(h: seq<Call>, at: Address)
    ensures EntryAfter(h, at).entries == EntryAfter(Only(h, at, DATA), at).entries
  {
    if h != [] {
      var front, last := h[..|h| - 1], h[|h| - 1];
      EntriesIsolated(front, at);
      var data := Only(front, at, DATA);
      assert (data + [last])[..|data|] == data;
    }
  }

  /** Calls on other logs, first touches included, never show: what a call answers depends only on the
      earlier calls on its own log. */
  lemma Isolation(h: seq<Call>, call: Call)
    ensures Answer(h, call) == Answer(Only(h, call.at, call.log), call)
  {
    DecisionIsolated(h, call.at);
    EntriesIsolated(h, call.at);
  }
}
