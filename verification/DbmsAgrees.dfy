/**
  The logs of the protocols' transition systems are the DBMS's: over any history of calls in which one
  transaction makes the calls of a protocol run, whatever other transactions call in between.
 */
module DbmsAgrees {
  import opened Domain
  import opened LogTexts
  import DB = TransactionLog
  import L = LogManager
  import C1 = PaperProtocol
  import C2 = NewProtocol

  function At(txid: nat, h: Host): DB.Address {
    DB.Address(txid, h.address)
  }

  function LogCall(kind: L.CallKind, txid: nat, h: Host, data: Word): L.Call {
    L.Call(kind, At(txid, h), L.TRANSACTION, Text(data))
  }

  /** The calls to this transaction's transaction logs. */
  function Projection(h: seq<L.Call>, txid: nat): seq<L.Call> {
    if h == [] then []
    else
      var front, last := Projection(h[..|h| - 1], txid), h[|h| - 1];
      if last.at.txId == txid && last.log == L.TRANSACTION then front + [last] else front
  }

  lemma {:induction false} OnlyOfProjection(h: seq<L.Call>, txid: nat, p: Host)
    ensures L.Only(Projection(h, txid), At(txid, p), L.TRANSACTION) == L.Only(h, At(txid, p), L.TRANSACTION)
  {
    if h != [] {
      var front, last := h[..|h| - 1], h[|h| - 1];
      OnlyOfProjection(front, txid, p);
      var some := Projection(front, txid);
      assert (some + [last])[..|some|] == some;
    }
  }

  /** Other transactions do not show. */
  lemma ProjectionDecides(h: seq<L.Call>, txid: nat, p: Host)
    ensures L.EntryAfter(h, At(txid, p)).decision == L.EntryAfter(Projection(h, txid), At(txid, p)).decision
  {
    OnlyOfProjection(h, txid, p);
    L.DecisionIsolated(h, At(txid, p));
    L.DecisionIsolated(Projection(h, txid), At(txid, p));
  }

  lemma EntryNext(h: seq<L.Call>, call: L.Call, at: DB.Address)
    ensures L.EntryAfter(h + [call], at) == L.Next(L.EntryAfter(h, at), at, call)
  {
    assert (h + [call])[..|h|] == h;
  }

  /** What a call on a transaction log does to the word in it. */
  function WordAfter(kind: L.CallKind, current: Word, data: Word): Word {
    match kind
    case Read => current
    case Write => data
    case Once => Once(current, data)
  }

  /** What an action that may make a call does to the log of `p`. */
  function LogAfter(call: Option<(L.CallKind, Host, Word)>, p: Host, current: Word): Word {
    if call.Some? && call.value.1 == p then WordAfter(call.value.0, current, call.value.2) else current
  }

  /** One more call keeps the DBMS in step with the words. */
  lemma CallAgrees(h: seq<L.Call>, kind: L.CallKind, txid: nat, p: Host, data: Word, current: Word)
    requires kind != L.Read ==> data != WORKING
    requires L.EntryAfter(h, At(txid, p)).decision == Text(current)
    ensures L.EntryAfter(h + [LogCall(kind, txid, p, data)], At(txid, p)).decision ==
      Text(WordAfter(kind, current, data))
    ensures L.Answer(h, LogCall(kind, txid, p, data)) == DB.Ok(Text(WordAfter(kind, current, data)))
    ensures forall q :: q != p ==>
      L.EntryAfter(h + [LogCall(kind, txid, p, data)], At(txid, q)) == L.EntryAfter(h, At(txid, q))
  {
    EntryNext(h, LogCall(kind, txid, p, data), At(txid, p));
    if kind != L.Read { CallsAgree(current, data); }
    forall q | q != p
      ensures L.EntryAfter(h + [LogCall(kind, txid, p, data)], At(txid, q)) == L.EntryAfter(h, At(txid, q))
    {
      EntryNext(h, LogCall(kind, txid, p, data), At(txid, q));
    }
  }

  // ---------------------------------------------------------------------------------------
  // Cornus 1

  /** The log call an action makes: its kind, the host whose log it is, and the data. */
  function PaperCall(cfg: C1.Config, s: C1.State, a: C1.Action): Option<(L.CallKind, Host, Word)>
    requires C1.WF(cfg, s) && C1.Enabled(cfg, s, a)
  {
    if !a.Own? then None
    else
      match a.op
      case ClaimLog => Some((L.Once, a.host, VOTEYES))
      case TermOnce => Some((L.Once, C1.Target(cfg, s.site[a.host]), ABORT))
      case WriteLog => Some((L.Write, a.host, s.site[a.host].pc.decision.AsWord()))
      case _ => None
  }

  /** The calls a schedule makes, in order. */
  ghost function PaperCalls(cfg: C1.Config, schedule: seq<C1.Action>, txid: nat): seq<L.Call> {
    if schedule == [] then []
    else
      var front, a := schedule[..|schedule| - 1], schedule[|schedule| - 1];
      var before, s := PaperCalls(cfg, front, txid), C1.Exec(cfg, front);
      if C1.Enabled(cfg, s, a) && PaperCall(cfg, s, a).Some? then
        var c := PaperCall(cfg, s, a).value;
        before + [LogCall(c.0, txid, c.1, c.2)]
      else before
  }

  lemma PaperMove(cfg: C1.Config, h: Host, x: C1.Site, op: C1.Op, resp: Word)
    requires C1.Ready(cfg, x, op)
    ensures var x' := C1.Move(cfg, h, x, op, resp);
      x'.log == if op.ClaimLog? then Once(x.log, VOTEYES) else if op.WriteLog? then x.pc.decision.AsWord() else x.log
  {
  }

  lemma PaperStep(cfg: C1.Config, s: C1.State, a: C1.Action, p: Host)
    requires cfg.Valid() && C1.WF(cfg, s) && C1.Enabled(cfg, s, a) && p in cfg.Hosts()
    ensures C1.Step(cfg, s, a).site[p].log == LogAfter(PaperCall(cfg, s, a), p, s.site[p].log)
  {
    if a.Own? && a.op.TermOnce? {
      PaperTerm(cfg, s, a.host, p);
    } else if a.Own? {
      hide C1.Move;
      PaperMove(cfg, a.host, s.site[a.host], a.op, WORKING);
    }
  }

  lemma PaperTerm(cfg: C1.Config, s: C1.State, h: Host, p: Host)
    requires cfg.Valid() && C1.WF(cfg, s) && C1.Enabled(cfg, s, C1.Own(h, C1.TermOnce)) && p in cfg.Hosts()
    ensures var t := C1.Target(cfg, s.site[h]); var s' := C1.Step(cfg, s, C1.Own(h, C1.TermOnce));
      s'.site[p].log == if t == p then Once(s.site[p].log, ABORT) else s.site[p].log
  {
    hide C1.Move;
    var x := s.site[h];
    var t := C1.Target(cfg, x);
    assert t in cfg.participants;
    var y := s.site[t].LogOnce(ABORT);
    PaperMove(cfg, h, if t == h then y else x, C1.TermOnce, y.log);
  }

  lemma PaperData(cfg: C1.Config, s: C1.State, a: C1.Action)
    requires C1.WF(cfg, s) && C1.Enabled(cfg, s, a) && PaperCall(cfg, s, a).Some?
    ensures var c := PaperCall(cfg, s, a).value; c.0 != L.Read && c.2 != WORKING && c.1 in cfg.Hosts()
  {
    if a.op.TermOnce? { assert C1.Target(cfg, s.site[a.host]) in cfg.participants; }
  }

  lemma {:induction false} PaperEntries(cfg: C1.Config, schedule: seq<C1.Action>, txid: nat, p: Host)
    requires cfg.Valid() && p in cfg.Hosts()
    ensures L.EntryAfter(PaperCalls(cfg, schedule, txid), At(txid, p)).decision ==
      Text(C1.Exec(cfg, schedule).site[p].log)
  {
    hide C1.Enabled, C1.Step, PaperCall, L.Next, LogCall;
    if schedule != [] {
      var front, a := schedule[..|schedule| - 1], schedule[|schedule| - 1];
      var before, s := PaperCalls(cfg, front, txid), C1.Exec(cfg, front);
      PaperEntries(cfg, front, txid, p);
      if C1.Enabled(cfg, s, a) {
        PaperStep(cfg, s, a, p);
        if PaperCall(cfg, s, a).Some? {
          var c := PaperCall(cfg, s, a).value;
          PaperData(cfg, s, a);
          PaperEntries(cfg, front, txid, c.1);
          CallAgrees(before, c.0, txid, c.1, c.2, s.site[c.1].log);
        }
      }
    }
  }

  /** If the transaction's calls in a DBMS history are those of a run, its logs hold what the run's do. */
  lemma PaperLogs(cfg: C1.Config, schedule: seq<C1.Action>, txid: nat, h: seq<L.Call>, p: Host)
    requires cfg.Valid() && p in cfg.Hosts() && Projection(h, txid) == PaperCalls(cfg, schedule, txid)
    ensures L.EntryAfter(h, At(txid, p)).decision == Text(C1.Exec(cfg, schedule).site[p].log)
  {
    PaperEntries(cfg, schedule, txid, p);
    ProjectionDecides(h, txid, p);
  }

  /** The next call of the run is then answered, and never with the throw, with what the log holds after it. */
  lemma PaperAnswers(cfg: C1.Config, schedule: seq<C1.Action>, a: C1.Action, txid: nat, h: seq<L.Call>)
    requires cfg.Valid() && Projection(h, txid) == PaperCalls(cfg, schedule, txid)
    requires C1.Enabled(cfg, C1.Exec(cfg, schedule), a) && PaperCall(cfg, C1.Exec(cfg, schedule), a).Some?
    ensures var s := C1.Exec(cfg, schedule); var c := PaperCall(cfg, s, a).value;
      && c.1 in cfg.Hosts()
      && L.Answer(h, LogCall(c.0, txid, c.1, c.2)) == DB.Ok(Text(C1.Step(cfg, s, a).site[c.1].log))
  {
    hide C1.Enabled, C1.Step, PaperCall, L.Answer, LogCall, C1.Exec;
    var s := C1.Exec(cfg, schedule);
    var c := PaperCall(cfg, s, a).value;
    PaperData(cfg, s, a);
    PaperLogs(cfg, schedule, txid, h, c.1);
    PaperStep(cfg, s, a, c.1);
    CallAgrees(h, c.0, txid, c.1, c.2, s.site[c.1].log);
  }

  // ---------------------------------------------------------------------------------------
  // Cornus 2

  function StepCall(k: C2.LogOp): Option<L.CallKind> {
    match k
    case LogRead => Some(L.Read)
    case LogWrite => Some(L.Write)
    case _ => None
  }

  /** Every call is on the caller's own log; the data of a read is ignored. */
  function NewCall(a: C2.Action): Option<(L.CallKind, Host, Word)> {
    if !a.Own? then None
    else
      match a.op
      case DoRead => Some((L.Read, a.host, WORKING))
      case DoWrite => Some((L.Write, a.host, ABORT))
      case FinLog(k) => if StepCall(k).Some? then Some((StepCall(k).value, a.host, COMMIT)) else None
      case ReplLog(k) => if StepCall(k).Some? then Some((StepCall(k).value, a.host, COMMIT)) else None
      case _ => None
  }

  ghost function NewCalls(cfg: C2.Config, schedule: seq<C2.Action>, txid: nat): seq<L.Call> {
    if schedule == [] then []
    else
      var front, a := schedule[..|schedule| - 1], schedule[|schedule| - 1];
      var before := NewCalls(cfg, front, txid);
      if C2.Enabled(cfg, C2.Exec(cfg, front), a) && NewCall(a).Some? then
        var c := NewCall(a).value;
        before + [LogCall(c.0, txid, c.1, c.2)]
      else before
  }

  lemma NewMainMove(cfg: C2.Config, x: C2.Site, op: C2.Op)
    requires op.Main() && C2.Ready(x, op)
    ensures C2.MainMove(cfg, x, op).log == if op.DoWrite? then ABORT else x.log
  {
  }

  lemma NewMove(cfg: C2.Config, h: Host, x: C2.Site, op: C2.Op)
    requires C2.Ready(x, op)
    ensures C2.Move(cfg, x, op).log == LogAfter(NewCall(C2.Own(h, op)), h, x.log)
  {
    hide C2.MainMove;
    if op.Main() { NewMainMove(cfg, x, op); }
  }

  lemma NewStep(cfg: C2.Config, s: C2.State, a: C2.Action, p: Host)
    requires C2.WF(cfg, s) && C2.Enabled(cfg, s, a) && p in cfg.Hosts()
    ensures C2.Step(cfg, s, a).site[p].log == LogAfter(NewCall(a), p, s.site[p].log)
  {
    hide C2.Move;
    if a.Own? { NewMove(cfg, a.host, s.site[a.host], a.op); }
  }

  lemma NewData(cfg: C2.Config, s: C2.State, a: C2.Action)
    requires C2.WF(cfg, s) && C2.Enabled(cfg, s, a) && NewCall(a).Some?
    ensures var c := NewCall(a).value; (c.0 != L.Read ==> c.2 != WORKING) && c.1 in cfg.Hosts()
  {
  }

  lemma {:induction false} NewEntries(cfg: C2.Config, schedule: seq<C2.Action>, txid: nat, p: Host)
    requires cfg.Valid() && p in cfg.Hosts()
    ensures L.EntryAfter(NewCalls(cfg, schedule, txid), At(txid, p)).decision ==
      Text(C2.Exec(cfg, schedule).site[p].log)
  {
    hide C2.Enabled, C2.Step, NewCall, L.Next, LogCall;
    if schedule != [] {
      var front, a := schedule[..|schedule| - 1], schedule[|schedule| - 1];
      var before, s := NewCalls(cfg, front, txid), C2.Exec(cfg, front);
      NewEntries(cfg, front, txid, p);
      if C2.Enabled(cfg, s, a) {
        NewStep(cfg, s, a, p);
        if NewCall(a).Some? {
          var c := NewCall(a).value;
          NewData(cfg, s, a);
          NewEntries(cfg, front, txid, c.1);
          CallAgrees(before, c.0, txid, c.1, c.2, s.site[c.1].log);
        }
      }
    }
  }

  lemma NewLogs(cfg: C2.Config, schedule: seq<C2.Action>, txid: nat, h: seq<L.Call>, p: Host)
    requires cfg.Valid() && p in cfg.Hosts() && Projection(h, txid) == NewCalls(cfg, schedule, txid)
    ensures L.EntryAfter(h, At(txid, p)).decision == Text(C2.Exec(cfg, schedule).site[p].log)
  {
    NewEntries(cfg, schedule, txid, p);
    ProjectionDecides(h, txid, p);
  }

  lemma NewAnswers(cfg: C2.Config, schedule: seq<C2.Action>, a: C2.Action, txid: nat, h: seq<L.Call>)
    requires cfg.Valid() && Projection(h, txid) == NewCalls(cfg, schedule, txid)
    requires C2.Enabled(cfg, C2.Exec(cfg, schedule), a) && NewCall(a).Some?
    ensures var s := C2.Exec(cfg, schedule); var c := NewCall(a).value;
      && c.1 in cfg.Hosts()
      && L.Answer(h, LogCall(c.0, txid, c.1, c.2)) == DB.Ok(Text(C2.Step(cfg, s, a).site[c.1].log))
  {
    hide C2.Enabled, C2.Step, NewCall, L.Answer, LogCall, C2.Exec;
    var s := C2.Exec(cfg, schedule);
    var c := NewCall(a).value;
    NewData(cfg, s, a);
    NewLogs(cfg, schedule, txid, h, c.1);
    NewStep(cfg, s, a, c.1);
    CallAgrees(h, c.0, txid, c.1, c.2, s.site[c.1].log);
  }
}
