/**
  The Cornus 2 handlers as the sequential code of Coordinator2.h, Participant2.h, Replicator.h and
  TransactionHandler2.hpp. Any two steps of one of them may have steps of everybody else in between,
  also of the other handlers on the same host, which share its log.
 */
module NewHandlers {
  import opened Domain
  import opened NewProtocol
  import opened NewInvariant
  import opened NewProgress
  import opened NewTheorems

  /** The handler is inside logFinal, at the step `Log`. */
  predicate Logging(role: Role, x: Site) {
    if role.Finisher? then x.fin.FLog? else x.repl.RLog?
  }

  function Log(role: Role, x: Site): LogPC
    requires Logging(role, x)
  {
    if role.Finisher? then x.fin.log else x.repl.log
  }

  function LogStep(role: Role, k: LogOp): Op {
    if role.Finisher? then FinLog(k) else ReplLog(k)
  }

  /** The run ends with the coordinator taking an ABORT request from its queue. */
  ghost predicate TookAbort(cfg: Config, run: seq<Action>) {
    run != [] && run[|run| - 1] == Own(cfg.coordinator, TakeVote) &&
    var x := Exec(cfg, run[..|run| - 1]).site[cfg.coordinator];
    x.inbox != [] && x.inbox[0].kind.AbortKind?
  }

  lemma TakesAbort(cfg: Config, run: seq<Action>)
    requires var x := Exec(cfg, run).site[cfg.coordinator]; x.inbox != [] && x.inbox[0].kind.AbortKind?
    ensures TookAbort(cfg, run + [Own(cfg.coordinator, TakeVote)])
  {
    hide Exec;
    assert (run + [Own(cfg.coordinator, TakeVote)])[..|run|] == run;
  }

  // ---------------------------------------------------------------------------------------
  // Sending

  /** What a handler sends to a whole group, other than WILLCOMMIT. */
  datatype Broadcast = Requests | Completions | Decisions(d: Decision) | Overrides(role: Role)

  function Group(cfg: Config, b: Broadcast): seq<Host> {
    if b.Completions? then cfg.replicators else cfg.participants
  }

  function Receivers(cfg: Config, b: Broadcast): set<Host> {
    if b.Completions? then cfg.Backups() else cfg.Members()
  }

  function Sender(b: Broadcast): Role {
    match b
    case Requests => Main
    case Completions | Decisions(_) => Finisher
    case Overrides(role) => role
  }

  predicate WellFormed(b: Broadcast) {
    b.Overrides? ==> !b.role.Main?
  }

  /** The handler is sending: `pending` are still to be sent to, the calls to `waiting` have not ended. */
  predicate Sending(b: Broadcast, x: Site, pending: set<Host>, waiting: set<Host>) {
    match b
    case Requests => x.main == SendReqs(pending, waiting)
    case Completions => x.fin == FComplete(pending, waiting)
    case Decisions(d) => x.fin == FTell(d, pending, waiting)
    case Overrides(role) => Logging(role, x) && Log(role, x) == LOverride(pending, waiting)
  }

  function SendOp(b: Broadcast, to: Host): Op {
    match b
    case Requests => SendReq(to)
    case Completions => Complete(to)
    case Decisions(_) => TellOne(to)
    case Overrides(role) => LogStep(role, Override(to))
  }

  function CallEndOp(b: Broadcast, to: Host): Op {
    match b
    case Requests => ReqCallEnds(to)
    case Completions => CompleteCallEnds(to)
    case Decisions(_) => TellCallEnds(to)
    case Overrides(role) => LogStep(role, OverrideCallEnds(to))
  }

  /** The message a call carries. */
  function Carried(b: Broadcast, h: Host, to: Host): Msg {
    match b
    case Requests => Msg(VoteReqKind, h, to)
    case Completions => Msg(CompletedKind, h, to)
    case Decisions(d) => Msg(if d == Commit then CommitKind else AbortKind, h, to)
    case Overrides(_) => Msg(OverrideKind, h, to)
  }

  function VoteOf(cfg: Config, p: Host, yes: bool): Msg {
    Msg(if yes then VoteYesKind else AbortKind, p, cfg.coordinator)
  }

  lemma MoveSend(cfg: Config, b: Broadcast, x: Site, pending: set<Host>, waiting: set<Host>, to: Host)
    requires WellFormed(b) && x.up && Sending(b, x, pending, waiting) && to in pending
    ensures Ready(x, SendOp(b, to)) && !SendOp(b, to).Resolve?
    ensures Sending(b, Move(cfg, x, SendOp(b, to)), pending - {to}, waiting)
    ensures forall h :: Sent(cfg, h, x, SendOp(b, to)) == multiset{Carried(b, h, to)}
  {
  }

  lemma MoveCallEnd(cfg: Config, b: Broadcast, x: Site, pending: set<Host>, waiting: set<Host>, to: Host)
    requires WellFormed(b) && x.up && Sending(b, x, pending, waiting) && to in waiting && to !in pending
    ensures Ready(x, CallEndOp(b, to)) && !CallEndOp(b, to).Resolve?
    ensures Sending(b, Move(cfg, x, CallEndOp(b, to)), pending, waiting - {to})
  {
  }

  lemma StandsSending(b: Broadcast, x: Site, x': Site, pending: set<Host>, waiting: set<Host>)
    requires WellFormed(b) && Sending(b, x, pending, waiting)
    ensures Started(Sender(b), x)
    ensures Stands(Sender(b), x, x') ==> Sending(b, x', pending, waiting)
  {
  }

  // ---------------------------------------------------------------------------------------
  // What returned handlers rest on

  lemma MoveLogging(cfg: Config, x: Site, role: Role, k: LogOp)
    requires x.up && !role.Main? && Logging(role, x) && LogReady(Log(role, x), k)
    ensures Ready(x, LogStep(role, k))
    ensures var x' := Move(cfg, x, LogStep(role, k));
      && Logging(role, x') && Log(role, x') == LogMove(cfg, Log(role, x), x.log, k)
      && x'.log == if k.LogWrite? then COMMIT else x.log
  {
  }

  lemma LoggedFinal(cfg: Config, s: State, h: Host, role: Role)
    requires Inv(cfg, s) && h in cfg.Hosts() && !role.Main?
    requires Logging(role, s.site[h]) && Log(role, s.site[h]) == LEnd
    ensures s.site[h].written && (role.Finisher? ==> Stored(cfg, s))
  {
    assert SiteOK(cfg, h, s.site[h], s.counted);
  }

  lemma ExtendsTrans(cfg: Config, r: State, s: State, t: State)
    requires WF(cfg, r) && WF(cfg, s) && WF(cfg, t) && Extends(cfg, r, s) && Extends(cfg, s, t)
    ensures Extends(cfg, r, t)
  {
  }

  lemma OwnStep(cfg: Config, s: State, h: Host, op: Op)
    requires Inv(cfg, s) && Enabled(cfg, s, Own(h, op))
    ensures Inv(cfg, Step(cfg, s, Own(h, op))) && Extends(cfg, s, Step(cfg, s, Own(h, op)))
    ensures Step(cfg, s, Own(h, op)).site[h] == Move(cfg, s.site[h], op)
  {
    StepInv(cfg, s, Own(h, op));
    StepExtends(cfg, s, Own(h, op));
  }

  lemma SentOut(cfg: Config, s: State, h: Host, op: Op, m: Msg)
    requires WF(cfg, s) && Enabled(cfg, s, Own(h, op)) && Sent(cfg, h, s.site[h], op) == multiset{m}
    ensures PutsOut(cfg, s, Own(h, op), m)
  {
  }

  lemma MoveUp(cfg: Config, x: Site, op: Op)
    requires Ready(x, op)
    ensures Move(cfg, x, op).up
  {
  }

  /** What a returned handler's decision rests on. */
  lemma Justified(cfg: Config, s: State, h: Host)
    requires Inv(cfg, s) && h in cfg.Hosts()
    ensures Effect(s.site[h]) ==> Basis(cfg, s)
    ensures s.site[h].repl.RDone? ==> s.site[h].written || Stored(cfg, s)
  {
    assert OutcomeOK(cfg, s, s.site[h]);
  }

  predicate DecidedAs(d: Decision, m: MainPC) {
    if d == Commit then CommitMain(m) else AbortMain(m)
  }

  /** The finishing thread tells what the coordinator decided. */
  lemma TellsDecision(cfg: Config, s: State)
    requires Inv(cfg, s) && s.site[cfg.coordinator].fin.FTell?
    ensures DecidedAs(s.site[cfg.coordinator].fin.decision, s.site[cfg.coordinator].main)
  {
    assert SiteOK(cfg, cfg.coordinator, s.site[cfg.coordinator], s.counted);
  }

  lemma TransactionFinished(cfg: Config, s: State, d: Decision)
    requires Inv(cfg, s) && s.site[cfg.coordinator].fin.FDone? && DecidedAs(d, s.site[cfg.coordinator].main)
    ensures Stored(cfg, s) <==> d == Commit
  {
    assert SiteOK(cfg, cfg.coordinator, s.site[cfg.coordinator], s.counted);
    assert Stored(cfg, s) ==> Effect(s.site[cfg.coordinator]);
  }

  lemma MoveTellEnd(cfg: Config, x: Site)
    requires Ready(x, TellEnd)
    ensures Move(cfg, x, TellEnd) == x.(fin := FDone)
  {
  }

  lemma MoveSayVote(cfg: Config, h: Host, x: Site)
    requires Ready(x, SayVote)
    ensures Move(cfg, x, SayVote).main == Said(x.main.SayYes?)
    ensures Sent(cfg, h, x, SayVote) == multiset{VoteOf(cfg, h, x.main.SayYes?)}
  {
  }

  lemma MoveVoteEnds(cfg: Config, x: Site)
    requires Ready(x, VoteCallEnds)
    ensures Move(cfg, x, VoteCallEnds).main == if x.main.yes then Wait else Done(Abort, Refused)
  {
  }

  lemma MoveReplEnd(cfg: Config, x: Site)
    requires x.up && x.repl == RLog(LEnd)
    ensures Ready(x, ReplEnd) && Move(cfg, x, ReplEnd).repl.RDone?
  {
  }

  /** What the coordinator's return from handleTransaction rests on. */
  lemma CoordinatorReturned(cfg: Config, s: State, d: Decision)
    requires Inv(cfg, s) && s.site[cfg.coordinator].main == Returned(d)
    ensures d == Commit ==> Basis(cfg, s)
    ensures d == Commit ==> forall r :: r in cfg.Backups() && r !in s.unacked ==> Started(Replicator, s.site[r])
    ensures d == Abort ==> forall h :: h in cfg.Hosts() ==> !Effect(s.site[h])
  {
    if d == Commit {
      assert Effect(s.site[cfg.coordinator]);
      forall r | r in cfg.Backups() && r !in s.unacked ensures Started(Replicator, s.site[r]) {
        assert Settled(cfg, s, r);
      }
    }
  }

  /** A vote that makes the coordinator decide COMMIT completes the set of voters. */
  lemma FullCount(cfg: Config, s: State)
    requires Inv(cfg, s) && Enabled(cfg, s, Own(cfg.coordinator, TakeVote))
    ensures var x := s.site[cfg.coordinator];
      x.inbox[0].kind.VoteYesKind? && x.main.votes + 1 == |cfg.participants| ==>
        Step(cfg, s, Own(cfg.coordinator, TakeVote)).counted == cfg.Members()
  {
    if s.site[cfg.coordinator].inbox[0].kind.VoteYesKind? { NextVote(cfg, s); }
  }

  /** All a replicator is ever told is that COMMIT is stored at the coordinator's address. */
  lemma ToldCompleted(cfg: Config, s: State, r: Host)
    requires Inv(cfg, s) && Enabled(cfg, s, Own(r, ReplTake))
    ensures s.site[r].replInbox[0].kind.CompletedKind? && Stored(cfg, s)
  {
    assert QueueOK(cfg, s, r, s.site[r]);
    assert MsgOK(cfg, s, s.site[r].replInbox[0]);
  }

  lemma CollectsOnlyVotes(cfg: Config, s: State)
    requires Inv(cfg, s) && s.site[cfg.coordinator].main.Collect? && s.site[cfg.coordinator].inbox != []
    ensures var x := s.site[cfg.coordinator];
      x.inbox[0].kind.AbortKind? || (x.inbox[0].kind.VoteYesKind? && x.main.votes + 1 <= |cfg.participants|)
  {
    var x := s.site[cfg.coordinator];
    assert QueueOK(cfg, s, cfg.coordinator, x);
    assert MsgOK(cfg, s, x.inbox[0]) && x.inbox[0].dst == cfg.coordinator && MainKind(x.inbox[0].kind);
    if x.inbox[0].kind.VoteYesKind? { NextVote(cfg, s); }
  }

  class Cluster {
    const cfg: Config
    var s: State
    /** Everything that has happened so far. */
    ghost var run: seq<Action>

    /** The state is the one the run leads to. */
    ghost predicate Valid()
      reads this
    {
      cfg.Valid() && WF(cfg, s) && Inv(cfg, s) && s == Exec(cfg, run)
    }

    constructor (cfg: Config)
      requires cfg.Valid()
      ensures this.cfg == cfg && s == Init(cfg) && run == [] && Valid()
    {
      this.cfg := cfg;
      s := Init(cfg);
      run := [];
      InitInv(cfg);
    }

    ghost predicate Live(h: Host)
      requires Valid()
      reads this
    {
      h in cfg.Hosts() && s.site[h].up
    }

    /** One step of a handler on the live host `h`. */
    method Perform(h: Host, op: Op)
      requires Valid() && Live(h) && Enabled(cfg, s, Own(h, op))
      modifies this`s, this`run
      ensures run == old(run) + [Own(h, op)] && s == Step(cfg, old(s), Own(h, op))
      ensures Valid() && Live(h) && Extends(cfg, old(s), s)
      ensures s.site[h] == Move(cfg, old(s.site[h]), op)
      ensures Performed(cfg, run, |old(run)|, Own(h, op))
      ensures forall m :: Sent(cfg, h, old(s.site[h]), op) == multiset{m} ==>
        Sends(cfg, run, |old(run)|, Own(h, op), m)
    {
      hide Inv, ExecFrom, Exec, Step, Performed, Move, Extends, Sends, Sent, PutsOut;
      OwnStep(cfg, s, h, op);
      MoveUp(cfg, s.site[h], op);
      ExecMore(cfg, run, Own(h, op));
      PerformedNow(cfg, run, |run|, Own(h, op));
      forall m | Sent(cfg, h, s.site[h], op) == multiset{m}
        ensures Sends(cfg, run + [Own(h, op)], |run|, Own(h, op), m)
      {
        SentOut(cfg, s, h, op, m);
        SendsNow(cfg, run, |run|, Own(h, op), m);
      }
      s, run := Step(cfg, s, Own(h, op)), run + [Own(h, op)];
    }

    /** Everybody else, the network and the faults do whatever they like; only the handler in this role
        on the live host `me` does not move. */
    method Interfere(me: Host, role: Role)
      requires Valid() && Live(me) && Started(role, s.site[me])
      modifies this`s, this`run
      ensures old(run) <= run && forall i :: |old(run)| <= i < |run| ==> !Moves(run[i], me, role)
      ensures Valid() && Live(me) && Stands(role, old(s.site[me]), s.site[me])
      ensures Extends(cfg, old(s), s)
    {
      hide Inv, ExecFrom, Step;
      var schedule: seq<Action> := *;
      for i := 0 to |schedule|
        invariant old(run) <= run && forall i :: |old(run)| <= i < |run| ==> !Moves(run[i], me, role)
        invariant Valid() && Live(me) && Stands(role, old(s.site[me]), s.site[me])
        invariant Extends(cfg, old(s), s)
      {
        var a := schedule[i];
        if !Moves(a, me, role) && Enabled(cfg, s, a) {
          OthersStep(cfg, s, a, me, role);
          ExtendsTrans(cfg, old(s), s, Step(cfg, s, a));
          ExecMore(cfg, run, a);
          s, run := Step(cfg, s, a), run + [a];
        }
      }
    }

    // -------------------------------------------------------------------------------------
    // Sender

    /** The first loop of Sender::send: start a call to every member of the group. */
    method StartCalls(h: Host, b: Broadcast)
      requires Valid() && Live(h) && WellFormed(b)
      requires Sending(b, s.site[h], Receivers(cfg, b), Receivers(cfg, b))
      modifies this`s, this`run
      ensures old(run) <= run
      ensures Valid() && Live(h) && Sending(b, s.site[h], {}, Receivers(cfg, b))
      ensures forall p :: p in Receivers(cfg, b) ==>
        Sends(cfg, run, |old(run)|, Own(h, SendOp(b, p)), Carried(b, h, p))
    {
      hide Inv, ExecFrom, Exec, Step, Performed, Sends, Sending, Move, Ready, Stands, Extends, Sent, SendOp, Carried;
      var group := Group(cfg, b);
      ghost var from := |run|;
      for i := 0 to |group|
        invariant old(run) <= run
        invariant Valid() && Live(h) && Sending(b, s.site[h], From(group, i), Receivers(cfg, b))
        invariant forall p :: p in group[..i] ==> Sends(cfg, run, from, Own(h, SendOp(b, p)), Carried(b, h, p))
      {
        ghost var before, x := run, s.site[h];
        StandsSending(b, x, x, From(group, i), Receivers(cfg, b));
        Interfere(h, Sender(b));
        StandsSending(b, x, s.site[h], From(group, i), Receivers(cfg, b));
        FromStep(group, i);
        MoveSend(cfg, b, s.site[h], From(group, i), Receivers(cfg, b), group[i]);
        ghost var now := |run|;
        Perform(h, SendOp(b, group[i]));
        assert group[..i + 1] == group[..i] + [group[i]];
        SendsStays(cfg, before, run, from);
        SendsSince(cfg, run, from, now);
      }
      assert From(group, |group|) == {};
    }

    /** resolveFutures: wait for one call after the other to end. */
    method AwaitCalls(h: Host, b: Broadcast)
      requires Valid() && Live(h) && WellFormed(b)
      requires Sending(b, s.site[h], {}, Receivers(cfg, b))
      modifies this`s, this`run
      ensures old(run) <= run
      ensures Valid() && Live(h) && Sending(b, s.site[h], {}, {})
    {
      hide Inv, ExecFrom, Exec, Step, Performed, Sending, Move, Ready, Stands, Extends;
      var group := Group(cfg, b);
      for i := 0 to |group|
        invariant old(run) <= run
        invariant Valid() && Live(h) && Sending(b, s.site[h], {}, From(group, i))
      {
        ghost var x := s.site[h];
        StandsSending(b, x, x, {}, From(group, i));
        Interfere(h, Sender(b));
        StandsSending(b, x, s.site[h], {}, From(group, i));
        FromStep(group, i);
        MoveCallEnd(cfg, b, s.site[h], {}, From(group, i), group[i]);
        Perform(h, CallEndOp(b, group[i]));
      }
      assert From(group, |group|) == {};
    }

    /** Sender::send to a whole group: everybody is sent the request, then all calls have ended. */
    method Send(h: Host, b: Broadcast)
      requires Valid() && Live(h) && WellFormed(b)
      requires Sending(b, s.site[h], Receivers(cfg, b), Receivers(cfg, b))
      modifies this`s, this`run
      ensures old(run) <= run
      ensures Valid() && Live(h) && Sending(b, s.site[h], {}, {})
      ensures forall p :: p in Receivers(cfg, b) ==>
        Sends(cfg, run, |old(run)|, Own(h, SendOp(b, p)), Carried(b, h, p))
    {
      hide Inv, ExecFrom, Exec, Step, Performed, Sends, Sending;
      StartCalls(h, b);
      ghost var sent := run;
      AwaitCalls(h, b);
      SendsStays(cfg, sent, run, |old(run)|);
    }

    // -------------------------------------------------------------------------------------
    // NewTransactionHandler

    /** terminationProtocol: LOG_READ, then unless it tells the outcome, LOG_WRITE("ABORT"); the log may
        have changed in between. */
    method TerminationProtocol(h: Host) returns (d: Decision, ghost read: Word)
      requires Valid() && Live(h) && s.site[h].main.TermRead?
      modifies this`s, this`run
      ensures old(run) <= run
      ensures Valid() && Live(h) && s.site[h].main == Done(d, TimedOut(read))
      ensures d == Commit <==> read == COMMIT
      ensures s.site[h].log == d.AsWord()
    {
      hide Inv, ExecFrom, Exec, Step, Performed, Extends;
      var prev := s.site[h].log;
      read := prev;
      Perform(h, DoRead);
      if prev == COMMIT {
        d := Commit;
      } else if prev == ABORT {
        d := Abort;
      } else {
        Interfere(h, Main);
        Perform(h, DoWrite);
        d := Abort;
      }
    }

    /** One step of logFinal, in whichever handler runs it. */
    method PerformLog(h: Host, role: Role, k: LogOp)
      requires Valid() && Live(h) && !role.Main? && Logging(role, s.site[h]) && LogReady(Log(role, s.site[h]), k)
      modifies this`s, this`run
      ensures run == old(run) + [Own(h, LogStep(role, k))]
      ensures Valid() && Live(h) && Extends(cfg, old(s), s) && Logging(role, s.site[h])
      ensures Log(role, s.site[h]) == LogMove(cfg, old(Log(role, s.site[h])), old(s.site[h].log), k)
      ensures s.site[h].log == if k.LogWrite? then COMMIT else old(s.site[h].log)
      ensures Performed(cfg, run, |old(run)|, Own(h, LogStep(role, k)))
    {
      hide Inv, ExecFrom, Exec, Step, Performed, Extends;
      MoveLogging(cfg, s.site[h], role, k);
      Perform(h, LogStep(role, k));
    }

    /** logFinal("COMMIT", ...), in the finishing thread or in a replicator, on the log of its own host: it
        writes unless it reads COMMIT, and overrides exactly if it read ABORT. */
    method LogFinal(h: Host, role: Role)
      requires Valid() && Live(h) && !role.Main? && Logging(role, s.site[h]) && Log(role, s.site[h]) == LRead
      modifies this`s, this`run
      ensures old(run) <= run
      ensures Valid() && Live(h) && Logging(role, s.site[h]) && Log(role, s.site[h]) == LEnd
      ensures s.site[h].written && (role.Finisher? ==> Stored(cfg, s))
      ensures old(s.site[h].log) == COMMIT ==> run == old(run) + [Own(h, LogStep(role, LogRead))]
      ensures old(s.site[h].log) != COMMIT ==> Performed(cfg, run, |old(run)|, Own(h, LogStep(role, LogWrite)))
      ensures old(s.site[h].log) == ABORT ==> forall p :: p in cfg.Members() ==>
        Sends(cfg, run, |old(run)|, Own(h, LogStep(role, Override(p))), Msg(OverrideKind, h, p))
      ensures old(s.site[h].log) != ABORT ==>
        forall i, p :: |old(run)| <= i < |run| ==> run[i] != Own(h, LogStep(role, Override(p)))
    {
      hide Inv, ExecFrom, Exec, Step, Performed, Sends, Extends, Move, Ready;
      var prev := s.site[h].log;
      PerformLog(h, role, LogRead);
      if prev != COMMIT {
        ghost var now := |run|;
        WriteCommit(h, role, prev);
        PerformedSince(cfg, run, |old(run)|, now);
        SendsSince(cfg, run, |old(run)|, now);
      }
      LoggedFinal(cfg, s, h, role);
    }

    /** What logFinal does once it has read something else than COMMIT. */
    method WriteCommit(h: Host, role: Role, prev: Word)
      requires Valid() && Live(h) && !role.Main? && Logging(role, s.site[h]) && Log(role, s.site[h]) == LWrite(prev)
      modifies this`s, this`run
      ensures old(run) <= run
      ensures Valid() && Live(h) && Logging(role, s.site[h]) && Log(role, s.site[h]) == LEnd
      ensures Performed(cfg, run, |old(run)|, Own(h, LogStep(role, LogWrite)))
      ensures prev == ABORT ==> forall p :: p in cfg.Members() ==>
        Sends(cfg, run, |old(run)|, Own(h, LogStep(role, Override(p))), Msg(OverrideKind, h, p))
      ensures prev != ABORT ==>
        forall i, p :: |old(run)| <= i < |run| ==> run[i] != Own(h, LogStep(role, Override(p)))
    {
      hide Inv, ExecFrom, Exec, Step, Performed, Sends, Extends, Move, Ready;
      Interfere(h, role);
      ghost var now := |run|;
      PerformLog(h, role, LogWrite);
      ghost var written := run;
      if prev == ABORT {
        SendOverrides(h, role, |old(run)|);
      }
      PerformedStays(cfg, written, run, now);
      PerformedSince(cfg, run, |old(run)|, now);
    }

    /** sendToParticipants("OVERRIDECOMMIT", ...) */
    method SendOverrides(h: Host, role: Role, ghost from: nat)
      requires from <= |run|
      requires Valid() && Live(h) && !role.Main? && Logging(role, s.site[h])
      requires Log(role, s.site[h]) == LOverride(cfg.Members(), cfg.Members())
      modifies this`s, this`run
      ensures old(run) <= run
      ensures Valid() && Live(h) && Logging(role, s.site[h]) && Log(role, s.site[h]) == LEnd
      ensures forall p :: p in cfg.Members() ==>
        Sends(cfg, run, from, Own(h, LogStep(role, Override(p))), Msg(OverrideKind, h, p))
    {
      hide Inv, ExecFrom, Exec, Step, Performed, Sends, Extends;
      ghost var now := |run|;
      Send(h, Overrides(role));
      ghost var sent := run;
      assert forall p :: p in cfg.Members() ==>
        Sends(cfg, run, now, Own(h, SendOp(Overrides(role), p)), Carried(Overrides(role), h, p));
      Interfere(h, role);
      PerformLog(h, role, OverrideEnd);
      SendsStays(cfg, sent, run, now);
      SendsSince(cfg, run, from, now);
    }

    // -------------------------------------------------------------------------------------
    // NewCoordinator

    /** The voting phase: only a full count leads to COMMIT, an ABORT request or a timeout to ABORT. */
    method CollectVotes() returns (d: Decision)
      requires Valid() && Live(cfg.coordinator) && s.site[cfg.coordinator].main == Collect(0)
      modifies this`s, this`run
      ensures old(run) <= run
      ensures Valid() && Live(cfg.coordinator)
      ensures s.site[cfg.coordinator].main == if d == Commit then SendWill(cfg.Backups()) else Returned(Abort)
      ensures d == Commit ==> s.counted == cfg.Members()
      ensures old(run) < run
      ensures d == Abort ==> TookAbort(cfg, run) || run[|run| - 1] == Own(cfg.coordinator, CollectTimeout)
    {
      hide Inv, ExecFrom, Exec, Step, Performed, Extends, TookAbort;
      var c := cfg.coordinator;
      var votes: nat := 0;
      while true
        invariant old(run) <= run
        invariant Valid() && Live(c) && s.site[c].main == Collect(votes)
        decreases |cfg.participants| - votes
      {
        Interfere(c, Main);
        if s.site[c].inbox != [] {
          CollectsOnlyVotes(cfg, s);
          FullCount(cfg, s);
          var kind := s.site[c].inbox[0].kind;
          if kind == AbortKind { TakesAbort(cfg, run); }
          Perform(c, TakeVote);
          if kind == VoteYesKind {
            votes := votes + 1;
            if votes == |cfg.participants| {
              return Commit;
            }
          } else if kind == AbortKind {
            return Abort;
          }
        } else { // Timeout in voting phase
          Perform(c, CollectTimeout);
          return Abort;
        }
      }
    }

    /** sendToReplicators("WILLCOMMIT", ...): start a call to every replicator. */
    method SendWillCommit()
      requires Valid() && Live(cfg.coordinator) && s.site[cfg.coordinator].main == SendWill(cfg.Backups())
      modifies this`s, this`run
      ensures old(run) <= run
      ensures Valid() && Live(cfg.coordinator) && s.site[cfg.coordinator].main == SendWill({})
      ensures forall r :: r in cfg.Backups() ==>
        Sends(cfg, run, |old(run)|, Own(cfg.coordinator, SendWillTo(r)), Msg(WillKind, cfg.coordinator, r))
    {
      hide Inv, ExecFrom, Exec, Step, Performed, Sends, Extends;
      var c := cfg.coordinator;
      ghost var from := |run|;
      for i := 0 to |cfg.replicators|
        invariant old(run) <= run
        invariant Valid() && Live(c) && s.site[c].main == SendWill(From(cfg.replicators, i))
        invariant forall r :: r in cfg.replicators[..i] ==>
          Sends(cfg, run, from, Own(c, SendWillTo(r)), Msg(WillKind, c, r))
      {
        ghost var before := run;
        Interfere(c, Main);
        FromStep(cfg.replicators, i);
        ghost var now := |run|;
        Perform(c, SendWillTo(cfg.replicators[i]));
        assert cfg.replicators[..i + 1] == cfg.replicators[..i] + [cfg.replicators[i]];
        SendsStays(cfg, before, run, from);
        SendsSince(cfg, run, from, now);
      }
    }

    /** resolveFutures for those calls. A call succeeds only after the replicator has been started;
        otherwise the connection broke. */
    method AwaitWillCommit()
      requires Valid() && Live(cfg.coordinator) && s.site[cfg.coordinator].main == AwaitWill(cfg.Backups())
      modifies this`s, this`run
      ensures old(run) <= run
      ensures Valid() && Live(cfg.coordinator) && s.site[cfg.coordinator].main == AwaitWill({})
    {
      hide Inv, ExecFrom, Exec, Step, Performed, Extends;
      var c := cfg.coordinator;
      for i := 0 to |cfg.replicators|
        invariant old(run) <= run
        invariant Valid() && Live(c) && s.site[c].main == AwaitWill(From(cfg.replicators, i))
      {
        Interfere(c, Main);
        FromStep(cfg.replicators, i);
        var answered: bool := *;
        Perform(c, Resolve(cfg.replicators[i], answered && !s.site[cfg.replicators[i]].repl.RIdle?));
      }
    }

    /** All of sendToReplicators("WILLCOMMIT", ...): every replicator has been called and every call has
        ended; where it did not fail, the replicator is at work. */
    method AnnounceCommit()
      requires Valid() && Live(cfg.coordinator) && s.site[cfg.coordinator].main == SendWill(cfg.Backups())
      modifies this`s, this`run
      ensures old(run) <= run
      ensures Valid() && Live(cfg.coordinator) && s.site[cfg.coordinator].main == Returned(Commit)
      ensures forall r :: r in cfg.Backups() ==>
        Sends(cfg, run, |old(run)|, Own(cfg.coordinator, SendWillTo(r)), Msg(WillKind, cfg.coordinator, r))
      ensures forall r :: r in cfg.Backups() && r !in s.unacked ==> Started(Replicator, s.site[r])
    {
      hide Inv, ExecFrom, Exec, Step, Performed, Sends, Extends;
      SendWillCommit();
      ghost var sent := run;
      Interfere(cfg.coordinator, Main);
      Perform(cfg.coordinator, StartAwait);
      AwaitWillCommit();
      Interfere(cfg.coordinator, Main);
      Perform(cfg.coordinator, FinishWill);
      SendsStays(cfg, sent, run, |old(run)|);
      CoordinatorReturned(cfg, s, Commit);
    }

    /** NewCoordinator::handleTransaction. When it returns COMMIT, all workers have agreed, and every
        replicator is at work unless the call to it failed. */
    method HandleAsCoordinator() returns (d: Decision)
      requires Valid() && Live(cfg.coordinator)
      requires s.site[cfg.coordinator].main == SendReqs(cfg.Members(), cfg.Members())
      modifies this`s, this`run
      ensures old(run) <= run
      ensures Valid() && Live(cfg.coordinator) && s.site[cfg.coordinator].main == Returned(d)
      ensures forall p :: p in cfg.Members() ==>
        Sends(cfg, run, |old(run)|, Own(cfg.coordinator, SendReq(p)), Msg(VoteReqKind, cfg.coordinator, p))
      ensures d == Commit ==> Basis(cfg, s)
      ensures d == Commit ==> forall r :: r in cfg.Backups() ==>
        Sends(cfg, run, |old(run)|, Own(cfg.coordinator, SendWillTo(r)), Msg(WillKind, cfg.coordinator, r))
      ensures d == Commit ==> forall r :: r in cfg.Backups() && r !in s.unacked ==> Started(Replicator, s.site[r])
      ensures d == Abort ==> forall h :: h in cfg.Hosts() ==> !Effect(s.site[h])
    {
      hide Inv, ExecFrom, Exec, Step, Performed, Sends, Extends, Effect, Basis;
      var c := cfg.coordinator;
      Send(c, Requests);
      assert forall p :: p in cfg.Members() ==>
        Sends(cfg, run, |old(run)|, Own(c, SendOp(Requests, p)), Carried(Requests, c, p));
      ghost var asked := run;
      Interfere(c, Main);
      Perform(c, StartCollect);
      d := CollectVotes();
      ghost var now := |run|;
      if d == Commit {
        AnnounceCommit();
      }
      SendsStays(cfg, asked, run, |old(run)|);
      SendsSince(cfg, run, |old(run)|, now);
      CoordinatorReturned(cfg, s, d);
    }

    /** NewCoordinator::finishTransaction: when it is through, COMMIT stands in the coordinator's log if
        that was the decision, and otherwise there is none; every participant has been told, and after a
        COMMIT every replicator. */
    method FinishTransaction(d: Decision)
      requires Valid() && Live(cfg.coordinator)
      requires s.site[cfg.coordinator].fin ==
        if d == Commit then FLog(LRead) else FTell(Abort, cfg.Members(), cfg.Members())
      modifies this`s, this`run
      ensures old(run) <= run
      ensures Valid() && Live(cfg.coordinator) && s.site[cfg.coordinator].fin == FDone
      ensures Stored(cfg, s) <==> d == Commit
      ensures forall p :: p in cfg.Members() ==>
        Sends(cfg, run, |old(run)|, Own(cfg.coordinator, TellOne(p)), Carried(Decisions(d), cfg.coordinator, p))
      ensures d == Commit ==>
        forall r :: r in cfg.Backups() ==>
          Sends(cfg, run, |old(run)|, Own(cfg.coordinator, Complete(r)), Msg(CompletedKind, cfg.coordinator, r))
    {
      hide Inv, ExecFrom, Exec, Step, Performed, Sends, Extends;
      if d == Commit {
        LogAndHandOver();
      }
      ghost var before, now := run, |run|;
      SendDecision(d);
      SendsStays(cfg, before, run, |old(run)|);
      SendsSince(cfg, run, |old(run)|, now);
      TransactionFinished(cfg, s, d);
    }

    /** logFinal and sendToReplicators("DECISIONCOMPLETED", ""). */
    method LogAndHandOver()
      requires Valid() && Live(cfg.coordinator) && s.site[cfg.coordinator].fin == FLog(LRead)
      modifies this`s, this`run
      ensures old(run) <= run
      ensures Valid() && Live(cfg.coordinator)
      ensures s.site[cfg.coordinator].fin == FTell(Commit, cfg.Members(), cfg.Members())
      ensures forall r :: r in cfg.Backups() ==>
        Sends(cfg, run, |old(run)|, Own(cfg.coordinator, Complete(r)), Msg(CompletedKind, cfg.coordinator, r))
    {
      hide Inv, ExecFrom, Exec, Step, Performed, Sends, Extends;
      LogFinal(cfg.coordinator, Finisher);
      Interfere(cfg.coordinator, Finisher);
      Perform(cfg.coordinator, FinLogged);
      ghost var now := |run|;
      HandOver();
      SendsSince(cfg, run, |old(run)|, now);
    }

    /** sendToReplicators("DECISIONCOMPLETED", "") */
    method HandOver()
      requires Valid() && Live(cfg.coordinator)
      requires s.site[cfg.coordinator].fin == FComplete(cfg.Backups(), cfg.Backups())
      modifies this`s, this`run
      ensures old(run) <= run
      ensures Valid() && Live(cfg.coordinator)
      ensures s.site[cfg.coordinator].fin == FTell(Commit, cfg.Members(), cfg.Members())
      ensures forall r :: r in cfg.Backups() ==>
        Sends(cfg, run, |old(run)|, Own(cfg.coordinator, Complete(r)), Msg(CompletedKind, cfg.coordinator, r))
    {
      hide Inv, ExecFrom, Exec, Step, Performed, Sends, Extends;
      var c := cfg.coordinator;
      Send(c, Completions);
      assert forall r :: r in cfg.Backups() ==>
        Sends(cfg, run, |old(run)|, Own(c, SendOp(Completions, r)), Carried(Completions, c, r));
      ghost var sent := run;
      Interfere(c, Finisher);
      Perform(c, StartTell);
      SendsStays(cfg, sent, run, |old(run)|);
    }

    /** sendToParticipants(decision, ""); the decision is the coordinator's. */
    method SendDecision(d: Decision)
      requires Valid() && Live(cfg.coordinator)
      requires s.site[cfg.coordinator].fin == FTell(d, cfg.Members(), cfg.Members())
      modifies this`s, this`run
      ensures old(run) <= run
      ensures Valid() && Live(cfg.coordinator) && s.site[cfg.coordinator].fin == FDone
      ensures DecidedAs(d, s.site[cfg.coordinator].main)
      ensures forall p :: p in cfg.Members() ==>
        Sends(cfg, run, |old(run)|, Own(cfg.coordinator, TellOne(p)), Carried(Decisions(d), cfg.coordinator, p))
    {
      hide Inv, ExecFrom, Exec, Step, Performed, Sends, Extends;
      var c := cfg.coordinator;
      Send(c, Decisions(d));
      assert forall p :: p in cfg.Members() ==>
        Sends(cfg, run, |old(run)|, Own(c, SendOp(Decisions(d), p)), Carried(Decisions(d), c, p));
      ghost var sent := run;
      Interfere(c, Finisher);
      TellsDecision(cfg, s);
      MoveTellEnd(cfg, s.site[c]);
      Perform(c, TellEnd);
      SendsStays(cfg, sent, run, |old(run)|);
    }

    // -------------------------------------------------------------------------------------
    // NewParticipant and Replicator

    /** sendToCoordinator: send the vote and wait for the call to end. */
    method SendVote(h: Host)
      requires Valid() && Live(h) && (s.site[h].main.SayYes? || s.site[h].main.SayNo?)
      modifies this`s, this`run
      ensures old(run) <= run
      ensures Valid() && Live(h)
      ensures s.site[h].main == if old(s.site[h].main.SayYes?) then Wait else Done(Abort, Refused)
      ensures Sends(cfg, run, |old(run)|, Own(h, SayVote), VoteOf(cfg, h, old(s.site[h].main.SayYes?)))
    {
      hide Inv, ExecFrom, Exec, Step, Performed, Sends, Extends, Move, Sent, VoteOf;
      Interfere(h, Main);
      ghost var now := |run|;
      MoveSayVote(cfg, h, s.site[h]);
      Perform(h, SayVote);
      ghost var before := run;
      Interfere(h, Main);
      MoveVoteEnds(cfg, s.site[h]);
      Perform(h, VoteCallEnds);
      SendsStays(cfg, before, run, now);
      SendsSince(cfg, run, |old(run)|, now);
    }

    /** The execution phase of a participant that voted yes: wait, else terminate. */
    method AwaitDecision(h: Host) returns (d: Decision)
      requires Valid() && Live(h) && s.site[h].main.Wait?
      modifies this`s, this`run
      ensures old(run) <= run
      ensures Valid() && Live(h) && s.site[h].main.Done? && s.site[h].main.decision == d
      ensures s.site[h].main.via.Told? || (s.site[h].main.via.TimedOut? && s.site[h].log == d.AsWord())
    {
      hide Inv, ExecFrom, Exec, Step, Performed, Extends;
      Interfere(h, Main);
      if s.site[h].inbox != [] {
        HeadFine(cfg, s, h, TakeDecision);
        var kind := s.site[h].inbox[0].kind;
        Perform(h, TakeDecision);
        if kind == CommitKind {
          d := Commit;
        } else if kind == AbortKind {
          d := Abort;
        } else {
          assert false; // the participant's failing assertion
        }
      } else {
        Perform(h, WaitTimeout);
        ghost var read;
        d, read := TerminationProtocol(h);
      }
    }

    /** NewParticipant::handleTransaction; `vote` is what the worker answers to VOTE_REQ. It commits only
        what everybody agreed to. It never logs, except ABORT after a timeout. */
    method HandleAsParticipant(h: Host, vote: bool) returns (d: Decision)
      requires Valid() && Live(h) && h in cfg.Members() && s.site[h].main.Vote?
      modifies this`s, this`run
      ensures old(run) <= run
      ensures Valid() && Live(h) && s.site[h].main.Done? && s.site[h].main.decision == d
      ensures s.site[h].main.via.Refused? <==> !vote
      ensures Performed(cfg, run, |old(run)|, Own(h, CastVote(vote)))
      ensures Sends(cfg, run, |old(run)|, Own(h, SayVote), VoteOf(cfg, h, vote))
      ensures d == Commit ==> vote && Basis(cfg, s)
      ensures s.site[h].main.via.TimedOut? ==> s.site[h].log == d.AsWord()
    {
      hide Inv, ExecFrom, Exec, Step, Performed, Sends, Extends;
      Perform(h, CastVote(vote));
      ghost var asked := run;
      SendVote(h);
      ghost var said := run;
      d := Abort;
      if vote {
        d := AwaitDecision(h);
      }
      PerformedStays(cfg, asked, run, |old(run)|);
      SendsStays(cfg, said, run, |asked|);
      SendsSince(cfg, run, |old(run)|, |asked|);
      Justified(cfg, s, h);
    }

    /** A replicator waits to be told that logging is done, or times out. */
    method AwaitCompletion(r: Host) returns (completed: bool)
      requires Valid() && Live(r) && s.site[r].repl.RWait?
      modifies this`s, this`run
      ensures old(run) < run && run[|run| - 1] == Own(r, if completed then ReplTake else ReplTimeout)
      ensures Valid() && Live(r) && s.site[r].repl == if completed then RDone else RLog(LRead)
      ensures completed ==> Stored(cfg, s)
    {
      hide Inv, ExecFrom, Exec, Step, Performed;
      Interfere(r, Replicator);
      if s.site[r].replInbox != [] {
        ToldCompleted(cfg, s, r);
        completed := s.site[r].replInbox[0].kind == CompletedKind;
        Perform(r, ReplTake);
      } else {
        completed := false;
        Perform(r, ReplTimeout);
      }
    }

    /** Replicator::handleTransaction: it has written COMMIT itself, or COMMIT stands in the
        coordinator's log. */
    method HandleAsReplicator(r: Host)
      requires Valid() && Live(r) && s.site[r].repl.RWait?
      modifies this`s, this`run
      ensures old(run) <= run
      ensures Valid() && Live(r) && s.site[r].repl.RDone?
      ensures s.site[r].written || Stored(cfg, s)
    {
      hide Inv, ExecFrom, Exec, Step, Performed, Extends;
      var completed := AwaitCompletion(r);
      if !completed {
        Replicate(r);
      }
      Justified(cfg, s, r);
    }

    /** What a replicator does that was not told in time. */
    method Replicate(r: Host)
      requires Valid() && Live(r) && s.site[r].repl == RLog(LRead)
      modifies this`s, this`run
      ensures old(run) <= run
      ensures Valid() && Live(r) && s.site[r].repl.RDone?
    {
      hide Inv, ExecFrom, Exec, Step, Performed, Sends, Extends, LogStep, Move, Ready;
      Interfere(r, Replicator);
      LogFinal(r, Replicator);
      Interfere(r, Replicator);
      MoveReplEnd(cfg, s.site[r]);
      Perform(r, ReplEnd);
    }
  }
}
