/**
  Cornus 1 without faults: no message is lost, nobody crashes, nobody times out. Whatever a handler sends
  then arrives, and every such run ends with everybody returning COMMIT, unless a worker refused.
 */
module PaperFaultFree {
  import opened Domain
  import opened PaperProtocol
  import opened PaperInvariant
  import opened PaperTheorems
  import opened PaperProgress

  predicate Smooth(a: Action) {
    a.Deliver? || (a.Own? && !a.op.Timeout?)
  }

  predicate SmoothRun(schedule: seq<Action>) {
    forall i :: 0 <= i < |schedule| ==> Smooth(schedule[i])
  }

  // ---------------------------------------------------------------------------------------
  // What is sent is on its way, or has had its effect

  ghost predicate AllUp(cfg: Config, s: State)
    requires WF(cfg, s)
  {
    forall h :: h in cfg.Hosts() ==> s.site[h].up && !s.site[h].pc.Term?
  }

  ghost predicate OnItsWay(cfg: Config, s: State, m: Msg)
    requires WF(cfg, s) && m.dst in cfg.Hosts()
  {
    m in s.net || m in s.site[m.dst].inbox
  }

  predicate Asked(pc: PC, p: Host) {
    pc.SendReqs? ==> p !in pc.pending
  }

  /** The coordinator still collects votes. */
  predicate Collecting(pc: PC) {
    pc.SendReqs? || pc.Collect?
  }

  predicate Refusing(x: Site) {
    x.pc == Said(false) || (x.pc == Done(Abort) && !Yes(x))
  }

  predicate ToldCommit(pc: PC, p: Host) {
    (pc.Tell? && pc.decision == Commit && p !in pc.pending) || pc == Done(Commit)
  }

  predicate WaitsForDecision(x: Site) {
    x.pc.SayYes? || x.pc == Said(true) || x.pc.Wait?
  }

  /** A participant that was asked has the request under way or its handler started. */
  ghost predicate RequestArrives(cfg: Config, s: State, p: Host)
    requires WF(cfg, s) && p in cfg.Members()
  {
    Asked(s.site[cfg.coordinator].pc, p) ==> Msg(VoteReqKind, cfg.coordinator, p) in s.net || !s.site[p].pc.Idle?
  }

  /** As long as votes are collected, a yes-vote is under way, queued or counted. */
  ghost predicate YesArrives(cfg: Config, s: State, p: Host)
    requires WF(cfg, s) && p in cfg.Members()
  {
    SentYes(s.site[p]) && Collecting(s.site[cfg.coordinator].pc) ==>
      p in s.counted || OnItsWay(cfg, s, Msg(VoteYesKind, p, cfg.coordinator))
  }

  /** As long as votes are collected, a refusal is under way or queued. */
  ghost predicate NoArrives(cfg: Config, s: State, p: Host)
    requires WF(cfg, s) && p in cfg.Members()
  {
    Refusing(s.site[p]) && Collecting(s.site[cfg.coordinator].pc) ==>
      OnItsWay(cfg, s, Msg(AbortKind, p, cfg.coordinator))
  }

  /** A participant that was told COMMIT and still waits has it under way or queued. */
  ghost predicate CommitArrives(cfg: Config, s: State, p: Host)
    requires WF(cfg, s) && p in cfg.Members()
  {
    ToldCommit(s.site[cfg.coordinator].pc, p) && WaitsForDecision(s.site[p]) ==>
      OnItsWay(cfg, s, Msg(CommitKind, cfg.coordinator, p))
  }

  ghost predicate Arrivals(cfg: Config, s: State, p: Host)
    requires WF(cfg, s) && p in cfg.Members()
  {
    RequestArrives(cfg, s, p) && YesArrives(cfg, s, p) && NoArrives(cfg, s, p) && CommitArrives(cfg, s, p)
  }

  ghost predicate Arriving(cfg: Config, s: State)
    requires WF(cfg, s)
  {
    AllUp(cfg, s) && forall p :: p in cfg.Members() ==> Arrivals(cfg, s, p)
  }

  // ---------------------------------------------------------------------------------------
  // Preservation

  /** A request stays on its way until its receiver takes it. */
  lemma OwnWay(cfg: Config, s: State, h: Host, op: Op, m: Msg)
    requires WF(cfg, s) && Enabled(cfg, s, Own(h, op)) && !op.TermOnce? && m.dst in cfg.Hosts()
    requires OnItsWay(cfg, s, m)
    ensures OnItsWay(cfg, Step(cfg, s, Own(h, op)), m) ||
      (h == m.dst && (op.TakeVote? || op.TakeDecision?) && s.site[h].inbox[0] == m)
  {
    var x := s.site[h];
    MoveInbox(cfg, h, x, op);
    if op.TakeVote? || op.TakeDecision? {
      assert x.inbox == [x.inbox[0]] + x.inbox[1..];
    }
  }

  lemma MoveInbox(cfg: Config, h: Host, x: Site, op: Op)
    requires Ready(cfg, x, op)
    ensures Move(cfg, h, x, op, WORKING).inbox ==
      if op.TakeVote? || op.TakeDecision? then x.inbox[1..] else x.inbox
  {
  }

  lemma DeliverWay(cfg: Config, s: State, d: Msg, m: Msg)
    requires WF(cfg, s) && Enabled(cfg, s, Deliver(d)) && m.dst in cfg.Hosts() && OnItsWay(cfg, s, m)
    requires s.site[m.dst].up && s.site[m.dst].Registered() && !m.kind.VoteReqKind?
    ensures OnItsWay(cfg, Step(cfg, s, Deliver(d)), m)
  {
    if d == m {
      var x := s.site[m.dst];
      assert m in (x.inbox + [m]);
    }
  }

  lemma MoveAsked(cfg: Config, h: Host, x: Site, op: Op, p: Host)
    requires Ready(cfg, x, op) && !x.pc.Idle?
    ensures var x' := Move(cfg, h, x, op, WORKING);
      && !x'.pc.Idle?
      && (Asked(x'.pc, p) ==> Asked(x.pc, p) || Msg(VoteReqKind, h, p) in Sent(cfg, h, x, op))
  {
  }

  lemma OwnRequest(cfg: Config, s: State, h: Host, op: Op, p: Host)
    requires Inv(cfg, s) && Enabled(cfg, s, Own(h, op)) && !op.TermOnce? && p in cfg.Members()
    requires RequestArrives(cfg, s, p)
    ensures RequestArrives(cfg, Step(cfg, s, Own(h, op)), p)
  {
    hide Move, Sent;
    MoveAsked(cfg, h, s.site[h], op, p);
  }

  lemma DeliverRequest(cfg: Config, s: State, m: Msg, p: Host)
    requires Inv(cfg, s) && AllUp(cfg, s) && Enabled(cfg, s, Deliver(m)) && p in cfg.Members()
    requires RequestArrives(cfg, s, p)
    ensures RequestArrives(cfg, Step(cfg, s, Deliver(m)), p)
  {
    assert CoordinatorOK(cfg, s.site[cfg.coordinator].pc, s.counted);
  }

  lemma MoveSays(cfg: Config, h: Host, x: Site, op: Op)
    requires Ready(cfg, x, op) && h != cfg.coordinator && MemberOK(x) && !op.TermOnce?
    ensures var x' := Move(cfg, h, x, op, WORKING);
      && (SentYes(x') ==> SentYes(x) || Msg(VoteYesKind, h, cfg.coordinator) in Sent(cfg, h, x, op))
      && (Refusing(x') ==> Refusing(x) || Msg(AbortKind, h, cfg.coordinator) in Sent(cfg, h, x, op))
  {
  }

  /** The coordinator stops collecting when it takes a refusal, and counts every yes-vote it takes. */
  lemma MoveCollecting(cfg: Config, x: Site, op: Op)
    requires Ready(cfg, x, op)
    ensures var pc' := Move(cfg, cfg.coordinator, x, op, WORKING).pc;
      && (Collecting(pc') ==> Collecting(x.pc))
      && (op.TakeVote? && x.inbox[0].kind.AbortKind? ==> !Collecting(pc'))
  {
  }

  lemma OwnVotes(cfg: Config, s: State, h: Host, op: Op, p: Host)
    requires Inv(cfg, s) && Enabled(cfg, s, Own(h, op)) && !op.TermOnce? && p in cfg.Members()
    requires YesArrives(cfg, s, p) && NoArrives(cfg, s, p)
    ensures YesArrives(cfg, Step(cfg, s, Own(h, op)), p) && NoArrives(cfg, Step(cfg, s, Own(h, op)), p)
  {
    hide Move, Sent, SentYes, Refusing, Collecting;
    var c := cfg.coordinator;
    var yes, no := Msg(VoteYesKind, p, c), Msg(AbortKind, p, c);
    if h == p {
      assert MemberOK(s.site[p]);
      MoveSays(cfg, p, s.site[p], op);
    } else if h == c {
      MoveCollecting(cfg, s.site[c], op);
    }
    if OnItsWay(cfg, s, yes) { OwnWay(cfg, s, h, op, yes); }
    if OnItsWay(cfg, s, no) { OwnWay(cfg, s, h, op, no); }
    CoordinatorPlace(cfg, s, op);
  }

  lemma CoordinatorPlace(cfg: Config, s: State, op: Op)
    requires Inv(cfg, s)
    ensures !s.site[cfg.coordinator].pc.Wait?
    ensures Collecting(s.site[cfg.coordinator].pc) ==> s.site[cfg.coordinator].Registered()
  {
    assert CoordinatorOK(cfg, s.site[cfg.coordinator].pc, s.counted);
  }

  lemma DeliverVotes(cfg: Config, s: State, m: Msg, p: Host)
    requires Inv(cfg, s) && AllUp(cfg, s) && Enabled(cfg, s, Deliver(m)) && p in cfg.Members()
    requires YesArrives(cfg, s, p) && NoArrives(cfg, s, p)
    ensures YesArrives(cfg, Step(cfg, s, Deliver(m)), p) && NoArrives(cfg, Step(cfg, s, Deliver(m)), p)
  {
    hide OnItsWay;
    var c := cfg.coordinator;
    var yes, no := Msg(VoteYesKind, p, c), Msg(AbortKind, p, c);
    ReceiveKeeps(s.site[m.dst], m);
    CoordinatorPlace(cfg, s, TakeVote);
    assert CoordinatorOK(cfg, s.site[c].pc, s.counted);
    if Collecting(s.site[c].pc) {
      if OnItsWay(cfg, s, yes) { DeliverWay(cfg, s, m, yes); }
      if OnItsWay(cfg, s, no) { DeliverWay(cfg, s, m, no); }
    }
  }

  lemma ReceiveKeeps(x: Site, m: Msg)
    ensures var x' := x.Receive(m);
      && (x'.pc == x.pc || (x.pc.Idle? && x'.pc.Vote?)) && x'.first == x.first && x'.log == x.log && x'.up == x.up
  {
  }

  lemma MoveTold(cfg: Config, h: Host, x: Site, op: Op, p: Host)
    requires Ready(cfg, x, op) && !op.TermOnce? && !op.TermEnd?
    ensures ToldCommit(Move(cfg, cfg.coordinator, x, op, WORKING).pc, p) && !x.pc.Write? && !x.pc.Said? ==>
      ToldCommit(x.pc, p) || p !in cfg.Members() || Msg(CommitKind, h, p) in Sent(cfg, h, x, op)
  {
  }

  lemma MoveWaits(cfg: Config, h: Host, x: Site, op: Op)
    requires Ready(cfg, x, op) && MemberOK(x)
    ensures WaitsForDecision(Move(cfg, h, x, op, WORKING)) ==>
      (WaitsForDecision(x) && !op.TakeDecision?) || x.first != VOTEYES
  {
  }

  lemma ToldMeansYes(cfg: Config, s: State, p: Host)
    requires Inv(cfg, s) && p in cfg.Members() && ToldCommit(s.site[cfg.coordinator].pc, p)
    ensures s.site[p].first == VOTEYES
  {
    assert PcOK(cfg, s, s.site[cfg.coordinator].pc);
  }

  lemma OwnCommit(cfg: Config, s: State, h: Host, op: Op, p: Host)
    requires Inv(cfg, s) && Enabled(cfg, s, Own(h, op)) && !op.TermOnce? && !op.TermEnd? && p in cfg.Members()
    requires CommitArrives(cfg, s, p)
    ensures CommitArrives(cfg, Step(cfg, s, Own(h, op)), p)
  {
    hide Move, Sent, ToldCommit, WaitsForDecision;
    var c := cfg.coordinator;
    var m := Msg(CommitKind, c, p);
    assert CoordinatorOK(cfg, s.site[c].pc, s.counted);
    if h == c {
      MoveTold(cfg, c, s.site[c], op, p);
    } else if h == p {
      assert MemberOK(s.site[p]);
      MoveWaits(cfg, p, s.site[p], op);
      if ToldCommit(s.site[c].pc, p) { ToldMeansYes(cfg, s, p); }
    }
    if OnItsWay(cfg, s, m) { OwnWay(cfg, s, h, op, m); }
    MembersTakeDecisions(cfg, s, p);
  }

  lemma MembersTakeDecisions(cfg: Config, s: State, p: Host)
    requires Inv(cfg, s) && p in cfg.Members()
    ensures !s.site[p].pc.Collect?
  {
    assert MemberOK(s.site[p]);
  }

  lemma DeliverCommit(cfg: Config, s: State, m: Msg, p: Host)
    requires Inv(cfg, s) && AllUp(cfg, s) && Enabled(cfg, s, Deliver(m)) && p in cfg.Members()
    requires CommitArrives(cfg, s, p)
    ensures CommitArrives(cfg, Step(cfg, s, Deliver(m)), p)
  {
    hide OnItsWay;
    ReceiveKeeps(s.site[m.dst], m);
    assert CoordinatorOK(cfg, s.site[cfg.coordinator].pc, s.counted);
    var d := Msg(CommitKind, cfg.coordinator, p);
    if OnItsWay(cfg, s, d) && WaitsForDecision(s.site[p]) { DeliverWay(cfg, s, m, d); }
  }

  lemma StepUp(cfg: Config, s: State, a: Action)
    requires WF(cfg, s) && AllUp(cfg, s) && Enabled(cfg, s, a) && Smooth(a)
    ensures AllUp(cfg, Step(cfg, s, a))
  {
    if a.Own? { MoveUp(cfg, a.host, s.site[a.host], a.op); }
  }

  lemma MoveUp(cfg: Config, h: Host, x: Site, op: Op)
    requires Ready(cfg, x, op) && !x.pc.Term? && !op.Timeout?
    ensures var x' := Move(cfg, h, x, op, WORKING); x'.up && !x'.pc.Term?
  {
  }

  lemma StepArrives(cfg: Config, s: State, a: Action)
    requires Inv(cfg, s) && Arriving(cfg, s) && Enabled(cfg, s, a) && Smooth(a)
    ensures Arriving(cfg, Step(cfg, s, a))
  {
    hide Step, RequestArrives, YesArrives, NoArrives, CommitArrives;
    StepUp(cfg, s, a);
    forall p | p in cfg.Members() ensures Arrivals(cfg, Step(cfg, s, a), p) {
      assert Arrivals(cfg, s, p);
      if a.Own? {
        OwnRequest(cfg, s, a.host, a.op, p);
        OwnVotes(cfg, s, a.host, a.op, p);
        OwnCommit(cfg, s, a.host, a.op, p);
      } else {
        DeliverRequest(cfg, s, a.msg, p);
        DeliverVotes(cfg, s, a.msg, p);
        DeliverCommit(cfg, s, a.msg, p);
      }
    }
  }

  lemma InitArrives(cfg: Config)
    requires cfg.Valid()
    ensures Arriving(cfg, Init(cfg))
  {
  }

  /** Without faults nothing that was sent gets lost on its way. */
  lemma {:induction false} NothingLost(cfg: Config, schedule: seq<Action>)
    requires cfg.Valid() && SmoothRun(schedule)
    ensures Arriving(cfg, Exec(cfg, schedule))
  {
    hide Inv, Step, Enabled, Arriving;
    if schedule == [] {
      InitArrives(cfg);
    } else {
      var front, a := schedule[..|schedule| - 1], schedule[|schedule| - 1];
      NothingLost(cfg, front);
      ExecInv(cfg, front);
      if Enabled(cfg, Exec(cfg, front), a) { StepArrives(cfg, Exec(cfg, front), a); }
    }
  }

  // ---------------------------------------------------------------------------------------
  // How fault-free runs end

  /** Nothing but a timeout or a fault can happen any more. */
  ghost predicate Quiescent(cfg: Config, s: State)
    requires WF(cfg, s)
  {
    forall a :: Enabled(cfg, s, a) ==> !Smooth(a)
  }

  lemma NothingUnderWay(cfg: Config, s: State, m: Msg)
    requires WF(cfg, s) && Quiescent(cfg, s) && m.dst in cfg.Hosts()
    ensures m !in s.net
  {
    assert Smooth(Deliver(m)) && (m in s.net ==> Enabled(cfg, s, Deliver(m)));
  }

  lemma EveryoneWaits(cfg: Config, s: State, h: Host)
    requires Inv(cfg, s) && AllUp(cfg, s) && Quiescent(cfg, s) && h in cfg.Hosts()
    ensures var x := s.site[h]; x.pc.Idle? || x.pc.Done? || ((x.pc.Collect? || x.pc.Wait?) && x.inbox == [])
  {
    if Running(s.site[h]) {
      var op := NeverStuck(cfg, s, h);
      assert !Smooth(Own(h, op));
    }
  }

  /** The coordinator has decided: it has counted everybody or taken a refusal. */
  lemma CoordinatorReturns(cfg: Config, s: State)
    requires Inv(cfg, s) && Arriving(cfg, s) && Quiescent(cfg, s) && cfg.participants != []
    ensures s.site[cfg.coordinator].pc.Done?
  {
    var c := cfg.coordinator;
    EveryoneWaits(cfg, s, c);
    assert CoordinatorOK(cfg, s.site[c].pc, s.counted);
    if s.site[c].pc.Collect? {
      forall p | p in cfg.Members() ensures p in s.counted { VoteCounted(cfg, s, p); }
      assert s.counted == cfg.Members();
      DistinctSize(cfg.participants);
    }
  }

  lemma VoteCounted(cfg: Config, s: State, p: Host)
    requires Inv(cfg, s) && Arriving(cfg, s) && Quiescent(cfg, s) && p in cfg.Members()
    requires s.site[cfg.coordinator].pc.Collect? && s.site[cfg.coordinator].inbox == []
    ensures p in s.counted
  {
    assert Arrivals(cfg, s, p) && MemberOK(s.site[p]);
    EveryoneWaits(cfg, s, p);
    NothingUnderWay(cfg, s, Msg(VoteReqKind, cfg.coordinator, p));
    NothingUnderWay(cfg, s, Msg(VoteYesKind, p, cfg.coordinator));
    NothingUnderWay(cfg, s, Msg(AbortKind, p, cfg.coordinator));
  }

  lemma ParticipantReturns(cfg: Config, s: State, p: Host)
    requires Inv(cfg, s) && Arriving(cfg, s) && Quiescent(cfg, s) && p in cfg.Members()
    requires s.site[cfg.coordinator].pc == Done(Commit)
    ensures s.site[p].pc.Done?
  {
    assert Arrivals(cfg, s, p) && MemberOK(s.site[p]);
    EveryoneWaits(cfg, s, p);
    ToldMeansYes(cfg, s, p);
    NothingUnderWay(cfg, s, Msg(CommitKind, cfg.coordinator, p));
  }

  ghost predicate SomebodyRefused(cfg: Config, schedule: seq<Action>) {
    exists p :: p in cfg.Members() && Voted(cfg, schedule, p, false)
  }

  /** A fault-free run that has come to its end: the coordinator has returned, COMMIT exactly if no worker
      refused; and then every participant has returned COMMIT and logged it. */
  lemma FaultFreeOutcome(cfg: Config, schedule: seq<Action>)
    requires cfg.Valid() && cfg.participants != []
    requires SmoothRun(schedule) && Quiescent(cfg, Exec(cfg, schedule))
    ensures var s := Exec(cfg, schedule);
      && s.site[cfg.coordinator].pc == Done(if SomebodyRefused(cfg, schedule) then Abort else Commit)
      && (!SomebodyRefused(cfg, schedule) ==>
            forall p :: p in cfg.Members() ==> s.site[p].pc == Done(Commit) && s.site[p].log == COMMIT)
  {
    hide ExecFrom, Performed, Arriving;
    var s, c := Exec(cfg, schedule), cfg.coordinator;
    ExecInv(cfg, schedule);
    NothingLost(cfg, schedule);
    CoordinatorReturns(cfg, s);
    var d := s.site[c].pc.decision;
    NobodyTimedOut(cfg, schedule);
    Validity(cfg, schedule, c, d);
    if d == Commit {
      forall p | p in cfg.Members() ensures s.site[p].pc == Done(Commit) && s.site[p].log == COMMIT {
        ParticipantReturns(cfg, s, p);
        assert Shows(cfg, s, p, s.site[p].pc.decision);
        AgreesNow(cfg, schedule, c, d, p, s.site[p].pc.decision);
        assert MemberOK(s.site[p]);
        ToldMeansYes(cfg, s, p);
      }
    }
  }

  lemma AgreesNow(cfg: Config, schedule: seq<Action>, h1: Host, d1: Decision, h2: Host, d2: Decision)
    requires cfg.Valid() && h1 in cfg.Hosts() && h2 in cfg.Hosts()
    requires Shows(cfg, Exec(cfg, schedule), h1, d1) && Shows(cfg, Exec(cfg, schedule), h2, d2)
    ensures d1 == d2
  {
    assert schedule + [] == schedule;
    Agreement(cfg, schedule, [], h1, d1, h2, d2);
  }

  lemma NobodyTimedOut(cfg: Config, schedule: seq<Action>)
    requires SmoothRun(schedule)
    ensures !SomebodyTimedOut(cfg, schedule)
  {
    hide Exec, Enabled;
  }

  /** A participant that was told while its handler was at work has the decision under way or queued until
      it takes it. */
  ghost predicate Reaching(cfg: Config, s: State, p: Host, m: Msg)
    requires WF(cfg, s) && p in cfg.Members() && m.dst == p
  {
    !s.site[p].pc.Idle? && (OnItsWay(cfg, s, m) || s.site[p].pc.Write? || s.site[p].pc.Done?)
  }

  lemma MoveTakes(cfg: Config, h: Host, x: Site, op: Op, m: Msg)
    requires Ready(cfg, x, op) && MemberOK(x) && !op.Timeout? && (m.kind.CommitKind? || m.kind.AbortKind?)
    ensures var pc' := Move(cfg, h, x, op, WORKING).pc;
      !pc'.Idle? && (x.pc.Write? || x.pc.Done? || (op.TakeDecision? && x.inbox[0] == m) ==> pc'.Write? || pc'.Done?)
  {
  }

  lemma StepReaching(cfg: Config, s: State, a: Action, p: Host, m: Msg)
    requires Inv(cfg, s) && AllUp(cfg, s) && Enabled(cfg, s, a) && Smooth(a) && p in cfg.Members() && m.dst == p
    requires (m.kind.CommitKind? || m.kind.AbortKind?) && Reaching(cfg, s, p, m)
    ensures Reaching(cfg, Step(cfg, s, a), p, m)
  {
    if a.Own? {
      OwnReaching(cfg, s, a.host, a.op, p, m);
    } else {
      DeliverReaching(cfg, s, a.msg, p, m);
    }
  }

  lemma OwnReaching(cfg: Config, s: State, h: Host, op: Op, p: Host, m: Msg)
    requires Inv(cfg, s) && AllUp(cfg, s) && Enabled(cfg, s, Own(h, op)) && !op.Timeout? && p in cfg.Members()
    requires m.dst == p && (m.kind.CommitKind? || m.kind.AbortKind?) && Reaching(cfg, s, p, m)
    ensures Reaching(cfg, Step(cfg, s, Own(h, op)), p, m)
  {
    hide OnItsWay, Move, Sent, MemberOK;
    assert MemberOK(s.site[p]);
    MembersTakeDecisions(cfg, s, p);
    if OnItsWay(cfg, s, m) { OwnWay(cfg, s, h, op, m); }
    if h == p { MoveTakes(cfg, p, s.site[p], op, m); }
  }

  lemma DeliverReaching(cfg: Config, s: State, d: Msg, p: Host, m: Msg)
    requires Inv(cfg, s) && AllUp(cfg, s) && Enabled(cfg, s, Deliver(d)) && p in cfg.Members()
    requires m.dst == p && (m.kind.CommitKind? || m.kind.AbortKind?) && Reaching(cfg, s, p, m)
    ensures Reaching(cfg, Step(cfg, s, Deliver(d)), p, m)
  {
    hide OnItsWay;
    assert MemberOK(s.site[p]);
    ReceiveKeeps(s.site[d.dst], d);
    if OnItsWay(cfg, s, m) && s.site[p].Registered() { DeliverWay(cfg, s, d, m); }
  }

  lemma {:induction false} StaysReaching(cfg: Config, before: seq<Action>, later: seq<Action>, p: Host, m: Msg)
    requires cfg.Valid() && SmoothRun(before + later) && p in cfg.Members() && m.dst == p
    requires (m.kind.CommitKind? || m.kind.AbortKind?) && Reaching(cfg, Exec(cfg, before), p, m)
    ensures Reaching(cfg, Exec(cfg, before + later), p, m)
  {
    hide Inv, Step, Enabled, Reaching;
    if later == [] {
      assert before + later == before;
    } else {
      var front, a := later[..|later| - 1], later[|later| - 1];
      var all := before + later;
      assert all[..|all| - 1] == before + front && all[|all| - 1] == a;
      StaysReaching(cfg, before, front, p, m);
      ExecInv(cfg, before + front);
      NothingLost(cfg, before + front);
      if Enabled(cfg, Exec(cfg, before + front), a) { StepReaching(cfg, Exec(cfg, before + front), a, p, m); }
    }
  }

  /** Without faults, COMMIT and ABORT alike, a participant that is told while its handler is at work ends up
      returning what it was told. */
  lemma DecisionReaches(cfg: Config, before: seq<Action>, later: seq<Action>, p: Host, d: Decision)
    requires cfg.Valid() && p in cfg.Members()
    requires var tell := Own(cfg.coordinator, TellOne(p));
      && SmoothRun(before + [tell] + later) && Enabled(cfg, Exec(cfg, before), tell)
      && Quiescent(cfg, Exec(cfg, before + [tell] + later))
    requires Exec(cfg, before).site[cfg.coordinator].pc.decision == d && Exec(cfg, before).site[p].Registered()
    ensures Exec(cfg, before + [Own(cfg.coordinator, TellOne(p))] + later).site[p].pc == Done(d)
  {
    hide ExecFrom, Exec, Quiescent, Arriving;
    var c := cfg.coordinator;
    var told := before + [Own(c, TellOne(p))];
    var all := told + later;
    var m := Msg(if d == Commit then CommitKind else AbortKind, c, p);
    ExecMore(cfg, before, Own(c, TellOne(p)));
    Telling(cfg, Exec(cfg, before), p, m);
    StaysReaching(cfg, told, later, p, m);
    ExecInv(cfg, all);
    NothingLost(cfg, all);
    Reached(cfg, Exec(cfg, all), p, m);
    var e := Exec(cfg, all).site[p].pc.decision;
    assert all == before + ([Own(c, TellOne(p))] + later);
    Agreement(cfg, before, [Own(c, TellOne(p))] + later, c, d, p, e);
  }

  lemma Telling(cfg: Config, s: State, p: Host, m: Msg)
    requires cfg.Valid() && WF(cfg, s) && p in cfg.Members() && s.site[p].Registered()
    requires Enabled(cfg, s, Own(cfg.coordinator, TellOne(p)))
    requires m.kind == (if s.site[cfg.coordinator].pc.decision == Commit then CommitKind else AbortKind)
    requires m.src == cfg.coordinator && m.dst == p
    ensures Reaching(cfg, Step(cfg, s, Own(cfg.coordinator, TellOne(p))), p, m)
  {
  }

  lemma Reached(cfg: Config, s: State, p: Host, m: Msg)
    requires Inv(cfg, s) && Arriving(cfg, s) && Quiescent(cfg, s) && p in cfg.Members() && m.dst == p
    requires Reaching(cfg, s, p, m)
    ensures s.site[p].pc.Done?
  {
    EveryoneWaits(cfg, s, p);
    NothingUnderWay(cfg, s, m);
  }

  // ---------------------------------------------------------------------------------------
  // Every fault-free run comes to an end

  /** Twice the steps the handlers may still take, and the messages under way. */
  function Left(cfg: Config, h: Host, pc: PC): nat {
    if pc.Idle? then |cfg.participants| + 8 else Budget(cfg, h, pc)
  }

  ghost function Sum(cfg: Config, s: State, hosts: seq<Host>): nat
    requires forall i :: 0 <= i < |hosts| ==> hosts[i] in s.site
  {
    if hosts == [] then 0
    else
      var last := hosts[|hosts| - 1];
      Sum(cfg, s, hosts[..|hosts| - 1]) + Left(cfg, last, s.site[last].pc)
  }

  ghost function Weight(cfg: Config, s: State): nat
    requires WF(cfg, s)
  {
    2 * Sum(cfg, s, cfg.participants + [cfg.coordinator]) + |s.net|
  }

  /** Only the summand of the host that moves changes. */
  lemma {:induction false} SumMoves(cfg: Config, s: State, s': State, hosts: seq<Host>, h: Host)
    requires Distinct(hosts) && h in s.site && h in s'.site
    requires forall i :: 0 <= i < |hosts| ==> hosts[i] in s.site && hosts[i] in s'.site
    requires forall i :: 0 <= i < |hosts| && hosts[i] != h ==> s'.site[hosts[i]].pc == s.site[hosts[i]].pc
    ensures h in hosts ==>
      Sum(cfg, s', hosts) + Left(cfg, h, s.site[h].pc) == Sum(cfg, s, hosts) + Left(cfg, h, s'.site[h].pc)
    ensures h !in hosts ==> Sum(cfg, s', hosts) == Sum(cfg, s, hosts)
  {
    hide Left;
    if hosts != [] {
      SumMoves(cfg, s, s', hosts[..|hosts| - 1], h);
    }
  }

  lemma MoveSends(cfg: Config, h: Host, x: Site, op: Op)
    requires Ready(cfg, x, op)
    ensures |Sent(cfg, h, x, op)| <= 1
  {
  }

  lemma HostsDistinct(cfg: Config)
    requires cfg.Valid()
    ensures Distinct(cfg.participants + [cfg.coordinator])
    ensures forall h :: h in cfg.Hosts() <==> h in cfg.participants + [cfg.coordinator]
  {
  }

  lemma OwnWeight(cfg: Config, s: State, h: Host, op: Op)
    requires Inv(cfg, s) && Enabled(cfg, s, Own(h, op)) && !op.TermOnce?
    ensures Weight(cfg, Step(cfg, s, Own(h, op))) < Weight(cfg, s)
  {
    hide Budget, Move, Sent;
    var s' := Step(cfg, s, Own(h, op));
    HostsDistinct(cfg);
    OwnBudget(cfg, s, h, op);
    NotIdle(cfg, s, h, op);
    StartedStays(cfg, s, h, op);
    SumMoves(cfg, s, s', cfg.participants + [cfg.coordinator], h);
    MoveSends(cfg, h, s.site[h], op);
    assert |s'.net| == |s.net| + |Sent(cfg, h, s.site[h], op)|;
  }

  lemma NotIdle(cfg: Config, s: State, h: Host, op: Op)
    requires WF(cfg, s) && Enabled(cfg, s, Own(h, op))
    ensures !s.site[h].pc.Idle?
  {
  }

  lemma ReceiveLeft(cfg: Config, h: Host, x: Site, m: Msg)
    ensures Left(cfg, h, x.Receive(m).pc) <= Left(cfg, h, x.pc)
  {
    ReceiveKeeps(x, m);
  }

  lemma DeliverWeight(cfg: Config, s: State, m: Msg)
    requires cfg.Valid() && WF(cfg, s) && Enabled(cfg, s, Deliver(m))
    ensures Weight(cfg, Step(cfg, s, Deliver(m))) < Weight(cfg, s)
  {
    hide Left, Sum;
    var s' := Step(cfg, s, Deliver(m));
    HostsDistinct(cfg);
    ReceiveLeft(cfg, m.dst, s.site[m.dst], m);
    SumMoves(cfg, s, s', cfg.participants + [cfg.coordinator], m.dst);
    assert |s.net - multiset{m}| == |s.net| - 1;
  }

  lemma StepWeight(cfg: Config, s: State, a: Action)
    requires Inv(cfg, s) && AllUp(cfg, s) && Enabled(cfg, s, a) && Smooth(a)
    ensures Weight(cfg, Step(cfg, s, a)) < Weight(cfg, s)
  {
    if a.Own? {
      assert !s.site[a.host].pc.Term?;
      OwnWeight(cfg, s, a.host, a.op);
    } else {
      DeliverWeight(cfg, s, a.msg);
    }
  }

  /** Every action of the schedule takes place. */
  ghost predicate Proper(cfg: Config, schedule: seq<Action>) {
    forall i :: 0 <= i < |schedule| ==> Enabled(cfg, Exec(cfg, schedule[..i]), schedule[i])
  }

  lemma {:induction false} SumOfEqual(cfg: Config, s: State, hosts: seq<Host>, k: nat)
    requires forall i :: 0 <= i < |hosts| ==> hosts[i] in s.site && Left(cfg, hosts[i], s.site[hosts[i]].pc) == k
    ensures Sum(cfg, s, hosts) == k * |hosts|
  {
    hide Left;
    if hosts != [] { SumOfEqual(cfg, s, hosts[..|hosts| - 1], k); }
  }

  lemma InitLeft(cfg: Config)
    requires cfg.Valid()
    ensures WF(cfg, Init(cfg)) && Init(cfg).net == multiset{}
    ensures var n, s := |cfg.participants|, Init(cfg);
      && Left(cfg, cfg.coordinator, s.site[cfg.coordinator].pc) == 6 * n + 4
      && forall p :: p in cfg.participants ==> Left(cfg, p, s.site[p].pc) == n + 8
  {
    DistinctSize(cfg.participants);
  }

  lemma InitWeight(cfg: Config)
    requires cfg.Valid()
    ensures var n := |cfg.participants|; Weight(cfg, Init(cfg)) == 2 * n * n + 28 * n + 8
  {
    hide Left, Init;
    var n, s := |cfg.participants|, Init(cfg);
    InitLeft(cfg);
    assert forall i :: 0 <= i < n ==> cfg.participants[i] in cfg.Members();
    SumOfEqual(cfg, s, cfg.participants, n + 8);
    assert (cfg.participants + [cfg.coordinator])[..n] == cfg.participants;
  }

  /** The length of a fault-free run is bounded. */
  lemma FaultFreeBounded(cfg: Config, schedule: seq<Action>)
    requires cfg.Valid() && SmoothRun(schedule) && Proper(cfg, schedule)
    ensures var n := |cfg.participants|; |schedule| <= 2 * n * n + 28 * n + 8
  {
    WeightBounds(cfg, schedule);
    InitWeight(cfg);
  }

  lemma {:induction false} WeightBounds(cfg: Config, schedule: seq<Action>)
    requires cfg.Valid() && SmoothRun(schedule) && Proper(cfg, schedule)
    ensures |schedule| + Weight(cfg, Exec(cfg, schedule)) <= Weight(cfg, Init(cfg))
  {
    hide Weight, Step, Enabled, Inv;
    if schedule != [] {
      var front, a := schedule[..|schedule| - 1], schedule[|schedule| - 1];
      assert forall i :: 0 <= i < |front| ==> schedule[..i] == front[..i];
      assert schedule[..|front|] == front;
      WeightBounds(cfg, front);
      ExecInv(cfg, front);
      NothingLost(cfg, front);
      StepWeight(cfg, Exec(cfg, front), a);
    }
  }

  predicate Agreeable(a: Action) {
    Smooth(a) && !(a.Own? && a.op == CastVote(false))
  }

  /** Where something can happen without a fault, it can without a refusal. */
  lemma NextAgreeable(cfg: Config, s: State) returns (a: Action)
    requires WF(cfg, s) && !Quiescent(cfg, s)
    ensures Enabled(cfg, s, a) && Agreeable(a)
  {
    a :| Enabled(cfg, s, a) && Smooth(a);
    if !Agreeable(a) {
      a := Own(a.host, CastVote(true));
    }
  }

  /** Every fault-free run in which no worker refused so far can be completed that way. */
  lemma {:induction false} Completed(cfg: Config, before: seq<Action>) returns (run: seq<Action>)
    requires cfg.Valid() && forall i :: 0 <= i < |before| ==> Agreeable(before[i])
    ensures before <= run && forall i :: 0 <= i < |run| ==> Agreeable(run[i])
    ensures Quiescent(cfg, Exec(cfg, run))
    decreases Weight(cfg, Exec(cfg, before))
  {
    hide Weight, ExecFrom, Step, Inv, Quiescent;
    if Quiescent(cfg, Exec(cfg, before)) {
      run := before;
    } else {
      var a := NextAgreeable(cfg, Exec(cfg, before));
      ExecInv(cfg, before);
      NothingLost(cfg, before);
      StepWeight(cfg, Exec(cfg, before), a);
      ExecMore(cfg, before, a);
      run := Completed(cfg, before + [a]);
    }
  }

  /** In particular, for every transaction with participants there is a run without loss, crash or timeout
      in which everybody returns COMMIT and all logs hold it. */
  lemma EverybodyCanCommit(cfg: Config) returns (run: seq<Action>)
    requires cfg.Valid() && cfg.participants != []
    ensures SmoothRun(run) && Quiescent(cfg, Exec(cfg, run))
    ensures forall h :: h in cfg.Hosts() ==> Exec(cfg, run).site[h].pc == Done(Commit)
    ensures forall p :: p in cfg.Members() ==> Exec(cfg, run).site[p].log == COMMIT
  {
    hide ExecFrom, Exec, Quiescent;
    run := Completed(cfg, []);
    NobodyRefused(cfg, run);
    FaultFreeOutcome(cfg, run);
  }

  lemma NobodyRefused(cfg: Config, run: seq<Action>)
    requires forall i :: 0 <= i < |run| ==> Agreeable(run[i])
    ensures !SomebodyRefused(cfg, run)
  {
    hide Exec, Enabled;
  }
}
