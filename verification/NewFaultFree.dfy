/**
  Cornus 2 without faults: no message is lost, nobody crashes, and neither the coordinator nor a participant
  times out. Whatever is sent to them then arrives, and every such run ends with everybody committed, unless
  a worker refused. A replicator may time out, and a call may end without a reply.
 */
module NewFaultFree {
  import opened Domain
  import opened NewProtocol
  import opened NewInvariant
  import opened NewTheorems
  import opened NewProgress
  import opened NewValidity

  predicate Smooth(a: Action) {
    a.Deliver? || (a.Own? && !a.op.CollectTimeout? && !a.op.WaitTimeout?)
  }

  predicate SmoothRun(schedule: seq<Action>) {
    forall i :: 0 <= i < |schedule| ==> Smooth(schedule[i])
  }

  // ---------------------------------------------------------------------------------------
  // What is sent is on its way, or has had its effect

  /** The host is up, and its participant or coordinator has not timed out. */
  predicate Well(x: Site) {
    x.up && !x.main.TermRead? && !x.main.TermWrite? && !(x.main.Done? && x.main.via.TimedOut?)
  }

  ghost predicate AllWell(cfg: Config, s: State)
    requires WF(cfg, s)
  {
    forall h :: h in cfg.Hosts() ==> Well(s.site[h])
  }

  ghost predicate OnItsWay(cfg: Config, s: State, m: Msg)
    requires WF(cfg, s) && m.dst in cfg.Hosts()
  {
    m in s.net || m in s.site[m.dst].inbox
  }

  predicate Asked(m: MainPC, p: Host) {
    m.SendReqs? ==> p !in m.pending
  }

  /** The coordinator still collects votes. */
  predicate Collecting(m: MainPC) {
    m.SendReqs? || m.Collect?
  }

  predicate Refusing(x: Site) {
    x.main == Said(false) || (x.main.Done? && x.main.via.Refused?)
  }

  /** The coordinator has sent WILLCOMMIT to `r`. */
  predicate Called(m: MainPC, r: Host) {
    if m.SendWill? then r !in m.pending else CommitMain(m)
  }

  /** The finishing thread has told `p` to commit. */
  predicate ToldCommit(x: Site, p: Host) {
    || (x.fin.FTell? && x.fin.decision == Commit && p !in x.fin.pending)
    || (x.fin.FDone? && CommitMain(x.main))
  }

  predicate WaitsForDecision(x: Site) {
    x.main.SayYes? || x.main == Said(true) || x.main.Wait?
  }

  predicate AtWork(m: MainPC) {
    !m.Idle? && !m.Done? && !m.Failed?
  }

  ghost predicate RequestArrives(cfg: Config, s: State, p: Host)
    requires WF(cfg, s) && p in cfg.Members()
  {
    Asked(s.site[cfg.coordinator].main, p) ==> Msg(VoteReqKind, cfg.coordinator, p) in s.net || !s.site[p].main.Idle?
  }

  /** As long as votes are collected, a yes-vote is under way, queued or counted, and a refusal under way or
      queued. */
  ghost predicate VoteArrives(cfg: Config, s: State, p: Host)
    requires WF(cfg, s) && p in cfg.Members()
  {
    Collecting(s.site[cfg.coordinator].main) ==>
      && (SentYes(s.site[p]) ==> p in s.counted || OnItsWay(cfg, s, Msg(VoteYesKind, p, cfg.coordinator)))
      && (Refusing(s.site[p]) ==> OnItsWay(cfg, s, Msg(AbortKind, p, cfg.coordinator)))
  }

  /** A participant that was told COMMIT and still waits has it under way or queued. */
  ghost predicate CommitArrives(cfg: Config, s: State, p: Host)
    requires WF(cfg, s) && p in cfg.Members()
  {
    ToldCommit(s.site[cfg.coordinator], p) && WaitsForDecision(s.site[p]) ==>
      OnItsWay(cfg, s, Msg(CommitKind, cfg.coordinator, p))
  }

  /** A replicator that was called has WILLCOMMIT under way, or has been started. */
  ghost predicate WillArrives(cfg: Config, s: State, r: Host)
    requires WF(cfg, s) && r in cfg.Backups()
  {
    Called(s.site[cfg.coordinator].main, r) ==> Msg(WillKind, cfg.coordinator, r) in s.net || !s.site[r].repl.RIdle?
  }

  ghost predicate Arrivals(cfg: Config, s: State, p: Host)
    requires WF(cfg, s) && p in cfg.Members()
  {
    RequestArrives(cfg, s, p) && VoteArrives(cfg, s, p) && CommitArrives(cfg, s, p)
  }

  ghost predicate Arriving(cfg: Config, s: State)
    requires WF(cfg, s)
  {
    && AllWell(cfg, s)
    && (forall p :: p in cfg.Members() ==> Arrivals(cfg, s, p))
    && (forall r :: r in cfg.Backups() ==> WillArrives(cfg, s, r))
  }

  // ---------------------------------------------------------------------------------------
  // Preservation

  /** A request stays on its way until its receiver takes it. */
  lemma OwnWay(cfg: Config, s: State, h: Host, op: Op, m: Msg)
    requires WF(cfg, s) && Enabled(cfg, s, Own(h, op)) && m.dst in cfg.Hosts() && OnItsWay(cfg, s, m)
    ensures OnItsWay(cfg, Step(cfg, s, Own(h, op)), m) ||
      (h == m.dst && (op.TakeVote? || op.TakeDecision?) && s.site[h].inbox[0] == m)
  {
    hide Move, Sent;
    var x := s.site[h];
    MoveInboxes(cfg, x, op);
    if op.TakeVote? || op.TakeDecision? {
      assert x.inbox == [x.inbox[0]] + x.inbox[1..];
    }
  }

  lemma ReceiveKeeps(x: Site, m: Msg)
    ensures var x' := x.Receive(m);
      && (x'.main == x.main || (x.main.Idle? && x'.main.Vote?)) && x'.fin == x.fin
      && (x'.repl == x.repl || (x.repl.RIdle? && x'.repl.RLaunched?))
      && x'.saidYes == x.saidYes && x'.up == x.up
  {
  }

  lemma DeliverWay(cfg: Config, s: State, d: Msg, m: Msg)
    requires WF(cfg, s) && Enabled(cfg, s, Deliver(d)) && m.dst in cfg.Hosts() && OnItsWay(cfg, s, m)
    requires s.site[m.dst].up && AtWork(s.site[m.dst].main) && MainKind(m.kind)
    ensures OnItsWay(cfg, Step(cfg, s, Deliver(d)), m)
  {
    if d == m {
      var x := s.site[m.dst];
      assert m in (x.inbox + [m]);
    }
  }

  lemma MainAsked(cfg: Config, h: Host, x: Site, op: Op, p: Host)
    requires op.Main() && Ready(x, op)
    ensures var x' := MainMove(cfg, x, op);
      && !x'.main.Idle?
      && (Asked(x'.main, p) ==> Asked(x.main, p) || Msg(VoteReqKind, h, p) in Sent(cfg, h, x, op))
  {
  }

  lemma MoveAsked(cfg: Config, h: Host, x: Site, op: Op, p: Host)
    requires Ready(x, op)
    ensures var x' := Move(cfg, x, op);
      && (x'.main.Idle? ==> x.main.Idle?)
      && (Asked(x'.main, p) ==> Asked(x.main, p) || Msg(VoteReqKind, h, p) in Sent(cfg, h, x, op))
  {
    hide MainMove, Sent;
    if op.Main() { MainAsked(cfg, h, x, op, p); } else { OtherMain(cfg, x, op); }
  }

  lemma OwnRequest(cfg: Config, s: State, h: Host, op: Op, p: Host)
    requires WF(cfg, s) && Enabled(cfg, s, Own(h, op)) && p in cfg.Members() && RequestArrives(cfg, s, p)
    ensures RequestArrives(cfg, Step(cfg, s, Own(h, op)), p)
  {
    hide Move, Sent;
    MoveAsked(cfg, h, s.site[h], op, p);
  }

  lemma DeliverRequest(cfg: Config, s: State, m: Msg, p: Host)
    requires Inv(cfg, s) && AllWell(cfg, s) && Enabled(cfg, s, Deliver(m)) && p in cfg.Members()
    requires RequestArrives(cfg, s, p)
    ensures RequestArrives(cfg, Step(cfg, s, Deliver(m)), p)
  {
    CoordinatorPlace(cfg, s);
    ReceiveKeeps(s.site[m.dst], m);
    if m.kind.VoteReqKind? { ReceiveRequest(s.site[m.dst], m); }
  }

  lemma ReceiveRequest(x: Site, m: Msg)
    requires x.up && m.kind.VoteReqKind?
    ensures !x.Receive(m).main.Idle?
  {
  }

  lemma CoordinatorPlace(cfg: Config, s: State)
    requires Inv(cfg, s)
    ensures !s.site[cfg.coordinator].main.Wait? && !s.site[cfg.coordinator].main.Idle?
  {
    assert SiteOK(cfg, cfg.coordinator, s.site[cfg.coordinator], s.counted);
  }

  lemma MemberPlace(cfg: Config, s: State, p: Host)
    requires Inv(cfg, s) && p in cfg.Members()
    ensures MemberOK(s.site[p]) && !s.site[p].main.Collect? && !s.site[p].main.Failed?
  {
    assert SiteOK(cfg, p, s.site[p], s.counted);
  }

  lemma MainSays(cfg: Config, h: Host, x: Site, op: Op)
    requires op.Main() && Ready(x, op) && MemberOK(x)
    ensures var x' := MainMove(cfg, x, op);
      && (SentYes(x') ==> SentYes(x) || Msg(VoteYesKind, h, cfg.coordinator) in Sent(cfg, h, x, op))
      && (Refusing(x') ==> Refusing(x) || Msg(AbortKind, h, cfg.coordinator) in Sent(cfg, h, x, op))
  {
  }

  lemma OtherSays(cfg: Config, x: Site, op: Op)
    requires !op.Main() && Ready(x, op)
    ensures var x' := Move(cfg, x, op); x'.main == x.main && x'.saidYes == x.saidYes
  {
  }

  lemma MoveSays(cfg: Config, h: Host, x: Site, op: Op)
    requires Ready(x, op) && MemberOK(x)
    ensures var x' := Move(cfg, x, op);
      && (SentYes(x') ==> SentYes(x) || Msg(VoteYesKind, h, cfg.coordinator) in Sent(cfg, h, x, op))
      && (Refusing(x') ==> Refusing(x) || Msg(AbortKind, h, cfg.coordinator) in Sent(cfg, h, x, op))
  {
    hide MainMove, Sent;
    if op.Main() { MainSays(cfg, h, x, op); } else { OtherSays(cfg, x, op); }
  }

  lemma MainCollecting(cfg: Config, x: Site, op: Op)
    requires op.Main() && Ready(x, op)
    ensures Collecting(MainMove(cfg, x, op).main) ==>
      Collecting(x.main) && !(op.TakeVote? && x.inbox[0].kind.AbortKind?)
  {
  }

  /** The coordinator stops collecting when it takes a refusal. */
  lemma MoveCollecting(cfg: Config, x: Site, op: Op)
    requires Ready(x, op)
    ensures Collecting(Move(cfg, x, op).main) ==>
      Collecting(x.main) && !(op.TakeVote? && x.inbox[0].kind.AbortKind?)
  {
    hide MainMove;
    if op.Main() { MainCollecting(cfg, x, op); } else { OtherMain(cfg, x, op); }
  }

  lemma OwnVote(cfg: Config, s: State, h: Host, op: Op, p: Host)
    requires Inv(cfg, s) && Enabled(cfg, s, Own(h, op)) && p in cfg.Members() && VoteArrives(cfg, s, p)
    ensures VoteArrives(cfg, Step(cfg, s, Own(h, op)), p)
  {
    hide Move, Sent, SentYes, Refusing, Collecting;
    var c := cfg.coordinator;
    var yes, no := Msg(VoteYesKind, p, c), Msg(AbortKind, p, c);
    CoordinatorPlace(cfg, s);
    if h == p {
      MemberPlace(cfg, s, p);
      MoveSays(cfg, p, s.site[p], op);
    } else if h == c {
      MoveCollecting(cfg, s.site[c], op);
    }
    if OnItsWay(cfg, s, yes) { OwnWay(cfg, s, h, op, yes); }
    if OnItsWay(cfg, s, no) { OwnWay(cfg, s, h, op, no); }
  }

  lemma DeliverVote(cfg: Config, s: State, m: Msg, p: Host)
    requires Inv(cfg, s) && AllWell(cfg, s) && Enabled(cfg, s, Deliver(m)) && p in cfg.Members()
    requires VoteArrives(cfg, s, p)
    ensures VoteArrives(cfg, Step(cfg, s, Deliver(m)), p)
  {
    hide OnItsWay;
    var c := cfg.coordinator;
    var yes, no := Msg(VoteYesKind, p, c), Msg(AbortKind, p, c);
    ReceiveKeeps(s.site[m.dst], m);
    CoordinatorPlace(cfg, s);
    MemberPlace(cfg, s, p);
    if Collecting(s.site[c].main) {
      if OnItsWay(cfg, s, yes) { DeliverWay(cfg, s, m, yes); }
      if OnItsWay(cfg, s, no) { DeliverWay(cfg, s, m, no); }
    }
  }

  lemma MainTold(cfg: Config, x: Site, op: Op, p: Host, counted: set<Host>)
    requires op.Main() && Ready(x, op) && CoordinatorOK(cfg, x, counted)
    ensures ToldCommit(MainMove(cfg, x, op), p) ==> ToldCommit(x, p)
  {
  }

  lemma FinTold(cfg: Config, h: Host, x: Site, op: Op, p: Host, counted: set<Host>)
    requires op.Fin() && Ready(x, op) && CoordinatorOK(cfg, x, counted) && p in cfg.Members()
    ensures ToldCommit(FinMove(cfg, x, op), p) ==> ToldCommit(x, p) || Msg(CommitKind, h, p) in Sent(cfg, h, x, op)
  {
  }

  lemma MoveTold(cfg: Config, h: Host, x: Site, op: Op, p: Host, counted: set<Host>)
    requires Ready(x, op) && CoordinatorOK(cfg, x, counted) && p in cfg.Members()
    ensures ToldCommit(Move(cfg, x, op), p) ==> ToldCommit(x, p) || Msg(CommitKind, h, p) in Sent(cfg, h, x, op)
  {
    hide MainMove, FinMove, Sent;
    if op.Main() {
      MainTold(cfg, x, op, p, counted);
    } else if op.Fin() {
      FinTold(cfg, h, x, op, p, counted);
    }
  }

  lemma MainWaits(cfg: Config, x: Site, op: Op)
    requires op.Main() && Ready(x, op)
    ensures WaitsForDecision(MainMove(cfg, x, op)) ==> (WaitsForDecision(x) && !op.TakeDecision?) || x.main.Vote?
  {
  }

  lemma MoveWaits(cfg: Config, x: Site, op: Op)
    requires Ready(x, op)
    ensures WaitsForDecision(Move(cfg, x, op)) ==> (WaitsForDecision(x) && !op.TakeDecision?) || x.main.Vote?
  {
    hide MainMove;
    if op.Main() { MainWaits(cfg, x, op); } else { OtherMain(cfg, x, op); }
  }

  lemma ToldMeansYes(cfg: Config, s: State, p: Host)
    requires Inv(cfg, s) && p in cfg.Members() && ToldCommit(s.site[cfg.coordinator], p)
    ensures s.site[p].saidYes
  {
    assert Effect(s.site[cfg.coordinator]);
  }

  lemma OwnCommit(cfg: Config, s: State, h: Host, op: Op, p: Host)
    requires Inv(cfg, s) && Enabled(cfg, s, Own(h, op)) && p in cfg.Members() && CommitArrives(cfg, s, p)
    ensures CommitArrives(cfg, Step(cfg, s, Own(h, op)), p)
  {
    hide Move, Sent, ToldCommit, WaitsForDecision;
    var c := cfg.coordinator;
    var m := Msg(CommitKind, c, p);
    MemberPlace(cfg, s, p);
    if h == c {
      assert SiteOK(cfg, c, s.site[c], s.counted);
      MoveTold(cfg, c, s.site[c], op, p, s.counted);
    } else if h == p {
      MoveWaits(cfg, s.site[p], op);
      if ToldCommit(s.site[c], p) { ToldMeansYes(cfg, s, p); }
    }
    if OnItsWay(cfg, s, m) { OwnWay(cfg, s, h, op, m); }
  }

  lemma DeliverCommit(cfg: Config, s: State, m: Msg, p: Host)
    requires Inv(cfg, s) && AllWell(cfg, s) && Enabled(cfg, s, Deliver(m)) && p in cfg.Members()
    requires CommitArrives(cfg, s, p)
    ensures CommitArrives(cfg, Step(cfg, s, Deliver(m)), p)
  {
    hide OnItsWay;
    ReceiveKeeps(s.site[m.dst], m);
    CoordinatorPlace(cfg, s);
    var d := Msg(CommitKind, cfg.coordinator, p);
    if OnItsWay(cfg, s, d) && WaitsForDecision(s.site[p]) { DeliverWay(cfg, s, m, d); }
  }

  lemma MainCalls(cfg: Config, h: Host, x: Site, op: Op, r: Host)
    requires op.Main() && Ready(x, op) && r in cfg.Backups()
    ensures Called(MainMove(cfg, x, op).main, r) ==> Called(x.main, r) || Msg(WillKind, h, r) in Sent(cfg, h, x, op)
  {
  }

  lemma MoveCalls(cfg: Config, h: Host, x: Site, op: Op, r: Host)
    requires Ready(x, op) && r in cfg.Backups()
    ensures Called(Move(cfg, x, op).main, r) ==> Called(x.main, r) || Msg(WillKind, h, r) in Sent(cfg, h, x, op)
  {
    hide MainMove, Sent;
    if op.Main() { MainCalls(cfg, h, x, op, r); } else { OtherMain(cfg, x, op); }
  }

  lemma OwnWill(cfg: Config, s: State, h: Host, op: Op, r: Host)
    requires WF(cfg, s) && Enabled(cfg, s, Own(h, op)) && r in cfg.Backups() && WillArrives(cfg, s, r)
    ensures WillArrives(cfg, Step(cfg, s, Own(h, op)), r)
  {
    hide Move, Sent, Called;
    MoveCalls(cfg, h, s.site[h], op, r);
    MoveSite(cfg, s.site[h], op);
  }

  lemma DeliverWill(cfg: Config, s: State, m: Msg, r: Host)
    requires Inv(cfg, s) && AllWell(cfg, s) && Enabled(cfg, s, Deliver(m)) && r in cfg.Backups()
    requires WillArrives(cfg, s, r)
    ensures WillArrives(cfg, Step(cfg, s, Deliver(m)), r)
  {
    ReceiveKeeps(s.site[m.dst], m);
    CoordinatorPlace(cfg, s);
    if m.kind.WillKind? { ReceiveWill(s.site[m.dst], m); }
  }

  lemma ReceiveWill(x: Site, m: Msg)
    requires x.up && m.kind.WillKind?
    ensures !x.Receive(m).repl.RIdle?
  {
  }

  lemma MainWell(cfg: Config, x: Site, op: Op)
    requires op.Main() && Ready(x, op) && Well(x) && !op.WaitTimeout?
    ensures Well(MainMove(cfg, x, op))
  {
  }

  lemma MoveWell(cfg: Config, x: Site, op: Op)
    requires Ready(x, op) && Well(x) && !op.WaitTimeout?
    ensures Well(Move(cfg, x, op))
  {
    hide MainMove;
    if op.Main() {
      MainWell(cfg, x, op);
    } else {
      OtherMain(cfg, x, op);
      MoveOverridden(cfg, x, op);
    }
  }

  lemma StepWell(cfg: Config, s: State, a: Action)
    requires WF(cfg, s) && AllWell(cfg, s) && Enabled(cfg, s, a) && Smooth(a)
    ensures AllWell(cfg, Step(cfg, s, a))
  {
    hide Move, Sent;
    if a.Own? {
      MoveWell(cfg, s.site[a.host], a.op);
    } else {
      ReceiveKeeps(s.site[a.msg.dst], a.msg);
    }
  }

  lemma StepArrives(cfg: Config, s: State, a: Action)
    requires Inv(cfg, s) && Arriving(cfg, s) && Enabled(cfg, s, a) && Smooth(a)
    ensures Arriving(cfg, Step(cfg, s, a))
  {
    hide Step, RequestArrives, VoteArrives, CommitArrives, WillArrives;
    StepWell(cfg, s, a);
    forall p | p in cfg.Members() ensures Arrivals(cfg, Step(cfg, s, a), p) {
      assert Arrivals(cfg, s, p);
      if a.Own? {
        OwnRequest(cfg, s, a.host, a.op, p);
        OwnVote(cfg, s, a.host, a.op, p);
        OwnCommit(cfg, s, a.host, a.op, p);
      } else {
        DeliverRequest(cfg, s, a.msg, p);
        DeliverVote(cfg, s, a.msg, p);
        DeliverCommit(cfg, s, a.msg, p);
      }
    }
    forall r | r in cfg.Backups() ensures WillArrives(cfg, Step(cfg, s, a), r) {
      if a.Own? { OwnWill(cfg, s, a.host, a.op, r); } else { DeliverWill(cfg, s, a.msg, r); }
    }
  }

  lemma InitArrives(cfg: Config)
    requires cfg.Valid()
    ensures Arriving(cfg, Init(cfg))
  {
  }

  /** Without faults nothing that was sent to the coordinator or a participant, and no WILLCOMMIT, gets lost
      on its way. */
  lemma {:induction false} NothingLost(cfg: Config, schedule: seq<Action>)
    requires cfg.Valid() && SmoothRun(schedule)
    ensures Arriving(cfg, Exec(cfg, schedule))
  {
    hide Inv, Step, Enabled, Arriving, Init;
    if schedule == [] {
      InitArrives(cfg);
    } else {
      var front, a := schedule[..|schedule| - 1], schedule[|schedule| - 1];
      NothingLost(cfg, front);
      ExecInv(cfg, front);
      if Enabled(cfg, Exec(cfg, front), a) { StepArrives(cfg, Exec(cfg, front), a); }
    }
  }

  // ---------------------------------------------------------------------------------------
  // How fault-free runs end

  /** Nothing but a timeout of the coordinator or a participant, or a fault, can happen any more. */
  ghost predicate Quiescent(cfg: Config, s: State)
    requires WF(cfg, s)
  {
    forall a :: Enabled(cfg, s, a) ==> !Smooth(a)
  }

  lemma NothingUnderWay(cfg: Config, s: State, m: Msg)
    requires WF(cfg, s) && Quiescent(cfg, s) && m.dst in cfg.Hosts()
    ensures m !in s.net
  {
    assert Smooth(Deliver(m)) && (m in s.net ==> Enabled(cfg, s, Deliver(m)));
  }

  predicate Rests(role: Role, x: Site) {
    !Started(role, x) || Finished(role, x) || (role.Main? && (x.main.Collect? || x.main.Wait?) && x.inbox == [])
  }

  lemma EveryoneRests(cfg: Config, s: State, h: Host, role: Role)
    requires Inv(cfg, s) && AllWell(cfg, s) && Quiescent(cfg, s) && h in cfg.Hosts()
    ensures Rests(role, s.site[h])
  {
    assert Well(s.site[h]);
    if Started(role, s.site[h]) && !Finished(role, s.site[h]) {
      var op := NeverStuck(cfg, s, h, role);
      assert !Smooth(Own(h, op));
    }
  }

  /** The coordinator has decided: it has counted everybody or taken a refusal; and it has finished. */
  lemma CoordinatorReturns(cfg: Config, s: State)
    requires Inv(cfg, s) && Arriving(cfg, s) && Quiescent(cfg, s) && cfg.participants != []
    ensures var x := s.site[cfg.coordinator];
      x.main.Done? && x.main.via.Answered? && x.fin.FDone? && (x.main.decision == Commit ==> x.log == COMMIT)
  {
    var c := cfg.coordinator;
    EveryoneRests(cfg, s, c, Main);
    EveryoneRests(cfg, s, c, Finisher);
    assert SiteOK(cfg, c, s.site[c], s.counted);
    if s.site[c].main.Collect? {
      forall p | p in cfg.Members() ensures p in s.counted { VoteCounted(cfg, s, p); }
      assert s.counted == cfg.Members();
      DistinctSize(cfg.participants);
    }
  }

  lemma VoteCounted(cfg: Config, s: State, p: Host)
    requires Inv(cfg, s) && Arriving(cfg, s) && Quiescent(cfg, s) && p in cfg.Members()
    requires s.site[cfg.coordinator].main.Collect? && s.site[cfg.coordinator].inbox == []
    ensures p in s.counted
  {
    assert Arrivals(cfg, s, p) && Well(s.site[p]);
    MemberPlace(cfg, s, p);
    EveryoneRests(cfg, s, p, Main);
    NothingUnderWay(cfg, s, Msg(VoteReqKind, cfg.coordinator, p));
    NothingUnderWay(cfg, s, Msg(VoteYesKind, p, cfg.coordinator));
    NothingUnderWay(cfg, s, Msg(AbortKind, p, cfg.coordinator));
  }

  lemma ParticipantReturns(cfg: Config, s: State, p: Host)
    requires Inv(cfg, s) && Arriving(cfg, s) && Quiescent(cfg, s) && p in cfg.Members()
    requires s.site[cfg.coordinator].main == Done(Commit, Answered) && s.site[cfg.coordinator].fin.FDone?
    ensures s.site[p].main == Done(Commit, Told)
  {
    assert Arrivals(cfg, s, p) && Well(s.site[p]);
    MemberPlace(cfg, s, p);
    EveryoneRests(cfg, s, p, Main);
    ToldMeansYes(cfg, s, p);
    NothingUnderWay(cfg, s, Msg(CommitKind, cfg.coordinator, p));
    assert OutcomeOK(cfg, s, s.site[p]);
  }

  lemma ReplicatorReturns(cfg: Config, s: State, r: Host)
    requires Inv(cfg, s) && Arriving(cfg, s) && Quiescent(cfg, s) && r in cfg.Backups()
    requires s.site[cfg.coordinator].main == Done(Commit, Answered)
    ensures s.site[r].repl.RDone?
  {
    assert WillArrives(cfg, s, r);
    EveryoneRests(cfg, s, r, Replicator);
    NothingUnderWay(cfg, s, Msg(WillKind, cfg.coordinator, r));
  }

  lemma NoTimeout(cfg: Config, schedule: seq<Action>)
    requires SmoothRun(schedule)
    ensures !VotingTimedOut(cfg, schedule)
  {
    hide Exec, Enabled;
  }

  /** A fault-free run that has come to its end: the client has been told COMMIT exactly if no worker refused;
      then every participant was told COMMIT and returned it, the coordinator's log holds it, and every
      replicator has returned. If a worker refused, nobody has committed anything. */
  lemma FaultFreeOutcome(cfg: Config, schedule: seq<Action>)
    requires cfg.Valid() && cfg.participants != []
    requires SmoothRun(schedule) && Quiescent(cfg, Exec(cfg, schedule))
    ensures var s, c := Exec(cfg, schedule), cfg.coordinator;
      && s.site[c].main == Done(if SomebodyRefused(cfg, schedule) then Abort else Commit, Answered)
      && s.site[c].fin.FDone?
      && if SomebodyRefused(cfg, schedule) then forall h :: h in cfg.Hosts() ==> !Effect(s.site[h])
         else
           && s.site[c].log == COMMIT
           && (forall p :: p in cfg.Members() ==> s.site[p].main == Done(Commit, Told))
           && (forall r :: r in cfg.Backups() ==> s.site[r].repl.RDone?)
  {
    hide ExecFrom, Performed, Arriving, Effect, Quiescent;
    var s, c := Exec(cfg, schedule), cfg.coordinator;
    ExecInv(cfg, schedule);
    NothingLost(cfg, schedule);
    CoordinatorReturns(cfg, s);
    NoTimeout(cfg, schedule);
    Validity(cfg, schedule, c);
    DecisionShows(cfg, s);
    if s.site[c].main.decision == Commit {
      assert !SomebodyRefused(cfg, schedule) by { SomeVoter(cfg, schedule); }
      forall p | p in cfg.Members() ensures s.site[p].main == Done(Commit, Told) { ParticipantReturns(cfg, s, p); }
      forall r | r in cfg.Backups() ensures s.site[r].repl.RDone? { ReplicatorReturns(cfg, s, r); }
    }
  }

  lemma SomeVoter(cfg: Config, schedule: seq<Action>)
    requires forall p :: p in cfg.Members() ==> Voted(cfg, schedule, p, true) && !Voted(cfg, schedule, p, false)
    ensures !SomebodyRefused(cfg, schedule)
  {
    hide Performed;
  }

  lemma DecisionShows(cfg: Config, s: State)
    requires Inv(cfg, s) && s.site[cfg.coordinator].main.Done? && s.site[cfg.coordinator].main.via.Answered?
    ensures var x := s.site[cfg.coordinator];
      && (x.main.decision == Commit ==> Effect(x))
      && (x.main.decision == Abort ==> AbortMain(x.main) && forall h :: h in cfg.Hosts() ==> !Effect(s.site[h]))
  {
  }

  // ---------------------------------------------------------------------------------------
  // What is told is obeyed

  /** A participant that was told while its handler was at work has the decision under way or queued until
      it takes it. */
  ghost predicate Reaching(cfg: Config, s: State, p: Host, m: Msg)
    requires WF(cfg, s) && p in cfg.Members() && m.dst == p
  {
    !s.site[p].main.Idle? && (OnItsWay(cfg, s, m) || s.site[p].main.Done?)
  }

  lemma MoveTakes(cfg: Config, x: Site, op: Op)
    requires op.Main() && Ready(x, op)
    ensures var m' := MainMove(cfg, x, op).main;
      && !m'.Idle? && !x.main.Done?
      && (op.TakeDecision? && (x.inbox[0].kind.CommitKind? || x.inbox[0].kind.AbortKind?) ==> m'.Done?)
  {
  }

  lemma OwnReaching(cfg: Config, s: State, h: Host, op: Op, p: Host, m: Msg)
    requires Inv(cfg, s) && Enabled(cfg, s, Own(h, op)) && p in cfg.Members() && m.dst == p
    requires (m.kind.CommitKind? || m.kind.AbortKind?) && Reaching(cfg, s, p, m)
    ensures Reaching(cfg, Step(cfg, s, Own(h, op)), p, m)
  {
    hide OnItsWay, Move, Sent, MainMove;
    MemberPlace(cfg, s, p);
    if OnItsWay(cfg, s, m) { OwnWay(cfg, s, h, op, m); }
    if h == p {
      if op.Main() {
        MoveIsMain(cfg, s.site[p], op);
        MoveTakes(cfg, s.site[p], op);
      } else {
        OtherMain(cfg, s.site[p], op);
      }
    }
  }

  lemma DeliverReaching(cfg: Config, s: State, d: Msg, p: Host, m: Msg)
    requires Inv(cfg, s) && AllWell(cfg, s) && Enabled(cfg, s, Deliver(d)) && p in cfg.Members() && m.dst == p
    requires MainKind(m.kind) && Reaching(cfg, s, p, m)
    ensures Reaching(cfg, Step(cfg, s, Deliver(d)), p, m)
  {
    hide OnItsWay;
    MemberPlace(cfg, s, p);
    ReceiveKeeps(s.site[d.dst], d);
    if OnItsWay(cfg, s, m) && AtWork(s.site[p].main) { DeliverWay(cfg, s, d, m); }
  }

  lemma {:induction false} StaysReaching(cfg: Config, before: seq<Action>, later: seq<Action>, p: Host, m: Msg)
    requires cfg.Valid() && SmoothRun(before + later) && p in cfg.Members() && m.dst == p
    requires (m.kind.CommitKind? || m.kind.AbortKind?) && Reaching(cfg, Exec(cfg, before), p, m)
    ensures Reaching(cfg, Exec(cfg, before + later), p, m)
  {
    hide Inv, Step, Enabled, Reaching, ExecFrom;
    if later == [] {
      assert before + later == before;
    } else {
      var front, a := later[..|later| - 1], later[|later| - 1];
      var all := before + later;
      assert all[..|all| - 1] == before + front && all[|all| - 1] == a;
      var s := Exec(cfg, before + front);
      StaysReaching(cfg, before, front, p, m);
      ExecInv(cfg, before + front);
      NothingLost(cfg, before + front);
      ExecLast(cfg, all);
      if Enabled(cfg, s, a) {
        if a.Own? { OwnReaching(cfg, s, a.host, a.op, p, m); } else { DeliverReaching(cfg, s, a.msg, p, m); }
      }
    }
  }

  /** Without faults, COMMIT and ABORT alike, a participant that is told while its handler is at work ends up
      returning what it was told. */
  lemma DecisionReaches(cfg: Config, before: seq<Action>, later: seq<Action>, p: Host, d: Decision)
    requires cfg.Valid() && p in cfg.Members()
    requires var tell := Own(cfg.coordinator, TellOne(p));
      && SmoothRun(before + [tell] + later) && Enabled(cfg, Exec(cfg, before), tell)
      && Quiescent(cfg, Exec(cfg, before + [tell] + later))
    requires Exec(cfg, before).site[cfg.coordinator].fin.decision == d && AtWork(Exec(cfg, before).site[p].main)
    ensures var m := Exec(cfg, before + [Own(cfg.coordinator, TellOne(p))] + later).site[p].main;
      m.Done? && m.decision == d
  {
    hide ExecFrom, Exec, Quiescent, Arriving;
    var c := cfg.coordinator;
    var told := before + [Own(c, TellOne(p))];
    var all := told + later;
    var m := Msg(if d == Commit then CommitKind else AbortKind, c, p);
    ExecMore(cfg, before, Own(c, TellOne(p)));
    Telling(cfg, Exec(cfg, before), p, m);
    StaysReaching(cfg, told, later, p, m);
    ExecInv(cfg, before);
    ExecInv(cfg, all);
    NothingLost(cfg, all);
    assert all == before + ([Own(c, TellOne(p))] + later);
    assert Exec(cfg, all) == ExecFrom(cfg, Exec(cfg, before), [Own(c, TellOne(p))] + later) by {
      ExecSplit(cfg, Init(cfg), before, [Own(c, TellOne(p))] + later);
      ExecIs(cfg, before);
      ExecIs(cfg, all);
    }
    RunExtends(cfg, Exec(cfg, before), [Own(c, TellOne(p))] + later);
    Reached(cfg, Exec(cfg, before), Exec(cfg, all), p, m, d);
  }

  lemma ExecIs(cfg: Config, schedule: seq<Action>)
    ensures Exec(cfg, schedule) == ExecFrom(cfg, Init(cfg), schedule)
  {
  }

  lemma Telling(cfg: Config, s: State, p: Host, m: Msg)
    requires cfg.Valid() && WF(cfg, s) && p in cfg.Members() && AtWork(s.site[p].main)
    requires Enabled(cfg, s, Own(cfg.coordinator, TellOne(p)))
    requires m.kind == (if s.site[cfg.coordinator].fin.decision == Commit then CommitKind else AbortKind)
    requires m.src == cfg.coordinator && m.dst == p
    ensures Reaching(cfg, Step(cfg, s, Own(cfg.coordinator, TellOne(p))), p, m)
  {
  }

  lemma Reached(cfg: Config, s: State, t: State, p: Host, m: Msg, d: Decision)
    requires Inv(cfg, s) && Inv(cfg, t) && Extends(cfg, s, t) && Arriving(cfg, t) && Quiescent(cfg, t)
    requires p in cfg.Members() && m.dst == p && Reaching(cfg, t, p, m)
    requires s.site[cfg.coordinator].fin.FTell? && s.site[cfg.coordinator].fin.decision == d
    ensures t.site[p].main.Done? && t.site[p].main.decision == d
  {
    assert Well(t.site[p]);
    MemberPlace(cfg, t, p);
    EveryoneRests(cfg, t, p, Main);
    NothingUnderWay(cfg, t, m);
    assert SiteOK(cfg, cfg.coordinator, s.site[cfg.coordinator], s.counted);
    assert OutcomeOK(cfg, t, t.site[p]);
    assert CommitMain(t.site[cfg.coordinator].main) ==> Effect(t.site[cfg.coordinator]);
  }

  // ---------------------------------------------------------------------------------------
  // Every fault-free run comes to an end

  /** The steps the handler in this role may still take, also if it has yet to be started. */
  function Left(cfg: Config, role: Role, x: Site): nat {
    var n, f := |cfg.participants|, |cfg.replicators|;
    if Started(role, x) then Budget(cfg, role, x)
    else
      match role
      case Main => 6
      case Finisher => 4 * n + 2 * f + 6
      case Replicator => 2 * n + 6
  }

  ghost function Sum(cfg: Config, s: State, role: Role, hosts: seq<Host>): nat
    requires forall i :: 0 <= i < |hosts| ==> hosts[i] in s.site
  {
    if hosts == [] then 0
    else Sum(cfg, s, role, hosts[..|hosts| - 1]) + Left(cfg, role, s.site[hosts[|hosts| - 1]])
  }

  /** The hosts that ever run a handler in this role. */
  function Runners(cfg: Config, role: Role): seq<Host> {
    match role
    case Main => cfg.participants + [cfg.coordinator]
    case Finisher => [cfg.coordinator]
    case Replicator => cfg.replicators
  }

  ghost function Remaining(cfg: Config, s: State, role: Role): nat
    requires WF(cfg, s)
  {
    Sum(cfg, s, role, Runners(cfg, role))
  }

  /** Twice the steps the handlers may still take, and the messages under way. */
  ghost function Weight(cfg: Config, s: State): nat
    requires WF(cfg, s)
  {
    2 * (Remaining(cfg, s, Main) + Remaining(cfg, s, Finisher) + Remaining(cfg, s, Replicator)) + |s.net|
  }

  /** Only the summand of the host that moves changes. */
  lemma {:induction false} SumMoves(cfg: Config, s: State, s': State, role: Role, hosts: seq<Host>, h: Host)
    requires Distinct(hosts) && h in s.site && h in s'.site
    requires forall i :: 0 <= i < |hosts| ==> hosts[i] in s.site && hosts[i] in s'.site
    requires forall i :: 0 <= i < |hosts| && hosts[i] != h ==> s'.site[hosts[i]] == s.site[hosts[i]]
    ensures h in hosts ==>
      Sum(cfg, s', role, hosts) + Left(cfg, role, s.site[h]) == Sum(cfg, s, role, hosts) + Left(cfg, role, s'.site[h])
    ensures h !in hosts ==> Sum(cfg, s', role, hosts) == Sum(cfg, s, role, hosts)
  {
    hide Left;
    if hosts != [] {
      SumMoves(cfg, s, s', role, hosts[..|hosts| - 1], h);
    }
  }

  lemma RemainingMoves(cfg: Config, s: State, s': State, role: Role, h: Host)
    requires cfg.Valid() && WF(cfg, s) && WF(cfg, s') && h in cfg.Hosts() && s'.site == s.site[h := s'.site[h]]
    ensures h in Runners(cfg, role) ==>
      Remaining(cfg, s', role) + Left(cfg, role, s.site[h]) == Remaining(cfg, s, role) + Left(cfg, role, s'.site[h])
    ensures h !in Runners(cfg, role) ==> Remaining(cfg, s', role) == Remaining(cfg, s, role)
  {
    hide Left, Sum;
    SumMoves(cfg, s, s', role, Runners(cfg, role), h);
  }

  lemma MoveSends(cfg: Config, h: Host, x: Site, op: Op)
    requires Ready(x, op)
    ensures |Sent(cfg, h, x, op)| <= 1
  {
  }

  /** Whoever takes a step in a role is one of those counted. */
  lemma Runs(cfg: Config, s: State, h: Host, op: Op)
    requires Inv(cfg, s) && Enabled(cfg, s, Own(h, op))
    ensures Started(RoleOf(op), s.site[h]) && h in Runners(cfg, RoleOf(op))
  {
    assert SiteOK(cfg, h, s.site[h], s.counted);
  }

  lemma SpawnLeft(cfg: Config, s: State, h: Host)
    requires Inv(cfg, s) && Enabled(cfg, s, Own(h, Spawn))
    ensures Left(cfg, Finisher, Move(cfg, s.site[h], Spawn)) <= Left(cfg, Finisher, s.site[h])
  {
    GroupSizes(cfg);
    SpawnsOnce(cfg, s, h);
  }

  /** A step uses up something in its own role and adds to none. */
  lemma OwnLeft(cfg: Config, s: State, h: Host, op: Op, role: Role)
    requires Inv(cfg, s) && Enabled(cfg, s, Own(h, op))
    ensures var x, x' := s.site[h], Move(cfg, s.site[h], op);
      Left(cfg, role, x') + (if RoleOf(op) == role then 1 else 0) <= Left(cfg, role, x)
  {
    hide Budget, Move, Sent;
    if RoleOf(op) == role {
      Runs(cfg, s, h, op);
      OwnBudget(cfg, s, h, op);
      StaysStarted(cfg, s.site[h], op, role);
    } else if op.Spawn? && role.Finisher? {
      SpawnLeft(cfg, s, h);
    } else {
      MoveStands(cfg, s.site[h], op, role);
      StandsLeft(cfg, s.site[h], Move(cfg, s.site[h], op), role);
    }
  }

  lemma StandsLeft(cfg: Config, x: Site, x': Site, role: Role)
    requires Stands(role, x, x')
    ensures Left(cfg, role, x') == Left(cfg, role, x)
  {
  }

  lemma OwnWeight(cfg: Config, s: State, h: Host, op: Op)
    requires Inv(cfg, s) && Enabled(cfg, s, Own(h, op))
    ensures Weight(cfg, Step(cfg, s, Own(h, op))) < Weight(cfg, s)
  {
    hide Move, Sent, Left, Remaining, Runners;
    var s' := Step(cfg, s, Own(h, op));
    Runs(cfg, s, h, op);
    forall role ensures Remaining(cfg, s', role) + (if RoleOf(op) == role then 1 else 0) <= Remaining(cfg, s, role) {
      RemainingMoves(cfg, s, s', role, h);
      OwnLeft(cfg, s, h, op, role);
    }
    MoveSends(cfg, h, s.site[h], op);
    assert |s'.net| == |s.net| + |Sent(cfg, h, s.site[h], op)|;
  }

  lemma ReceiveLeft(cfg: Config, x: Site, m: Msg, role: Role)
    ensures Left(cfg, role, x.Receive(m)) <= Left(cfg, role, x)
  {
    ReceiveKeeps(x, m);
  }

  lemma DeliverWeight(cfg: Config, s: State, m: Msg)
    requires Inv(cfg, s) && Enabled(cfg, s, Deliver(m))
    ensures Weight(cfg, Step(cfg, s, Deliver(m))) < Weight(cfg, s)
  {
    hide Left, Remaining, Runners;
    var s' := Step(cfg, s, Deliver(m));
    forall role ensures Remaining(cfg, s', role) <= Remaining(cfg, s, role) {
      RemainingMoves(cfg, s, s', role, m.dst);
      ReceiveLeft(cfg, s.site[m.dst], m, role);
    }
    assert |s.net - multiset{m}| == |s.net| - 1;
  }

  /** Every action of the schedule takes place. */
  ghost predicate Proper(cfg: Config, schedule: seq<Action>) {
    forall i :: 0 <= i < |schedule| ==> Enabled(cfg, Exec(cfg, schedule[..i]), schedule[i])
  }

  lemma StepWeight(cfg: Config, s: State, a: Action)
    requires Inv(cfg, s) && Enabled(cfg, s, a) && Smooth(a)
    ensures Weight(cfg, Step(cfg, s, a)) < Weight(cfg, s)
  {
    if a.Own? { OwnWeight(cfg, s, a.host, a.op); } else { DeliverWeight(cfg, s, a.msg); }
  }

  lemma {:induction false} SumOfEqual(cfg: Config, s: State, role: Role, hosts: seq<Host>, k: nat)
    requires forall i :: 0 <= i < |hosts| ==> hosts[i] in s.site && Left(cfg, role, s.site[hosts[i]]) == k
    ensures Sum(cfg, s, role, hosts) == k * |hosts|
  {
    hide Left;
    if hosts != [] { SumOfEqual(cfg, s, role, hosts[..|hosts| - 1], k); }
  }

  lemma InitLeft(cfg: Config)
    requires cfg.Valid()
    ensures WF(cfg, Init(cfg))
    ensures var n, f, s := |cfg.participants|, |cfg.replicators|, Init(cfg);
      && Left(cfg, Main, s.site[cfg.coordinator]) == 3 * n + 2 * f + 6
      && Left(cfg, Finisher, s.site[cfg.coordinator]) == 4 * n + 2 * f + 6
      && (forall p :: p in cfg.participants ==> Left(cfg, Main, s.site[p]) == 6)
      && (forall r :: r in cfg.replicators ==> Left(cfg, Replicator, s.site[r]) == 2 * n + 6)
  {
    GroupSizes(cfg);
  }

  lemma InitRemaining(cfg: Config)
    requires cfg.Valid()
    ensures var n, f, s := |cfg.participants|, |cfg.replicators|, Init(cfg);
      && Remaining(cfg, s, Main) == 6 * n + (3 * n + 2 * f + 6)
      && Remaining(cfg, s, Finisher) == 4 * n + 2 * f + 6
      && Remaining(cfg, s, Replicator) == (2 * n + 6) * f
  {
    hide Left, Init;
    var n, f, s := |cfg.participants|, |cfg.replicators|, Init(cfg);
    InitLeft(cfg);
    assert forall i :: 0 <= i < n ==> cfg.participants[i] in cfg.Members();
    assert forall i :: 0 <= i < f ==> cfg.replicators[i] in cfg.Backups();
    SumOfEqual(cfg, s, Main, cfg.participants, 6);
    SumOfEqual(cfg, s, Replicator, cfg.replicators, 2 * n + 6);
    assert (cfg.participants + [cfg.coordinator])[..n] == cfg.participants;
    assert [cfg.coordinator][..0] == [];
    assert Sum(cfg, s, Finisher, []) == 0;
  }

  lemma InitWeight(cfg: Config)
    requires cfg.Valid()
    ensures var n, f := |cfg.participants|, |cfg.replicators|;
      Weight(cfg, Init(cfg)) == 26 * n + 20 * f + 4 * n * f + 24
  {
    hide Remaining;
    var n, f := |cfg.participants|, |cfg.replicators|;
    InitRemaining(cfg);
    InitNet(cfg);
    assert (2 * n + 6) * f == 2 * (n * f) + 6 * f;
    assert 4 * n * f == 4 * (n * f);
  }

  lemma InitNet(cfg: Config)
    ensures Init(cfg).net == multiset{}
  {
  }

  /** The length of a fault-free run is bounded. */
  lemma FaultFreeBounded(cfg: Config, schedule: seq<Action>)
    requires cfg.Valid() && SmoothRun(schedule) && Proper(cfg, schedule)
    ensures var n, f := |cfg.participants|, |cfg.replicators|; |schedule| <= 26 * n + 20 * f + 4 * n * f + 24
  {
    WeightBounds(cfg, schedule);
    InitWeight(cfg);
  }

  lemma {:induction false} WeightBounds(cfg: Config, schedule: seq<Action>)
    requires cfg.Valid() && SmoothRun(schedule) && Proper(cfg, schedule)
    ensures |schedule| + Weight(cfg, Exec(cfg, schedule)) <= Weight(cfg, Init(cfg))
  {
    hide Weight, Step, Enabled, Inv;
    if schedule != [] {
      var front, a := schedule[..|schedule| - 1], schedule[|schedule| - 1];
      assert forall i :: 0 <= i < |front| ==> schedule[..i] == front[..i];
      assert schedule[..|front|] == front;
      WeightBounds(cfg, front);
      ExecInv(cfg, front);
      StepWeight(cfg, Exec(cfg, front), a);
    }
  }

  predicate Agreeable(a: Action) {
    Smooth(a) && !(a.Own? && a.op == CastVote(false))
  }

  /** Where something can happen without a fault, it can without a refusal. */
  lemma NextAgreeable(cfg: Config, s: State) returns (a: Action)
    requires WF(cfg, s) && !Quiescent(cfg, s)
    ensures Enabled(cfg, s, a) && Agreeable(a)
  {
    a :| Enabled(cfg, s, a) && Smooth(a);
    if !Agreeable(a) {
      a := Own(a.host, CastVote(true));
    }
  }

  /** Every fault-free run in which no worker refused so far can be completed that way. */
  lemma {:induction false} Completed(cfg: Config, before: seq<Action>) returns (run: seq<Action>)
    requires cfg.Valid() && forall i :: 0 <= i < |before| ==> Agreeable(before[i])
    ensures before <= run && forall i :: 0 <= i < |run| ==> Agreeable(run[i])
    ensures Quiescent(cfg, Exec(cfg, run))
    decreases Weight(cfg, Exec(cfg, before))
  {
    hide Weight, ExecFrom, Step, Inv, Quiescent;
    if Quiescent(cfg, Exec(cfg, before)) {
      run := before;
    } else {
      var a := NextAgreeable(cfg, Exec(cfg, before));
      ExecInv(cfg, before);
      StepWeight(cfg, Exec(cfg, before), a);
      ExecMore(cfg, before, a);
      run := Completed(cfg, before + [a]);
    }
  }

  /** In particular, for every transaction with participants there is a run without loss, crash or timeout
      in which the client and every participant are told COMMIT. */
  lemma EverybodyCanCommit(cfg: Config) returns (run: seq<Action>)
    requires cfg.Valid() && cfg.participants != []
    ensures SmoothRun(run) && Quiescent(cfg, Exec(cfg, run))
    ensures Exec(cfg, run).site[cfg.coordinator].main == Done(Commit, Answered)
    ensures Exec(cfg, run).site[cfg.coordinator].log == COMMIT
    ensures forall p :: p in cfg.Members() ==> Exec(cfg, run).site[p].main == Done(Commit, Told)
    ensures forall r :: r in cfg.Backups() ==> Exec(cfg, run).site[r].repl.RDone?
  {
    hide ExecFrom, Exec, Quiescent, Effect;
    run := Completed(cfg, []);
    NobodyRefused(cfg, run);
    FaultFreeOutcome(cfg, run);
  }

  lemma NobodyRefused(cfg: Config, run: seq<Action>)
    requires forall i :: 0 <= i < |run| ==> Agreeable(run[i])
    ensures !SomebodyRefused(cfg, run)
  {
    hide Exec, Enabled;
  }
}
