/**
  Even without faults Cornus 1 can leave a participant waiting for its timeout: an ABORT may overtake the vote
  request on the network, and a host without a handler drops it.
 */
module PaperOvertaken {
  import opened Domain
  import opened PaperProtocol
  import opened PaperInvariant
  import opened PaperTheorems
  import opened PaperProgress
  import opened PaperFaultFree

  lemma Hop(cfg: Config, before: seq<Action>, a: Action) returns (run: seq<Action>)
    requires SmoothRun(before) && Smooth(a) && Enabled(cfg, Exec(cfg, before), a)
    ensures SmoothRun(run) && Exec(cfg, run) == Step(cfg, Exec(cfg, before), a)
  {
    ExecMore(cfg, before, a);
    run := before + [a];
  }

  // ---------------------------------------------------------------------------------------
  // Everybody is asked

  /** Nothing has happened but that the coordinator sent vote requests. */
  ghost predicate Asking(cfg: Config, s: State)
    requires WF(cfg, s)
  {
    var x := s.site[cfg.coordinator];
    && x.up && x.inbox == [] && (x.pc.SendReqs? || x.pc == Collect(0))
    && (forall m :: m in s.net ==> m.kind.VoteReqKind?)
    && forall p :: p in cfg.Members() ==> Untouched(s.site[p])
  }

  predicate Untouched(x: Site) {
    x.up && x.pc.Idle? && x.inbox == [] && x.first == WORKING && !x.saidNo
  }

  lemma StepAsking(cfg: Config, s: State, op: Op)
    requires cfg.Valid() && WF(cfg, s) && Asking(cfg, s) && s.site[cfg.coordinator].pc.SendReqs?
    requires Enabled(cfg, s, Own(cfg.coordinator, op))
    ensures Smooth(Own(cfg.coordinator, op)) && Asking(cfg, Step(cfg, s, Own(cfg.coordinator, op)))
  {
  }

  lemma {:induction false} AskAll(cfg: Config, before: seq<Action>) returns (run: seq<Action>)
    requires cfg.Valid() && SmoothRun(before) && Asking(cfg, Exec(cfg, before))
    ensures SmoothRun(run) && Asking(cfg, Exec(cfg, run)) && Exec(cfg, run).site[cfg.coordinator].pc == Collect(0)
    decreases Budget(cfg, cfg.coordinator, Exec(cfg, before).site[cfg.coordinator].pc)
  {
    hide ExecFrom, Step, Budget;
    var s, c := Exec(cfg, before), cfg.coordinator;
    run := before;
    if s.site[c].pc.SendReqs? {
      ExecInv(cfg, before);
      var op := NeverStuck(cfg, s, c);
      StepAsking(cfg, s, op);
      OwnBudget(cfg, s, c, op);
      run := Hop(cfg, before, Own(c, op));
      run := AskAll(cfg, run);
    }
  }

  // ---------------------------------------------------------------------------------------
  // One refuses, another one is told too early

  /** Where the coordinator and `a` stand, and that `b` has not even been started. */
  ghost predicate At(cfg: Config, s: State, a: Host, b: Host, x: PC, inbox: seq<Msg>, y: PC)
    requires WF(cfg, s) && a in cfg.Members() && b in cfg.Members()
  {
    && s.site[cfg.coordinator].up && s.site[cfg.coordinator].pc == x && s.site[cfg.coordinator].inbox == inbox
    && s.site[a].up && s.site[a].pc == y
    && s.site[b].up && s.site[b].pc == Idle && s.site[b].inbox == [] && s.site[b].first != ABORT && !s.site[b].saidNo
    && forall m :: m in s.net && m.dst == b ==> m.kind.VoteReqKind?
  }

  lemma AskOne(cfg: Config, s: State, a: Host, b: Host)
    requires cfg.Valid() && WF(cfg, s) && a in cfg.Members() && b in cfg.Members() && a != b
    requires At(cfg, s, a, b, Collect(0), [], Idle) && Msg(VoteReqKind, cfg.coordinator, a) in s.net
    ensures Enabled(cfg, s, Deliver(Msg(VoteReqKind, cfg.coordinator, a)))
    ensures At(cfg, Step(cfg, s, Deliver(Msg(VoteReqKind, cfg.coordinator, a))), a, b, Collect(0), [], Vote)
  {
  }

  lemma Refuse(cfg: Config, s: State, a: Host, b: Host)
    requires cfg.Valid() && WF(cfg, s) && a in cfg.Members() && b in cfg.Members() && a != b
    requires At(cfg, s, a, b, Collect(0), [], Vote)
    ensures Enabled(cfg, s, Own(a, CastVote(false)))
    ensures At(cfg, Step(cfg, s, Own(a, CastVote(false))), a, b, Collect(0), [], SayNo)
  {
  }

  lemma Say(cfg: Config, s: State, a: Host, b: Host)
    requires cfg.Valid() && WF(cfg, s) && a in cfg.Members() && b in cfg.Members() && a != b
    requires At(cfg, s, a, b, Collect(0), [], SayNo)
    ensures Enabled(cfg, s, Own(a, SayVote))
    ensures var t := Step(cfg, s, Own(a, SayVote));
      At(cfg, t, a, b, Collect(0), [], Said(false)) && Msg(AbortKind, a, cfg.coordinator) in t.net
  {
  }

  lemma Hear(cfg: Config, s: State, a: Host, b: Host)
    requires cfg.Valid() && WF(cfg, s) && a in cfg.Members() && b in cfg.Members() && a != b
    requires At(cfg, s, a, b, Collect(0), [], Said(false)) && Msg(AbortKind, a, cfg.coordinator) in s.net
    ensures Enabled(cfg, s, Deliver(Msg(AbortKind, a, cfg.coordinator)))
    ensures var m := Msg(AbortKind, a, cfg.coordinator);
      At(cfg, Step(cfg, s, Deliver(m)), a, b, Collect(0), [m], Said(false))
  {
  }

  lemma Take(cfg: Config, s: State, a: Host, b: Host)
    requires cfg.Valid() && WF(cfg, s) && a in cfg.Members() && b in cfg.Members() && a != b
    requires At(cfg, s, a, b, Collect(0), [Msg(AbortKind, a, cfg.coordinator)], Said(false))
    ensures Enabled(cfg, s, Own(cfg.coordinator, TakeVote))
    ensures At(cfg, Step(cfg, s, Own(cfg.coordinator, TakeVote)), a, b, Tell(Abort, cfg.Members(), cfg.Members()), [],
              Said(false))
  {
  }

  /** `b` will not be told (again) and has heard nothing but, possibly, the vote request. */
  ghost predicate Deaf(cfg: Config, s: State, b: Host)
    requires WF(cfg, s) && b in cfg.Members()
  {
    var x, y := s.site[cfg.coordinator], s.site[b];
    && ((x.pc.Tell? && x.pc.decision == Abort && b !in x.pc.pending) || x.pc == Done(Abort))
    && (forall m :: m in s.net && m.dst == b ==> m.kind.VoteReqKind?)
    && y.inbox == [] && y.first != ABORT && !y.saidNo
    && (y.pc.Idle? || y.pc.Vote? || y.pc.Claim? || y.pc.SayYes? || y.pc == Said(true) || y.pc.Wait?)
  }

  /** The coordinator tells `b`, and the message overtakes the vote request. */
  lemma Overtake(cfg: Config, s: State, a: Host, b: Host)
    requires cfg.Valid() && WF(cfg, s) && a in cfg.Members() && b in cfg.Members() && a != b
    requires At(cfg, s, a, b, Tell(Abort, cfg.Members(), cfg.Members()), [], Said(false))
    ensures var tell, m := Own(cfg.coordinator, TellOne(b)), Msg(AbortKind, cfg.coordinator, b);
      && Enabled(cfg, s, tell) && Enabled(cfg, Step(cfg, s, tell), Deliver(m))
      && Deaf(cfg, Step(cfg, Step(cfg, s, tell), Deliver(m)), b)
  {
    var t := Step(cfg, s, Own(cfg.coordinator, TellOne(b)));
    assert forall m :: m in t.net && m.dst == b ==> m.kind.VoteReqKind? || m == Msg(AbortKind, cfg.coordinator, b);
    assert s.net[Msg(AbortKind, cfg.coordinator, b)] == 0;
  }

  lemma Overtaken(cfg: Config, a: Host, b: Host) returns (run: seq<Action>)
    requires cfg.Valid() && a in cfg.Members() && b in cfg.Members() && a != b
    ensures SmoothRun(run) && Deaf(cfg, Exec(cfg, run), b)
  {
    hide ExecFrom, Exec, Step, Enabled, At, Asking, Arriving, Inv, Deaf;
    var c := cfg.coordinator;
    InitAsking(cfg);
    run := AskAll(cfg, []);
    NothingLost(cfg, run);
    ExecInv(cfg, run);
    AskedAll(cfg, Exec(cfg, run), a, b);
    AskOne(cfg, Exec(cfg, run), a, b);
    run := Hop(cfg, run, Deliver(Msg(VoteReqKind, c, a)));
    Refuse(cfg, Exec(cfg, run), a, b);
    run := Hop(cfg, run, Own(a, CastVote(false)));
    Say(cfg, Exec(cfg, run), a, b);
    run := Hop(cfg, run, Own(a, SayVote));
    Hear(cfg, Exec(cfg, run), a, b);
    run := Hop(cfg, run, Deliver(Msg(AbortKind, a, c)));
    Take(cfg, Exec(cfg, run), a, b);
    run := Hop(cfg, run, Own(c, TakeVote));
    Overtake(cfg, Exec(cfg, run), a, b);
    run := Hop(cfg, run, Own(c, TellOne(b)));
    run := Hop(cfg, run, Deliver(Msg(AbortKind, c, b)));
  }

  lemma InitAsking(cfg: Config)
    requires cfg.Valid()
    ensures Asking(cfg, Exec(cfg, []))
  {
  }

  lemma AskedAll(cfg: Config, s: State, a: Host, b: Host)
    requires Inv(cfg, s) && Asking(cfg, s) && Arriving(cfg, s) && s.site[cfg.coordinator].pc == Collect(0)
    requires a in cfg.Members() && b in cfg.Members() && a != b
    ensures At(cfg, s, a, b, Collect(0), [], Idle) && Msg(VoteReqKind, cfg.coordinator, a) in s.net
  {
    assert Arrivals(cfg, s, a);
    assert MemberOK(s.site[b]);
  }

  // ---------------------------------------------------------------------------------------
  // It stays deaf

  lemma MoveDeaf(cfg: Config, x: Site, op: Op, b: Host)
    requires Ready(cfg, x, op)
    requires (x.pc.Tell? && x.pc.decision == Abort && b !in x.pc.pending) || x.pc == Done(Abort)
    ensures var pc' := Move(cfg, cfg.coordinator, x, op, WORKING).pc;
      (pc'.Tell? && pc'.decision == Abort && b !in pc'.pending) || pc' == Done(Abort)
  {
  }

  lemma MoveWilling(cfg: Config, b: Host, y: Site, op: Op)
    requires Ready(cfg, y, op) && MemberOK(y) && y.inbox == [] && y.first != ABORT && !y.saidNo
    requires y.pc.Idle? || y.pc.Vote? || y.pc.Claim? || y.pc.SayYes? || y.pc == Said(true) || y.pc.Wait?
    requires !op.Timeout? && op != CastVote(false)
    ensures var y' := Move(cfg, b, y, op, WORKING);
      && y'.inbox == [] && y'.first != ABORT && !y'.saidNo
      && (y'.pc.Claim? || y'.pc.SayYes? || y'.pc == Said(true) || y'.pc.Wait?)
  {
  }

  /** Nobody but the coordinator sends to a participant. */
  lemma SentTo(cfg: Config, h: Host, x: Site, op: Op, m: Msg)
    requires cfg.Valid() && Ready(cfg, x, op) && m in Sent(cfg, h, x, op) && m.dst != cfg.coordinator
    ensures (x.pc.SendReqs? || x.pc.Tell?) && m.dst in x.pc.pending
  {
  }

  lemma OwnDeaf(cfg: Config, s: State, h: Host, op: Op, b: Host)
    requires Inv(cfg, s) && Enabled(cfg, s, Own(h, op)) && !op.TermOnce? && b in cfg.Members() && Deaf(cfg, s, b)
    requires !op.Timeout? && (h == b ==> op != CastVote(false))
    ensures Deaf(cfg, Step(cfg, s, Own(h, op)), b)
  {
    hide Move, Sent;
    var c := cfg.coordinator;
    if h == c { MoveDeaf(cfg, s.site[c], op, b); }
    assert MemberOK(s.site[b]);
    if h == b { MoveWilling(cfg, b, s.site[b], op); }
    assert h in cfg.Members() ==> MemberOK(s.site[h]);
    forall m | m in Sent(cfg, h, s.site[h], op) ensures m.dst != b {
      if m.dst == b { SentTo(cfg, h, s.site[h], op, m); }
    }
  }

  lemma DeliverDeaf(cfg: Config, s: State, m: Msg, b: Host)
    requires WF(cfg, s) && cfg.Valid() && Enabled(cfg, s, Deliver(m)) && b in cfg.Members() && Deaf(cfg, s, b)
    ensures Deaf(cfg, Step(cfg, s, Deliver(m)), b)
  {
    if m.dst == b {
      ReceiveRequest(s.site[b], m);
    } else {
      ReceiveKeeps(s.site[m.dst], m);
    }
  }

  lemma ReceiveRequest(y: Site, m: Msg)
    requires m.kind.VoteReqKind?
    ensures y.Receive(m) == y || (y.pc.Idle? && y.Receive(m) == y.(pc := Vote))
  {
  }

  lemma {:induction false} StaysDeaf(cfg: Config, before: seq<Action>, later: seq<Action>, b: Host)
    requires cfg.Valid() && SmoothRun(before + later) && b in cfg.Members() && Deaf(cfg, Exec(cfg, before), b)
    requires forall i :: 0 <= i < |later| ==> later[i] != Own(b, CastVote(false))
    ensures Deaf(cfg, Exec(cfg, before + later), b)
  {
    hide Inv, Step, Enabled, Deaf, ExecFrom, Arriving;
    if later == [] {
      assert before + later == before;
    } else {
      var front, a := later[..|later| - 1], later[|later| - 1];
      var all := before + later;
      assert all[..|all| - 1] == before + front && all[|all| - 1] == a && Smooth(a);
      var s := Exec(cfg, all[..|all| - 1]);
      StaysDeaf(cfg, before, front, b);
      ExecInv(cfg, before + front);
      NothingLost(cfg, before + front);
      ExecLast(cfg, all);
      if Enabled(cfg, s, a) { StepDeaf(cfg, s, a, b); }
    }
  }

  lemma StepDeaf(cfg: Config, s: State, a: Action, b: Host)
    requires Inv(cfg, s) && Arriving(cfg, s) && Enabled(cfg, s, a) && Smooth(a) && b in cfg.Members()
    requires Deaf(cfg, s, b) && a != Own(b, CastVote(false))
    ensures Deaf(cfg, Step(cfg, s, a), b)
  {
    if a.Own? {
      assert !s.site[a.host].pc.Term?;
      OwnDeaf(cfg, s, a.host, a.op, b);
    } else {
      DeliverDeaf(cfg, s, a.msg, b);
    }
  }

  // ---------------------------------------------------------------------------------------
  // Exactly when everybody returns

  predicate Willing(a: Action, b: Host) {
    Smooth(a) && a != Own(b, CastVote(false))
  }

  /** Every fault-free run can be completed without `b` refusing. */
  lemma {:induction false} Continued(cfg: Config, before: seq<Action>, b: Host) returns (later: seq<Action>)
    requires cfg.Valid() && SmoothRun(before)
    ensures forall i :: 0 <= i < |later| ==> Willing(later[i], b)
    ensures SmoothRun(before + later) && Quiescent(cfg, Exec(cfg, before + later))
    decreases Weight(cfg, Exec(cfg, before))
  {
    hide Weight, ExecFrom, Step, Inv, Quiescent;
    if Quiescent(cfg, Exec(cfg, before)) {
      later := [];
      assert before + [] == before;
    } else {
      var a := NextAgreeable(cfg, Exec(cfg, before));
      ExecInv(cfg, before);
      NothingLost(cfg, before);
      StepWeight(cfg, Exec(cfg, before), a);
      ExecMore(cfg, before, a);
      var rest := Continued(cfg, before + [a], b);
      later := [a] + rest;
      assert before + later == before + [a] + rest;
    }
  }

  lemma DeafWaits(cfg: Config, s: State, b: Host)
    requires Inv(cfg, s) && Arriving(cfg, s) && Quiescent(cfg, s) && b in cfg.Members() && Deaf(cfg, s, b)
    ensures s.site[b].pc.Wait? && s.site[b].inbox == []
  {
    assert Arrivals(cfg, s, b);
    EveryoneWaits(cfg, s, b);
    NothingUnderWay(cfg, s, Msg(VoteReqKind, cfg.coordinator, b));
  }

  /** For any two participants: a run without loss, crash or timeout, which can go no further without a
      timeout, at whose end the second waits for a decision that nobody will send it. */
  lemma LeftWaiting(cfg: Config, a: Host, b: Host) returns (run: seq<Action>)
    requires cfg.Valid() && a in cfg.Members() && b in cfg.Members() && a != b
    ensures SmoothRun(run) && Quiescent(cfg, Exec(cfg, run))
    ensures Exec(cfg, run).site[b].pc.Wait? && Exec(cfg, run).site[b].inbox == []
  {
    hide ExecFrom, Exec, Quiescent, Arriving, Inv, Deaf;
    var before := Overtaken(cfg, a, b);
    var later := Continued(cfg, before, b);
    run := before + later;
    StaysDeaf(cfg, before, later, b);
    ExecInv(cfg, run);
    NothingLost(cfg, run);
    DeafWaits(cfg, Exec(cfg, run), b);
  }

  /** In every fault-free run that has come to its end every participant has returned. */
  ghost predicate AllReturn(cfg: Config) {
    forall run, p :: SmoothRun(run) && Quiescent(cfg, Exec(cfg, run)) && p in cfg.Members() ==>
      Exec(cfg, run).site[p].pc.Done?
  }

  lemma OnlyOneReturns(cfg: Config, run: seq<Action>, p: Host)
    requires cfg.Valid() && |cfg.participants| <= 1 && p in cfg.Members()
    requires SmoothRun(run) && Quiescent(cfg, Exec(cfg, run))
    ensures Exec(cfg, run).site[p].pc.Done?
  {
    hide ExecFrom, Performed;
    var s := Exec(cfg, run);
    FaultFreeOutcome(cfg, run);
    if q :| q in cfg.Members() && Voted(cfg, run, q, false) {
      assert q == p;
      ExecHistory(cfg, run, p);
      ExecInv(cfg, run);
      NothingLost(cfg, run);
      assert MemberOK(s.site[p]);
      EveryoneWaits(cfg, s, p);
    }
  }

  /** That holds exactly of transactions with at most one participant. */
  lemma AllReturnIff(cfg: Config)
    requires cfg.Valid()
    ensures AllReturn(cfg) <==> |cfg.participants| <= 1
  {
    hide ExecFrom, Exec, Quiescent;
    if |cfg.participants| <= 1 {
      forall run, p | SmoothRun(run) && Quiescent(cfg, Exec(cfg, run)) && p in cfg.Members()
        ensures Exec(cfg, run).site[p].pc.Done?
      {
        OnlyOneReturns(cfg, run, p);
      }
    } else {
      var a, b := cfg.participants[0], cfg.participants[1];
      var run := LeftWaiting(cfg, a, b);
      assert b in cfg.Members() && !Exec(cfg, run).site[b].pc.Done?;
    }
  }
}
