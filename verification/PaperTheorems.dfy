/** Safety of Cornus 1 over every run. */
module PaperTheorems {
  import opened Domain
  import opened PaperProtocol
  import opened PaperInvariant
  import AC = AtomicCommit

  // ---------------------------------------------------------------------------------------
  // Runs

  lemma {:induction false} ExecSplit(cfg: Config, s: State, one: seq<Action>, two: seq<Action>)
    requires WF(cfg, s)
    ensures ExecFrom(cfg, s, one + two) == ExecFrom(cfg, ExecFrom(cfg, s, one), two)
  {
    if two == [] {
      assert one + two == one;
    } else {
      var front, a := two[..|two| - 1], two[|two| - 1];
      ExecSplit(cfg, s, one, front);
      assert (one + two)[..|one + two| - 1] == one + front;
    }
  }

  lemma ExecMore(cfg: Config, run: seq<Action>, a: Action)
    requires Enabled(cfg, Exec(cfg, run), a)
    ensures Exec(cfg, run + [a]) == Step(cfg, Exec(cfg, run), a)
  {
    assert (run + [a])[..|run|] == run;
  }

  /** The action takes place in the run, after its first `from` actions. */
  ghost predicate Performed(cfg: Config, run: seq<Action>, from: nat, a: Action) {
    exists i :: from <= i < |run| && run[i] == a && Enabled(cfg, Exec(cfg, run[..i]), a)
  }

  lemma PerformedNow(cfg: Config, run: seq<Action>, from: nat, a: Action)
    requires from <= |run| && Enabled(cfg, Exec(cfg, run), a)
    ensures Performed(cfg, run + [a], from, a)
  {
    hide Exec, Enabled;
    assert (run + [a])[|run|] == a && (run + [a])[..|run|] == run;
  }

  /** What has taken place stays in the run. */
  lemma PerformedStays(cfg: Config, run: seq<Action>, run': seq<Action>, from: nat)
    requires run <= run'
    ensures forall a :: Performed(cfg, run, from, a) ==> Performed(cfg, run', from, a)
  {
    hide Exec, Enabled;
    forall a | Performed(cfg, run, from, a) ensures Performed(cfg, run', from, a) {
      var i :| from <= i < |run| && run[i] == a && Enabled(cfg, Exec(cfg, run[..i]), a);
      assert run'[i] == a && run'[..i] == run[..i];
    }
  }

  /** What has taken place late has taken place. */
  lemma PerformedSince(cfg: Config, run: seq<Action>, from: nat, later: nat)
    requires from <= later
    ensures forall a :: Performed(cfg, run, later, a) ==> Performed(cfg, run, from, a)
  {
  }

  /** The action takes place there and puts the message on the network. */
  ghost predicate Sends(cfg: Config, run: seq<Action>, from: nat, a: Action, m: Msg) {
    exists i :: from <= i < |run| && run[i] == a && PutsOut(cfg, Exec(cfg, run[..i]), a, m)
  }

  ghost predicate PutsOut(cfg: Config, s: State, a: Action, m: Msg)
    requires WF(cfg, s)
  {
    Enabled(cfg, s, a) && Step(cfg, s, a).net == s.net + multiset{m}
  }

  lemma SendsNow(cfg: Config, run: seq<Action>, from: nat, a: Action, m: Msg)
    requires from <= |run| && PutsOut(cfg, Exec(cfg, run), a, m)
    ensures Sends(cfg, run + [a], from, a, m)
  {
    hide Exec, PutsOut;
    assert (run + [a])[|run|] == a && (run + [a])[..|run|] == run;
  }

  lemma SendsStays(cfg: Config, run: seq<Action>, run': seq<Action>, from: nat)
    requires run <= run'
    ensures forall a, m :: Sends(cfg, run, from, a, m) ==> Sends(cfg, run', from, a, m)
  {
    hide Exec, PutsOut;
    forall a, m | Sends(cfg, run, from, a, m) ensures Sends(cfg, run', from, a, m) {
      var i :| from <= i < |run| && run[i] == a && PutsOut(cfg, Exec(cfg, run[..i]), a, m);
      assert run'[i] == a && run'[..i] == run[..i];
    }
  }

  lemma SendsSince(cfg: Config, run: seq<Action>, from: nat, later: nat)
    requires from <= later
    ensures forall a, m :: Sends(cfg, run, later, a, m) ==> Sends(cfg, run, from, a, m)
  {
  }

  /** Evidence seen at one moment is there at every later moment. */
  lemma {:induction false} RunExtends(cfg: Config, s: State, later: seq<Action>)
    requires Inv(cfg, s)
    ensures Inv(cfg, ExecFrom(cfg, s, later)) && Extends(cfg, s, ExecFrom(cfg, s, later))
  {
    if later != [] {
      var front, a := later[..|later| - 1], later[|later| - 1];
      RunExtends(cfg, s, front);
      var t := ExecFrom(cfg, s, front);
      if Enabled(cfg, t, a) {
        StepInv(cfg, t, a);
        StepExtends(cfg, t, a);
      }
    }
  }

  /** A crashed host takes no step and gets no request, whatever the others do; only its log, which the
      DBMS keeps, can still change. */
  lemma {:induction false} CrashedStands(cfg: Config, schedule: seq<Action>, later: seq<Action>, h: Host)
    requires cfg.Valid() && h in cfg.Hosts()
    ensures var x, x' := Exec(cfg, schedule).site[h], Exec(cfg, schedule + [Crash(h)] + later).site[h];
      x'.pc == x.pc && x'.inbox == x.inbox && !x'.up
  {
    hide Step, Enabled, ExecFrom;
    var run := schedule + [Crash(h)] + later;
    if later == [] {
      assert run == schedule + [Crash(h)];
      CrashNow(cfg, schedule, h);
    } else {
      var front, a := later[..|later| - 1], later[|later| - 1];
      assert run[..|run| - 1] == schedule + [Crash(h)] + front && run[|run| - 1] == a;
      CrashedStands(cfg, schedule, front, h);
      var s := Exec(cfg, run[..|run| - 1]);
      assert Exec(cfg, run) == Do(cfg, s, a) by { ExecLast(cfg, run); }
      if Enabled(cfg, s, a) { StepCrashed(cfg, s, a, h); }
    }
  }

  lemma CrashNow(cfg: Config, schedule: seq<Action>, h: Host)
    requires h in cfg.Hosts()
    ensures Exec(cfg, schedule + [Crash(h)]).site[h] == Exec(cfg, schedule).site[h].(up := false)
  {
    ExecMore(cfg, schedule, Crash(h));
  }

  lemma ExecLast(cfg: Config, run: seq<Action>)
    requires run != []
    ensures Exec(cfg, run) == Do(cfg, Exec(cfg, run[..|run| - 1]), run[|run| - 1])
  {
  }

  lemma StepCrashed(cfg: Config, s: State, a: Action, h: Host)
    requires WF(cfg, s) && h in cfg.Hosts() && !s.site[h].up && Enabled(cfg, s, a)
    ensures var x, x' := s.site[h], Step(cfg, s, a).site[h]; x'.pc == x.pc && x'.inbox == x.inbox && !x'.up
  {
    hide Move, Sent, Counted;
    if a.Own? { assert Ready(cfg, s.site[a.host], a.op) && a.host != h; }
  }

  /** A message of which every copy has been lost or delivered can only be received after another has been
      sent. */
  lemma LostIsLost(cfg: Config, schedule: seq<Action>, m: Msg)
    requires cfg.Valid() && Exec(cfg, schedule).net[m] == 1 && m.dst in cfg.Hosts()
    ensures var s, t, r :=
        Exec(cfg, schedule), Exec(cfg, schedule + [Lose(m)]), Exec(cfg, schedule + [Deliver(m)]);
      !Enabled(cfg, t, Deliver(m)) && t.site == s.site && t.net == r.net
  {
    ExecMore(cfg, schedule, Lose(m));
    ExecMore(cfg, schedule, Deliver(m));
  }

  // ---------------------------------------------------------------------------------------
  // Agreement

  /** Host `h` visibly stands for decision `d`: its handler has decided or returned it, or the log at
      its address holds it. */
  ghost predicate Shows(cfg: Config, s: State, h: Host, d: Decision)
    requires WF(cfg, s) && h in cfg.Hosts()
  {
    var x := s.site[h];
    || ((x.pc.Tell? || x.pc.Write? || x.pc.Done?) && x.pc.decision == d)
    || (h in cfg.Members() && x.log == d.AsWord())
  }

  lemma ShownIsBacked(cfg: Config, s: State, h: Host, d: Decision)
    requires Inv(cfg, s) && h in cfg.Hosts() && Shows(cfg, s, h, d)
    ensures Backed(cfg, s, d)
  {
    var x := s.site[h];
    assert PcOK(cfg, s, x.pc);
    if h in cfg.Members() {
      assert MemberOK(x);
      assert Doomed(x) ==> SomeNo(cfg, s);
    }
  }

  lemma OneSided(cfg: Config, s: State)
    requires Inv(cfg, s) && AllYes(cfg, s)
    ensures !SomeNo(cfg, s)
  {
    forall p | p in cfg.Members() ensures !Doomed(s.site[p]) {
      assert MemberOK(s.site[p]);
    }
  }

  /** Agreement: under every interleaving, loss, delay, timeout and crash, decisions shown anywhere at
      any two moments of one run are equal. */
  lemma Agreement(cfg: Config, schedule: seq<Action>, later: seq<Action>,
      h1: Host, d1: Decision, h2: Host, d2: Decision)
    requires cfg.Valid() && h1 in cfg.Hosts() && h2 in cfg.Hosts()
    requires Shows(cfg, Exec(cfg, schedule), h1, d1)
    requires Shows(cfg, Exec(cfg, schedule + later), h2, d2)
    ensures d1 == d2
  {
    ExecInv(cfg, schedule);
    ExecSplit(cfg, Init(cfg), schedule, later);
    var s, t := Exec(cfg, schedule), Exec(cfg, schedule + later);
    RunExtends(cfg, s, later);
    ShownIsBacked(cfg, s, h1, d1);
    EvidenceStays(cfg, s, t, d1);
    ShownIsBacked(cfg, t, h2, d2);
    if AllYes(cfg, t) { OneSided(cfg, t); }
  }

  // ---------------------------------------------------------------------------------------
  // Validity

  /** Logs are first set to ABORT only by somebody's termination loop, hence after a timeout. */
  ghost predicate TimeoutsOK(cfg: Config, s: State)
    requires WF(cfg, s)
  {
    s.timedOut || forall h :: h in cfg.Hosts() ==> s.site[h].first != ABORT && !s.site[h].pc.Term?
  }

  lemma MoveTimeouts(cfg: Config, h: Host, x: Site, op: Op)
    requires Ready(cfg, x, op) && x.first != ABORT && !x.pc.Term? && !op.Timeout?
    ensures var x' := Move(cfg, h, x, op, WORKING); x'.first != ABORT && !x'.pc.Term?
  {
  }

  lemma StepTimeouts(cfg: Config, s: State, a: Action)
    requires WF(cfg, s) && Enabled(cfg, s, a) && TimeoutsOK(cfg, s)
    ensures TimeoutsOK(cfg, Step(cfg, s, a))
  {
    if a.Own? && !a.op.Timeout? && !s.timedOut {
      MoveTimeouts(cfg, a.host, s.site[a.host], a.op);
    }
  }

  lemma {:induction false} ExecTimeouts(cfg: Config, schedule: seq<Action>)
    requires cfg.Valid()
    ensures TimeoutsOK(cfg, Exec(cfg, schedule))
  {
    if schedule != [] {
      var front, a := schedule[..|schedule| - 1], schedule[|schedule| - 1];
      ExecTimeouts(cfg, front);
      var s := Exec(cfg, front);
      if Enabled(cfg, s, a) { StepTimeouts(cfg, s, a); }
    }
  }

  lemma PerformedMore(cfg: Config, schedule: seq<Action>, a: Action, b: Action)
    ensures Performed(cfg, schedule + [a], 0, b) <==>
      Performed(cfg, schedule, 0, b) || (a == b && Enabled(cfg, Exec(cfg, schedule), a))
  {
    hide Exec, Enabled;
    var all := schedule + [a];
    if Performed(cfg, all, 0, b) {
      var i :| 0 <= i < |all| && all[i] == b && Enabled(cfg, Exec(cfg, all[..i]), b);
      if i < |schedule| {
        assert all[..i] == schedule[..i];
      } else {
        assert all[..i] == schedule;
      }
    }
    PerformedStays(cfg, schedule, all, 0);
    if a == b && Enabled(cfg, Exec(cfg, schedule), a) { PerformedNow(cfg, schedule, 0, a); }
  }

  /** The worker of `p` was asked and agreed (refused) in the run. */
  ghost predicate Voted(cfg: Config, schedule: seq<Action>, p: Host, yes: bool) {
    Performed(cfg, schedule, 0, Own(p, CastVote(yes)))
  }

  ghost predicate SomebodyTimedOut(cfg: Config, schedule: seq<Action>) {
    exists h :: Performed(cfg, schedule, 0, Own(h, Timeout))
  }

  /** A handler that got past its worker's agreement. */
  predicate PastYes(x: Site) {
    x.pc.Claim? || x.pc.SayYes? || x.first == VOTEYES
  }

  /** The history variables say what happened in the run. */
  ghost predicate HistoryOK(cfg: Config, schedule: seq<Action>, p: Host) {
    var s := Exec(cfg, schedule);
    && p in s.site
    && (s.site[p].saidNo <==> Voted(cfg, schedule, p, false))
    && (PastYes(s.site[p]) ==> Voted(cfg, schedule, p, true))
    && (s.timedOut <==> SomebodyTimedOut(cfg, schedule))
  }

  lemma MoveHistory(cfg: Config, h: Host, x: Site, op: Op, resp: Word)
    requires Ready(cfg, x, op) && (h != cfg.coordinator ==> MemberOK(x))
    ensures var x' := Move(cfg, h, x, op, resp);
      && (x'.saidNo <==> x.saidNo || op == CastVote(false))
      && (h != cfg.coordinator && PastYes(x') ==> PastYes(x) || op == CastVote(true))
  {
  }

  lemma StepHistory(cfg: Config, s: State, a: Action, p: Host)
    requires cfg.Valid() && WF(cfg, s) && MembersOK(cfg, s) && Enabled(cfg, s, a) && p in cfg.Members()
    ensures var x, x' := s.site[p], Step(cfg, s, a).site[p];
      && (x'.saidNo <==> x.saidNo || a == Own(p, CastVote(false)))
      && (PastYes(x') ==> PastYes(x) || a == Own(p, CastVote(true)))
    ensures Step(cfg, s, a).timedOut <==> s.timedOut || (a.Own? && a.op.Timeout?)
  {
    hide Move;
    if a.Own? && a.op.TermOnce? {
      TermHistory(cfg, s, a.host, p);
    } else if a.Own? {
      assert a.host in cfg.Members() ==> MemberOK(s.site[a.host]);
      MoveHistory(cfg, a.host, s.site[a.host], a.op, WORKING);
    }
  }

  /** LOG_ONCE("ABORT") never gets anybody past an agreement. */
  lemma LogOnceHistory(x: Site)
    requires MemberOK(x)
    ensures var y := x.LogOnce(ABORT); MemberOK(y) && y.saidNo == x.saidNo && (PastYes(y) ==> PastYes(x))
  {
  }

  lemma TermHistory(cfg: Config, s: State, h: Host, p: Host)
    requires cfg.Valid() && WF(cfg, s) && MembersOK(cfg, s) && Enabled(cfg, s, Own(h, TermOnce)) && p in cfg.Members()
    ensures var x, x' := s.site[p], OwnStep(cfg, s, h, TermOnce).site[p];
      x'.saidNo == x.saidNo && (PastYes(x') ==> PastYes(x))
    ensures OwnStep(cfg, s, h, TermOnce).timedOut == s.timedOut
  {
    hide Move, PastYes, MemberOK;
    var t := Target(cfg, s.site[h]);
    LogOnceHistory(s.site[t]);
    var y := s.site[t].LogOnce(ABORT);
    MoveHistory(cfg, h, if t == h then y else s.site[h], TermOnce, y.log);
  }

  lemma {:induction false} ExecHistory(cfg: Config, schedule: seq<Action>, p: Host)
    requires cfg.Valid() && p in cfg.Members()
    ensures HistoryOK(cfg, schedule, p)
  {
    hide Performed, Step, Enabled, PastYes;
    if schedule == [] {
      NothingPerformed(cfg);
      assert !PastYes(Init(cfg).site[p]) by { InitNotPast(cfg, p); }
    } else {
      var front, a := schedule[..|schedule| - 1], schedule[|schedule| - 1];
      assert schedule == front + [a];
      ExecHistory(cfg, front, p);
      ExecInv(cfg, front);
      PerformedMore(cfg, front, a, Own(p, CastVote(true)));
      PerformedMore(cfg, front, a, Own(p, CastVote(false)));
      TimeoutMore(cfg, front, a);
      if Enabled(cfg, Exec(cfg, front), a) { StepHistory(cfg, Exec(cfg, front), a, p); }
    }
  }

  lemma NothingPerformed(cfg: Config)
    ensures forall a :: !Performed(cfg, [], 0, a)
  {
  }

  lemma InitNotPast(cfg: Config, p: Host)
    requires p in cfg.Members()
    ensures cfg.Valid() ==> !PastYes(Init(cfg).site[p])
  {
  }

  lemma TimeoutMore(cfg: Config, schedule: seq<Action>, a: Action)
    ensures SomebodyTimedOut(cfg, schedule + [a]) <==>
      SomebodyTimedOut(cfg, schedule) || (a.Own? && a.op.Timeout? && Enabled(cfg, Exec(cfg, schedule), a))
  {
    hide Performed, Exec, Enabled;
    forall h
      ensures Performed(cfg, schedule + [a], 0, Own(h, Timeout)) <==> (
        || Performed(cfg, schedule, 0, Own(h, Timeout))
        || (a == Own(h, Timeout) && Enabled(cfg, Exec(cfg, schedule), a)))
    {
      PerformedMore(cfg, schedule, a, Own(h, Timeout));
    }
    if a.Own? && a.op.Timeout? && Enabled(cfg, Exec(cfg, schedule), a) {
      assert Performed(cfg, schedule + [a], 0, Own(a.host, Timeout));
    }
  }

  /** COMMIT is shown only when every participant's worker agreed, none refused, and every log took VOTEYES
      before anything else; ABORT only when some participant's worker refused or somebody timed out. */
  lemma Validity(cfg: Config, schedule: seq<Action>, h: Host, d: Decision)
    requires cfg.Valid() && h in cfg.Hosts()
    requires Shows(cfg, Exec(cfg, schedule), h, d)
    ensures if d == Commit then
        forall p :: p in cfg.Members() ==>
          && Exec(cfg, schedule).site[p].first == VOTEYES
          && Voted(cfg, schedule, p, true) && !Voted(cfg, schedule, p, false)
      else SomebodyTimedOut(cfg, schedule) || exists p :: p in cfg.Members() && Voted(cfg, schedule, p, false)
  {
    hide ExecFrom, Performed;
    var s := Exec(cfg, schedule);
    ExecInv(cfg, schedule);
    ExecTimeouts(cfg, schedule);
    ShownIsBacked(cfg, s, h, d);
    forall p | p in cfg.Members() ensures HistoryOK(cfg, schedule, p) { ExecHistory(cfg, schedule, p); }
    if d == Commit {
      OneSided(cfg, s);
    } else {
      var p :| p in cfg.Members() && Doomed(s.site[p]);
      assert HistoryOK(cfg, schedule, p);
    }
  }

  // ---------------------------------------------------------------------------------------
  // Refinement

  function BallotOf(x: Site): AC.Ballot {
    if Doomed(x) then AC.No else if Yes(x) then AC.Yes else AC.Open
  }

  function SaidOf(x: Site): Option<Decision> {
    if x.pc.Done? then Some(x.pc.decision) else None
  }

  /** A participant's ballot is Yes once its log first became VOTEYES, No once it refused or its log
      first became ABORT; a host has announced what its handler returned. */
  ghost function Abs(cfg: Config, s: State): AC.Spec
    requires WF(cfg, s)
  {
    AC.Spec(map p | p in cfg.Members() :: BallotOf(s.site[p]), map h | h in cfg.Hosts() :: SaidOf(s.site[h]))
  }

  /** The abstract effect of changing one site. */
  lemma AbsSet(cfg: Config, s: State, s': State, h: Host, x': Site)
    requires WF(cfg, s) && WF(cfg, s') && h in cfg.Hosts() && s'.site == s.site[h := x']
    ensures var t := Abs(cfg, s);
      Abs(cfg, s') ==
        AC.Spec(if h in cfg.Members() then t.ballot[h := BallotOf(x')] else t.ballot, t.said[h := SaidOf(x')])
  {
    var t, t' := Abs(cfg, s), Abs(cfg, s');
    assert t'.said == t.said[h := SaidOf(x')];
    assert t'.ballot == if h in cfg.Members() then t.ballot[h := BallotOf(x')] else t.ballot;
  }

  lemma BackedOutcome(cfg: Config, s: State, d: Decision)
    requires Inv(cfg, s) && Backed(cfg, s, d)
    ensures AC.Outcome(Abs(cfg, s)) == Some(d)
  {
    var t := Abs(cfg, s);
    if d == Commit {
      OneSided(cfg, s);
    } else {
      var p :| p in cfg.Members() && Doomed(s.site[p]);
      assert t.ballot[p] == AC.No;
    }
  }

  /** Only refusing and claiming casts the ballot of the host that moves, and only if it was open. */
  lemma MoveBallot(cfg: Config, h: Host, x: Site, op: Op, resp: Word)
    requires Ready(cfg, x, op) && MemberOK(x)
    ensures var x' := Move(cfg, h, x, op, resp);
      BallotOf(x') == BallotOf(x) || (BallotOf(x) == AC.Open && (op.CastVote? || op.ClaimLog?))
  {
  }

  /** A handler returns only what is backed. */
  lemma MoveReturns(cfg: Config, s: State, h: Host, op: Op, resp: Word)
    requires Inv(cfg, s) && h in cfg.Hosts() && Ready(cfg, s.site[h], op)
    ensures !s.site[h].pc.Done?
    ensures var x' := Move(cfg, h, s.site[h], op, resp);
      x'.pc.Done? ==> (op.Reply? || op.VoteCallEnds? || op.WriteLog?) && Backed(cfg, s, x'.pc.decision)
  {
    assert PcOK(cfg, s, s.site[h].pc);
    if h in cfg.Members() {
      assert MemberOK(s.site[h]);
      assert Doomed(s.site[h]) ==> SomeNo(cfg, s);
    }
    assert CoordinatorOK(cfg, s.site[cfg.coordinator].pc, s.counted);
  }

  /** LOG_ONCE("ABORT") at the address of `p` casts its ballot, if still open. */
  lemma RefineLogOnce(cfg: Config, s: State, p: Host)
    requires Inv(cfg, s) && p in cfg.Members()
    ensures var r := s.Set(p, s.site[p].LogOnce(ABORT)); WF(cfg, r) && AC.Next(Abs(cfg, s), Abs(cfg, r))
  {
    var y := s.site[p].LogOnce(ABORT);
    var r := s.Set(p, y);
    assert MemberOK(s.site[p]);
    AbsSet(cfg, s, r, p, y);
    var t, t' := Abs(cfg, s), Abs(cfg, r);
    assert t'.said == t.said;
    if BallotOf(y) == t.ballot[p] {
      assert t'.ballot == t.ballot;
    } else {
      assert AC.Cast(t, t', p);
    }
  }

  /** The handler's own half of a termination round is invisible. */
  lemma MoveTerm(cfg: Config, h: Host, x: Site, resp: Word)
    requires Ready(cfg, x, TermOnce)
    ensures var x' := Move(cfg, h, x, TermOnce, resp); BallotOf(x') == BallotOf(x) && SaidOf(x') == SaidOf(x)
  {
  }

  lemma InvisibleSet(cfg: Config, s: State, s': State, h: Host, x': Site)
    requires WF(cfg, s) && WF(cfg, s') && h in cfg.Hosts() && s'.site == s.site[h := x']
    requires BallotOf(x') == BallotOf(s.site[h]) && SaidOf(x') == SaidOf(s.site[h])
    ensures Abs(cfg, s') == Abs(cfg, s)
  {
    AbsSet(cfg, s, s', h, x');
    assert Abs(cfg, s').ballot == Abs(cfg, s).ballot && Abs(cfg, s').said == Abs(cfg, s).said;
  }

  lemma RefineTerm(cfg: Config, s: State, h: Host)
    requires Inv(cfg, s) && Enabled(cfg, s, Own(h, TermOnce))
    ensures AC.Next(Abs(cfg, s), Abs(cfg, OwnStep(cfg, s, h, TermOnce)))
  {
    var p := Target(cfg, s.site[h]);
    var y := s.site[p].LogOnce(ABORT);
    var r := s.Set(p, y);
    RefineLogOnce(cfg, s, p);
    MoveTerm(cfg, h, r.site[h], y.log);
    InvisibleSet(cfg, r, OwnStep(cfg, s, h, TermOnce), h, Move(cfg, h, r.site[h], TermOnce, y.log));
  }

  lemma RefineOwn(cfg: Config, s: State, h: Host, op: Op)
    requires Inv(cfg, s) && Enabled(cfg, s, Own(h, op)) && !op.TermOnce?
    ensures AC.Next(Abs(cfg, s), Abs(cfg, Step(cfg, s, Own(h, op))))
  {
    hide Abs, AC.Next, AC.Outcome, BallotOf;
    var x := s.site[h];
    var x' := Move(cfg, h, x, op, WORKING);
    var s' := Step(cfg, s, Own(h, op));
    AbsSet(cfg, s, s', h, x');
    MoveReturns(cfg, s, h, op, WORKING);
    if h in cfg.Members() {
      assert MemberOK(x);
      MoveBallot(cfg, h, x, op, WORKING);
    }
    if x'.pc.Done? {
      BackedOutcome(cfg, s, x'.pc.decision);
      Announces(cfg, s, s', h, x');
    } else {
      Casts(cfg, s, s', h, x');
    }
  }

  lemma Announces(cfg: Config, s: State, s': State, h: Host, x': Site)
    requires WF(cfg, s) && WF(cfg, s') && h in cfg.Hosts() && !s.site[h].pc.Done? && x'.pc.Done?
    requires s'.site == s.site[h := x'] && (h in cfg.Members() ==> BallotOf(x') == BallotOf(s.site[h]))
    requires AC.Outcome(Abs(cfg, s)) == Some(x'.pc.decision)
    ensures AC.Next(Abs(cfg, s), Abs(cfg, s'))
  {
    hide AC.Outcome, BallotOf;
    var t, t' := Abs(cfg, s), Abs(cfg, s');
    AbsSet(cfg, s, s', h, x');
    assert t'.ballot == t.ballot;
    assert AC.Announce(t, t', h);
  }

  lemma Casts(cfg: Config, s: State, s': State, h: Host, x': Site)
    requires WF(cfg, s) && WF(cfg, s') && h in cfg.Hosts() && !s.site[h].pc.Done? && !x'.pc.Done?
    requires s'.site == s.site[h := x']
    requires h in cfg.Members() ==> BallotOf(x') == BallotOf(s.site[h]) || BallotOf(s.site[h]) == AC.Open
    ensures AC.Next(Abs(cfg, s), Abs(cfg, s'))
  {
    hide AC.Outcome, BallotOf;
    var t, t' := Abs(cfg, s), Abs(cfg, s');
    AbsSet(cfg, s, s', h, x');
    assert t'.said == t.said;
    assert t'.ballot == t.ballot || AC.Cast(t, t', h);
  }

  lemma RefineEnv(cfg: Config, s: State, a: Action)
    requires Inv(cfg, s) && Enabled(cfg, s, a) && !a.Own?
    ensures Abs(cfg, Step(cfg, s, a)) == Abs(cfg, s)
  {
    match a
    case Deliver(m) => InvisibleSet(cfg, s, Step(cfg, s, a), m.dst, s.site[m.dst].Receive(m));
    case Lose(_) =>
    case Crash(h) => InvisibleSet(cfg, s, Step(cfg, s, a), h, s.site[h].(up := false));
  }

  /** Every step of Cornus 1 is one step, or a stutter, of atomic commitment. */
  lemma Refinement(cfg: Config, schedule: seq<Action>, a: Action)
    requires cfg.Valid()
    ensures var s := Exec(cfg, schedule); AC.Next(Abs(cfg, s), Abs(cfg, Do(cfg, s, a)))
  {
    ExecInv(cfg, schedule);
    var s := Exec(cfg, schedule);
    if Enabled(cfg, s, a) {
      if !a.Own? {
        RefineEnv(cfg, s, a);
      } else if a.op.TermOnce? {
        RefineTerm(cfg, s, a.host);
      } else {
        RefineOwn(cfg, s, a.host, a.op);
      }
    }
  }

  /** No ballot has been cast and nothing announced when Cornus 1 starts. */
  lemma RefinementInit(cfg: Config)
    ensures AC.Init(Abs(cfg, Init(cfg)))
  {
  }

  /** What a schedule looks like from the outside, state by state. */
  ghost function Seen(cfg: Config, schedule: seq<Action>): seq<AC.Spec> {
    seq(|schedule| + 1, i requires 0 <= i <= |schedule| => Abs(cfg, Exec(cfg, schedule[..i])))
  }

  /** Every run of Cornus 1, seen from the outside, is a run of atomic commitment. */
  lemma RunRefines(cfg: Config, schedule: seq<Action>)
    requires cfg.Valid()
    ensures AC.Run(Seen(cfg, schedule))
  {
    hide ExecFrom, Exec, Do, Abs, Init, AC.Init, AC.Next;
    var run := Seen(cfg, schedule);
    ExecNone(cfg, schedule);
    RefinementInit(cfg);
    forall i | 0 < i < |run| ensures AC.Next(run[i - 1], run[i]) {
      ExecNext(cfg, schedule, i - 1);
      Refinement(cfg, schedule[..i - 1], schedule[i - 1]);
    }
  }

  lemma ExecNone(cfg: Config, schedule: seq<Action>)
    ensures Exec(cfg, schedule[..0]) == Init(cfg)
  {
  }

  lemma ExecNext(cfg: Config, schedule: seq<Action>, i: nat)
    requires i < |schedule|
    ensures Exec(cfg, schedule[..i + 1]) == Do(cfg, Exec(cfg, schedule[..i]), schedule[i])
  {
    assert schedule[..i + 1][..i] == schedule[..i];
  }

  /** In every state of every run, whatever any host has returned is the outcome. */
  lemma AnnouncedIsOutcome(cfg: Config, schedule: seq<Action>)
    requires cfg.Valid()
    ensures AC.Consistent(Abs(cfg, Exec(cfg, schedule)))
  {
    RunRefines(cfg, schedule);
    AC.RunConsistent(Seen(cfg, schedule), |schedule|);
    assert schedule[..|schedule|] == schedule;
  }

  /** Once a run has an outcome, it keeps it. */
  lemma OutcomeForever(cfg: Config, schedule: seq<Action>, later: seq<Action>, d: Decision)
    requires cfg.Valid() && AC.Outcome(Abs(cfg, Exec(cfg, schedule))) == Some(d)
    ensures AC.Outcome(Abs(cfg, Exec(cfg, schedule + later))) == Some(d)
  {
    hide ExecFrom;
    var all := schedule + later;
    assert all[..|schedule|] == schedule && all[..|all|] == all;
    RunRefines(cfg, all);
    AC.RunStable(Seen(cfg, all), |schedule|, |all|);
  }

  /** The outcome a run has reached is COMMIT exactly when the last log has first taken VOTEYES, and
      ABORT exactly when a participant refused or a log first became ABORT. */
  lemma OutcomeMeaning(cfg: Config, schedule: seq<Action>)
    requires cfg.Valid()
    ensures var s := Exec(cfg, schedule);
      && (AC.Outcome(Abs(cfg, s)) == Some(Commit) <==> AllYes(cfg, s))
      && (AC.Outcome(Abs(cfg, s)) == Some(Abort) <==> SomeNo(cfg, s))
  {
    ExecInv(cfg, schedule);
    var s := Exec(cfg, schedule);
    if AllYes(cfg, s) { BackedOutcome(cfg, s, Commit); }
    if SomeNo(cfg, s) { BackedOutcome(cfg, s, Abort); }
    var t := Abs(cfg, s);
    assert forall p :: p in cfg.Members() ==> t.ballot[p] == BallotOf(s.site[p]);
  }

  // ---------------------------------------------------------------------------------------
  // Logs, counter, termination loop, failure exits

  lemma MoveLog(cfg: Config, h: Host, x: Site, op: Op)
    requires Ready(cfg, x, op) && MemberOK(x)
    ensures var x' := Move(cfg, h, x, op, WORKING);
      || x'.log == x.log
      || (op == ClaimLog && x.log == WORKING && x'.log == VOTEYES)
      || (op == WriteLog && x.log == VOTEYES && x'.log == x.pc.decision.AsWord())
  {
  }

  /** A log only moves WORKING to VOTEYES (its owner claims it), WORKING to ABORT (a termination loop
      reaches it first), or VOTEYES to the decision of its owner; although LOG_WRITE overwrites
      blindly, its caller always finds its own VOTEYES there. */
  ghost predicate LegalLogMove(cfg: Config, s: State, a: Action, p: Host, log': Word)
    requires WF(cfg, s) && Enabled(cfg, s, a) && p in cfg.Members()
  {
    var x := s.site[p];
    || log' == x.log
    || (a == Own(p, ClaimLog) && x.log == WORKING && log' == VOTEYES)
    || (a.Own? && a.op.TermOnce? && Target(cfg, s.site[a.host]) == p && x.log == WORKING && log' == ABORT)
    || (a == Own(p, WriteLog) && x.log == VOTEYES && log' == x.pc.decision.AsWord())
  }

  lemma LogLifeCycle(cfg: Config, schedule: seq<Action>, a: Action, p: Host)
    requires cfg.Valid() && p in cfg.Members() && Enabled(cfg, Exec(cfg, schedule), a)
    ensures var s := Exec(cfg, schedule); LegalLogMove(cfg, s, a, p, Step(cfg, s, a).site[p].log)
    ensures a == Own(p, WriteLog) ==> Exec(cfg, schedule).site[p].log == VOTEYES
  {
    ExecInv(cfg, schedule);
    StepLog(cfg, Exec(cfg, schedule), a, p);
  }

  lemma StepLog(cfg: Config, s: State, a: Action, p: Host)
    requires WF(cfg, s) && MembersOK(cfg, s) && p in cfg.Members() && Enabled(cfg, s, a)
    ensures LegalLogMove(cfg, s, a, p, Step(cfg, s, a).site[p].log)
    ensures a == Own(p, WriteLog) ==> s.site[p].log == VOTEYES
  {
    hide Move;
    assert MemberOK(s.site[p]);
    if a.Own? && a.op.TermOnce? {
      TermLog(cfg, s, a.host, p);
    } else if a.Own? && a.host == p {
      MoveLog(cfg, p, s.site[p], a.op);
    }
  }

  /** A round of the termination loop changes no log but the one it turns to. */
  lemma TermLog(cfg: Config, s: State, h: Host, p: Host)
    requires WF(cfg, s) && p in cfg.Members() && Enabled(cfg, s, Own(h, TermOnce))
    ensures OwnStep(cfg, s, h, TermOnce).site[p].log ==
      if Target(cfg, s.site[h]) == p then Once(s.site[p].log, ABORT) else s.site[p].log
  {
  }

  /** Whenever counting a vote makes the coordinator decide COMMIT, the votes it counted are exactly one
      per participant, and every participant's log first became VOTEYES. */
  lemma VoteCounterFaithful(cfg: Config, schedule: seq<Action>)
    requires cfg.Valid() && Enabled(cfg, Exec(cfg, schedule), Own(cfg.coordinator, TakeVote))
    ensures var s := Exec(cfg, schedule); var s' := Step(cfg, s, Own(cfg.coordinator, TakeVote));
      && s.site[cfg.coordinator].pc.votes == |s.counted| <= |cfg.participants|
      && (s'.site[cfg.coordinator].pc.Tell? && s'.site[cfg.coordinator].pc.decision == Commit ==>
            s'.counted == cfg.Members() && AllYes(cfg, s'))
  {
    ExecInv(cfg, schedule);
    var s := Exec(cfg, schedule);
    assert MsgOK(cfg, s, s.site[cfg.coordinator].inbox[0]);
    if s.site[cfg.coordinator].inbox[0].kind.VoteYesKind? {
      NextVote(cfg, s);
      StepExtends(cfg, s, Own(cfg.coordinator, TakeVote));
    }
  }

  /** Evidence for COMMIT: every log first took VOTEYES. Evidence for ABORT: one participant's log never
      takes VOTEYES, however the run goes on. */
  lemma BackedForever(cfg: Config, s: State, d: Decision) returns (p: Host)
    requires Inv(cfg, s) && Backed(cfg, s, d)
    ensures d == Commit ==> forall later, q :: q in cfg.Members() ==> ExecFrom(cfg, s, later).site[q].first == VOTEYES
    ensures d == Abort ==> p in cfg.Members() && forall later :: ExecFrom(cfg, s, later).site[p].first != VOTEYES
  {
    p := cfg.coordinator;
    if d == Commit {
      forall later, q | q in cfg.Members() ensures ExecFrom(cfg, s, later).site[q].first == VOTEYES {
        RunExtends(cfg, s, later);
      }
    } else {
      p :| p in cfg.Members() && Doomed(s.site[p]);
      forall later ensures ExecFrom(cfg, s, later).site[p].first != VOTEYES {
        DoomedForever(cfg, s, p, later);
      }
    }
  }

  lemma DoomedForever(cfg: Config, s: State, p: Host, later: seq<Action>)
    requires Inv(cfg, s) && p in cfg.Members() && Doomed(s.site[p])
    ensures ExecFrom(cfg, s, later).site[p].first != VOTEYES
  {
    RunExtends(cfg, s, later);
    assert SiteExtends(s.site[p], ExecFrom(cfg, s, later).site[p]);
    assert MemberOK(ExecFrom(cfg, s, later).site[p]);
  }

  /** A termination loop that ends in COMMIT proves that every log first became VOTEYES; one that ends in
      ABORT proves of one participant that its log never will, however the run goes on. */
  lemma TerminationSound(cfg: Config, schedule: seq<Action>, h: Host, op: Op, d: Decision) returns (p: Host)
    requires cfg.Valid() && (op.TermOnce? || op.TermEnd?)
    requires Enabled(cfg, Exec(cfg, schedule), Own(h, op))
    requires Step(cfg, Exec(cfg, schedule), Own(h, op)).site[h].pc == Decided(cfg, h, d)
    ensures var s' := Step(cfg, Exec(cfg, schedule), Own(h, op));
      && (d == Commit ==> forall later, q :: q in cfg.Members() ==> ExecFrom(cfg, s', later).site[q].first == VOTEYES)
      && (d == Abort ==> p in cfg.Members() && forall later :: ExecFrom(cfg, s', later).site[p].first != VOTEYES)
  {
    hide ExecFrom;
    ExecInv(cfg, schedule);
    var s' := Step(cfg, Exec(cfg, schedule), Own(h, op));
    OwnPc(cfg, Exec(cfg, schedule), h, op);
    StepInv(cfg, Exec(cfg, schedule), Own(h, op));
    p := BackedForever(cfg, s', d);
  }

  /** No handler ever reaches "Unknown response from transaction log" or a failing assertion. */
  lemma NoFailureExit(cfg: Config, schedule: seq<Action>, h: Host)
    requires cfg.Valid() && h in cfg.Hosts()
    ensures !Exec(cfg, schedule).site[h].pc.Failed?
  {
    ExecInv(cfg, schedule);
    var s := Exec(cfg, schedule);
    assert CoordinatorOK(cfg, s.site[cfg.coordinator].pc, s.counted);
    assert h in cfg.Members() ==> MemberOK(s.site[h]);
  }
}
