/**
  Cornus 1 never blocks: a live handler finishes by its own steps and log calls alone, provided that the
  calls it makes to other hosts end, be it in a reply or in failure.
 */
module PaperProgress {
  import opened Domain
  import opened PaperProtocol
  import opened PaperInvariant
  import opened PaperTheorems
  import AC = AtomicCommit

  /** The steps a handler may still take before it returns. Messages that other hosts send or lose do
      not enter: each vote consumed is paid for by the number of participants. */
  function Budget(cfg: Config, h: Host, pc: PC): nat {
    var n := |cfg.participants|;
    var afterDecision := if h == cfg.coordinator then 2 * n + 1 else 1;
    match pc
    case SendReqs(pending, waiting) => |pending| + |waiting| + 4 * n + 4
    case Collect(votes) => (if votes <= n then n - votes else 0) + 3 * n + 3
    case Tell(_, pending, waiting) => |pending| + |waiting| + 1
    case Vote => n + 7
    case Claim => n + 6
    case SayYes => n + 5
    case SayNo => 2
    case Said(yes) => if yes then n + 4 else 1
    case Wait => n + 3
    case Write(_) => 1
    case Term(next) => (if next <= n then n - next else 0) + 1 + afterDecision
    case Idle | Done(_) | Failed => 0
  }

  predicate Running(x: Site) {
    x.up && !x.pc.Idle? && !x.pc.Done?
  }

  lemma TakeBudget(cfg: Config, x: Site)
    requires cfg.Valid() && Ready(cfg, x, TakeVote)
    requires x.inbox[0].kind.AbortKind? || (x.inbox[0].kind.VoteYesKind? && x.pc.votes + 1 <= |cfg.participants|)
    ensures var c := cfg.coordinator; Budget(cfg, c, Move(cfg, c, x, TakeVote, WORKING).pc) < Budget(cfg, c, x.pc)
  {
    DistinctSize(cfg.participants);
  }

  lemma TermBudget(cfg: Config, h: Host, x: Site, resp: Word)
    requires cfg.Valid() && Ready(cfg, x, TermOnce) && resp != WORKING
    ensures Budget(cfg, h, Move(cfg, h, x, TermOnce, resp).pc) < Budget(cfg, h, x.pc)
  {
    DistinctSize(cfg.participants);
  }

  lemma SendBudget(cfg: Config, h: Host, x: Site, op: Op)
    requires Ready(cfg, x, op) && (op.SendReq? || op.TellOne? || op.CallEnds?)
    ensures Budget(cfg, h, Move(cfg, h, x, op, WORKING).pc) < Budget(cfg, h, x.pc)
  {
    if op.CallEnds? {
      assert |x.pc.waiting - {op.to}| < |x.pc.waiting|;
    } else {
      assert |x.pc.pending - {op.to}| < |x.pc.pending|;
    }
  }

  lemma MoveBudget(cfg: Config, h: Host, x: Site, op: Op)
    requires cfg.Valid() && Ready(cfg, x, op) && !op.TakeVote? && !op.TermOnce?
    requires !op.SendReq? && !op.TellOne? && !op.CallEnds?
    requires x.pc.Collect? ==> h == cfg.coordinator
    requires x.pc.Wait? ==> h != cfg.coordinator
    ensures Budget(cfg, h, Move(cfg, h, x, op, WORKING).pc) < Budget(cfg, h, x.pc)
  {
    DistinctSize(cfg.participants);
  }

  /** Every step of a handler uses up some of its budget. */
  lemma OwnBudget(cfg: Config, s: State, h: Host, op: Op)
    requires Inv(cfg, s) && Enabled(cfg, s, Own(h, op))
    ensures Budget(cfg, h, Step(cfg, s, Own(h, op)).site[h].pc) < Budget(cfg, h, s.site[h].pc)
  {
    var x := s.site[h];
    assert h in cfg.Members() ==> MemberOK(x);
    if op.TermOnce? {
      var p := Target(cfg, x);
      TermAnswer(cfg, s, p);
      var y := s.site[p].LogOnce(ABORT);
      TermBudget(cfg, h, if p == h then y else x, y.log);
    } else if op.TakeVote? {
      CoordinatorCollects(cfg, s, h);
      assert MsgOK(cfg, s, x.inbox[0]) && x.inbox[0].dst == h && !x.inbox[0].kind.VoteReqKind?;
      if x.inbox[0].kind.VoteYesKind? { NextVote(cfg, s); }
      TakeBudget(cfg, x);
    } else if op.SendReq? || op.TellOne? || op.CallEnds? {
      SendBudget(cfg, h, x, op);
    } else {
      MoveBudget(cfg, h, x, op);
    }
  }

  /** No step of anybody else, and no fault, touches the budget of a handler that has started. */
  lemma OthersBudget(cfg: Config, s: State, a: Action, h: Host)
    requires WF(cfg, s) && h in cfg.Hosts() && Enabled(cfg, s, a)
    requires !(a.Own? && a.host == h) && !s.site[h].pc.Idle?
    ensures Step(cfg, s, a).site[h].pc == s.site[h].pc
  {
  }

  /** A handler that has made all its calls of one kind and waits for them to end. */
  predicate AwaitsCalls(pc: PC) {
    match pc
    case SendReqs(pending, waiting) => pending == {} && waiting != {}
    case Tell(_, pending, waiting) => pending == {} && waiting != {}
    case Said(_) => true
    case _ => false
  }

  predicate EndsCall(op: Op) {
    op.CallEnds? || op.VoteCallEnds?
  }

  lemma OnlyEnds(cfg: Config, x: Site, op: Op)
    requires Ready(cfg, x, op) && AwaitsCalls(x.pc)
    ensures EndsCall(op)
  {
  }

  lemma NextOp(cfg: Config, x: Site) returns (op: Op)
    requires Running(x) && !x.pc.Failed?
    requires (x.pc.SendReqs? || x.pc.Tell?) ==> x.pc.pending <= x.pc.waiting
    ensures Ready(cfg, x, op) && (EndsCall(op) <==> AwaitsCalls(x.pc))
  {
    match x.pc
    case SendReqs(pending, waiting) =>
      op := StartCollect;
      if to :| to in pending { op := SendReq(to); } else if to :| to in waiting { op := CallEnds(to); }
    case Tell(_, pending, waiting) =>
      op := Reply;
      if to :| to in pending { op := TellOne(to); } else if to :| to in waiting { op := CallEnds(to); }
    case Collect(_) => op := if x.inbox == [] then Timeout else TakeVote;
    case Wait => op := if x.inbox == [] then Timeout else TakeDecision;
    case Vote => op := CastVote(true);
    case Claim => op := ClaimLog;
    case SayYes | SayNo => op := SayVote;
    case Said(_) => op := VoteCallEnds;
    case Write(_) => op := WriteLog;
    case Term(next) => op := if next < |cfg.participants| then TermOnce else TermEnd;
  }

  /** A running handler always has a step to take. Only where it waits for its own calls does every step
      need one of them to end, which it may do without a reply; it never waits for a message, a vote or a
      decision of another host. */
  lemma NeverStuck(cfg: Config, s: State, h: Host) returns (op: Op)
    requires Inv(cfg, s) && h in cfg.Hosts() && Running(s.site[h])
    ensures Enabled(cfg, s, Own(h, op))
    ensures EndsCall(op) <==> AwaitsCalls(s.site[h].pc)
    ensures AwaitsCalls(s.site[h].pc) ==> forall o :: Enabled(cfg, s, Own(h, o)) ==> EndsCall(o)
  {
    var x := s.site[h];
    assert h in cfg.Members() ==> MemberOK(x);
    assert h !in cfg.Members() ==> CoordinatorOK(cfg, x.pc, s.counted);
    op := NextOp(cfg, x);
    if AwaitsCalls(x.pc) {
      forall o | Enabled(cfg, s, Own(h, o)) ensures EndsCall(o) {
        OnlyEnds(cfg, x, o);
      }
    }
  }

  /** A handler that waits at its queue takes the request at its head; only with an empty queue it times
      out. */
  lemma WaitingStep(cfg: Config, s: State, h: Host, op: Op)
    requires WF(cfg, s) && Enabled(cfg, s, Own(h, op)) && (s.site[h].pc.Collect? || s.site[h].pc.Wait?)
    ensures op ==
      if s.site[h].inbox == [] then Timeout else if s.site[h].pc.Collect? then TakeVote else TakeDecision
  {
  }

  /** The participant waits with the decision at the head of its queue, or has obeyed it. */
  predicate Obeys(x: Site, m: Msg) {
    var d := if m.kind.CommitKind? then Commit else Abort;
    (x.pc.Wait? && x.inbox != [] && x.inbox[0] == m) || x.pc == Write(d) || x.pc == Done(d)
  }

  lemma MoveObeys(cfg: Config, h: Host, x: Site, op: Op)
    requires h != cfg.coordinator && Ready(cfg, x, op) && x.inbox != [] && Obeys(x, x.inbox[0]) && x.pc.Wait?
    requires x.inbox[0].kind.CommitKind? || x.inbox[0].kind.AbortKind?
    ensures !op.TermOnce? && Obeys(Move(cfg, h, x, op, WORKING), x.inbox[0])
  {
  }

  lemma MoveWrites(cfg: Config, h: Host, x: Site, op: Op, m: Msg)
    requires Ready(cfg, x, op) && Obeys(x, m) && !x.pc.Wait?
    ensures !op.TermOnce? && Obeys(Move(cfg, h, x, op, WORKING), m)
  {
  }

  lemma StepObeys(cfg: Config, s: State, a: Action, p: Host, m: Msg)
    requires Inv(cfg, s) && Enabled(cfg, s, a) && p in cfg.Members() && Obeys(s.site[p], m)
    requires m.kind.CommitKind? || m.kind.AbortKind?
    ensures Obeys(Step(cfg, s, a).site[p], m)
  {
    hide Move, Sent, Counted;
    if a.Own? && a.host == p {
      if s.site[p].pc.Wait? { MoveObeys(cfg, p, s.site[p], a.op); } else { MoveWrites(cfg, p, s.site[p], a.op, m); }
    }
  }

  /** A participant never returns anything else than the decision at the head of its queue, however late it
      gets to look. */
  lemma {:induction false} QueuedIsObeyed(cfg: Config, s: State, later: seq<Action>, p: Host, m: Msg)
    requires Inv(cfg, s) && p in cfg.Members() && s.site[p].pc.Wait? && s.site[p].inbox != [] && s.site[p].inbox[0] == m
    ensures Obeys(ExecFrom(cfg, s, later).site[p], m)
  {
    hide Step, Enabled;
    assert m.kind.CommitKind? || m.kind.AbortKind? by { ToldDecision(cfg, s, p); }
    if later != [] {
      var front, a := later[..|later| - 1], later[|later| - 1];
      QueuedIsObeyed(cfg, s, front, p, m);
      RunExtends(cfg, s, front);
      if Enabled(cfg, ExecFrom(cfg, s, front), a) { StepObeys(cfg, ExecFrom(cfg, s, front), a, p, m); }
    }
  }

  /** All that ever reaches a waiting participant's queue is a decision. */
  lemma ToldDecision(cfg: Config, s: State, h: Host)
    requires Inv(cfg, s) && h in cfg.Members() && s.site[h].inbox != []
    ensures s.site[h].inbox[0].kind.CommitKind? || s.site[h].inbox[0].kind.AbortKind?
  {
    assert MsgOK(cfg, s, s.site[h].inbox[0]) && s.site[h].inbox[0].dst == h;
  }

  /** How many steps of a schedule are really taken by `h`. */
  ghost function OwnSteps(cfg: Config, s: State, schedule: seq<Action>, h: Host): nat
    requires WF(cfg, s)
  {
    if schedule == [] then 0
    else
      var front, a := schedule[..|schedule| - 1], schedule[|schedule| - 1];
      OwnSteps(cfg, s, front, h) +
      (if a.Own? && a.host == h && Enabled(cfg, ExecFrom(cfg, s, front), a) then 1 else 0)
  }

  lemma {:induction false} OwnStepsBounded(cfg: Config, s: State, schedule: seq<Action>, h: Host)
    requires Inv(cfg, s) && h in cfg.Hosts() && !s.site[h].pc.Idle?
    ensures var t := ExecFrom(cfg, s, schedule);
      && !t.site[h].pc.Idle?
      && OwnSteps(cfg, s, schedule, h) + Budget(cfg, h, t.site[h].pc) <= Budget(cfg, h, s.site[h].pc)
  {
    if schedule != [] {
      var front, a := schedule[..|schedule| - 1], schedule[|schedule| - 1];
      OwnStepsBounded(cfg, s, front, h);
      RunExtends(cfg, s, front);
      var t := ExecFrom(cfg, s, front);
      if Enabled(cfg, t, a) {
        if a.Own? && a.host == h {
          OwnBudget(cfg, t, h, a.op);
          StartedStays(cfg, t, h, a.op);
        } else {
          OthersBudget(cfg, t, a, h);
        }
      }
    }
  }

  lemma StartedStays(cfg: Config, s: State, h: Host, op: Op)
    requires WF(cfg, s) && Enabled(cfg, s, Own(h, op))
    ensures !Step(cfg, s, Own(h, op)).site[h].pc.Idle?
  {
  }

  /** In every run a handler takes at most 6n + 4 (coordinator) or n + 7 (participant) steps of its own,
      the ends of its calls included,
      whatever everybody else does in between, and it has returned as soon as it has taken that many. */
  lemma HandlerReturns(cfg: Config, schedule: seq<Action>, later: seq<Action>, h: Host)
    requires cfg.Valid() && h in cfg.Hosts() && !Exec(cfg, schedule).site[h].pc.Idle?
    ensures var s := Exec(cfg, schedule); var n := |cfg.participants|;
      var bound := if h == cfg.coordinator then 6 * n + 4 else n + 7;
      && OwnSteps(cfg, s, later, h) <= bound
      && (OwnSteps(cfg, s, later, h) == bound ==> ExecFrom(cfg, s, later).site[h].pc.Done?)
  {
    ExecInv(cfg, schedule);
    var s := Exec(cfg, schedule);
    OwnStepsBounded(cfg, s, later, h);
    RunExtends(cfg, s, later);
    BudgetBound(cfg, s, h);
    var t := ExecFrom(cfg, s, later);
    assert h in cfg.Members() ==> MemberOK(t.site[h]);
    assert CoordinatorOK(cfg, t.site[cfg.coordinator].pc, t.counted);
  }

  lemma BudgetBound(cfg: Config, s: State, h: Host)
    requires Inv(cfg, s) && h in cfg.Hosts()
    ensures var n := |cfg.participants|;
      Budget(cfg, h, s.site[h].pc) <= if h == cfg.coordinator then 6 * n + 4 else n + 7
  {
    var x := s.site[h];
    DistinctSize(cfg.participants);
    if h == cfg.coordinator {
      assert CoordinatorOK(cfg, x.pc, s.counted);
      if x.pc.SendReqs? || x.pc.Tell? {
        SubsetSize(x.pc.pending, cfg.Members());
        SubsetSize(x.pc.waiting, cfg.Members());
      }
    } else {
      assert MemberOK(x);
    }
  }

  /** From every reachable state, a live handler that has started can return by its own steps alone. */
  lemma {:induction false} ReturnsAlone(cfg: Config, s: State, h: Host) returns (own: seq<Action>)
    requires Inv(cfg, s) && h in cfg.Hosts() && s.site[h].up && !s.site[h].pc.Idle?
    ensures |own| <= Budget(cfg, h, s.site[h].pc)
    ensures forall i :: 0 <= i < |own| ==> own[i].Own? && own[i].host == h
    ensures ExecFrom(cfg, s, own).site[h].pc.Done?
    decreases Budget(cfg, h, s.site[h].pc)
  {
    if s.site[h].pc.Done? {
      own := [];
    } else {
      var op := NeverStuck(cfg, s, h);
      var a := Own(h, op);
      OwnBudget(cfg, s, h, op);
      StartedStays(cfg, s, h, op);
      StepInv(cfg, s, a);
      StaysUp(cfg, s, h, op);
      var rest := ReturnsAlone(cfg, Step(cfg, s, a), h);
      own := [a] + rest;
      ExecSplit(cfg, s, [a], rest);
      assert [a][..0] == [];
      assert ExecFrom(cfg, s, [a]) == Do(cfg, ExecFrom(cfg, s, []), a);
    }
  }

  /** Non-blocking: at any moment of any run, a live handler that has started can finish with at most
      6n + 4 (coordinator) or n + 7 (participant) steps, log calls and ends of calls of its own, while
      every other host and the network stand still; and what it returns is the decision all others will
      return. */
  lemma NonBlocking(cfg: Config, schedule: seq<Action>, h: Host) returns (own: seq<Action>, d: Decision)
    requires cfg.Valid() && h in cfg.Hosts()
    requires Exec(cfg, schedule).site[h].up && !Exec(cfg, schedule).site[h].pc.Idle?
    ensures |own| <= if h == cfg.coordinator then 6 * |cfg.participants| + 4 else |cfg.participants| + 7
    ensures forall i :: 0 <= i < |own| ==> own[i].Own? && own[i].host == h
    ensures Exec(cfg, schedule + own).site[h].pc == Done(d)
    ensures AC.Outcome(Abs(cfg, Exec(cfg, schedule + own))) == Some(d)
  {
    hide ExecFrom;
    ExecInv(cfg, schedule);
    var s := Exec(cfg, schedule);
    own := ReturnsAlone(cfg, s, h);
    BudgetBound(cfg, s, h);
    ExecSplit(cfg, Init(cfg), schedule, own);
    RunExtends(cfg, s, own);
    var t := ExecFrom(cfg, s, own);
    d := t.site[h].pc.decision;
    assert PcOK(cfg, t, t.site[h].pc);
    BackedOutcome(cfg, t, d);
  }

  // ---------------------------------------------------------------------------------------
  // Deciding

  /** The voting phase of the coordinator and the execution phase of a participant, up to the decision. */
  predicate Deciding(pc: PC) {
    pc.Collect? || pc.Wait? || pc.Term?
  }

  function StepsToDecide(cfg: Config, pc: PC): nat {
    var n := |cfg.participants|;
    match pc
    case Collect(votes) => (if votes <= n then n - votes else 0) + n + 2
    case Wait => n + 2
    case Term(next) => (if next <= n then n - next else 0) + 1
    case _ => 0
  }

  predicate DecidedPC(cfg: Config, h: Host, pc: PC) {
    pc == Decided(cfg, h, Commit) || pc == Decided(cfg, h, Abort)
  }

  lemma MoveDecides(cfg: Config, h: Host, x: Site, op: Op, resp: Word)
    requires Ready(cfg, x, op) && Deciding(x.pc)
    requires op.TakeVote? ==> h == cfg.coordinator
    requires op.TakeVote? && !x.inbox[0].kind.AbortKind? ==>
      x.inbox[0].kind.VoteYesKind? && x.pc.votes + 1 <= |cfg.participants|
    requires op.TakeDecision? ==> h != cfg.coordinator && !Obey(x.inbox[0].kind).Failed?
    requires op.TermOnce? ==> resp != WORKING
    ensures !EndsCall(op) && StepsToDecide(cfg, x.pc) > 0
    ensures var pc' := Move(cfg, h, x, op, resp).pc;
      DecidedPC(cfg, h, pc') || (Deciding(pc') && StepsToDecide(cfg, pc') < StepsToDecide(cfg, x.pc))
  {
  }

  lemma StepDecides(cfg: Config, s: State, h: Host, op: Op)
    requires Inv(cfg, s) && Enabled(cfg, s, Own(h, op)) && Deciding(s.site[h].pc)
    ensures !EndsCall(op) && StepsToDecide(cfg, s.site[h].pc) > 0
    ensures var pc' := Step(cfg, s, Own(h, op)).site[h].pc;
      DecidedPC(cfg, h, pc') || (Deciding(pc') && StepsToDecide(cfg, pc') < StepsToDecide(cfg, s.site[h].pc))
  {
    hide StepsToDecide, DecidedPC;
    var x := s.site[h];
    assert h in cfg.Members() ==> MemberOK(x);
    if op.TermOnce? {
      var p := Target(cfg, x);
      TermAnswer(cfg, s, p);
      var y := s.site[p].LogOnce(ABORT);
      MoveDecides(cfg, h, if p == h then y else x, op, y.log);
    } else {
      if op.TakeVote? {
        CoordinatorCollects(cfg, s, h);
        VoteAhead(cfg, s);
      } else if op.TakeDecision? {
        assert MsgOK(cfg, s, x.inbox[0]) && x.inbox[0].dst == h && !x.inbox[0].kind.VoteReqKind?;
        assert CoordinatorOK(cfg, s.site[cfg.coordinator].pc, s.counted);
      }
      MoveDecides(cfg, h, x, op, WORKING);
    }
  }

  lemma DecidingRuns(x: Site)
    requires x.up && Deciding(x.pc)
    ensures Running(x)
  {
  }

  lemma {:induction false} Decides(cfg: Config, s: State, h: Host) returns (own: seq<Action>)
    requires Inv(cfg, s) && h in cfg.Hosts() && s.site[h].up && Deciding(s.site[h].pc)
    ensures |own| <= StepsToDecide(cfg, s.site[h].pc)
    ensures forall i :: 0 <= i < |own| ==> own[i].Own? && own[i].host == h && !EndsCall(own[i].op)
    ensures DecidedPC(cfg, h, ExecFrom(cfg, s, own).site[h].pc)
    decreases StepsToDecide(cfg, s.site[h].pc)
  {
    hide StepsToDecide, DecidedPC, Deciding, Step, Enabled, EndsCall, AwaitsCalls, ExecFrom;
    assert Running(s.site[h]) by { DecidingRuns(s.site[h]); }
    var op := NeverStuck(cfg, s, h);
    var a := Own(h, op);
    StepDecides(cfg, s, h, op);
    StepInv(cfg, s, a);
    StaysUp(cfg, s, h, op);
    ExecAfter(cfg, s, a, []);
    own := [a];
    if !DecidedPC(cfg, h, Step(cfg, s, a).site[h].pc) {
      var rest := Decides(cfg, Step(cfg, s, a), h);
      own := [a] + rest;
      ExecAfter(cfg, s, a, rest);
    }
  }

  lemma ExecAfter(cfg: Config, s: State, a: Action, rest: seq<Action>)
    requires WF(cfg, s) && Enabled(cfg, s, a)
    ensures ExecFrom(cfg, s, [a] + rest) == ExecFrom(cfg, Step(cfg, s, a), rest)
    ensures ExecFrom(cfg, s, [a]) == Step(cfg, s, a)
  {
    ExecSplit(cfg, s, [a], rest);
    assert [a][..0] == [];
    assert ExecFrom(cfg, s, []) == s;
  }

  /** A live coordinator in its voting phase, or a live participant that voted yes and waits, decides by its
      own steps and log calls alone, without any call to another host ending: at most 2n + 2 of them for the
      coordinator, n + 2 for the participant; and what it decides is the outcome. */
  lemma DecidesAlone(cfg: Config, schedule: seq<Action>, h: Host) returns (own: seq<Action>, d: Decision)
    requires cfg.Valid() && h in cfg.Hosts()
    requires Exec(cfg, schedule).site[h].up && Deciding(Exec(cfg, schedule).site[h].pc)
    ensures var n := |cfg.participants|;
      |own| <= if Exec(cfg, schedule).site[h].pc.Collect? then 2 * n + 2 else n + 2
    ensures forall i :: 0 <= i < |own| ==> own[i].Own? && own[i].host == h && !EndsCall(own[i].op)
    ensures Exec(cfg, schedule + own).site[h].pc == Decided(cfg, h, d)
    ensures AC.Outcome(Abs(cfg, Exec(cfg, schedule + own))) == Some(d)
  {
    hide ExecFrom;
    ExecInv(cfg, schedule);
    var s := Exec(cfg, schedule);
    own := Decides(cfg, s, h);
    ExecSplit(cfg, Init(cfg), schedule, own);
    RunExtends(cfg, s, own);
    var t := ExecFrom(cfg, s, own);
    d := if t.site[h].pc == Decided(cfg, h, Commit) then Commit else Abort;
    assert PcOK(cfg, t, t.site[h].pc);
    BackedOutcome(cfg, t, d);
  }

  // ---------------------------------------------------------------------------------------
  // Votes

  /** How many requests of a schedule the coordinator really takes from its queue. */
  ghost function Taken(cfg: Config, s: State, schedule: seq<Action>): nat
    requires WF(cfg, s)
  {
    if schedule == [] then 0
    else
      var front, a := schedule[..|schedule| - 1], schedule[|schedule| - 1];
      var now := a == Own(cfg.coordinator, TakeVote) && Enabled(cfg, ExecFrom(cfg, s, front), a);
      Taken(cfg, s, front) + (if now then 1 else 0)
  }

  function Countable(cfg: Config, pc: PC): nat {
    match pc
    case SendReqs(_, _) => |cfg.participants|
    case Collect(votes) => if votes <= |cfg.participants| then |cfg.participants| - votes else 0
    case _ => 0
  }

  lemma MoveCountable(cfg: Config, x: Site, op: Op, resp: Word)
    requires Ready(cfg, x, op) && (op.TermOnce? ==> resp != WORKING)
    requires op.TakeVote? ==> x.inbox[0].kind.VoteYesKind? || x.inbox[0].kind.AbortKind?
    requires op.TakeVote? ==> x.pc.votes + 1 <= |cfg.participants|
    ensures Countable(cfg, Move(cfg, cfg.coordinator, x, op, resp).pc) + (if op.TakeVote? then 1 else 0)
      <= Countable(cfg, x.pc)
  {
  }

  /** The coordinator's queue holds votes, and there is still one to count. */
  lemma VoteAhead(cfg: Config, s: State)
    requires Inv(cfg, s) && Ready(cfg, s.site[cfg.coordinator], TakeVote)
    ensures var x := s.site[cfg.coordinator];
      (x.inbox[0].kind.VoteYesKind? || x.inbox[0].kind.AbortKind?) && x.pc.votes + 1 <= |cfg.participants|
  {
    var x := s.site[cfg.coordinator];
    var m := x.inbox[0];
    assert MsgOK(cfg, s, m) && m.dst == cfg.coordinator && !m.kind.VoteReqKind?;
    assert CoordinatorOK(cfg, x.pc, s.counted);
    if m.kind.VoteYesKind? {
      NextVote(cfg, s);
    } else {
      var p :| p in cfg.Members() && Doomed(s.site[p]);
      assert p in cfg.participants;
    }
  }

  lemma OwnCountable(cfg: Config, s: State, op: Op)
    requires Inv(cfg, s) && Enabled(cfg, s, Own(cfg.coordinator, op)) && !op.TermOnce?
    ensures var c := cfg.coordinator;
      Countable(cfg, Step(cfg, s, Own(c, op)).site[c].pc) + (if op.TakeVote? then 1 else 0)
        <= Countable(cfg, s.site[c].pc)
  {
    hide Countable;
    if op.TakeVote? { VoteAhead(cfg, s); }
    MoveCountable(cfg, s.site[cfg.coordinator], op, WORKING);
  }

  lemma TermCountable(cfg: Config, s: State)
    requires Inv(cfg, s) && Enabled(cfg, s, Own(cfg.coordinator, TermOnce))
    ensures var c := cfg.coordinator;
      Countable(cfg, Step(cfg, s, Own(c, TermOnce)).site[c].pc) <= Countable(cfg, s.site[c].pc)
  {
    hide Countable;
    var x := s.site[cfg.coordinator];
    var p := Target(cfg, x);
    TermAnswer(cfg, s, p);
    MoveCountable(cfg, x, TermOnce, s.site[p].LogOnce(ABORT).log);
  }

  lemma StepCountable(cfg: Config, s: State, a: Action)
    requires Inv(cfg, s) && Enabled(cfg, s, a)
    ensures var c := cfg.coordinator; var now := a == Own(c, TakeVote);
      Countable(cfg, Step(cfg, s, a).site[c].pc) + (if now then 1 else 0) <= Countable(cfg, s.site[c].pc)
  {
    var c := cfg.coordinator;
    hide Countable;
    assert CoordinatorOK(cfg, s.site[c].pc, s.counted);
    if a.Own? && a.host == c && a.op.TermOnce? {
      TermCountable(cfg, s);
    } else if a.Own? && a.host == c {
      OwnCountable(cfg, s, a.op);
    } else {
      OthersBudget(cfg, s, a, c);
    }
  }

  lemma {:induction false} TakenBound(cfg: Config, schedule: seq<Action>)
    requires cfg.Valid()
    ensures Taken(cfg, Init(cfg), schedule) + Countable(cfg, Exec(cfg, schedule).site[cfg.coordinator].pc)
      <= |cfg.participants|
  {
    if schedule != [] {
      var front, a := schedule[..|schedule| - 1], schedule[|schedule| - 1];
      TakenBound(cfg, front);
      ExecInv(cfg, front);
      if Enabled(cfg, Exec(cfg, front), a) { StepCountable(cfg, Exec(cfg, front), a); }
    }
  }

  /** In every run the coordinator consumes at most one message per participant before it decides or
      times out, and none afterwards. */
  lemma AtMostOneVoteEach(cfg: Config, schedule: seq<Action>)
    requires cfg.Valid()
    ensures Taken(cfg, Init(cfg), schedule) <= |cfg.participants|
  {
    TakenBound(cfg, schedule);
  }

  lemma StaysUp(cfg: Config, s: State, h: Host, op: Op)
    requires WF(cfg, s) && Enabled(cfg, s, Own(h, op))
    ensures Step(cfg, s, Own(h, op)).site[h].up
  {
  }
}
