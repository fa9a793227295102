/**
  How far the Cornus 2 handlers depend on others: each takes a bounded number of steps, and none ever
  waits for anything but the end of its own calls. A call ends in a reply or in failure.
 */
module NewProgress {
  import opened Domain
  import opened NewProtocol
  import opened NewInvariant
  import opened NewTheorems

  /** The handlers a host may run. */
  datatype Role = Main | Finisher | Replicator

  function RoleOf(op: Op): Role {
    if op.Main() then Main else if op.Fin() then Finisher else Replicator
  }

  /** The action moves the handler in that role, or takes its host down. */
  predicate Moves(a: Action, h: Host, role: Role) {
    a == Crash(h) || (a.Own? && a.host == h && RoleOf(a.op) == role)
  }

  predicate Started(role: Role, x: Site) {
    match role
    case Main => !x.main.Idle?
    case Finisher => !x.fin.FNone?
    case Replicator => !x.repl.RIdle?
  }

  /** The handler in that role has not moved, and its host is as alive as before. */
  predicate Stands(role: Role, x: Site, x': Site) {
    x'.up == x.up &&
    match role
    case Main => x'.main == x.main
    case Finisher => x'.fin == x.fin
    case Replicator => x'.repl == x.repl
  }

  lemma MainStands(cfg: Config, x: Site, op: Op)
    requires op.Main() && Ready(x, op)
    ensures var x' := MainMove(cfg, x, op); x'.up && x'.repl == x.repl && (!op.Spawn? ==> x'.fin == x.fin)
  {
  }

  lemma FinStands(cfg: Config, x: Site, op: Op)
    requires op.Fin() && Ready(x, op)
    ensures var x' := FinMove(cfg, x, op); x'.up && x'.main == x.main && x'.repl == x.repl
  {
  }

  lemma MoveStands(cfg: Config, x: Site, op: Op, role: Role)
    requires Ready(x, op) && RoleOf(op) != role && !(op.Spawn? && role.Finisher?)
    ensures Stands(role, x, Move(cfg, x, op))
  {
    hide MainMove, FinMove;
    if op.Main() {
      MainStands(cfg, x, op);
    } else if op.Fin() {
      FinStands(cfg, x, op);
    }
  }

  lemma ReceiveStands(x: Site, m: Msg, role: Role)
    requires Started(role, x)
    ensures Stands(role, x, x.Receive(m))
  {
  }

  /** The finishing thread is started only once. */
  lemma NoSpawn(cfg: Config, s: State, h: Host)
    requires Inv(cfg, s) && h in cfg.Hosts() && Started(Finisher, s.site[h])
    ensures !s.site[h].main.Returned?
  {
    assert SiteOK(cfg, h, s.site[h], s.counted);
  }

  lemma OthersStand(cfg: Config, s: State, a: Action, me: Host, role: Role)
    requires WF(cfg, s) && me in cfg.Hosts() && Enabled(cfg, s, a) && Started(role, s.site[me])
    requires !Moves(a, me, role)
    requires role.Finisher? ==> !s.site[me].main.Returned?
    ensures Stands(role, s.site[me], Step(cfg, s, a).site[me])
  {
    match a
    case Own(h, op) => if h == me { MoveStands(cfg, s.site[me], op, role); }
    case Deliver(m) => ReceiveStands(s.site[me], m, role);
    case _ =>
  }

  lemma OthersStep(cfg: Config, s: State, a: Action, me: Host, role: Role)
    requires Inv(cfg, s) && me in cfg.Hosts() && Enabled(cfg, s, a) && Started(role, s.site[me])
    requires !Moves(a, me, role)
    ensures Inv(cfg, Step(cfg, s, a)) && Extends(cfg, s, Step(cfg, s, a))
    ensures Stands(role, s.site[me], Step(cfg, s, a).site[me])
  {
    if role == Finisher { NoSpawn(cfg, s, me); }
    OthersStand(cfg, s, a, me, role);
    StepInv(cfg, s, a);
    StepExtends(cfg, s, a);
  }

  // ---------------------------------------------------------------------------------------
  // Budgets

  function LogBudget(cfg: Config, l: LogPC): nat {
    match l
    case LRead => 2 * |cfg.participants| + 3
    case LWrite(_) => 2 * |cfg.participants| + 2
    case LOverride(pending, waiting) => |pending| + |waiting| + 1
    case LEnd => 0
  }

  function MainBudget(cfg: Config, m: MainPC): nat {
    var n, f := |cfg.participants|, |cfg.replicators|;
    match m
    case SendReqs(pending, waiting) => |pending| + |waiting| + n + 2 * f + 6
    case Collect(votes) => (if votes <= n then n - votes else 0) + 2 * f + 5
    case SendWill(pending) => |pending| + f + 4
    case AwaitWill(waiting) => |waiting| + 3
    case Returned(_) => 2
    case Replying(_) => 1
    case Vote => 6
    case SayYes => 5
    case SayNo => 2
    case Said(yes) => if yes then 4 else 1
    case Wait => 3
    case TermRead => 2
    case TermWrite(_) => 1
    case Idle | Done(_, _) | Failed => 0
  }

  function FinBudget(cfg: Config, p: FinPC): nat {
    var n, f := |cfg.participants|, |cfg.replicators|;
    match p
    case FNone | FDone => 0
    case FLog(l) => LogBudget(cfg, l) + 2 * f + 2 * n + 3
    case FComplete(pending, waiting) => |pending| + |waiting| + 2 * n + 2
    case FTell(_, pending, waiting) => |pending| + |waiting| + 1
  }

  function ReplBudget(cfg: Config, p: ReplPC): nat {
    match p
    case RIdle | RDone => 0
    case RLaunched => LogBudget(cfg, LRead) + 3
    case RWait => LogBudget(cfg, LRead) + 2
    case RLog(l) => LogBudget(cfg, l) + 1
  }

  /** The steps a handler may still take; nobody else's steps enter. */
  function Budget(cfg: Config, role: Role, x: Site): nat {
    match role
    case Main => MainBudget(cfg, x.main)
    case Finisher => FinBudget(cfg, x.fin)
    case Replicator => ReplBudget(cfg, x.repl)
  }

  predicate Finished(role: Role, x: Site) {
    match role
    case Main => x.main.Done?
    case Finisher => x.fin.FDone?
    case Replicator => x.repl.RDone?
  }

  lemma GroupSizes(cfg: Config)
    requires cfg.Valid()
    ensures |cfg.Members()| == |cfg.participants| && |cfg.Backups()| == |cfg.replicators|
  {
    DistinctSize(cfg.participants);
    DistinctSize(cfg.replicators);
  }

  lemma LogSteps(cfg: Config, l: LogPC, log: Word, k: LogOp)
    requires cfg.Valid() && LogReady(l, k)
    ensures LogBudget(cfg, LogMove(cfg, l, log, k)) < LogBudget(cfg, l)
  {
    GroupSizes(cfg);
    if k.Override? {
      assert |l.pending - {k.to}| < |l.pending|;
    } else if k.OverrideCallEnds? {
      assert |l.waiting - {k.to}| < |l.waiting|;
    }
  }

  predicate SendsOrAwaits(op: Op) {
    || op.SendReq? || op.ReqCallEnds? || op.SendWillTo? || op.Resolve?
    || op.Complete? || op.CompleteCallEnds? || op.TellOne? || op.TellCallEnds?
  }

  lemma Fewer(s: set<Host>, h: Host)
    requires h in s
    ensures |s - {h}| == |s| - 1
  {
  }

  lemma SendSteps(cfg: Config, x: Site, op: Op)
    requires op.Main() && Ready(x, op) && SendsOrAwaits(op)
    ensures MainBudget(cfg, MainMove(cfg, x, op).main) < MainBudget(cfg, x.main)
  {
    if op.SendReq? || op.SendWillTo? {
      Fewer(x.main.pending, op.to);
    } else {
      Fewer(x.main.waiting, op.to);
    }
  }

  lemma FinSendSteps(cfg: Config, x: Site, op: Op)
    requires op.Fin() && Ready(x, op) && SendsOrAwaits(op)
    ensures FinBudget(cfg, FinMove(cfg, x, op).fin) < FinBudget(cfg, x.fin)
  {
    if op.Complete? || op.TellOne? {
      Fewer(x.fin.pending, op.to);
    } else {
      Fewer(x.fin.waiting, op.to);
    }
  }

  /** Taking votes is bounded because only votes and ABORT come, and no more votes than participants. */
  lemma MainSteps(cfg: Config, x: Site, op: Op)
    requires cfg.Valid() && op.Main() && Ready(x, op) && !SendsOrAwaits(op)
    requires op.TakeVote? && !x.inbox[0].kind.AbortKind? ==>
      x.inbox[0].kind.VoteYesKind? && x.main.votes + 1 <= |cfg.participants|
    requires op.Spawn? ==> x.fin.FNone?
    ensures MainBudget(cfg, MainMove(cfg, x, op).main) < MainBudget(cfg, x.main)
  {
    GroupSizes(cfg);
  }

  lemma FinSteps(cfg: Config, x: Site, op: Op)
    requires cfg.Valid() && op.Fin() && Ready(x, op) && !SendsOrAwaits(op)
    ensures FinBudget(cfg, FinMove(cfg, x, op).fin) < FinBudget(cfg, x.fin)
  {
    hide LogBudget, LogMove;
    if op.FinLog? {
      LogSteps(cfg, x.fin.log, x.log, op.k);
    } else {
      LogDone(cfg);
      GroupSizes(cfg);
    }
  }

  lemma LogDone(cfg: Config)
    ensures LogBudget(cfg, LEnd) == 0
  {
  }

  lemma ReplSteps(cfg: Config, x: Site, op: Op)
    requires cfg.Valid() && !op.Main() && !op.Fin() && Ready(x, op)
    ensures ReplBudget(cfg, ReplMove(cfg, x, op).repl) < ReplBudget(cfg, x.repl)
  {
    if op.ReplLog? { LogSteps(cfg, x.repl.log, x.log, op.k); }
  }

  lemma VotesOnly(cfg: Config, s: State, h: Host)
    requires Inv(cfg, s) && h in cfg.Hosts() && Ready(s.site[h], TakeVote)
    ensures var x := s.site[h];
      x.inbox[0].kind.AbortKind? || (x.inbox[0].kind.VoteYesKind? && x.main.votes + 1 <= |cfg.participants|)
  {
    CoordinatorCollects(cfg, s, h);
    var m := s.site[h].inbox[0];
    assert QueueOK(cfg, s, h, s.site[h]);
    assert MsgOK(cfg, s, m) && m.dst == h && MainKind(m.kind);
    if m.kind.VoteYesKind? { NextVote(cfg, s); }
  }

  /** Every step of a handler uses up some of its budget. */
  lemma OwnBudget(cfg: Config, s: State, h: Host, op: Op)
    requires Inv(cfg, s) && Enabled(cfg, s, Own(h, op))
    ensures Budget(cfg, RoleOf(op), Step(cfg, s, Own(h, op)).site[h]) < Budget(cfg, RoleOf(op), s.site[h])
  {
    hide MainBudget, FinBudget, ReplBudget, MainMove, FinMove, ReplMove, SendsOrAwaits;
    var x := s.site[h];
    if op.Main() && SendsOrAwaits(op) {
      SendSteps(cfg, x, op);
    } else if op.Fin() && SendsOrAwaits(op) {
      FinSendSteps(cfg, x, op);
    } else if op.Main() {
      if op.TakeVote? { VotesOnly(cfg, s, h); }
      if op.Spawn? { SpawnsOnce(cfg, s, h); }
      MainSteps(cfg, x, op);
    } else if op.Fin() {
      FinSteps(cfg, x, op);
    } else {
      ReplSteps(cfg, x, op);
    }
  }

  lemma SpawnsOnce(cfg: Config, s: State, h: Host)
    requires Inv(cfg, s) && h in cfg.Hosts() && s.site[h].main.Returned?
    ensures s.site[h].fin.FNone?
  {
    assert SiteOK(cfg, h, s.site[h], s.counted);
  }

  /** How many steps of a schedule are really taken by the handler in that role at `h`. */
  ghost function OwnSteps(cfg: Config, s: State, schedule: seq<Action>, h: Host, role: Role): nat
    requires WF(cfg, s)
  {
    if schedule == [] then 0
    else
      var front, a := schedule[..|schedule| - 1], schedule[|schedule| - 1];
      var now := a.Own? && a.host == h && RoleOf(a.op) == role && Enabled(cfg, ExecFrom(cfg, s, front), a);
      OwnSteps(cfg, s, front, h, role) + (if now then 1 else 0)
  }

  lemma StepBudget(cfg: Config, s: State, a: Action, h: Host, role: Role)
    requires Inv(cfg, s) && h in cfg.Hosts() && Enabled(cfg, s, a) && Started(role, s.site[h])
    ensures var own := a.Own? && a.host == h && RoleOf(a.op) == role; var x' := Step(cfg, s, a).site[h];
      Started(role, x') && Budget(cfg, role, x') + (if own then 1 else 0) <= Budget(cfg, role, s.site[h])
  {
    hide MainBudget, FinBudget, ReplBudget;
    if a.Own? && a.host == h && RoleOf(a.op) == role {
      OwnBudget(cfg, s, h, a.op);
      StaysStarted(cfg, s.site[h], a.op, role);
    } else if a != Crash(h) {
      OthersStep(cfg, s, a, h, role);
    }
  }

  lemma StaysStarted(cfg: Config, x: Site, op: Op, role: Role)
    requires Ready(x, op) && RoleOf(op) == role
    ensures Started(role, Move(cfg, x, op))
  {
  }

  lemma {:induction false} OwnStepsBounded(cfg: Config, s: State, schedule: seq<Action>, h: Host, role: Role)
    requires Inv(cfg, s) && h in cfg.Hosts() && Started(role, s.site[h])
    ensures var x' := ExecFrom(cfg, s, schedule).site[h];
      && Started(role, x')
      && OwnSteps(cfg, s, schedule, h, role) + Budget(cfg, role, x') <= Budget(cfg, role, s.site[h])
  {
    hide Budget, Started, Step, Enabled;
    if schedule != [] {
      var front, a := schedule[..|schedule| - 1], schedule[|schedule| - 1];
      OwnStepsBounded(cfg, s, front, h, role);
      RunExtends(cfg, s, front);
      if Enabled(cfg, ExecFrom(cfg, s, front), a) { StepBudget(cfg, ExecFrom(cfg, s, front), a, h, role); }
    }
  }

  /** Bounds for the coordinator, a participant, the finishing thread and a replicator. */
  function Bound(cfg: Config, h: Host, role: Role): nat {
    var n, f := |cfg.participants|, |cfg.replicators|;
    match role
    case Main => if h == cfg.coordinator then 3 * n + 2 * f + 6 else 6
    case Finisher => 4 * n + 2 * f + 6
    case Replicator => 2 * n + 6
  }

  lemma MainBound(cfg: Config, h: Host, x: Site, counted: set<Host>)
    requires cfg.Valid() && h in cfg.Hosts() && SiteOK(cfg, h, x, counted)
    ensures MainBudget(cfg, x.main) <= Bound(cfg, h, Main)
  {
    GroupSizes(cfg);
    match x.main
    case SendReqs(pending, waiting) =>
      SubsetSize(pending, cfg.Members());
      SubsetSize(waiting, cfg.Members());
    case SendWill(pending) => SubsetSize(pending, cfg.Backups());
    case AwaitWill(waiting) => SubsetSize(waiting, cfg.Backups());
    case _ =>
  }

  lemma LogBound(cfg: Config, l: LogPC)
    requires cfg.Valid() && OverridesOK(cfg, l)
    ensures LogBudget(cfg, l) <= 2 * |cfg.participants| + 3
  {
    GroupSizes(cfg);
    if l.LOverride? {
      SubsetSize(l.pending, cfg.Members());
      SubsetSize(l.waiting, cfg.Members());
    }
  }

  lemma FinBound(cfg: Config, x: Site)
    requires cfg.Valid() && PendingOK(cfg, x)
    ensures FinBudget(cfg, x.fin) <= 4 * |cfg.participants| + 2 * |cfg.replicators| + 6
  {
    GroupSizes(cfg);
    match x.fin
    case FLog(l) => LogBound(cfg, l);
    case FComplete(pending, waiting) =>
      SubsetSize(pending, cfg.Backups());
      SubsetSize(waiting, cfg.Backups());
    case FTell(_, pending, waiting) =>
      SubsetSize(pending, cfg.Members());
      SubsetSize(waiting, cfg.Members());
    case _ =>
  }

  lemma BudgetBound(cfg: Config, s: State, h: Host, role: Role)
    requires Inv(cfg, s) && h in cfg.Hosts()
    ensures Budget(cfg, role, s.site[h]) <= Bound(cfg, h, role)
  {
    hide MainBudget, FinBudget, LogBudget;
    assert SiteOK(cfg, h, s.site[h], s.counted);
    match role
    case Main => MainBound(cfg, h, s.site[h], s.counted);
    case Finisher => FinBound(cfg, s.site[h]);
    case Replicator =>
      LogBound(cfg, LRead);
      if s.site[h].repl.RLog? { LogBound(cfg, s.site[h].repl.log); }
  }

  /** A budget is used up only by returning. */
  lemma UsedUp(cfg: Config, s: State, h: Host, role: Role)
    requires Inv(cfg, s) && h in cfg.Hosts() && Started(role, s.site[h]) && Budget(cfg, role, s.site[h]) == 0
    ensures Finished(role, s.site[h])
  {
    assert SiteOK(cfg, h, s.site[h], s.counted);
  }

  /** In every run each handler takes at most as many steps of its own as its bound says, the ends of its
      calls included, whatever everybody else does in between, and it has returned as soon as it has taken
      that many. */
  lemma HandlerReturns(cfg: Config, schedule: seq<Action>, later: seq<Action>, h: Host, role: Role)
    requires cfg.Valid() && h in cfg.Hosts() && Started(role, Exec(cfg, schedule).site[h])
    ensures var s := Exec(cfg, schedule);
      && OwnSteps(cfg, s, later, h, role) <= Bound(cfg, h, role)
      && (OwnSteps(cfg, s, later, h, role) == Bound(cfg, h, role) ==> Finished(role, ExecFrom(cfg, s, later).site[h]))
  {
    hide Budget, Bound, Finished, Started, ExecFrom, Inv;
    ExecInv(cfg, schedule);
    var s := Exec(cfg, schedule);
    OwnStepsBounded(cfg, s, later, h, role);
    RunExtends(cfg, s, later);
    BudgetBound(cfg, s, h, role);
    if Budget(cfg, role, ExecFrom(cfg, s, later).site[h]) == 0 {
      UsedUp(cfg, ExecFrom(cfg, s, later), h, role);
    }
  }

  // ---------------------------------------------------------------------------------------
  // Waiting

  predicate EndsCall(op: Op) {
    || op.ReqCallEnds? || op.Resolve? || op.VoteCallEnds? || op.CompleteCallEnds? || op.TellCallEnds?
    || (op.FinLog? && op.k.OverrideCallEnds?) || (op.ReplLog? && op.k.OverrideCallEnds?)
  }

  predicate AwaitsOverrides(l: LogPC) {
    l.LOverride? && l.pending == {} && l.waiting != {}
  }

  /** The handler has made all its calls of one kind and waits for them to end. */
  predicate AwaitsCalls(role: Role, x: Site) {
    match role
    case Main =>
      || (x.main.SendReqs? && x.main.pending == {} && x.main.waiting != {})
      || (x.main.AwaitWill? && x.main.waiting != {}) || x.main.Said?
    case Finisher =>
      || (x.fin.FLog? && AwaitsOverrides(x.fin.log))
      || ((x.fin.FComplete? || x.fin.FTell?) && x.fin.pending == {} && x.fin.waiting != {})
    case Replicator => x.repl.RLog? && AwaitsOverrides(x.repl.log)
  }

  lemma OnlyEnds(x: Site, op: Op)
    requires Ready(x, op) && AwaitsCalls(RoleOf(op), x)
    ensures EndsCall(op)
  {
  }

  lemma NextLog(l: LogPC) returns (k: LogOp)
    requires !l.LEnd? && (l.LOverride? ==> l.pending <= l.waiting)
    ensures LogReady(l, k) && (k.OverrideCallEnds? <==> AwaitsOverrides(l))
  {
    match l
    case LRead => k := LogRead;
    case LWrite(_) => k := LogWrite;
    case LOverride(pending, waiting) =>
      k := OverrideEnd;
      if to :| to in pending { k := Override(to); } else if to :| to in waiting { k := OverrideCallEnds(to); }
  }

  lemma NextMain(x: Site) returns (op: Op)
    requires x.up && !x.main.Idle? && !x.main.Done? && !x.main.Failed?
    requires x.main.SendReqs? ==> x.main.pending <= x.main.waiting
    ensures op.Main() && Ready(x, op) && (op.Resolve? ==> !op.acked) && (EndsCall(op) <==> AwaitsCalls(Main, x))
  {
    match x.main
    case SendReqs(pending, waiting) =>
      op := StartCollect;
      if to :| to in pending { op := SendReq(to); } else if to :| to in waiting { op := ReqCallEnds(to); }
    case Collect(_) => op := if x.inbox == [] then CollectTimeout else TakeVote;
    case SendWill(pending) => op := StartAwait; if to :| to in pending { op := SendWillTo(to); }
    case AwaitWill(waiting) => op := FinishWill; if to :| to in waiting { op := Resolve(to, false); }
    case Returned(_) => op := Spawn;
    case Replying(_) => op := Reply;
    case Vote => op := CastVote(true);
    case SayYes | SayNo => op := SayVote;
    case Said(_) => op := VoteCallEnds;
    case Wait => op := if x.inbox == [] then WaitTimeout else TakeDecision;
    case TermRead => op := DoRead;
    case TermWrite(_) => op := DoWrite;
  }

  lemma NextFinisher(x: Site) returns (op: Op)
    requires x.up && !x.fin.FNone? && !x.fin.FDone?
    requires x.fin.FLog? && x.fin.log.LOverride? ==> x.fin.log.pending <= x.fin.log.waiting
    requires x.fin.FComplete? || x.fin.FTell? ==> x.fin.pending <= x.fin.waiting
    ensures op.Fin() && Ready(x, op) && (EndsCall(op) <==> AwaitsCalls(Finisher, x))
  {
    match x.fin
    case FLog(l) =>
      op := FinLogged;
      if !l.LEnd? {
        var k := NextLog(l);
        op := FinLog(k);
      }
    case FComplete(pending, waiting) =>
      op := StartTell;
      if to :| to in pending { op := Complete(to); } else if to :| to in waiting { op := CompleteCallEnds(to); }
    case FTell(_, pending, waiting) =>
      op := TellEnd;
      if to :| to in pending { op := TellOne(to); } else if to :| to in waiting { op := TellCallEnds(to); }
  }

  lemma NextReplicator(x: Site) returns (op: Op)
    requires x.up && !x.repl.RIdle? && !x.repl.RDone?
    requires x.repl.RLog? && x.repl.log.LOverride? ==> x.repl.log.pending <= x.repl.log.waiting
    ensures RoleOf(op) == Replicator && Ready(x, op) && (EndsCall(op) <==> AwaitsCalls(Replicator, x))
  {
    match x.repl
    case RLaunched => op := Register;
    case RWait => op := if x.replInbox == [] then ReplTimeout else ReplTake;
    case RLog(l) =>
      op := ReplEnd;
      if !l.LEnd? {
        var k := NextLog(l);
        op := ReplLog(k);
      }
  }

  /** A live handler that has started and not returned always has a step to take. Only where it waits for
      its own calls does every step need one of them to end, which it may do without a reply. */
  lemma NeverStuck(cfg: Config, s: State, h: Host, role: Role) returns (op: Op)
    requires Inv(cfg, s) && h in cfg.Hosts() && s.site[h].up
    requires Started(role, s.site[h]) && !Finished(role, s.site[h])
    ensures RoleOf(op) == role && Enabled(cfg, s, Own(h, op))
    ensures EndsCall(op) <==> AwaitsCalls(role, s.site[h])
    ensures AwaitsCalls(role, s.site[h]) ==>
      forall o :: RoleOf(o) == role && Enabled(cfg, s, Own(h, o)) ==> EndsCall(o)
  {
    hide Ready, EndsCall, AwaitsCalls;
    assert SiteOK(cfg, h, s.site[h], s.counted);
    forall o | AwaitsCalls(role, s.site[h]) && RoleOf(o) == role && Enabled(cfg, s, Own(h, o)) ensures EndsCall(o) {
      OnlyEnds(s.site[h], o);
    }
    match role
    case Main => op := NextMain(s.site[h]);
    case Finisher => op := NextFinisher(s.site[h]);
    case Replicator => op := NextReplicator(s.site[h]);
  }

  /** A handler that waits at its queue takes the request at its head; only with an empty queue it times
      out. */
  lemma WaitingStep(cfg: Config, s: State, h: Host, op: Op)
    requires WF(cfg, s) && Enabled(cfg, s, Own(h, op))
    ensures var x := s.site[h];
      && (op.Main() && x.main.Collect? ==> op == if x.inbox == [] then CollectTimeout else TakeVote)
      && (op.Main() && x.main.Wait? ==> op == if x.inbox == [] then WaitTimeout else TakeDecision)
      && (RoleOf(op) == Replicator && x.repl.RWait? ==> op == if x.replInbox == [] then ReplTimeout else ReplTake)
  {
  }

  /** The participant waits with the decision at the head of its queue, or has obeyed it. */
  predicate Obeys(x: Site, m: Msg) {
    || (x.main.Wait? && x.inbox != [] && x.inbox[0] == m)
    || x.main == Done(if m.kind.CommitKind? then Commit else Abort, Told)
  }

  lemma MainObeys(cfg: Config, x: Site, op: Op, m: Msg)
    requires op.Main() && Ready(x, op) && Obeys(x, m) && (m.kind.CommitKind? || m.kind.AbortKind?)
    ensures Obeys(MainMove(cfg, x, op), m)
  {
  }

  lemma MoveObeys(cfg: Config, x: Site, op: Op, m: Msg)
    requires Ready(x, op) && Obeys(x, m) && (m.kind.CommitKind? || m.kind.AbortKind?)
    ensures Obeys(Move(cfg, x, op), m)
  {
    hide MainMove;
    if op.Main() {
      MainObeys(cfg, x, op, m);
    } else {
      OtherMain(cfg, x, op);
      MoveInboxes(cfg, x, op);
    }
  }

  lemma StepObeys(cfg: Config, s: State, a: Action, p: Host, m: Msg)
    requires WF(cfg, s) && Enabled(cfg, s, a) && p in cfg.Members() && Obeys(s.site[p], m)
    requires m.kind.CommitKind? || m.kind.AbortKind?
    ensures Obeys(Step(cfg, s, a).site[p], m)
  {
    hide Move, Sent;
    if a.Own? && a.host == p { MoveObeys(cfg, s.site[p], a.op, m); }
  }

  /** A participant never returns anything else than the decision at the head of its queue, however late it
      gets to look. */
  lemma {:induction false} QueuedIsObeyed(cfg: Config, s: State, later: seq<Action>, p: Host, m: Msg)
    requires Inv(cfg, s) && p in cfg.Members()
    requires s.site[p].main.Wait? && s.site[p].inbox != [] && s.site[p].inbox[0] == m
    ensures Obeys(ExecFrom(cfg, s, later).site[p], m)
  {
    hide Step, Enabled;
    assert m.kind.CommitKind? || m.kind.AbortKind? by { ToldDecision(cfg, s, p); }
    if later != [] {
      var front, a := later[..|later| - 1], later[|later| - 1];
      QueuedIsObeyed(cfg, s, front, p, m);
      if Enabled(cfg, ExecFrom(cfg, s, front), a) { StepObeys(cfg, ExecFrom(cfg, s, front), a, p, m); }
    }
  }

  lemma ToldDecision(cfg: Config, s: State, p: Host)
    requires Inv(cfg, s) && p in cfg.Members() && s.site[p].main.Wait? && s.site[p].inbox != []
    ensures s.site[p].inbox[0].kind.CommitKind? || s.site[p].inbox[0].kind.AbortKind?
  {
    assert QueueOK(cfg, s, p, s.site[p]);
    assert MsgOK(cfg, s, s.site[p].inbox[0]) && s.site[p].inbox[0].dst == p && MainKind(s.site[p].inbox[0].kind);
  }
}
