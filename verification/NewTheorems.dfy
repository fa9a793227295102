/** What Cornus 2 guarantees over every run, and what it does not. */
module NewTheorems {
  import opened Domain
  import opened NewProtocol
  import opened NewInvariant

  lemma {:induction false} ExecSplit(cfg: Config, s: State, one: seq<Action>, two: seq<Action>)
    requires WF(cfg, s)
    ensures ExecFrom(cfg, s, one + two) == ExecFrom(cfg, ExecFrom(cfg, s, one), two)
  {
    if two == [] {
      assert one + two == one;
    } else {
      var front, a := two[..|two| - 1], two[|two| - 1];
      ExecSplit(cfg, s, one, front);
      assert (one + two)[..|one + two| - 1] == one + front;
    }
  }

  lemma ExecMore(cfg: Config, run: seq<Action>, a: Action)
    requires Enabled(cfg, Exec(cfg, run), a)
    ensures Exec(cfg, run + [a]) == Step(cfg, Exec(cfg, run), a)
  {
    assert (run + [a])[..|run|] == run;
  }

  /** The action takes place in the run, after its first `from` actions. */
  ghost predicate Performed(cfg: Config, run: seq<Action>, from: nat, a: Action) {
    exists i :: from <= i < |run| && run[i] == a && Enabled(cfg, Exec(cfg, run[..i]), a)
  }

  lemma PerformedNow(cfg: Config, run: seq<Action>, from: nat, a: Action)
    requires from <= |run| && Enabled(cfg, Exec(cfg, run), a)
    ensures Performed(cfg, run + [a], from, a)
  {
    hide Exec, Enabled;
    assert (run + [a])[|run|] == a && (run + [a])[..|run|] == run;
  }

  /** What has taken place stays in the run. */
  lemma PerformedStays(cfg: Config, run: seq<Action>, run': seq<Action>, from: nat)
    requires run <= run'
    ensures forall a :: Performed(cfg, run, from, a) ==> Performed(cfg, run', from, a)
  {
    hide Exec, Enabled;
    forall a | Performed(cfg, run, from, a) ensures Performed(cfg, run', from, a) {
      var i :| from <= i < |run| && run[i] == a && Enabled(cfg, Exec(cfg, run[..i]), a);
      assert run'[i] == a && run'[..i] == run[..i];
    }
  }

  /** What has taken place late has taken place. */
  lemma PerformedSince(cfg: Config, run: seq<Action>, from: nat, later: nat)
    requires from <= later
    ensures forall a :: Performed(cfg, run, later, a) ==> Performed(cfg, run, from, a)
  {
  }

  /** The action takes place there and puts the message on the network. */
  ghost predicate Sends(cfg: Config, run: seq<Action>, from: nat, a: Action, m: Msg) {
    exists i :: from <= i < |run| && run[i] == a && PutsOut(cfg, Exec(cfg, run[..i]), a, m)
  }

  ghost predicate PutsOut(cfg: Config, s: State, a: Action, m: Msg)
    requires WF(cfg, s)
  {
    Enabled(cfg, s, a) && Step(cfg, s, a).net == s.net + multiset{m}
  }

  lemma SendsNow(cfg: Config, run: seq<Action>, from: nat, a: Action, m: Msg)
    requires from <= |run| && PutsOut(cfg, Exec(cfg, run), a, m)
    ensures Sends(cfg, run + [a], from, a, m)
  {
    hide Exec, PutsOut;
    assert (run + [a])[|run|] == a && (run + [a])[..|run|] == run;
  }

  lemma SendsStays(cfg: Config, run: seq<Action>, run': seq<Action>, from: nat)
    requires run <= run'
    ensures forall a, m :: Sends(cfg, run, from, a, m) ==> Sends(cfg, run', from, a, m)
  {
    hide Exec, PutsOut;
    forall a, m | Sends(cfg, run, from, a, m) ensures Sends(cfg, run', from, a, m) {
      var i :| from <= i < |run| && run[i] == a && PutsOut(cfg, Exec(cfg, run[..i]), a, m);
      assert run'[i] == a && run'[..i] == run[..i];
    }
  }

  lemma SendsSince(cfg: Config, run: seq<Action>, from: nat, later: nat)
    requires from <= later
    ensures forall a, m :: Sends(cfg, run, later, a, m) ==> Sends(cfg, run, from, a, m)
  {
  }

  lemma {:induction false} RunExtends(cfg: Config, s: State, later: seq<Action>)
    requires Inv(cfg, s)
    ensures Inv(cfg, ExecFrom(cfg, s, later)) && Extends(cfg, s, ExecFrom(cfg, s, later))
  {
    if later != [] {
      var front, a := later[..|later| - 1], later[|later| - 1];
      RunExtends(cfg, s, front);
      var t := ExecFrom(cfg, s, front);
      if Enabled(cfg, t, a) {
        StepInv(cfg, t, a);
        StepExtends(cfg, t, a);
      }
    }
  }

  // ---------------------------------------------------------------------------------------
  // One-sided agreement

  /** A request that makes its receiver commit, log COMMIT, or skip logging COMMIT. */
  predicate CommitMessage(m: Msg) {
    m.kind.CommitKind? || m.kind.WillKind? || m.kind.OverrideKind? || m.kind.CompletedKind?
  }

  /** Every commit effect (answer to the client, log entry, participant's or Committer's commit,
      replicator at work) and every commit message means that the coordinator decided COMMIT and that
      every participant's worker agreed. */
  lemma OneSidedAgreement(cfg: Config, schedule: seq<Action>, h: Host)
    requires cfg.Valid() && h in cfg.Hosts()
    ensures var s := Exec(cfg, schedule);
      Effect(s.site[h]) || (exists m :: m in s.net && CommitMessage(m)) ==> Basis(cfg, s)
  {
    ExecInv(cfg, schedule);
    var s := Exec(cfg, schedule);
    if m :| m in s.net && CommitMessage(m) {
      assert MsgOK(cfg, s, m);
      assert Stored(cfg, s) ==> Effect(s.site[cfg.coordinator]);
    }
  }

  /** If the coordinator ever decides ABORT, nobody commits anything before or after. */
  lemma AbortMeansNobodyCommits(cfg: Config, schedule: seq<Action>, later: seq<Action>, h: Host)
    requires cfg.Valid() && h in cfg.Hosts()
    ensures var s, t := Exec(cfg, schedule), Exec(cfg, schedule + later); var c := cfg.coordinator;
      && (AbortMain(s.site[c].main) ==> !Effect(t.site[h]))
      && (AbortMain(t.site[c].main) ==> !Effect(s.site[h]))
  {
    ExecInv(cfg, schedule);
    ExecSplit(cfg, Init(cfg), schedule, later);
    RunExtends(cfg, Exec(cfg, schedule), later);
  }

  // ---------------------------------------------------------------------------------------
  // Disagreement

  /** When the coordinator decided COMMIT, a participant returns ABORT exactly when it timed out and did
      not find COMMIT in its own log; a vote or a message never makes it. */
  lemma DisagreementIsTimeout(cfg: Config, schedule: seq<Action>, p: Host)
    requires cfg.Valid() && p in cfg.Members()
    requires var s := Exec(cfg, schedule); CommitMain(s.site[cfg.coordinator].main) && s.site[p].main.Done?
    ensures var d := Exec(cfg, schedule).site[p].main;
      d.decision == Abort <==> d.via.TimedOut? && d.via.read != COMMIT
  {
    ExecInv(cfg, schedule);
    var s := Exec(cfg, schedule);
    assert SiteOK(cfg, p, s.site[p], s.counted);
    assert OutcomeOK(cfg, s, s.site[p]);
    assert Basis(cfg, s) by { assert Effect(s.site[cfg.coordinator]); }
  }

  /** No handler ever reaches the participants' assert(false). */
  lemma NoFailureExit(cfg: Config, schedule: seq<Action>, h: Host)
    requires cfg.Valid() && h in cfg.Hosts()
    ensures !Exec(cfg, schedule).site[h].main.Failed?
  {
    ExecInv(cfg, schedule);
    assert SiteOK(cfg, h, Exec(cfg, schedule).site[h], Exec(cfg, schedule).counted);
  }

  lemma MoveCount(cfg: Config, x: Site)
    requires Ready(x, TakeVote)
    ensures CommitMain(Move(cfg, x, TakeVote).main) ==>
      x.inbox[0].kind.VoteYesKind? && x.main.votes + 1 == |cfg.participants|
  {
  }

  lemma CountFaithful(cfg: Config, s: State)
    requires Inv(cfg, s) && Ready(s.site[cfg.coordinator], TakeVote)
    ensures var x := s.site[cfg.coordinator];
      && x.main.votes == |s.counted| <= |cfg.participants|
      && (CommitMain(Move(cfg, x, TakeVote).main) ==>
            x.inbox[0].kind.VoteYesKind? && s.counted + {x.inbox[0].src} == cfg.Members())
  {
    var x := s.site[cfg.coordinator];
    assert SiteOK(cfg, cfg.coordinator, x, s.counted);
    MoveCount(cfg, x);
    if x.inbox[0].kind.VoteYesKind? { NextVote(cfg, s); }
  }

  /** Whenever counting a vote makes the coordinator decide COMMIT, it has counted exactly one vote of
      every participant, and all their workers agreed. */
  lemma VoteCounterFaithful(cfg: Config, schedule: seq<Action>)
    requires cfg.Valid() && Enabled(cfg, Exec(cfg, schedule), Own(cfg.coordinator, TakeVote))
    ensures var s := Exec(cfg, schedule); var s' := Step(cfg, s, Own(cfg.coordinator, TakeVote));
      && s.site[cfg.coordinator].main.votes == |s.counted| <= |cfg.participants|
      && (CommitMain(s'.site[cfg.coordinator].main) ==> s'.counted == cfg.Members() && Basis(cfg, s'))
  {
    ExecInv(cfg, schedule);
    var s' := Step(cfg, Exec(cfg, schedule), Own(cfg.coordinator, TakeVote));
    CountFaithful(cfg, Exec(cfg, schedule));
    StepEffects(cfg, Exec(cfg, schedule), Own(cfg.coordinator, TakeVote));
    assert CommitMain(s'.site[cfg.coordinator].main) ==> Effect(s'.site[cfg.coordinator]);
  }

  // ---------------------------------------------------------------------------------------
  // Handover and overwriting

  /** A replicator that is told DECISIONCOMPLETED, and therefore does not log, can rely on COMMIT at the
      coordinator's address in that and in every later state. */
  lemma Handover(cfg: Config, schedule: seq<Action>, later: seq<Action>, r: Host)
    requires cfg.Valid() && Enabled(cfg, Exec(cfg, schedule), Own(r, ReplTake))
    ensures Step(cfg, Exec(cfg, schedule), Own(r, ReplTake)).site[r].repl.RDone?
    ensures Exec(cfg, schedule + later).site[cfg.coordinator].log == COMMIT
  {
    ExecInv(cfg, schedule);
    var s := Exec(cfg, schedule);
    HeadFine(cfg, s, r, ReplTake);
    assert QueueOK(cfg, s, r, s.site[r]) && MsgOK(cfg, s, s.site[r].replInbox[0]);
    ExecSplit(cfg, Init(cfg), schedule, later);
    RunExtends(cfg, s, later);
  }

  lemma MainLog(cfg: Config, x: Site, op: Op)
    requires op.Main() && Ready(x, op)
    ensures MainMove(cfg, x, op).log == if op.DoWrite? then ABORT else x.log
  {
  }

  lemma MoveLog(cfg: Config, x: Site, op: Op)
    requires Ready(x, op) && x.log == COMMIT
    ensures Move(cfg, x, op).log == if op.DoWrite? then ABORT else COMMIT
  {
    if op.Main() { MainLog(cfg, x, op); }
  }

  lemma StepLog(cfg: Config, s: State, a: Action, h: Host)
    requires WF(cfg, s) && h in cfg.Hosts() && Enabled(cfg, s, a) && s.site[h].log == COMMIT
    ensures Step(cfg, s, a).site[h].log != COMMIT <==> a == Own(h, DoWrite)
  {
    if a.Own? && a.host == h { MoveLog(cfg, s.site[h], a.op); }
  }

  /** A COMMIT entry is overwritten exactly when a timed-out participant on that host performs the write
      half of its read-then-write. */
  lemma OverwrittenExactlyBy(cfg: Config, schedule: seq<Action>, a: Action, h: Host)
    requires cfg.Valid() && h in cfg.Hosts() && Enabled(cfg, Exec(cfg, schedule), a)
    requires Exec(cfg, schedule).site[h].log == COMMIT
    ensures Step(cfg, Exec(cfg, schedule), a).site[h].log != COMMIT <==> a == Own(h, DoWrite)
    ensures a == Own(h, DoWrite) ==> h in cfg.Members() && Exec(cfg, schedule).site[h].main.TermWrite?
  {
    StepLog(cfg, Exec(cfg, schedule), a, h);
    ExecInv(cfg, schedule);
    assert SiteOK(cfg, h, Exec(cfg, schedule).site[h], Exec(cfg, schedule).counted);
  }

  /** Where COMMIT was written it still is, unless the participant on that host timed out and aborted;
      only the coordinator and replicators write it. */
  predicate KeptOK(cfg: Config, h: Host, x: Site) {
    && (x.written ==> x.log == COMMIT || (x.main.Done? && x.main.via.TimedOut? && x.main.decision == Abort))
    && (x.written ==> h == cfg.coordinator || !x.repl.RIdle?)
  }

  lemma MainKept(cfg: Config, h: Host, x: Site, op: Op, counted: set<Host>)
    requires op.Main() && Ready(x, op) && SiteOK(cfg, h, x, counted) && KeptOK(cfg, h, x)
    ensures KeptOK(cfg, h, MainMove(cfg, x, op))
  {
  }

  lemma MoveKept(cfg: Config, h: Host, x: Site, op: Op, counted: set<Host>)
    requires Ready(x, op) && SiteOK(cfg, h, x, counted) && KeptOK(cfg, h, x)
    ensures KeptOK(cfg, h, Move(cfg, x, op))
  {
    if op.Main() { MainKept(cfg, h, x, op, counted); }
  }

  lemma StepKept(cfg: Config, s: State, a: Action, h: Host)
    requires WF(cfg, s) && h in cfg.Hosts() && SiteOK(cfg, h, s.site[h], s.counted) && KeptOK(cfg, h, s.site[h])
    requires Enabled(cfg, s, a)
    ensures KeptOK(cfg, h, Step(cfg, s, a).site[h])
  {
    if a.Own? && a.host == h { MoveKept(cfg, h, s.site[h], a.op, s.counted); }
  }

  lemma {:induction false} CommitKept(cfg: Config, schedule: seq<Action>, h: Host)
    requires cfg.Valid() && h in cfg.Hosts()
    ensures KeptOK(cfg, h, Exec(cfg, schedule).site[h])
  {
    if schedule != [] {
      var front, a := schedule[..|schedule| - 1], schedule[|schedule| - 1];
      CommitKept(cfg, front, h);
      ExecInv(cfg, front);
      assert SiteOK(cfg, h, Exec(cfg, front).site[h], Exec(cfg, front).counted);
      if Enabled(cfg, Exec(cfg, front), a) { StepKept(cfg, Exec(cfg, front), a, h); }
    }
  }

  /** When no replicator is a participant of the transaction, COMMIT stays wherever it was ever written. */
  lemma DisjointRolesKeepCommit(cfg: Config, schedule: seq<Action>, h: Host)
    requires cfg.Valid() && cfg.Members() !! cfg.Backups() && h in cfg.Hosts()
    ensures Exec(cfg, schedule).site[h].written <==> Exec(cfg, schedule).site[h].log == COMMIT
  {
    CommitKept(cfg, schedule, h);
    ExecInv(cfg, schedule);
    var s := Exec(cfg, schedule);
    assert SiteOK(cfg, h, s.site[h], s.counted);
  }

  // ---------------------------------------------------------------------------------------
  // Durability

  /** The finishing thread (replicator) at the live host still has the write of COMMIT ahead of it. */
  predicate FinOwes(x: Site) {
    x.up && x.fin.FLog? && (x.fin.log.LRead? || x.fin.log.LWrite?)
  }

  predicate ReplOwes(x: Site) {
    x.up && (x.repl.RLaunched? || x.repl.RWait? || (x.repl.RLog? && (x.repl.log.LRead? || x.repl.log.LWrite?)))
  }

  ghost predicate SomeWritten(cfg: Config, s: State)
    requires WF(cfg, s)
  {
    exists h :: h in cfg.Hosts() && s.site[h].written
  }

  /** The crashed ones among the coordinator and its replicators. */
  ghost function Crashed(cfg: Config, s: State): set<Host>
    requires WF(cfg, s)
  {
    set h | h in cfg.Backups() + {cfg.coordinator} && !s.site[h].up
  }

  /** The client has been told COMMIT, at most f of the coordinator and its f replicators have crashed, and
      WILLCOMMIT has reached the live replicators, also those whose calls failed. */
  ghost predicate Tolerated(cfg: Config, s: State)
    requires WF(cfg, s)
  {
    && s.site[cfg.coordinator].main == Done(Commit, Answered)
    && |Crashed(cfg, s)| <= |cfg.replicators|
    && forall r :: r in s.unacked * cfg.Backups() && s.site[r].up ==> !s.site[r].repl.RIdle?
  }

  /** f-crash durability: COMMIT has then been written to some transaction log, or a live host still owes
      that write. */
  lemma Durability(cfg: Config, schedule: seq<Action>)
    requires cfg.Valid()
    requires Tolerated(cfg, Exec(cfg, schedule))
    ensures var s := Exec(cfg, schedule);
      SomeWritten(cfg, s) || exists h :: h in cfg.Hosts() && (FinOwes(s.site[h]) || ReplOwes(s.site[h]))
  {
    ExecInv(cfg, schedule);
    var s := Exec(cfg, schedule);
    var h := SomeoneUp(cfg, s);
    var x := s.site[h];
    assert SiteOK(cfg, h, x, s.counted) && OutcomeOK(cfg, s, x);
    assert SiteOK(cfg, cfg.coordinator, s.site[cfg.coordinator], s.counted);
    if h != cfg.coordinator {
      assert Settled(cfg, s, h);
    }
  }

  /** COMMIT is stored in some transaction log, or a live host still owes the write. */
  ghost predicate StoredOrOwed(cfg: Config, s: State)
    requires WF(cfg, s)
  {
    exists h :: h in cfg.Hosts() && (s.site[h].log == COMMIT || FinOwes(s.site[h]) || ReplOwes(s.site[h]))
  }

  /** When no replicator takes part in the transaction, what has been written is also still stored. */
  lemma DurabilityStored(cfg: Config, schedule: seq<Action>)
    requires cfg.Valid() && cfg.Members() !! cfg.Backups()
    requires Tolerated(cfg, Exec(cfg, schedule))
    ensures StoredOrOwed(cfg, Exec(cfg, schedule))
  {
    Durability(cfg, schedule);
    var s := Exec(cfg, schedule);
    if h :| h in cfg.Hosts() && s.site[h].written {
      DisjointRolesKeepCommit(cfg, schedule, h);
    }
  }

  lemma SomeoneUp(cfg: Config, s: State) returns (h: Host)
    requires cfg.Valid() && WF(cfg, s) && |Crashed(cfg, s)| <= |cfg.replicators|
    ensures h in cfg.Backups() + {cfg.coordinator} && s.site[h].up
  {
    var all := cfg.Backups() + {cfg.coordinator};
    DistinctSize(cfg.replicators);
    assert |all| == |cfg.replicators| + 1;
    if all <= Crashed(cfg, s) { SubsetSize(all, Crashed(cfg, s)); }
    h :| h in all && h !in Crashed(cfg, s);
  }

  // ---------------------------------------------------------------------------------------
  // A debt is paid

  function Debt(x: Site): nat {
    if x.repl.RLaunched? then 4 else if x.repl.RWait? then 3
    else if x.repl == RLog(LRead) then 2 else 1
  }

  /** Nothing but its own steps or its own crash relieves a host of its debt. */
  lemma DebtKept(cfg: Config, s: State, a: Action, h: Host)
    requires WF(cfg, s) && h in cfg.Hosts() && Enabled(cfg, s, a)
    requires a != Crash(h) && !(a.Own? && a.host == h)
    ensures FinOwes(s.site[h]) ==> FinOwes(Step(cfg, s, a).site[h])
    ensures ReplOwes(s.site[h]) ==> ReplOwes(Step(cfg, s, a).site[h])
  {
  }

  /** The next step of a replicator in debt. */
  function NextRepl(x: Site): Op
    requires ReplOwes(x)
  {
    match x.repl
    case RLaunched => Register
    case RWait => if x.replInbox == [] then ReplTimeout else ReplTake
    case _ => if x.repl.RLog? && x.repl.log.LRead? then ReplLog(LogRead) else ReplLog(LogWrite)
  }

  lemma MoveRepl(cfg: Config, x: Site)
    requires ReplOwes(x) && LogOK(x) && x.repl != RLog(LEnd)
    ensures Ready(x, NextRepl(x))
    ensures var x' := Move(cfg, x, NextRepl(x));
      x'.up && (
        || x'.written || (ReplOwes(x') && Debt(x') < Debt(x))
        || (NextRepl(x).ReplTake? && x.replInbox[0].kind.CompletedKind?))
  {
  }

  lemma ExecAfter(cfg: Config, s: State, a: Action, rest: seq<Action>)
    requires WF(cfg, s) && Enabled(cfg, s, a)
    ensures ExecFrom(cfg, s, [a] + rest) == ExecFrom(cfg, Step(cfg, s, a), rest)
    ensures rest == [] ==> ExecFrom(cfg, s, [a] + rest) == Step(cfg, s, a)
  {
    ExecSplit(cfg, s, [a], rest);
    assert [a][..0] == [];
    assert ExecFrom(cfg, s, []) == s;
  }

  /** One step of a replicator in debt: COMMIT is then written somewhere, or the debt is smaller. */
  lemma PayOnce(cfg: Config, s: State, h: Host)
    requires Inv(cfg, s) && h in cfg.Hosts() && ReplOwes(s.site[h])
    ensures var a := Own(h, NextRepl(s.site[h])); Enabled(cfg, s, a) && var s' := Step(cfg, s, a);
      SomeWritten(cfg, s') || (ReplOwes(s'.site[h]) && Debt(s'.site[h]) < Debt(s.site[h]))
  {
    var x := s.site[h];
    assert SiteOK(cfg, h, x, s.counted);
    MoveRepl(cfg, x);
    if x.repl.RWait? && x.replInbox != [] {
      assert QueueOK(cfg, s, h, x) && MsgOK(cfg, s, x.replInbox[0]);
      StepExtends(cfg, s, Own(h, ReplTake));
      assert SiteOK(cfg, cfg.coordinator, s.site[cfg.coordinator], s.counted);
      assert s.site[cfg.coordinator].written;
      assert Step(cfg, s, Own(h, ReplTake)).site[cfg.coordinator].written;
    }
  }

  /** A live replicator in debt gets COMMIT written, or finds it stored, by at most four steps of its own. */
  lemma {:induction false} ReplicatorPays(cfg: Config, s: State, h: Host) returns (own: seq<Action>)
    requires Inv(cfg, s) && h in cfg.Hosts() && ReplOwes(s.site[h])
    ensures |own| <= Debt(s.site[h]) && forall i :: 0 <= i < |own| ==> own[i].Own? && own[i].host == h
    ensures SomeWritten(cfg, ExecFrom(cfg, s, own))
    decreases Debt(s.site[h])
  {
    hide ExecFrom;
    var a := Own(h, NextRepl(s.site[h]));
    PayOnce(cfg, s, h);
    var t := Step(cfg, s, a);
    var rest := [];
    if !SomeWritten(cfg, t) {
      StepInv(cfg, s, a);
      rest := ReplicatorPays(cfg, t, h);
    }
    own := [a] + rest;
    ExecAfter(cfg, s, a, rest);
  }

  /** The next step of a finishing thread in debt. */
  function NextFin(x: Site): Op
    requires FinOwes(x)
  {
    FinLog(if x.fin.log.LRead? then LogRead else LogWrite)
  }

  lemma MoveFin(cfg: Config, x: Site)
    requires FinOwes(x) && LogOK(x)
    ensures Ready(x, NextFin(x)) && var x' := Move(cfg, x, NextFin(x));
      x'.written || (x.fin.log.LRead? && FinOwes(x') && x'.fin.log.LWrite?)
  {
  }

  lemma FinishOnce(cfg: Config, s: State, h: Host)
    requires Inv(cfg, s) && h in cfg.Hosts() && FinOwes(s.site[h])
    ensures var a := Own(h, NextFin(s.site[h])); Enabled(cfg, s, a) && var x, x' := s.site[h], Step(cfg, s, a).site[h];
      x'.written || (x.fin.log.LRead? && FinOwes(x') && x'.fin.log.LWrite?)
  {
    assert SiteOK(cfg, h, s.site[h], s.counted);
    MoveFin(cfg, s.site[h]);
  }

  /** So does a live finishing thread, by at most two. */
  lemma {:induction false} FinisherPays(cfg: Config, s: State, h: Host) returns (own: seq<Action>)
    requires Inv(cfg, s) && h in cfg.Hosts() && FinOwes(s.site[h])
    ensures |own| <= (if s.site[h].fin.log.LRead? then 2 else 1)
    ensures forall i :: 0 <= i < |own| ==> own[i].Own? && own[i].host == h
    ensures SomeWritten(cfg, ExecFrom(cfg, s, own))
    decreases s.site[h].fin.log.LRead?
  {
    hide ExecFrom;
    var a := Own(h, NextFin(s.site[h]));
    FinishOnce(cfg, s, h);
    var t := Step(cfg, s, a);
    var rest := [];
    if !t.site[h].written {
      StepInv(cfg, s, a);
      rest := FinisherPays(cfg, t, h);
    }
    own := [a] + rest;
    ExecAfter(cfg, s, a, rest);
  }

  /** Durability made good: under the conditions of f-crash durability some live host brings COMMIT
      into a transaction log by at most four steps of its own, whatever state the others are in. */
  lemma CommitGetsWritten(cfg: Config, schedule: seq<Action>) returns (own: seq<Action>, h: Host)
    requires cfg.Valid()
    requires Tolerated(cfg, Exec(cfg, schedule))
    ensures |own| <= 4 && forall i :: 0 <= i < |own| ==> own[i].Own? && own[i].host == h
    ensures SomeWritten(cfg, Exec(cfg, schedule + own))
  {
    hide Inv, ExecFrom;
    ExecInv(cfg, schedule);
    Durability(cfg, schedule);
    var s := Exec(cfg, schedule);
    if SomeWritten(cfg, s) {
      assert schedule + [] == schedule;
      return [], cfg.coordinator;
    }
    h :| h in cfg.Hosts() && (FinOwes(s.site[h]) || ReplOwes(s.site[h]));
    if FinOwes(s.site[h]) {
      own := FinisherPays(cfg, s, h);
    } else {
      own := ReplicatorPays(cfg, s, h);
    }
    ExecSplit(cfg, Init(cfg), schedule, own);
    assert ExecFrom(cfg, s, own) == Exec(cfg, schedule + own);
  }

  // ---------------------------------------------------------------------------------------
  // Without WILLCOMMIT

  lemma MainCommits(cfg: Config, x: Site, op: Op)
    requires op.Main() && Ready(x, op)
    ensures CommitMain(MainMove(cfg, x, op).main) ==> CommitMain(x.main) || cfg.participants != []
  {
  }

  /** Without participants there is no vote, hence no COMMIT. */
  lemma {:induction false} CommitNeedsVoters(cfg: Config, schedule: seq<Action>)
    requires cfg.Valid()
    ensures CommitMain(Exec(cfg, schedule).site[cfg.coordinator].main) ==> cfg.participants != []
  {
    if schedule != [] {
      var front, a := schedule[..|schedule| - 1], schedule[|schedule| - 1];
      CommitNeedsVoters(cfg, front);
      if Enabled(cfg, Exec(cfg, front), a) { StepCommits(cfg, Exec(cfg, front), a); }
    }
  }

  lemma StepCommits(cfg: Config, s: State, a: Action)
    requires WF(cfg, s) && Enabled(cfg, s, a)
    ensures CommitMain(Step(cfg, s, a).site[cfg.coordinator].main) ==>
      CommitMain(s.site[cfg.coordinator].main) || cfg.participants != []
  {
    if a.Own? && a.host == cfg.coordinator {
      if a.op.Main() {
        MainCommits(cfg, s.site[a.host], a.op);
      } else {
        OtherMain(cfg, s.site[a.host], a.op);
      }
    }
  }

  /** While the coordinator itself is up, its own log holds COMMIT or its finishing thread owes it. */
  lemma LiveCoordinatorDurable(cfg: Config, schedule: seq<Action>)
    requires cfg.Valid() && Exec(cfg, schedule).site[cfg.coordinator].up
    requires Exec(cfg, schedule).site[cfg.coordinator].main == Done(Commit, Answered)
    ensures StoredOrOwed(cfg, Exec(cfg, schedule))
  {
    ExecInv(cfg, schedule);
    var s := Exec(cfg, schedule);
    assert SiteOK(cfg, cfg.coordinator, s.site[cfg.coordinator], s.counted);
    assert s.site[cfg.coordinator].log == COMMIT || FinOwes(s.site[cfg.coordinator]);
  }
}
