/** What the decisions of Cornus 2 mean for the workers, and what the faults of its runs amount to. */
module NewValidity {
  import opened Domain
  import opened NewProtocol
  import opened NewInvariant
  import opened NewTheorems

  /** The worker of `p` was asked and agreed (refused) in the run. */
  ghost predicate Voted(cfg: Config, schedule: seq<Action>, p: Host, yes: bool) {
    Performed(cfg, schedule, 0, Own(p, CastVote(yes)))
  }

  ghost predicate VotingTimedOut(cfg: Config, schedule: seq<Action>) {
    Performed(cfg, schedule, 0, Own(cfg.coordinator, CollectTimeout))
  }

  lemma PerformedMore(cfg: Config, schedule: seq<Action>, a: Action, b: Action)
    ensures Performed(cfg, schedule + [a], 0, b) <==>
      Performed(cfg, schedule, 0, b) || (a == b && Enabled(cfg, Exec(cfg, schedule), a))
  {
    hide Exec, Enabled;
    var all := schedule + [a];
    if Performed(cfg, all, 0, b) {
      var i :| 0 <= i < |all| && all[i] == b && Enabled(cfg, Exec(cfg, all[..i]), b);
      if i < |schedule| {
        assert all[..i] == schedule[..i];
      } else {
        assert all[..i] == schedule;
      }
    }
    PerformedStays(cfg, schedule, all, 0);
    if a == b && Enabled(cfg, Exec(cfg, schedule), a) { PerformedNow(cfg, schedule, 0, a); }
  }

  lemma NothingPerformed(cfg: Config)
    ensures forall a :: !Performed(cfg, [], 0, a)
  {
  }

  // ---------------------------------------------------------------------------------------
  // Votes

  /** A participant whose worker refused. */
  predicate No(x: Site) {
    x.main.SayNo? || x.main == Said(false) || (x.main.Done? && x.main.via.Refused?)
  }

  /** The sites say how the workers voted. */
  ghost predicate HistoryOK(cfg: Config, schedule: seq<Action>, p: Host) {
    var s := Exec(cfg, schedule);
    && p in s.site
    && (s.site[p].saidYes <==> Voted(cfg, schedule, p, true))
    && (No(s.site[p]) <==> Voted(cfg, schedule, p, false))
  }

  lemma MainHistory(cfg: Config, x: Site, op: Op)
    requires op.Main() && Ready(x, op)
    ensures var x' := MainMove(cfg, x, op);
      && (x'.saidYes <==> x.saidYes || op == CastVote(true))
      && (No(x') <==> No(x) || op == CastVote(false))
  {
    hide No;
    MainRefuses(cfg, x, op);
  }

  lemma MainRefuses(cfg: Config, x: Site, op: Op)
    requires op.Main() && Ready(x, op)
    ensures No(MainMove(cfg, x, op)) <==> No(x) || op == CastVote(false)
  {
  }

  lemma MoveHistory(cfg: Config, x: Site, op: Op)
    requires Ready(x, op)
    ensures var x' := Move(cfg, x, op);
      && (x'.saidYes <==> x.saidYes || op == CastVote(true))
      && (No(x') <==> No(x) || op == CastVote(false))
  {
    hide MainMove;
    if op.Main() { MainHistory(cfg, x, op); }
  }

  lemma ReceiveHistory(x: Site, m: Msg)
    ensures x.Receive(m).saidYes == x.saidYes && No(x.Receive(m)) == No(x)
  {
  }

  lemma StepHistory(cfg: Config, s: State, a: Action, p: Host)
    requires WF(cfg, s) && Enabled(cfg, s, a) && p in cfg.Hosts()
    ensures var x, x' := s.site[p], Step(cfg, s, a).site[p];
      && (x'.saidYes <==> x.saidYes || a == Own(p, CastVote(true)))
      && (No(x') <==> No(x) || a == Own(p, CastVote(false)))
  {
    hide Move, Sent, No;
    match a
    case Own(h, op) => MoveHistory(cfg, s.site[h], op);
    case Deliver(m) => ReceiveHistory(s.site[m.dst], m);
    case Crash(h) => assert No(s.site[h].(up := false)) == No(s.site[h]) by { CrashHistory(s.site[h]); }
    case Lose(_) =>
  }

  lemma CrashHistory(x: Site)
    ensures No(x.(up := false)) == No(x)
  {
  }

  lemma {:induction false} ExecHistory(cfg: Config, schedule: seq<Action>, p: Host)
    requires cfg.Valid() && p in cfg.Hosts()
    ensures HistoryOK(cfg, schedule, p)
  {
    hide Performed, Step, Enabled, No;
    if schedule == [] {
      NothingPerformed(cfg);
      InitHistory(cfg, p);
    } else {
      var front, a := schedule[..|schedule| - 1], schedule[|schedule| - 1];
      assert schedule == front + [a];
      ExecHistory(cfg, front, p);
      PerformedMore(cfg, front, a, Own(p, CastVote(true)));
      PerformedMore(cfg, front, a, Own(p, CastVote(false)));
      if Enabled(cfg, Exec(cfg, front), a) { StepHistory(cfg, Exec(cfg, front), a, p); }
    }
  }

  lemma InitHistory(cfg: Config, p: Host)
    requires p in cfg.Hosts()
    ensures !Init(cfg).site[p].saidYes && !No(Init(cfg).site[p])
  {
  }

  // ---------------------------------------------------------------------------------------
  // Refusals

  /** An ABORT request for the coordinator comes from a participant whose worker refused. */
  ghost predicate RefusalOK(cfg: Config, s: State, m: Msg)
    requires WF(cfg, s)
  {
    m.kind.AbortKind? && m.dst == cfg.coordinator ==> m.src in cfg.Members() && No(s.site[m.src])
  }

  ghost predicate RefusalsOK(cfg: Config, s: State)
    requires WF(cfg, s)
  {
    && (forall m :: m in s.net ==> RefusalOK(cfg, s, m))
    && (forall m :: m in s.site[cfg.coordinator].inbox ==> RefusalOK(cfg, s, m))
  }

  lemma SentRefusal(cfg: Config, h: Host, x: Site, op: Op, m: Msg, counted: set<Host>)
    requires cfg.Valid() && h in cfg.Hosts() && Ready(x, op) && SiteOK(cfg, h, x, counted) && m in Sent(cfg, h, x, op)
    ensures m.kind.AbortKind? && m.dst == cfg.coordinator ==> m.src == h && h in cfg.Members() && No(x)
  {
  }

  lemma StepRefusals(cfg: Config, s: State, a: Action)
    requires Inv(cfg, s) && Enabled(cfg, s, a) && RefusalsOK(cfg, s)
    ensures RefusalsOK(cfg, Step(cfg, s, a))
  {
    hide No, Step;
    var s' := Step(cfg, s, a);
    forall p | p in cfg.Hosts() && No(s.site[p]) ensures No(s'.site[p]) { StepHistory(cfg, s, a, p); }
    if a.Own? {
      OwnRefusals(cfg, s, a.host, a.op);
    } else {
      EnvRefusals(cfg, s, a);
    }
  }

  lemma EnvRefusals(cfg: Config, s: State, a: Action)
    requires WF(cfg, s) && Enabled(cfg, s, a) && !a.Own?
    ensures var s' := Step(cfg, s, a);
      && s'.net <= s.net
      && forall m :: m in s'.site[cfg.coordinator].inbox ==> m in s.site[cfg.coordinator].inbox || m in s.net
  {
    if a.Deliver? { ReceiveInbox(s.site[a.msg.dst], a.msg); }
  }

  lemma ReceiveInbox(x: Site, m: Msg)
    ensures forall k :: k in x.Receive(m).inbox ==> k in x.inbox || k == m
  {
  }

  lemma OwnRefusals(cfg: Config, s: State, h: Host, op: Op)
    requires Inv(cfg, s) && Enabled(cfg, s, Own(h, op)) && RefusalsOK(cfg, s)
    ensures var s' := Step(cfg, s, Own(h, op));
      && (forall m :: m in s'.net ==> m in s.net || RefusalOK(cfg, s, m))
      && (forall m :: m in s'.site[cfg.coordinator].inbox ==> m in s.site[cfg.coordinator].inbox)
  {
    hide No, Move, Sent;
    assert SiteOK(cfg, h, s.site[h], s.counted);
    forall m | m in Sent(cfg, h, s.site[h], op) ensures RefusalOK(cfg, s, m) {
      SentRefusal(cfg, h, s.site[h], op, m, s.counted);
    }
    MoveInboxes(cfg, s.site[h], op);
  }

  lemma InitRefusals(cfg: Config)
    ensures RefusalsOK(cfg, Init(cfg))
  {
  }

  lemma {:induction false} ExecRefusals(cfg: Config, schedule: seq<Action>)
    requires cfg.Valid()
    ensures RefusalsOK(cfg, Exec(cfg, schedule))
  {
    hide Inv, Step, Enabled, RefusalsOK, Init;
    if schedule == [] {
      InitRefusals(cfg);
    } else {
      var front, a := schedule[..|schedule| - 1], schedule[|schedule| - 1];
      ExecRefusals(cfg, front);
      ExecInv(cfg, front);
      if Enabled(cfg, Exec(cfg, front), a) { StepRefusals(cfg, Exec(cfg, front), a); }
    }
  }

  /** What makes the coordinator decide ABORT. */
  lemma MainAborts(cfg: Config, x: Site, op: Op, counted: set<Host>)
    requires op.Main() && Ready(x, op) && CoordinatorOK(cfg, x, counted)
    ensures AbortMain(MainMove(cfg, x, op).main) ==>
      AbortMain(x.main) || op.CollectTimeout? || (op.TakeVote? && x.inbox[0].kind.AbortKind?)
  {
  }

  lemma StepAborts(cfg: Config, s: State, a: Action)
    requires Inv(cfg, s) && RefusalsOK(cfg, s) && Enabled(cfg, s, a)
    ensures var c := cfg.coordinator;
      AbortMain(Step(cfg, s, a).site[c].main) ==>
        || AbortMain(s.site[c].main) || a == Own(c, CollectTimeout)
        || exists p :: p in cfg.Members() && No(s.site[p])
  {
    hide No, Move, MainMove, Sent;
    var c := cfg.coordinator;
    var x := s.site[c];
    assert SiteOK(cfg, c, x, s.counted) && QueueOK(cfg, s, c, x);
    if a.Own? && a.host == c {
      if a.op.Main() {
        MoveIsMain(cfg, x, a.op);
        MainAborts(cfg, x, a.op, s.counted);
        if a.op.TakeVote? { assert RefusalOK(cfg, s, x.inbox[0]) && x.inbox[0].dst == c; }
      } else {
        OtherMain(cfg, x, a.op);
      }
    }
  }

  lemma MoveIsMain(cfg: Config, x: Site, op: Op)
    requires op.Main() && Ready(x, op)
    ensures Move(cfg, x, op) == MainMove(cfg, x, op)
  {
  }

  ghost predicate SomebodyRefused(cfg: Config, schedule: seq<Action>) {
    exists p :: p in cfg.Members() && Voted(cfg, schedule, p, false)
  }

  lemma {:induction false} AbortReason(cfg: Config, schedule: seq<Action>)
    requires cfg.Valid() && AbortMain(Exec(cfg, schedule).site[cfg.coordinator].main)
    ensures VotingTimedOut(cfg, schedule) || SomebodyRefused(cfg, schedule)
  {
    hide Performed, Step, Enabled, No, RefusalsOK, Inv;
    if schedule != [] {
      var front, a := schedule[..|schedule| - 1], schedule[|schedule| - 1];
      var s := Exec(cfg, front);
      assert schedule == front + [a];
      PerformedStays(cfg, front, schedule, 0);
      if AbortMain(s.site[cfg.coordinator].main) {
        AbortReason(cfg, front);
      } else {
        ExecInv(cfg, front);
        ExecRefusals(cfg, front);
        StepAborts(cfg, s, a);
        PerformedMore(cfg, front, a, a);
        if p :| p in cfg.Members() && No(s.site[p]) { ExecHistory(cfg, front, p); }
      }
    }
  }

  /** COMMIT, in whatever form, is found anywhere only if every participant's worker was asked and agreed, and
      none refused; the coordinator decides ABORT only if some worker refused or it timed out. */
  lemma Validity(cfg: Config, schedule: seq<Action>, h: Host)
    requires cfg.Valid() && h in cfg.Hosts()
    ensures Effect(Exec(cfg, schedule).site[h]) ==>
      forall p :: p in cfg.Members() ==> Voted(cfg, schedule, p, true) && !Voted(cfg, schedule, p, false)
    ensures AbortMain(Exec(cfg, schedule).site[cfg.coordinator].main) ==>
      VotingTimedOut(cfg, schedule) || SomebodyRefused(cfg, schedule)
  {
    hide ExecFrom, Performed, Effect;
    var s := Exec(cfg, schedule);
    ExecInv(cfg, schedule);
    if Effect(s.site[h]) {
      forall p | p in cfg.Members() ensures Voted(cfg, schedule, p, true) && !Voted(cfg, schedule, p, false) {
        ExecHistory(cfg, schedule, p);
        assert SiteOK(cfg, p, s.site[p], s.counted);
      }
    }
    if AbortMain(s.site[cfg.coordinator].main) { AbortReason(cfg, schedule); }
  }

  // ---------------------------------------------------------------------------------------
  // Faults

  /** A crashed host stands still, whatever the others do. */
  lemma {:induction false} CrashedStands(cfg: Config, schedule: seq<Action>, later: seq<Action>, h: Host)
    requires cfg.Valid() && h in cfg.Hosts()
    ensures Exec(cfg, schedule + [Crash(h)] + later).site[h] == Exec(cfg, schedule).site[h].(up := false)
  {
    hide Step, Enabled, ExecFrom;
    var run := schedule + [Crash(h)] + later;
    if later == [] {
      assert run == schedule + [Crash(h)];
      CrashNow(cfg, schedule, h);
    } else {
      var front, a := later[..|later| - 1], later[|later| - 1];
      assert run[..|run| - 1] == schedule + [Crash(h)] + front && run[|run| - 1] == a;
      CrashedStands(cfg, schedule, front, h);
      var s := Exec(cfg, run[..|run| - 1]);
      assert Exec(cfg, run) == Do(cfg, s, a) by { ExecLast(cfg, run); }
      if Enabled(cfg, s, a) { StepCrashed(cfg, s, a, h); }
    }
  }

  lemma CrashNow(cfg: Config, schedule: seq<Action>, h: Host)
    requires h in cfg.Hosts()
    ensures Exec(cfg, schedule + [Crash(h)]).site[h] == Exec(cfg, schedule).site[h].(up := false)
  {
    ExecMore(cfg, schedule, Crash(h));
  }

  lemma ExecLast(cfg: Config, run: seq<Action>)
    requires run != []
    ensures Exec(cfg, run) == Do(cfg, Exec(cfg, run[..|run| - 1]), run[|run| - 1])
  {
  }

  lemma StepCrashed(cfg: Config, s: State, a: Action, h: Host)
    requires WF(cfg, s) && h in cfg.Hosts() && !s.site[h].up && Enabled(cfg, s, a)
    ensures Step(cfg, s, a).site[h] == s.site[h]
  {
    hide Move, Sent;
    if a.Own? { assert Ready(s.site[a.host], a.op) && a.host != h; }
  }

  /** A message of which every copy has been lost or delivered can only be received after another has been
      sent. */
  lemma LostIsLost(cfg: Config, schedule: seq<Action>, m: Msg)
    requires cfg.Valid() && Exec(cfg, schedule).net[m] == 1 && m.dst in cfg.Hosts()
    ensures var s, t, r :=
        Exec(cfg, schedule), Exec(cfg, schedule + [Lose(m)]), Exec(cfg, schedule + [Deliver(m)]);
      !Enabled(cfg, t, Deliver(m)) && t.site == s.site && t.net == r.net
  {
    ExecMore(cfg, schedule, Lose(m));
    ExecMore(cfg, schedule, Deliver(m));
  }

  /** An OVERRIDECOMMIT request that is not lost stays on the network until it makes its receiver commit. */
  lemma {:induction false} OverrideReaches(cfg: Config, schedule: seq<Action>, later: seq<Action>, m: Msg)
    requires cfg.Valid() && m in Exec(cfg, schedule).net && m.kind.OverrideKind? && m.dst in cfg.Hosts()
    requires Lose(m) !in later
    ensures var t := Exec(cfg, schedule + later);
      m in t.net || t.site[m.dst].overridden || !t.site[m.dst].up
  {
    hide Step, Enabled, ExecFrom;
    var run := schedule + later;
    if later == [] {
      assert run == schedule;
    } else {
      var front, a := later[..|later| - 1], later[|later| - 1];
      assert run[..|run| - 1] == schedule + front && run[|run| - 1] == a;
      OverrideReaches(cfg, schedule, front, m);
      var s := Exec(cfg, run[..|run| - 1]);
      ExecLast(cfg, run);
      if Enabled(cfg, s, a) { StepOverride(cfg, s, a, m); }
    }
  }

  lemma StepOverride(cfg: Config, s: State, a: Action, m: Msg)
    requires WF(cfg, s) && Enabled(cfg, s, a) && m.kind.OverrideKind? && m.dst in cfg.Hosts() && a != Lose(m)
    requires m in s.net || s.site[m.dst].overridden || !s.site[m.dst].up
    ensures var t := Step(cfg, s, a); m in t.net || t.site[m.dst].overridden || !t.site[m.dst].up
  {
    hide Move, Sent;
    if a.Own? { MoveOverridden(cfg, s.site[a.host], a.op); }
  }

  lemma MoveOverridden(cfg: Config, x: Site, op: Op)
    requires Ready(x, op)
    ensures Move(cfg, x, op).overridden == x.overridden && Move(cfg, x, op).up
  {
    hide MainMove;
    if op.Main() { MainOverridden(cfg, x, op); }
  }

  lemma MainOverridden(cfg: Config, x: Site, op: Op)
    requires op.Main() && Ready(x, op)
    ensures MainMove(cfg, x, op).overridden == x.overridden && MainMove(cfg, x, op).up
  {
  }
}
