/** The inductive invariant of Cornus 2 and its preservation, one conjunct at a time. */
module NewInvariant {
  import opened Domain
  import opened NewProtocol

  /** The coordinator has decided COMMIT (ABORT). */
  predicate CommitMain(m: MainPC) {
    || m.SendWill? || m.AwaitWill?
    || ((m.Returned? || m.Replying? || (m.Done? && m.via.Answered?)) && m.decision == Commit)
  }

  predicate AbortMain(m: MainPC) {
    (m.Returned? || m.Replying? || (m.Done? && m.via.Answered?)) && m.decision == Abort
  }

  /** What every commit effect rests on: the coordinator decided COMMIT and all workers agreed. */
  ghost predicate Basis(cfg: Config, s: State)
    requires WF(cfg, s)
  {
    CommitMain(s.site[cfg.coordinator].main) && forall p :: p in cfg.Members() ==> s.site[p].saidYes
  }

  /** COMMIT is stored at the coordinator's address. */
  ghost predicate Stored(cfg: Config, s: State)
    requires WF(cfg, s)
  {
    s.site[cfg.coordinator].log == COMMIT
  }

  // ---------------------------------------------------------------------------------------
  // One host

  predicate MemberOK(x: Site) {
    match x.main
    case Idle | Vote | SayNo => !x.saidYes
    case SayYes | Wait | TermRead => x.saidYes
    case Said(yes) => x.saidYes == yes
    case TermWrite(read) => x.saidYes && read != COMMIT && read != ABORT
    case Done(d, Refused) => !x.saidYes && d == Abort
    case Done(_, Told) => x.saidYes
    case Done(d, TimedOut(read)) => x.saidYes && (d == Commit <==> read == COMMIT)
    case _ => false
  }

  /** The finishing thread works on the coordinator's decision and gets past logFinal only with COMMIT
      in the coordinator's log. */
  predicate FinOK(x: Site, d: Decision) {
    match x.fin
    case FNone => false
    case FLog(l) => d == Commit && (l.LOverride? || l.LEnd? ==> x.log == COMMIT)
    case FComplete(_, _) => d == Commit && x.log == COMMIT
    case FTell(e, _, _) => e == d && (d == Commit ==> x.log == COMMIT)
    case FDone => d == Commit ==> x.log == COMMIT
  }

  ghost predicate CoordinatorOK(cfg: Config, x: Site, counted: set<Host>) {
    && x.repl.RIdle?
    && match x.main
       case SendReqs(_, _) => x.fin.FNone? && counted == {}
       case Collect(votes) =>
         x.fin.FNone? && votes == |counted| && (votes < |cfg.participants| || votes == 0)
       case SendWill(_) | AwaitWill(_) | Returned(_) => x.fin.FNone?
       case Replying(d) => FinOK(x, d)
       case Done(d, Answered) => FinOK(x, d)
       case _ => false
  }

  /** A COMMIT in the log was written there, and a replicator past its write has written it. */
  predicate LogOK(x: Site) {
    && (x.log == COMMIT ==> x.written)
    && (x.repl.RLog? && (x.repl.log.LOverride? || x.repl.log.LEnd?) ==> x.written)
  }

  predicate OverridesOK(cfg: Config, l: LogPC) {
    l.LOverride? ==> l.pending <= l.waiting <= cfg.Members()
  }

  /** Every sending loop addresses the group it is meant for. */
  predicate PendingOK(cfg: Config, x: Site) {
    && (x.main.SendReqs? ==> x.main.pending <= x.main.waiting <= cfg.Members())
    && (x.main.SendWill? ==> x.main.pending <= cfg.Backups())
    && (x.main.AwaitWill? ==> x.main.waiting <= cfg.Backups())
    && (x.fin.FLog? ==> OverridesOK(cfg, x.fin.log))
    && (x.fin.FComplete? ==> x.fin.pending <= x.fin.waiting <= cfg.Backups())
    && (x.fin.FTell? ==> x.fin.pending <= x.fin.waiting <= cfg.Members())
    && (x.repl.RLog? ==> OverridesOK(cfg, x.repl.log))
  }

  ghost predicate SiteOK(cfg: Config, h: Host, x: Site, counted: set<Host>) {
    && LogOK(x)
    && PendingOK(cfg, x)
    && (h == cfg.coordinator ==> CoordinatorOK(cfg, x, counted))
    && (h != cfg.coordinator ==> x.fin.FNone?)
    && (h in cfg.Members() ==> MemberOK(x))
    && (h != cfg.coordinator && h !in cfg.Members() ==> x.main.Idle?)
    && (h !in cfg.Backups() ==> x.repl.RIdle?)
  }

  ghost predicate SitesOK(cfg: Config, s: State)
    requires WF(cfg, s)
  {
    forall h :: h in cfg.Hosts() ==> SiteOK(cfg, h, s.site[h], s.counted)
  }

  /** Everything at a host that amounts to committing. */
  predicate Effect(x: Site) {
    || x.log == COMMIT || x.written || x.overridden || !x.repl.RIdle?
    || CommitMain(x.main) || (x.main.Done? && x.main.decision == Commit)
    || x.fin.FLog? || x.fin.FComplete? || (x.fin.FTell? && x.fin.decision == Commit)
  }

  ghost predicate EffectsOK(cfg: Config, s: State)
    requires WF(cfg, s)
  {
    forall h :: h in cfg.Hosts() && Effect(s.site[h]) ==> Basis(cfg, s)
  }

  /** Who was told to abort was told by a coordinator that decided ABORT; a replicator that is done
      has written COMMIT itself or left it stored at the coordinator's address. */
  ghost predicate OutcomeOK(cfg: Config, s: State, x: Site)
    requires WF(cfg, s)
  {
    && (x.main == Done(Abort, Told) ==> AbortMain(s.site[cfg.coordinator].main))
    && (x.repl.RDone? ==> x.written || Stored(cfg, s))
  }

  ghost predicate OutcomesOK(cfg: Config, s: State)
    requires WF(cfg, s)
  {
    forall h :: h in cfg.Hosts() ==> OutcomeOK(cfg, s, s.site[h])
  }

  // ---------------------------------------------------------------------------------------
  // Messages, votes, acknowledgements

  ghost predicate MsgOK(cfg: Config, s: State, m: Msg)
    requires WF(cfg, s)
  {
    match m.kind
    case VoteReqKind => m.dst in cfg.Members()
    case VoteYesKind => m.src in cfg.Members() && m.dst == cfg.coordinator && s.site[m.src].saidYes
    case AbortKind => m.dst != cfg.coordinator ==> m.dst in cfg.Members() && AbortMain(s.site[cfg.coordinator].main)
    case CommitKind => m.dst in cfg.Members() && Basis(cfg, s)
    case WillKind => m.dst in cfg.Backups() && Basis(cfg, s)
    case OverrideKind => m.dst in cfg.Members() && Basis(cfg, s)
    case CompletedKind => m.dst in cfg.Backups() && Stored(cfg, s)
  }

  ghost predicate NetOK(cfg: Config, s: State)
    requires WF(cfg, s)
  {
    forall m :: m in s.net ==> MsgOK(cfg, s, m)
  }

  predicate MainKind(k: Kind) {
    k.VoteYesKind? || k.AbortKind? || k.CommitKind?
  }

  ghost predicate QueueOK(cfg: Config, s: State, h: Host, x: Site)
    requires WF(cfg, s)
  {
    && (forall m :: m in x.inbox ==> MsgOK(cfg, s, m) && m.dst == h && MainKind(m.kind))
    && (forall m :: m in x.replInbox ==> MsgOK(cfg, s, m) && m.kind.CompletedKind?)
  }

  ghost predicate InboxesOK(cfg: Config, s: State)
    requires WF(cfg, s)
  {
    forall h :: h in cfg.Hosts() ==> QueueOK(cfg, s, h, s.site[h])
  }

  /** Copies of the yes-vote of `p` that the coordinator may still count. */
  ghost function Copies(cfg: Config, s: State, p: Host): nat
    requires WF(cfg, s)
  {
    var m := Msg(VoteYesKind, p, cfg.coordinator);
    s.net[m] + multiset(s.site[cfg.coordinator].inbox)[m]
  }

  predicate SentYes(x: Site) {
    x.saidYes && !x.main.SayYes?
  }

  ghost predicate VoteOK(cfg: Config, s: State, p: Host)
    requires WF(cfg, s) && p in cfg.Members()
  {
    Copies(cfg, s, p) + (if p in s.counted then 1 else 0) <= (if SentYes(s.site[p]) then 1 else 0)
  }

  ghost predicate VotesOK(cfg: Config, s: State)
    requires WF(cfg, s)
  {
    && s.counted <= cfg.Members()
    && forall p :: p in cfg.Members() ==> VoteOK(cfg, s, p)
  }

  /** The call to replicator `r` has been resolved: it was delivered, or it failed. */
  ghost predicate Settled(cfg: Config, s: State, r: Host)
    requires WF(cfg, s) && r in cfg.Hosts()
  {
    !s.site[r].repl.RIdle? || r in s.unacked
  }

  ghost predicate AcksOK(cfg: Config, s: State)
    requires WF(cfg, s)
  {
    var m := s.site[cfg.coordinator].main;
    CommitMain(m) && !m.SendWill? ==>
      forall r :: r in cfg.Backups() && !(m.AwaitWill? && r in m.waiting) ==> Settled(cfg, s, r)
  }

  ghost predicate Inv(cfg: Config, s: State) {
    && cfg.Valid()
    && WF(cfg, s)
    && SitesOK(cfg, s)
    && EffectsOK(cfg, s)
    && OutcomesOK(cfg, s)
    && NetOK(cfg, s)
    && InboxesOK(cfg, s)
    && VotesOK(cfg, s)
    && AcksOK(cfg, s)
  }

  // ---------------------------------------------------------------------------------------
  // What is never taken back

  predicate SiteExtends(x: Site, x': Site) {
    && (x.saidYes ==> x'.saidYes)
    && (x.written ==> x'.written)
    && (!x.repl.RIdle? ==> !x'.repl.RIdle?)
  }

  predicate DecisionExtends(x: Site, x': Site) {
    && (CommitMain(x.main) ==> CommitMain(x'.main))
    && (AbortMain(x.main) ==> AbortMain(x'.main))
    && (x.log == COMMIT ==> x'.log == COMMIT)
  }

  ghost predicate Extends(cfg: Config, s: State, s': State)
    requires WF(cfg, s) && WF(cfg, s')
  {
    && (forall h :: h in cfg.Hosts() ==> SiteExtends(s.site[h], s'.site[h]))
    && DecisionExtends(s.site[cfg.coordinator], s'.site[cfg.coordinator])
    && s.unacked <= s'.unacked
  }

  lemma MsgStays(cfg: Config, s: State, s': State, m: Msg)
    requires WF(cfg, s) && WF(cfg, s') && Extends(cfg, s, s') && MsgOK(cfg, s, m)
    ensures MsgOK(cfg, s', m)
  {
  }

  lemma BasisStays(cfg: Config, s: State, s': State)
    requires WF(cfg, s) && WF(cfg, s') && Extends(cfg, s, s') && Basis(cfg, s)
    ensures Basis(cfg, s')
  {
  }

  /** The coordinator's site never runs participant or replicator code. */
  lemma MainDecision(cfg: Config, x: Site, op: Op, counted: set<Host>)
    requires op.Main() && Ready(x, op) && CoordinatorOK(cfg, x, counted)
    ensures DecisionExtends(x, MainMove(cfg, x, op))
  {
  }

  lemma MoveDecision(cfg: Config, x: Site, op: Op, counted: set<Host>)
    requires Ready(x, op) && CoordinatorOK(cfg, x, counted)
    ensures DecisionExtends(x, Move(cfg, x, op))
  {
    if op.Main() { MainDecision(cfg, x, op, counted); }
  }

  lemma MoveSite(cfg: Config, x: Site, op: Op)
    requires Ready(x, op)
    ensures SiteExtends(x, Move(cfg, x, op))
  {
    if op.Main() { MainKeepsSite(cfg, x, op); }
  }

  lemma MainKeepsSite(cfg: Config, x: Site, op: Op)
    requires op.Main() && Ready(x, op)
    ensures SiteExtends(x, MainMove(cfg, x, op))
  {
  }

  lemma MoveExtends(cfg: Config, h: Host, x: Site, op: Op, counted: set<Host>)
    requires Ready(x, op)
    requires h == cfg.coordinator ==> CoordinatorOK(cfg, x, counted)
    ensures SiteExtends(x, Move(cfg, x, op))
    ensures h == cfg.coordinator ==> DecisionExtends(x, Move(cfg, x, op))
  {
    MoveSite(cfg, x, op);
    if h == cfg.coordinator { MoveDecision(cfg, x, op, counted); }
  }

  lemma ReceiveExtends(x: Site, m: Msg)
    requires !x.main.Idle?
    ensures SiteExtends(x, x.Receive(m)) && DecisionExtends(x, x.Receive(m))
  {
  }

  lemma OwnExtends(cfg: Config, s: State, h: Host, op: Op)
    requires WF(cfg, s) && SitesOK(cfg, s) && Enabled(cfg, s, Own(h, op))
    ensures Extends(cfg, s, Step(cfg, s, Own(h, op)))
  {
    assert SiteOK(cfg, h, s.site[h], s.counted);
    MoveExtends(cfg, h, s.site[h], op, s.counted);
  }

  lemma StepExtends(cfg: Config, s: State, a: Action)
    requires WF(cfg, s) && SitesOK(cfg, s) && Enabled(cfg, s, a)
    ensures Extends(cfg, s, Step(cfg, s, a))
  {
    if a.Own? {
      OwnExtends(cfg, s, a.host, a.op);
    } else if a.Deliver? {
      assert SiteOK(cfg, a.msg.dst, s.site[a.msg.dst], s.counted);
      if !s.site[a.msg.dst].main.Idle? { ReceiveExtends(s.site[a.msg.dst], a.msg); }
    }
  }

  // ---------------------------------------------------------------------------------------
  // Preservation

  lemma InitInv(cfg: Config)
    requires cfg.Valid()
    ensures Inv(cfg, Init(cfg))
  {
  }

  /** The requirement on the head of a queue that a step consumes. */
  predicate HeadOK(cfg: Config, h: Host, x: Site, op: Op, counted: set<Host>)
    requires Ready(x, op)
  {
    && (op.TakeDecision? ==> x.inbox[0].kind.CommitKind? || x.inbox[0].kind.AbortKind?)
    && (op.TakeVote? && x.inbox[0].kind.VoteYesKind? ==>
          x.inbox[0].src !in counted && x.main.votes + 1 <= |cfg.participants|)
    && (op.ReplTake? ==> x.replInbox[0].kind.CompletedKind?)
  }

  function Counted(x: Site, op: Op, counted: set<Host>): set<Host>
    requires Ready(x, op)
  {
    if op.TakeVote? && x.inbox[0].kind.VoteYesKind? then counted + {x.inbox[0].src} else counted
  }

  lemma MainCoordinator(cfg: Config, x: Site, op: Op, counted: set<Host>)
    requires op.Main() && Ready(x, op) && CoordinatorOK(cfg, x, counted) && HeadOK(cfg, cfg.coordinator, x, op, counted)
    ensures CoordinatorOK(cfg, Move(cfg, x, op), Counted(x, op, counted))
  {
  }

  lemma MainMember(cfg: Config, h: Host, x: Site, op: Op, counted: set<Host>)
    requires op.Main() && Ready(x, op) && MemberOK(x) && HeadOK(cfg, h, x, op, counted)
    ensures MemberOK(Move(cfg, x, op)) && Counted(x, op, counted) == counted
  {
  }

  lemma MainOthers(cfg: Config, x: Site, op: Op)
    requires op.Main() && Ready(x, op)
    ensures var x' := Move(cfg, x, op);
      && !x.main.Idle?
      && x'.repl == x.repl && x'.written == x.written
      && (x'.log == x.log || (op.DoWrite? && x'.log == ABORT))
      && (x'.fin == x.fin || op.Spawn?)
  {
  }

  lemma MainPending(cfg: Config, x: Site, op: Op)
    requires op.Main() && Ready(x, op) && PendingOK(cfg, x)
    ensures PendingOK(cfg, Move(cfg, x, op))
  {
  }

  lemma MainSite(cfg: Config, h: Host, x: Site, op: Op, counted: set<Host>)
    requires cfg.Valid() && op.Main() && Ready(x, op) && SiteOK(cfg, h, x, counted) && HeadOK(cfg, h, x, op, counted)
    ensures SiteOK(cfg, h, Move(cfg, x, op), Counted(x, op, counted))
  {
    MainOthers(cfg, x, op);
    MainPending(cfg, x, op);
    if h == cfg.coordinator {
      MainCoordinator(cfg, x, op, counted);
    } else {
      MainMember(cfg, h, x, op, counted);
    }
  }

  lemma FinPending(cfg: Config, x: Site, op: Op)
    requires op.Fin() && Ready(x, op) && PendingOK(cfg, x)
    ensures PendingOK(cfg, FinMove(cfg, x, op))
  {
  }

  lemma FinDecision(cfg: Config, x: Site, op: Op, d: Decision)
    requires op.Fin() && Ready(x, op) && FinOK(x, d)
    ensures FinOK(FinMove(cfg, x, op), d)
  {
  }

  lemma FinKeeps(cfg: Config, x: Site, op: Op)
    requires op.Fin() && Ready(x, op) && LogOK(x)
    ensures var x' := FinMove(cfg, x, op);
      LogOK(x') && x'.main == x.main && x'.repl == x.repl && x'.saidYes == x.saidYes && !x.fin.FNone?
  {
  }

  lemma FinSite(cfg: Config, h: Host, x: Site, op: Op, counted: set<Host>)
    requires cfg.Valid() && op.Fin() && Ready(x, op) && SiteOK(cfg, h, x, counted)
    ensures SiteOK(cfg, h, Move(cfg, x, op), counted)
  {
    hide FinMove, LogOK, PendingOK, FinOK;
    FinPending(cfg, x, op);
    FinKeeps(cfg, x, op);
    if x.main.Replying? || x.main.Done? { FinDecision(cfg, x, op, x.main.decision); }
  }

  lemma ReplSite(cfg: Config, h: Host, x: Site, op: Op, counted: set<Host>)
    requires cfg.Valid() && !op.Main() && !op.Fin() && Ready(x, op) && SiteOK(cfg, h, x, counted)
    ensures SiteOK(cfg, h, Move(cfg, x, op), counted)
  {
  }

  /** The yes-vote at the head of the queue is a new one; when it completes the count, the senders are
      exactly the participants, and all their workers agreed. */
  lemma NextVote(cfg: Config, s: State)
    requires Inv(cfg, s)
    requires var x := s.site[cfg.coordinator]; x.main.Collect? && x.inbox != [] && x.inbox[0].kind.VoteYesKind?
    ensures var x := s.site[cfg.coordinator]; var p := x.inbox[0].src;
      && p in cfg.Members() && p !in s.counted
      && |s.counted + {p}| == x.main.votes + 1 <= |cfg.participants|
      && (x.main.votes + 1 == |cfg.participants| ==>
            s.counted + {p} == cfg.Members() && forall q :: q in cfg.Members() ==> s.site[q].saidYes)
  {
    var x := s.site[cfg.coordinator];
    var m := x.inbox[0];
    assert SiteOK(cfg, cfg.coordinator, x, s.counted) && QueueOK(cfg, s, cfg.coordinator, x);
    assert MsgOK(cfg, s, m) && m == Msg(VoteYesKind, m.src, cfg.coordinator);
    assert m in multiset(x.inbox);
    assert VoteOK(cfg, s, m.src);
    DistinctSize(cfg.participants);
    SubsetSize(s.counted + {m.src}, cfg.Members());
    if x.main.votes + 1 == |cfg.participants| {
      Pigeonhole(s.counted + {m.src}, cfg.Members());
      forall q | q in cfg.Members() ensures s.site[q].saidYes {
        assert VoteOK(cfg, s, q);
      }
    }
  }

  lemma CoordinatorCollects(cfg: Config, s: State, h: Host)
    requires Inv(cfg, s) && h in cfg.Hosts() && s.site[h].main.Collect?
    ensures h == cfg.coordinator
  {
    assert SiteOK(cfg, h, s.site[h], s.counted);
  }

  lemma HeadFine(cfg: Config, s: State, h: Host, op: Op)
    requires Inv(cfg, s) && Enabled(cfg, s, Own(h, op))
    ensures HeadOK(cfg, h, s.site[h], op, s.counted)
  {
    var x := s.site[h];
    assert QueueOK(cfg, s, h, x);
    if op.TakeDecision? {
      var m := x.inbox[0];
      assert MsgOK(cfg, s, m) && m.dst == h && MainKind(m.kind);
      assert SiteOK(cfg, h, x, s.counted);
    } else if op.TakeVote? {
      CoordinatorCollects(cfg, s, h);
      if x.inbox[0].kind.VoteYesKind? { NextVote(cfg, s); }
    } else if op.ReplTake? {
      assert x.replInbox[0].kind.CompletedKind?;
    }
  }

  lemma StepSites(cfg: Config, s: State, a: Action)
    requires Inv(cfg, s) && Enabled(cfg, s, a)
    ensures SitesOK(cfg, Step(cfg, s, a))
  {
    var s' := Step(cfg, s, a);
    if a.Own? {
      OwnSite(cfg, s, a.host, a.op);
      forall h | h in cfg.Hosts() && h != a.host ensures SiteOK(cfg, h, s'.site[h], s'.counted) {
        assert SiteOK(cfg, h, s.site[h], s.counted);
        if a.op.TakeVote? { CoordinatorCollects(cfg, s, a.host); }
      }
    } else {
      forall h | h in cfg.Hosts() ensures SiteOK(cfg, h, s'.site[h], s.counted) {
        assert SiteOK(cfg, h, s.site[h], s.counted);
        if a.Deliver? && a.msg.dst == h { ReceiveSite(cfg, s, a.msg); }
      }
    }
  }

  lemma ReceiveSite(cfg: Config, s: State, m: Msg)
    requires Inv(cfg, s) && m in s.net && m.dst in cfg.Hosts()
    ensures SiteOK(cfg, m.dst, s.site[m.dst].Receive(m), s.counted)
  {
    assert SiteOK(cfg, m.dst, s.site[m.dst], s.counted);
    assert MsgOK(cfg, s, m);
  }

  lemma OwnSite(cfg: Config, s: State, h: Host, op: Op)
    requires Inv(cfg, s) && Enabled(cfg, s, Own(h, op))
    ensures SiteOK(cfg, h, Move(cfg, s.site[h], op), Counted(s.site[h], op, s.counted))
  {
    var x := s.site[h];
    HeadFine(cfg, s, h, op);
    assert SiteOK(cfg, h, x, s.counted);
    if op.Main() { MainSite(cfg, h, x, op, s.counted); }
    else if op.Fin() { FinSite(cfg, h, x, op, s.counted); }
    else { ReplSite(cfg, h, x, op, s.counted); }
  }

  /** A step creates a commit effect only out of an earlier one, by being told, or by counting the last vote. */
  lemma MoveEffect(cfg: Config, x: Site, op: Op)
    requires Ready(x, op) && Effect(Move(cfg, x, op))
    requires x.fin.FTell? && x.fin.decision == Abort ==> !op.StartTell?
    ensures
      || Effect(x)
      || (op.TakeDecision? && x.inbox[0].kind.CommitKind?)
      || (op.TakeVote? && x.inbox[0].kind.VoteYesKind? && x.main.votes + 1 == |cfg.participants|)
  {
  }

  lemma StepEffects(cfg: Config, s: State, a: Action)
    requires Inv(cfg, s) && Enabled(cfg, s, a)
    ensures EffectsOK(cfg, Step(cfg, s, a))
  {
    var s' := Step(cfg, s, a);
    StepExtends(cfg, s, a);
    forall h | h in cfg.Hosts() && Effect(s'.site[h]) ensures Basis(cfg, s') {
      if Effect(s.site[h]) {
        BasisStays(cfg, s, s');
      } else if a.Own? {
        OwnEffect(cfg, s, a.host, a.op);
      } else {
        ReceiveEffect(cfg, s, a, h);
        MsgStays(cfg, s, s', a.msg);
      }
    }
  }

  /** Without a step of its own, a host comes to an effect only by a request that stands for it. */
  lemma ReceiveEffect(cfg: Config, s: State, a: Action, h: Host)
    requires WF(cfg, s) && Enabled(cfg, s, a) && !a.Own? && h in cfg.Hosts()
    requires !Effect(s.site[h]) && Effect(Step(cfg, s, a).site[h])
    ensures a.Deliver? && (a.msg.kind.WillKind? || a.msg.kind.OverrideKind?)
  {
  }

  lemma OwnEffect(cfg: Config, s: State, h: Host, op: Op)
    requires Inv(cfg, s) && Enabled(cfg, s, Own(h, op)) && Effect(Move(cfg, s.site[h], op))
    ensures Basis(cfg, Step(cfg, s, Own(h, op)))
  {
    var x := s.site[h];
    var s' := Step(cfg, s, Own(h, op));
    StepExtends(cfg, s, Own(h, op));
    MoveEffect(cfg, x, op);
    if Effect(x) {
      BasisStays(cfg, s, s');
    } else if op.TakeDecision? {
      assert MsgOK(cfg, s, x.inbox[0]);
      BasisStays(cfg, s, s');
    } else {
      CoordinatorCollects(cfg, s, h);
      NextVote(cfg, s);
    }
  }

  lemma OutcomeStays(cfg: Config, s: State, s': State, x: Site)
    requires WF(cfg, s) && WF(cfg, s') && Extends(cfg, s, s') && OutcomeOK(cfg, s, x)
    ensures OutcomeOK(cfg, s', x)
  {
  }

  lemma ReceiveOutcome(cfg: Config, s: State, x: Site, m: Msg)
    requires WF(cfg, s) && OutcomeOK(cfg, s, x)
    ensures OutcomeOK(cfg, s, x.Receive(m))
  {
  }

  lemma StepOutcomes(cfg: Config, s: State, a: Action)
    requires Inv(cfg, s) && Enabled(cfg, s, a)
    ensures OutcomesOK(cfg, Step(cfg, s, a))
  {
    var s' := Step(cfg, s, a);
    StepExtends(cfg, s, a);
    forall h | h in cfg.Hosts() ensures OutcomeOK(cfg, s', s'.site[h]) {
      assert OutcomeOK(cfg, s, s.site[h]);
      OutcomeStays(cfg, s, s', s.site[h]);
      if a.Own? && a.host == h {
        OwnOutcome(cfg, s, h, a.op);
      } else if a.Deliver? && a.msg.dst == h {
        ReceiveOutcome(cfg, s', s.site[h], a.msg);
      }
    }
  }

  lemma MoveOutcome(cfg: Config, x: Site, op: Op)
    requires Ready(x, op) && LogOK(x)
    ensures var x' := Move(cfg, x, op);
      && (x'.main == Done(Abort, Told) ==>
            x.main == Done(Abort, Told) || (op.TakeDecision? && x.inbox[0].kind.AbortKind?))
      && (x'.repl.RDone? ==> x.repl.RDone? || x.written || (op.ReplTake? && x.replInbox[0].kind.CompletedKind?))
      && (x.written ==> x'.written)
  {
    if op.Main() {
      MainOutcome(cfg, x, op);
    } else {
      OtherMain(cfg, x, op);
    }
  }

  lemma MainOutcome(cfg: Config, x: Site, op: Op)
    requires op.Main() && Ready(x, op)
    ensures var x' := MainMove(cfg, x, op);
      && (x'.main == Done(Abort, Told) ==>
            x.main == Done(Abort, Told) || (op.TakeDecision? && x.inbox[0].kind.AbortKind?))
      && x'.repl == x.repl && x'.written == x.written
  {
  }

  lemma OwnOutcome(cfg: Config, s: State, h: Host, op: Op)
    requires Inv(cfg, s) && Enabled(cfg, s, Own(h, op))
    ensures var s' := Step(cfg, s, Own(h, op)); OutcomeOK(cfg, s', s'.site[h])
  {
    var x := s.site[h];
    StepExtends(cfg, s, Own(h, op));
    assert OutcomeOK(cfg, s, x) && SiteOK(cfg, h, x, s.counted);
    MoveOutcome(cfg, x, op);
    if op.TakeDecision? {
      assert MsgOK(cfg, s, x.inbox[0]) && x.inbox[0].dst == h;
    } else if op.ReplTake? {
      assert MsgOK(cfg, s, x.replInbox[0]);
    }
  }

  /** What the sender's own state says about a message it sends. */
  lemma MoveSent(cfg: Config, h: Host, x: Site, op: Op, m: Msg, counted: set<Host>)
    requires Ready(x, op) && SiteOK(cfg, h, x, counted) && m in Sent(cfg, h, x, op)
    ensures match m.kind
      case VoteReqKind => m.dst in cfg.Members()
      case VoteYesKind => m.src == h && m.dst == cfg.coordinator && h in cfg.Members() && x.saidYes
      case AbortKind =>
        m.dst == cfg.coordinator || (m.dst in cfg.Members() && h == cfg.coordinator && AbortMain(x.main))
      case CommitKind => m.dst in cfg.Members() && Effect(x)
      case WillKind => m.dst in cfg.Backups() && Effect(x)
      case OverrideKind => m.dst in cfg.Members() && Effect(x)
      case CompletedKind => m.dst in cfg.Backups() && h == cfg.coordinator && x.log == COMMIT
  {
    assert h == cfg.coordinator && x.fin.FTell? && x.fin.decision == Abort ==> AbortMain(x.main);
  }

  /** Whatever a step sends is justified by the state it leaves behind. */
  lemma SentOK(cfg: Config, s: State, h: Host, op: Op, m: Msg)
    requires Inv(cfg, s) && Enabled(cfg, s, Own(h, op)) && m in Sent(cfg, h, s.site[h], op)
    ensures MsgOK(cfg, Step(cfg, s, Own(h, op)), m)
  {
    var x := s.site[h];
    StepExtends(cfg, s, Own(h, op));
    assert SiteOK(cfg, h, x, s.counted);
    MoveSent(cfg, h, x, op, m, s.counted);
    if Effect(x) { BasisStays(cfg, s, Step(cfg, s, Own(h, op))); }
  }

  lemma StepNet(cfg: Config, s: State, a: Action)
    requires Inv(cfg, s) && Enabled(cfg, s, a)
    ensures NetOK(cfg, Step(cfg, s, a))
  {
    var s' := Step(cfg, s, a);
    StepExtends(cfg, s, a);
    forall m | m in s'.net ensures MsgOK(cfg, s', m) {
      if m in s.net { MsgStays(cfg, s, s', m); }
      else { SentOK(cfg, s, a.host, a.op, m); }
    }
  }

  lemma MoveInboxes(cfg: Config, x: Site, op: Op)
    requires Ready(x, op)
    ensures var x' := Move(cfg, x, op);
      && x'.inbox == (if op.TakeVote? || op.TakeDecision? then x.inbox[1..] else x.inbox)
      && x'.replInbox == (if op.ReplTake? then x.replInbox[1..] else x.replInbox)
  {
  }

  lemma QueueStays(cfg: Config, s: State, s': State, h: Host, x: Site)
    requires WF(cfg, s) && WF(cfg, s') && Extends(cfg, s, s') && QueueOK(cfg, s, h, x)
    ensures QueueOK(cfg, s', h, x)
  {
    forall m | m in x.inbox || m in x.replInbox ensures MsgOK(cfg, s', m) {
      MsgStays(cfg, s, s', m);
    }
  }

  lemma ReceiveQueue(cfg: Config, s: State, x: Site, m: Msg)
    requires WF(cfg, s) && QueueOK(cfg, s, m.dst, x) && MsgOK(cfg, s, m)
    ensures QueueOK(cfg, s, m.dst, x.Receive(m))
  {
  }

  lemma StepInboxes(cfg: Config, s: State, a: Action)
    requires Inv(cfg, s) && Enabled(cfg, s, a)
    ensures InboxesOK(cfg, Step(cfg, s, a))
  {
    var s' := Step(cfg, s, a);
    StepExtends(cfg, s, a);
    forall h | h in cfg.Hosts() ensures QueueOK(cfg, s', h, s'.site[h]) {
      QueueStays(cfg, s, s', h, s.site[h]);
      if a.Own? && a.host == h {
        MoveInboxes(cfg, s.site[h], a.op);
      } else if a.Deliver? && a.msg.dst == h {
        MsgStays(cfg, s, s', a.msg);
        ReceiveQueue(cfg, s', s.site[h], a.msg);
      }
    }
  }

  /** What a handler's step means for the yes-vote of `p`, seen locally. */
  lemma MoveVote(cfg: Config, h: Host, x: Site, op: Op, p: Host)
    requires Ready(x, op) && (h in cfg.Members() ==> MemberOK(x))
    ensures var x' := Move(cfg, x, op); var says := op.SayVote? && x.main.SayYes?;
      && Sent(cfg, h, x, op)[Msg(VoteYesKind, p, cfg.coordinator)] == (if says && h == p then 1 else 0)
      && (h in cfg.Members() ==> SentYes(x') == (SentYes(x) || says))
      && (says ==> !SentYes(x))
  {
  }

  lemma StepVoteTaken(cfg: Config, s: State, p: Host)
    requires Inv(cfg, s) && Enabled(cfg, s, Own(cfg.coordinator, TakeVote)) && p in cfg.Members()
    ensures VoteOK(cfg, Step(cfg, s, Own(cfg.coordinator, TakeVote)), p)
  {
    var x := s.site[cfg.coordinator];
    assert VoteOK(cfg, s, p);
    MoveInboxes(cfg, x, TakeVote);
    assert x.inbox == [x.inbox[0]] + x.inbox[1..];
    assert QueueOK(cfg, s, cfg.coordinator, x);
    assert MsgOK(cfg, s, x.inbox[0]);
  }

  /** A step of the handler at `h` only takes requests out of its queue. */
  lemma MoveShrinks(cfg: Config, x: Site, op: Op, v: Msg)
    requires Ready(x, op)
    ensures multiset(Move(cfg, x, op).inbox)[v] <= multiset(x.inbox)[v]
  {
    MoveInboxes(cfg, x, op);
    if op.TakeVote? || op.TakeDecision? {
      assert x.inbox == [x.inbox[0]] + x.inbox[1..];
    }
  }

  lemma StepVote(cfg: Config, s: State, h: Host, op: Op, p: Host)
    requires WF(cfg, s) && Enabled(cfg, s, Own(h, op)) && p in cfg.Members() && !op.TakeVote?
    requires VoteOK(cfg, s, p) && (h in cfg.Members() ==> MemberOK(s.site[h]))
    ensures VoteOK(cfg, Step(cfg, s, Own(h, op)), p)
  {
    MoveVote(cfg, h, s.site[h], op, p);
    MoveShrinks(cfg, s.site[h], op, Msg(VoteYesKind, p, cfg.coordinator));
  }

  lemma ReceiveVote(x: Site, m: Msg, v: Msg)
    ensures SentYes(x.Receive(m)) == SentYes(x)
    ensures multiset(x.Receive(m).inbox)[v] <= multiset(x.inbox)[v] + (if m == v then 1 else 0)
  {
  }

  lemma StepVoteOther(cfg: Config, s: State, a: Action, p: Host)
    requires WF(cfg, s) && p in cfg.Members() && VoteOK(cfg, s, p) && Enabled(cfg, s, a) && !a.Own?
    ensures VoteOK(cfg, Step(cfg, s, a), p)
  {
    if a.Deliver? { ReceiveVote(s.site[a.msg.dst], a.msg, Msg(VoteYesKind, p, cfg.coordinator)); }
  }

  lemma StepCounted(cfg: Config, s: State, a: Action)
    requires Inv(cfg, s) && Enabled(cfg, s, a)
    ensures Step(cfg, s, a).counted <= cfg.Members()
  {
    if a.Own? && a.op.TakeVote? && s.site[a.host].inbox[0].kind.VoteYesKind? {
      CoordinatorCollects(cfg, s, a.host);
      NextVote(cfg, s);
    }
  }

  lemma StepVotes(cfg: Config, s: State, a: Action)
    requires Inv(cfg, s) && Enabled(cfg, s, a)
    ensures VotesOK(cfg, Step(cfg, s, a))
  {
    StepCounted(cfg, s, a);
    forall p | p in cfg.Members() ensures VoteOK(cfg, Step(cfg, s, a), p) {
      assert VoteOK(cfg, s, p);
      if !a.Own? {
        StepVoteOther(cfg, s, a, p);
      } else if a.op.TakeVote? {
        CoordinatorCollects(cfg, s, a.host);
        StepVoteTaken(cfg, s, p);
      } else {
        assert SiteOK(cfg, a.host, s.site[a.host], s.counted);
        StepVote(cfg, s, a.host, a.op, p);
      }
    }
  }

  lemma OtherMain(cfg: Config, x: Site, op: Op)
    requires !op.Main() && Ready(x, op)
    ensures Move(cfg, x, op).main == x.main
  {
  }

  lemma MoveAck(cfg: Config, x: Site, op: Op)
    requires Ready(x, op)
    ensures var m, m' := x.main, Move(cfg, x, op).main;
      CommitMain(m') && !m'.SendWill? && !op.TakeDecision? && !op.DoRead? ==>
        || m' == AwaitWill(cfg.Backups())
        || (op.Resolve? && m.AwaitWill? && m' == AwaitWill(m.waiting - {op.to}))
        || (op.FinishWill? && m == AwaitWill({}))
        || (CommitMain(m) && !m.SendWill? && !m.AwaitWill?)
        || m == m'
  {
    if !op.Main() { OtherMain(cfg, x, op); }
  }

  lemma StepAcks(cfg: Config, s: State, a: Action)
    requires Inv(cfg, s) && Enabled(cfg, s, a)
    ensures AcksOK(cfg, Step(cfg, s, a))
  {
    var c := cfg.coordinator;
    StepExtends(cfg, s, a);
    assert SiteOK(cfg, c, s.site[c], s.counted);
    if a.Own? && a.host == c {
      OwnAcks(cfg, s, a.op);
    } else {
      assert Step(cfg, s, a).site[c].main == s.site[c].main;
      AcksStay(cfg, s, Step(cfg, s, a));
    }
  }

  lemma AcksStay(cfg: Config, s: State, s': State)
    requires WF(cfg, s) && WF(cfg, s') && AcksOK(cfg, s) && Extends(cfg, s, s')
    requires s'.site[cfg.coordinator].main == s.site[cfg.coordinator].main
    ensures AcksOK(cfg, s')
  {
  }

  lemma OwnAcks(cfg: Config, s: State, op: Op)
    requires WF(cfg, s) && AcksOK(cfg, s) && Enabled(cfg, s, Own(cfg.coordinator, op))
    requires CoordinatorOK(cfg, s.site[cfg.coordinator], s.counted)
    requires Extends(cfg, s, Step(cfg, s, Own(cfg.coordinator, op)))
    ensures AcksOK(cfg, Step(cfg, s, Own(cfg.coordinator, op)))
  {
    var c := cfg.coordinator;
    MoveAck(cfg, s.site[c], op);
  }

  lemma StepInv(cfg: Config, s: State, a: Action)
    requires Inv(cfg, s) && Enabled(cfg, s, a)
    ensures Inv(cfg, Step(cfg, s, a))
  {
    StepSites(cfg, s, a);
    StepEffects(cfg, s, a);
    StepOutcomes(cfg, s, a);
    StepNet(cfg, s, a);
    StepInboxes(cfg, s, a);
    StepVotes(cfg, s, a);
    StepAcks(cfg, s, a);
  }

  /** The invariant holds in every reachable state. */
  lemma {:induction false} ExecInv(cfg: Config, schedule: seq<Action>)
    requires cfg.Valid()
    ensures Inv(cfg, Exec(cfg, schedule))
  {
    if schedule == [] {
      InitInv(cfg);
    } else {
      var front, a := schedule[..|schedule| - 1], schedule[|schedule| - 1];
      ExecInv(cfg, front);
      if Enabled(cfg, Exec(cfg, front), a) { StepInv(cfg, Exec(cfg, front), a); }
    }
  }
}
