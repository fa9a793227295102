/** Cornus 1 never brings a vote request to a host that has a handler for the transaction. */
module PaperOneHandler {
  import opened Domain
  import opened PaperProtocol
  import opened PaperInvariant

  function Request(cfg: Config, p: Host): Msg {
    Msg(VoteReqKind, cfg.coordinator, p)
  }

  function ToAsk(pc: PC, p: Host): nat {
    if pc.SendReqs? && p in pc.pending then 1 else 0
  }

  function Started(x: Site): nat {
    if x.pc.Idle? then 0 else 1
  }

  /** The vote request for `p` is still to be sent, or under way, or it has started the handler. */
  ghost function Asked(cfg: Config, s: State, p: Host): nat
    requires WF(cfg, s) && p in cfg.Members()
  {
    ToAsk(s.site[cfg.coordinator].pc, p) + s.net[Request(cfg, p)] + Started(s.site[p])
  }

  ghost predicate AskedOnce(cfg: Config, s: State)
    requires WF(cfg, s)
  {
    forall p :: p in cfg.Members() ==> Asked(cfg, s, p) <= 1 && (s.site[p].pc.Idle? ==> s.site[p].inbox == [])
  }

  lemma MoveAsks(cfg: Config, h: Host, x: Site, op: Op, resp: Word, p: Host)
    requires Ready(cfg, x, op) && (x.pc.SendReqs? ==> h == cfg.coordinator)
    ensures Sent(cfg, h, x, op)[Request(cfg, p)] + ToAsk(Move(cfg, h, x, op, resp).pc, p) <= ToAsk(x.pc, p)
    ensures !x.pc.Idle? && !Move(cfg, h, x, op, resp).pc.Idle?
  {
  }

  lemma OwnAsks(cfg: Config, s: State, h: Host, op: Op, p: Host)
    requires Inv(cfg, s) && Enabled(cfg, s, Own(h, op)) && p in cfg.Members()
    ensures Asked(cfg, Step(cfg, s, Own(h, op)), p) <= Asked(cfg, s, p)
    ensures var x, x' := s.site[p], Step(cfg, s, Own(h, op)).site[p]; x'.pc.Idle? ==> x.pc.Idle? && x'.inbox == x.inbox
  {
    var x := s.site[h];
    assert h in cfg.Members() ==> MemberOK(x);
    if op.TermOnce? {
      var t := Target(cfg, x);
      var y := s.site[t].LogOnce(ABORT);
      MoveAsks(cfg, h, if t == h then y else x, op, y.log, p);
    } else {
      MoveAsks(cfg, h, x, op, WORKING, p);
    }
  }

  lemma OtherAsks(cfg: Config, s: State, a: Action, p: Host)
    requires Inv(cfg, s) && Enabled(cfg, s, a) && !a.Own? && p in cfg.Members() && Asked(cfg, s, p) <= 1
    ensures Asked(cfg, Step(cfg, s, a), p) <= 1
    ensures var x, x' := s.site[p], Step(cfg, s, a).site[p]; x'.pc.Idle? ==> x.pc.Idle? && x'.inbox == x.inbox
  {
    assert CoordinatorOK(cfg, s.site[cfg.coordinator].pc, s.counted);
    if a.Deliver? { assert MsgOK(cfg, s, a.msg); }
  }

  lemma {:induction false} ExecAskedOnce(cfg: Config, schedule: seq<Action>)
    requires cfg.Valid()
    ensures AskedOnce(cfg, Exec(cfg, schedule))
  {
    if schedule != [] {
      var front, a := schedule[..|schedule| - 1], schedule[|schedule| - 1];
      ExecAskedOnce(cfg, front);
      ExecInv(cfg, front);
      var s := Exec(cfg, front);
      if Enabled(cfg, s, a) {
        forall p | p in cfg.Members()
          ensures Asked(cfg, Step(cfg, s, a), p) <= 1
          ensures Step(cfg, s, a).site[p].pc.Idle? ==> Step(cfg, s, a).site[p].inbox == []
        {
          if a.Own? { OwnAsks(cfg, s, a.host, a.op, p); } else { OtherAsks(cfg, s, a, p); }
        }
      }
    }
  }

  /** In every run, a vote request that arrives finds a host without handler, and no host is asked twice;
      a handler that is still to be started has an empty queue. */
  lemma AtMostOneHandler(cfg: Config, schedule: seq<Action>, m: Msg)
    requires cfg.Valid() && Enabled(cfg, Exec(cfg, schedule), Deliver(m))
    ensures var x := Exec(cfg, schedule).site[m.dst];
      (m.kind.VoteReqKind? ==> x.pc.Idle?) && (x.pc.Idle? ==> x.inbox == [])
  {
    ExecAskedOnce(cfg, schedule);
    ExecInv(cfg, schedule);
    var s := Exec(cfg, schedule);
    assert MsgOK(cfg, s, m);
    assert CoordinatorOK(cfg, s.site[cfg.coordinator].pc, s.counted);
    if m.dst in cfg.Members() { assert Asked(cfg, s, m.dst) <= 1; }
  }
}

/** Nor does Cornus 2; and it starts each replicator at most once. */
module NewOneHandler {
  import opened Domain
  import opened NewProtocol
  import opened NewInvariant
  import opened NewTheorems

  function Request(cfg: Config, p: Host): Msg {
    Msg(VoteReqKind, cfg.coordinator, p)
  }

  function Notice(cfg: Config, r: Host): Msg {
    Msg(WillKind, cfg.coordinator, r)
  }

  function ToAsk(m: MainPC, p: Host): nat {
    if m.SendReqs? && p in m.pending then 1 else 0
  }

  function ToNotify(m: MainPC, r: Host): nat {
    if m.SendWill? && r in m.pending then 1 else 0
  }

  ghost function Asked(cfg: Config, s: State, p: Host): nat
    requires WF(cfg, s) && p in cfg.Hosts()
  {
    ToAsk(s.site[cfg.coordinator].main, p) + s.net[Request(cfg, p)] + (if s.site[p].main.Idle? then 0 else 1)
  }

  ghost function Notified(cfg: Config, s: State, r: Host): nat
    requires WF(cfg, s) && r in cfg.Hosts()
  {
    ToNotify(s.site[cfg.coordinator].main, r) + s.net[Notice(cfg, r)] + (if s.site[r].repl.RIdle? then 0 else 1)
  }

  /** Handlers that are not yet in their map have an empty queue. */
  predicate Untouched(x: Site) {
    (x.main.Idle? ==> x.inbox == []) && (x.repl.RIdle? || x.repl.RLaunched? ==> x.replInbox == [])
  }

  ghost predicate HostOnce(cfg: Config, s: State, h: Host)
    requires WF(cfg, s) && h in cfg.Hosts()
  {
    && Untouched(s.site[h])
    && (h in cfg.Members() ==> Asked(cfg, s, h) <= 1)
    && (h in cfg.Backups() ==> Notified(cfg, s, h) <= 1)
  }

  ghost predicate Once(cfg: Config, s: State)
    requires WF(cfg, s)
  {
    && (forall m :: m in s.net && (m.kind.VoteReqKind? || m.kind.WillKind?) ==> m.src == cfg.coordinator)
    && (forall h :: h in cfg.Hosts() ==> HostOnce(cfg, s, h))
  }

  lemma MoveUntouched(cfg: Config, x: Site, op: Op)
    requires Ready(x, op) && Untouched(x)
    ensures Untouched(Move(cfg, x, op))
  {
    if op.Main() { MainUntouched(cfg, x, op); }
  }

  lemma MainUntouched(cfg: Config, x: Site, op: Op)
    requires op.Main() && Ready(x, op)
    ensures var x' := MainMove(cfg, x, op);
      !x.main.Idle? && !x'.main.Idle? && x'.repl == x.repl && x'.replInbox == x.replInbox
  {
  }

  lemma ReceiveUntouched(x: Site, m: Msg)
    requires Untouched(x)
    ensures Untouched(x.Receive(m))
  {
  }

  /** Only the coordinator's main handler sends vote requests and WILLCOMMIT, each once. */
  lemma SentAsks(cfg: Config, h: Host, x: Site, op: Op, p: Host)
    requires Ready(x, op) && (x.main.SendReqs? || x.main.SendWill? ==> h == cfg.coordinator)
    ensures (op.SendReq? && h == cfg.coordinator && op.to == p) || Sent(cfg, h, x, op)[Request(cfg, p)] == 0
    ensures (op.SendWillTo? && h == cfg.coordinator && op.to == p) || Sent(cfg, h, x, op)[Notice(cfg, p)] == 0
    ensures Sent(cfg, h, x, op)[Request(cfg, p)] <= 1 && Sent(cfg, h, x, op)[Notice(cfg, p)] <= 1
    ensures forall m :: m in Sent(cfg, h, x, op) && (m.kind.VoteReqKind? || m.kind.WillKind?) ==>
      m.src == cfg.coordinator
  {
  }

  lemma MoveAsks(cfg: Config, x: Site, op: Op, p: Host)
    requires Ready(x, op)
    ensures ToAsk(Move(cfg, x, op).main, p) + (if op.SendReq? && op.to == p then 1 else 0) <= ToAsk(x.main, p)
  {
    if op.Main() { MainAsks(cfg, x, op, p); } else { OtherMain(cfg, x, op); }
  }

  lemma MainAsks(cfg: Config, x: Site, op: Op, p: Host)
    requires op.Main() && Ready(x, op)
    ensures ToAsk(MainMove(cfg, x, op).main, p) + (if op.SendReq? && op.to == p then 1 else 0) <= ToAsk(x.main, p)
  {
  }

  /** The coordinator turns to the replicators once, when it has counted all votes. */
  lemma MoveNotifies(cfg: Config, x: Site, op: Op, r: Host)
    requires Ready(x, op)
    ensures var now := if op.SendWillTo? && op.to == r then 1 else 0; var x' := Move(cfg, x, op);
      ToNotify(x'.main, r) + now <= ToNotify(x.main, r) || (x.main.Collect? && now == 0 && ToNotify(x'.main, r) <= 1)
  {
    if op.Main() { MainNotifies(cfg, x, op, r); } else { OtherMain(cfg, x, op); }
  }

  lemma MainNotifies(cfg: Config, x: Site, op: Op, r: Host)
    requires op.Main() && Ready(x, op)
    ensures var now := if op.SendWillTo? && op.to == r then 1 else 0; var x' := MainMove(cfg, x, op);
      ToNotify(x'.main, r) + now <= ToNotify(x.main, r) || (x.main.Collect? && now == 0 && ToNotify(x'.main, r) <= 1)
  {
  }

  lemma MoveStarts(cfg: Config, x: Site, op: Op)
    requires Ready(x, op)
    ensures var x' := Move(cfg, x, op); (x'.main.Idle? <==> x.main.Idle?) && (x'.repl.RIdle? <==> x.repl.RIdle?)
  {
    if op.Main() { MainUntouched(cfg, x, op); } else { OtherMain(cfg, x, op); }
  }

  lemma NoticesMeanCommit(cfg: Config, s: State)
    requires Inv(cfg, s)
    ensures forall m :: m in s.net && m.kind.WillKind? ==> CommitMain(s.site[cfg.coordinator].main)
  {
    forall m | m in s.net && m.kind.WillKind? ensures CommitMain(s.site[cfg.coordinator].main) {
      assert MsgOK(cfg, s, m);
    }
  }

  /** While votes are collected nobody has been told to commit. */
  lemma NoneNotified(cfg: Config, s: State, r: Host)
    requires WF(cfg, s) && Inv(cfg, s) && r in cfg.Hosts() && s.site[cfg.coordinator].main.Collect?
    ensures Notified(cfg, s, r) == 0
  {
    NoticesMeanCommit(cfg, s);
    assert Notice(cfg, r) !in s.net && !Effect(s.site[r]);
  }

  lemma SendersAreCoordinators(cfg: Config, s: State, h: Host)
    requires WF(cfg, s) && Inv(cfg, s) && h in cfg.Hosts() && (s.site[h].main.SendReqs? || s.site[h].main.SendWill?)
    ensures h == cfg.coordinator
  {
    assert SiteOK(cfg, h, s.site[h], s.counted);
  }

  lemma OwnAsks(cfg: Config, s: State, h: Host, op: Op, p: Host)
    requires WF(cfg, s) && Inv(cfg, s) && Enabled(cfg, s, Own(h, op)) && p in cfg.Hosts()
    ensures Asked(cfg, Step(cfg, s, Own(h, op)), p) <= Asked(cfg, s, p)
  {
    hide Inv, Move, Ready, Sent;
    assert Ready(s.site[h], op);
    Sender(cfg, s, h);
    SentAsks(cfg, h, s.site[h], op, p);
    MoveAsks(cfg, s.site[h], op, p);
    MoveStarts(cfg, s.site[h], op);
  }

  lemma Sender(cfg: Config, s: State, h: Host)
    requires WF(cfg, s) && Inv(cfg, s) && h in cfg.Hosts()
    ensures s.site[h].main.SendReqs? || s.site[h].main.SendWill? ==> h == cfg.coordinator
  {
    if s.site[h].main.SendReqs? || s.site[h].main.SendWill? { SendersAreCoordinators(cfg, s, h); }
  }

  lemma OwnNotifies(cfg: Config, s: State, h: Host, op: Op, r: Host)
    requires WF(cfg, s) && Inv(cfg, s) && Enabled(cfg, s, Own(h, op)) && r in cfg.Hosts() && Notified(cfg, s, r) <= 1
    ensures Notified(cfg, Step(cfg, s, Own(h, op)), r) <= 1
  {
    hide Inv, Move, Ready, Sent;
    assert Ready(s.site[h], op);
    Sender(cfg, s, h);
    SentAsks(cfg, h, s.site[h], op, r);
    MoveNotifies(cfg, s.site[h], op, r);
    MoveStarts(cfg, s.site[h], op);
    if s.site[cfg.coordinator].main.Collect? { NoneNotified(cfg, s, r); }
  }

  lemma ReceiveAsks(x: Site, m: Msg)
    ensures x.Receive(m).main != x.main ==> x.main.Idle? && m.kind.VoteReqKind?
    ensures x.Receive(m).repl != x.repl ==> x.repl.RIdle? && m.kind.WillKind?
  {
  }

  lemma OtherAsks(cfg: Config, s: State, a: Action, p: Host)
    requires WF(cfg, s) && Inv(cfg, s) && Once(cfg, s) && Enabled(cfg, s, a) && !a.Own? && p in cfg.Hosts()
    ensures p in cfg.Members() ==> Asked(cfg, Step(cfg, s, a), p) <= 1
    ensures p in cfg.Backups() ==> Notified(cfg, Step(cfg, s, a), p) <= 1
  {
    hide Inv, Untouched;
    assert HostOnce(cfg, s, p);
    CoordinatorStarted(cfg, s);
    if a.Deliver? { ReceiveAsks(s.site[a.msg.dst], a.msg); }
  }

  lemma CoordinatorStarted(cfg: Config, s: State)
    requires Inv(cfg, s)
    ensures !s.site[cfg.coordinator].main.Idle?
  {
    assert SiteOK(cfg, cfg.coordinator, s.site[cfg.coordinator], s.counted);
  }

  lemma StepHost(cfg: Config, s: State, a: Action, h: Host)
    requires WF(cfg, s) && Inv(cfg, s) && Once(cfg, s) && Enabled(cfg, s, a) && h in cfg.Hosts()
    ensures HostOnce(cfg, Step(cfg, s, a), h)
  {
    hide Inv, Asked, Notified, Untouched;
    assert HostOnce(cfg, s, h);
    if a.Own? {
      OwnAsks(cfg, s, a.host, a.op, h);
      if h in cfg.Backups() { OwnNotifies(cfg, s, a.host, a.op, h); }
      if a.host == h { MoveUntouched(cfg, s.site[h], a.op); }
    } else {
      OtherAsks(cfg, s, a, h);
      if a.Deliver? && a.msg.dst == h {
        ReceiveUntouched(s.site[h], a.msg);
      } else {
        Bystander(cfg, s, a, h);
      }
    }
  }

  lemma Bystander(cfg: Config, s: State, a: Action, h: Host)
    requires WF(cfg, s) && Enabled(cfg, s, a) && !a.Own? && !(a.Deliver? && a.msg.dst == h)
    requires h in cfg.Hosts() && Untouched(s.site[h])
    ensures Untouched(Step(cfg, s, a).site[h])
  {
  }

  lemma StepNetOnce(cfg: Config, s: State, a: Action, m: Msg)
    requires WF(cfg, s) && Inv(cfg, s) && Once(cfg, s) && Enabled(cfg, s, a)
    requires m in Step(cfg, s, a).net && (m.kind.VoteReqKind? || m.kind.WillKind?)
    ensures m.src == cfg.coordinator
  {
    hide Inv, HostOnce, Move, Ready;
    if a.Own? && m !in s.net {
      assert Ready(s.site[a.host], a.op);
      Sender(cfg, s, a.host);
      SentAsks(cfg, a.host, s.site[a.host], a.op, m.dst);
    }
  }

  lemma InitOnce(cfg: Config)
    requires cfg.Valid()
    ensures Once(cfg, Init(cfg))
  {
  }

  lemma {:induction false} ExecOnce(cfg: Config, schedule: seq<Action>)
    requires cfg.Valid()
    ensures Once(cfg, Exec(cfg, schedule))
  {
    hide Inv, Step, Enabled, HostOnce;
    if schedule == [] {
      InitOnce(cfg);
    } else {
      var front, a := schedule[..|schedule| - 1], schedule[|schedule| - 1];
      ExecOnce(cfg, front);
      ExecInv(cfg, front);
      var s := Exec(cfg, front);
      if Enabled(cfg, s, a) {
        forall h | h in cfg.Hosts() ensures HostOnce(cfg, Step(cfg, s, a), h) { StepHost(cfg, s, a, h); }
        forall m | m in Step(cfg, s, a).net && (m.kind.VoteReqKind? || m.kind.WillKind?)
          ensures m.src == cfg.coordinator
        {
          StepNetOnce(cfg, s, a, m);
        }
      }
    }
  }

  /** In every run, a vote request or WILLCOMMIT that arrives finds a host without a handler of that role,
      and handlers that are not yet in their map have an empty queue. */
  lemma AtMostOneHandler(cfg: Config, schedule: seq<Action>, m: Msg)
    requires cfg.Valid() && Enabled(cfg, Exec(cfg, schedule), Deliver(m))
    ensures var x := Exec(cfg, schedule).site[m.dst];
      && (m.kind.VoteReqKind? ==> x.main.Idle?) && (m.kind.WillKind? ==> x.repl.RIdle?)
      && Untouched(x)
  {
    ExecOnce(cfg, schedule);
    ExecInv(cfg, schedule);
    var s := Exec(cfg, schedule);
    assert MsgOK(cfg, s, m) && HostOnce(cfg, s, m.dst);
  }
}
