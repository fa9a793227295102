/** The inductive invariant of Cornus 1 and its preservation, one conjunct at a time. */
module PaperInvariant {
  import opened Domain
  import opened PaperProtocol

  /** The participant's log first became VOTEYES. */
  predicate Yes(x: Site) {
    x.first == VOTEYES
  }

  /** The participant can never log VOTEYES any more. */
  predicate Doomed(x: Site) {
    x.saidNo || x.first == ABORT
  }

  ghost predicate AllYes(cfg: Config, s: State)
    requires WF(cfg, s)
  {
    forall p :: p in cfg.Members() ==> Yes(s.site[p])
  }

  ghost predicate SomeNo(cfg: Config, s: State)
    requires WF(cfg, s)
  {
    exists p :: p in cfg.Members() && Doomed(s.site[p])
  }

  /** The evidence that must exist before anyone may act on decision `d`. */
  ghost predicate Backed(cfg: Config, s: State, d: Decision)
    requires WF(cfg, s)
  {
    if d == Commit then AllYes(cfg, s) else SomeNo(cfg, s)
  }

  /** A participant's log, the first value of that log and its handler fit together. */
  predicate MemberOK(x: Site) {
    match x.pc
    case Idle | Vote | Claim => x.log == x.first && (x.first == WORKING || x.first == ABORT) && !x.saidNo
    case SayNo => x.log == x.first && (x.first == WORKING || x.first == ABORT) && Doomed(x)
    case SayYes | Wait | Term(_) | Write(_) => x.log == x.first == VOTEYES && !x.saidNo
    case Said(yes) =>
      if yes then x.log == x.first == VOTEYES && !x.saidNo
      else x.log == x.first && (x.first == WORKING || x.first == ABORT) && Doomed(x)
    case Done(d) =>
      if x.first == VOTEYES then x.log == d.AsWord() && !x.saidNo
      else x.log == x.first && (x.first == WORKING || x.first == ABORT) && d == Abort && Doomed(x)
    case _ => false
  }

  ghost predicate MembersOK(cfg: Config, s: State)
    requires WF(cfg, s)
  {
    forall p :: p in cfg.Members() ==> MemberOK(s.site[p])
  }

  /** The counter is the number of counted senders, and has not yet reached its target. */
  ghost predicate CoordinatorOK(cfg: Config, pc: PC, counted: set<Host>) {
    match pc
    case SendReqs(pending, waiting) => pending <= waiting <= cfg.Members() && counted == {}
    case Collect(votes) => votes == |counted| && (votes < |cfg.participants| || votes == 0)
    case Tell(_, pending, waiting) => pending <= waiting <= cfg.Members()
    case Term(_) | Done(_) => true
    case _ => false
  }

  /** What a handler holds as its decision, and what its termination loop has seen so far, is backed. */
  ghost predicate PcOK(cfg: Config, s: State, pc: PC)
    requires WF(cfg, s)
  {
    match pc
    case Tell(d, _, _) => Backed(cfg, s, d)
    case Write(d) => Backed(cfg, s, d)
    case Done(d) => Backed(cfg, s, d)
    case Term(i) =>
      i <= |cfg.participants| && forall p :: p in cfg.participants[..i] ==> Yes(s.site[p])
    case _ => true
  }

  ghost predicate PcsOK(cfg: Config, s: State)
    requires WF(cfg, s)
  {
    forall h :: h in cfg.Hosts() ==> PcOK(cfg, s, s.site[h].pc)
  }

  ghost predicate MsgOK(cfg: Config, s: State, m: Msg)
    requires WF(cfg, s)
  {
    match m.kind
    case VoteReqKind => m.src == cfg.coordinator && m.dst in cfg.Members()
    case VoteYesKind => m.src in cfg.Members() && m.dst == cfg.coordinator && Yes(s.site[m.src])
    case CommitKind => m.src == cfg.coordinator && m.dst in cfg.Members() && AllYes(cfg, s)
    case AbortKind => SomeNo(cfg, s)
  }

  ghost predicate NetOK(cfg: Config, s: State)
    requires WF(cfg, s)
  {
    forall m :: m in s.net ==> MsgOK(cfg, s, m)
  }

  ghost predicate InboxOK(cfg: Config, s: State, h: Host, inbox: seq<Msg>)
    requires WF(cfg, s)
  {
    forall m :: m in inbox ==> MsgOK(cfg, s, m) && m.dst == h && !m.kind.VoteReqKind?
  }

  ghost predicate InboxesOK(cfg: Config, s: State)
    requires WF(cfg, s)
  {
    forall h :: h in cfg.Hosts() ==> InboxOK(cfg, s, h, s.site[h].inbox)
  }

  /** Copies of the yes-vote of `p` that the coordinator may still count. */
  ghost function Copies(cfg: Config, s: State, p: Host): nat
    requires WF(cfg, s)
  {
    var m := Msg(VoteYesKind, p, cfg.coordinator);
    s.net[m] + multiset(s.site[cfg.coordinator].inbox)[m]
  }

  predicate SentYes(x: Site) {
    Yes(x) && !x.pc.SayYes?
  }

  /** Each participant's yes-vote exists at most once: in the network, in the queue, or counted;
      and not at all before the participant has sent it. */
  ghost predicate VoteOK(cfg: Config, s: State, p: Host)
    requires WF(cfg, s) && p in cfg.Members()
  {
    Copies(cfg, s, p) + (if p in s.counted then 1 else 0) <= (if SentYes(s.site[p]) then 1 else 0)
  }

  ghost predicate VotesOK(cfg: Config, s: State)
    requires WF(cfg, s)
  {
    && s.counted <= cfg.Members()
    && forall p :: p in cfg.Members() ==> VoteOK(cfg, s, p)
  }

  ghost predicate Inv(cfg: Config, s: State) {
    && cfg.Valid()
    && WF(cfg, s)
    && MembersOK(cfg, s)
    && CoordinatorOK(cfg, s.site[cfg.coordinator].pc, s.counted)
    && PcsOK(cfg, s)
    && NetOK(cfg, s)
    && InboxesOK(cfg, s)
    && VotesOK(cfg, s)
  }

  // ---------------------------------------------------------------------------------------
  // Evidence never disappears

  /** First log values and no-votes are never taken back. */
  predicate SiteExtends(x: Site, x': Site) {
    (x.saidNo ==> x'.saidNo) && (x.first != WORKING ==> x'.first == x.first)
  }

  ghost predicate Extends(cfg: Config, s: State, s': State)
    requires WF(cfg, s) && WF(cfg, s')
  {
    forall p :: p in cfg.Members() ==> SiteExtends(s.site[p], s'.site[p])
  }

  lemma EvidenceStays(cfg: Config, s: State, s': State, d: Decision)
    requires WF(cfg, s) && WF(cfg, s') && Extends(cfg, s, s') && Backed(cfg, s, d)
    ensures Backed(cfg, s', d)
  {
    if d == Abort {
      var p :| p in cfg.Members() && Doomed(s.site[p]);
      assert Doomed(s'.site[p]);
    }
  }

  lemma MsgStays(cfg: Config, s: State, s': State, m: Msg)
    requires WF(cfg, s) && WF(cfg, s') && Extends(cfg, s, s') && MsgOK(cfg, s, m)
    ensures MsgOK(cfg, s', m)
  {
    if m.kind.AbortKind? {
      EvidenceStays(cfg, s, s', Abort);
    }
  }

  lemma PcStays(cfg: Config, s: State, s': State, pc: PC)
    requires WF(cfg, s) && WF(cfg, s') && Extends(cfg, s, s') && PcOK(cfg, s, pc)
    ensures PcOK(cfg, s', pc)
  {
    match pc
    case Tell(d, _, _) => EvidenceStays(cfg, s, s', d);
    case Write(d) => EvidenceStays(cfg, s, s', d);
    case Done(d) => EvidenceStays(cfg, s, s', d);
    case _ =>
  }

  lemma MoveExtends(cfg: Config, h: Host, x: Site, op: Op, resp: Word)
    requires Ready(cfg, x, op) && (h != cfg.coordinator ==> MemberOK(x))
    ensures h != cfg.coordinator ==> SiteExtends(x, Move(cfg, h, x, op, resp))
  {
  }

  lemma TermExtends(cfg: Config, s: State, h: Host)
    requires cfg.Valid() && WF(cfg, s) && MembersOK(cfg, s) && Enabled(cfg, s, Own(h, TermOnce))
    ensures Extends(cfg, s, Step(cfg, s, Own(h, TermOnce)))
  {
    var x := s.site[h];
    var p := Target(cfg, x);
    var y := s.site[p].LogOnce(ABORT);
    assert SiteExtends(s.site[p], y) && MemberOK(y);
    MoveExtends(cfg, h, if p == h then y else x, TermOnce, y.log);
  }

  lemma StepExtends(cfg: Config, s: State, a: Action)
    requires cfg.Valid() && WF(cfg, s) && MembersOK(cfg, s) && Enabled(cfg, s, a)
    ensures Extends(cfg, s, Step(cfg, s, a))
  {
    if a.Own? && a.op.TermOnce? {
      TermExtends(cfg, s, a.host);
    } else if a.Own? {
      MoveExtends(cfg, a.host, s.site[a.host], a.op, WORKING);
    }
  }

  // ---------------------------------------------------------------------------------------
  // Preservation

  lemma InitInv(cfg: Config)
    requires cfg.Valid()
    ensures Inv(cfg, Init(cfg))
  {
  }

  lemma MoveMember(cfg: Config, h: Host, x: Site, op: Op, resp: Word)
    requires Ready(cfg, x, op) && h != cfg.coordinator && MemberOK(x)
    requires op.TakeDecision? ==> !Obey(x.inbox[0].kind).Failed?
    requires op.TermOnce? ==> resp != WORKING
    ensures MemberOK(Move(cfg, h, x, op, resp))
  {
  }

  lemma TermMembers(cfg: Config, s: State, h: Host)
    requires cfg.Valid() && WF(cfg, s) && MembersOK(cfg, s) && Enabled(cfg, s, Own(h, TermOnce))
    ensures MembersOK(cfg, Step(cfg, s, Own(h, TermOnce)))
  {
    var x := s.site[h];
    var y := s.site[Target(cfg, x)].LogOnce(ABORT);
    assert MemberOK(y);
    if h != cfg.coordinator {
      MoveMember(cfg, h, if Target(cfg, x) == h then y else x, TermOnce, y.log);
    }
  }

  lemma StepMembers(cfg: Config, s: State, a: Action)
    requires cfg.Valid() && WF(cfg, s) && MembersOK(cfg, s) && InboxesOK(cfg, s) && Enabled(cfg, s, a)
    ensures MembersOK(cfg, Step(cfg, s, a))
  {
    if a.Own? {
      var x := s.site[a.host];
      if a.op.TermOnce? {
        TermMembers(cfg, s, a.host);
      } else if a.host != cfg.coordinator {
        assert a.op.TakeDecision? ==> MsgOK(cfg, s, x.inbox[0]);
        MoveMember(cfg, a.host, x, a.op, WORKING);
      }
    }
  }

  /** The local step of a handler keeps what it holds backed by the state it acts on. */
  lemma MovePc(cfg: Config, s: State, h: Host, x: Site, op: Op, resp: Word)
    requires WF(cfg, s) && Ready(cfg, x, op) && PcOK(cfg, s, x.pc)
    requires op.TakeVote? || op.TakeDecision? ==> MsgOK(cfg, s, x.inbox[0])
    requires op.TakeVote? && x.inbox[0].kind.VoteYesKind? && x.pc.votes + 1 == |cfg.participants| ==> AllYes(cfg, s)
    requires op.VoteCallEnds? && !x.pc.yes ==> SomeNo(cfg, s)
    requires op.TermOnce? ==> TermAnswerOK(cfg, s, Target(cfg, x), resp)
    ensures PcOK(cfg, s, Move(cfg, h, x, op, resp).pc)
  {
  }

  /** What an answer of the log of `p` proves. */
  ghost predicate TermAnswerOK(cfg: Config, s: State, p: Host, resp: Word)
    requires WF(cfg, s)
  {
    match resp
    case WORKING => false
    case VOTEYES => p in cfg.Members() && Yes(s.site[p])
    case COMMIT => AllYes(cfg, s)
    case ABORT => SomeNo(cfg, s)
  }

  /** An answer to LOG_ONCE("ABORT"), taken when the log at `p` holds `y`, proves what it says. */
  lemma TermAnswer(cfg: Config, s: State, p: Host)
    requires Inv(cfg, s) && p in cfg.Members()
    ensures var y := s.site[p].LogOnce(ABORT);
      y.log != WORKING && TermAnswerOK(cfg, s.Set(p, y), p, y.log)
  {
    var y := s.site[p].LogOnce(ABORT);
    var s' := s.Set(p, y);
    assert MemberOK(s.site[p]) && PcOK(cfg, s, s.site[p].pc);
    assert Extends(cfg, s, s');
    if y.log == ABORT && !Doomed(y) {
      EvidenceStays(cfg, s, s', Abort);
    } else if y.log == ABORT {
      assert Doomed(s'.site[p]);
    }
  }

  /** The yes-vote at the head of the queue is a new one; when it completes the count, the senders
      are exactly the participants and each of their logs first became VOTEYES. */
  lemma NextVote(cfg: Config, s: State)
    requires Inv(cfg, s)
    requires var x := s.site[cfg.coordinator]; x.pc.Collect? && x.inbox != [] && x.inbox[0].kind.VoteYesKind?
    ensures var x := s.site[cfg.coordinator]; var p := x.inbox[0].src;
      && p in cfg.Members() && p !in s.counted
      && |s.counted + {p}| == x.pc.votes + 1 <= |cfg.participants|
      && (x.pc.votes + 1 == |cfg.participants| ==> s.counted + {p} == cfg.Members() && AllYes(cfg, s))
  {
    var x := s.site[cfg.coordinator];
    var m := x.inbox[0];
    assert MsgOK(cfg, s, m) && m == Msg(VoteYesKind, m.src, cfg.coordinator);
    assert m in multiset(x.inbox);
    assert VoteOK(cfg, s, m.src);
    DistinctSize(cfg.participants);
    SubsetSize(s.counted + {m.src}, cfg.Members());
    if x.pc.votes + 1 == |cfg.participants| {
      Pigeonhole(s.counted + {m.src}, cfg.Members());
      forall p | p in cfg.Members() ensures Yes(s.site[p]) {
        assert VoteOK(cfg, s, p);
      }
    }
  }

  lemma MoveCoordinator(cfg: Config, x: Site, op: Op, resp: Word, counted: set<Host>)
    requires Ready(cfg, x, op) && CoordinatorOK(cfg, x.pc, counted)
    requires op.TermOnce? ==> resp != WORKING
    requires op.TakeVote? && x.inbox[0].kind.VoteYesKind? ==>
      x.inbox[0].src !in counted && x.pc.votes + 1 <= |cfg.participants|
    ensures CoordinatorOK(cfg, Move(cfg, cfg.coordinator, x, op, resp).pc, Counted(cfg, x, op, counted))
  {
  }

  lemma OwnCoordinator(cfg: Config, s: State, op: Op)
    requires Inv(cfg, s) && Enabled(cfg, s, Own(cfg.coordinator, op))
    ensures var s' := Step(cfg, s, Own(cfg.coordinator, op));
      CoordinatorOK(cfg, s'.site[cfg.coordinator].pc, s'.counted)
  {
    var x := s.site[cfg.coordinator];
    if op.TermOnce? {
      TermAnswer(cfg, s, Target(cfg, x));
      MoveCoordinator(cfg, x, op, s.site[Target(cfg, x)].LogOnce(ABORT).log, s.counted);
    } else {
      if op.TakeVote? && x.inbox[0].kind.VoteYesKind? { NextVote(cfg, s); }
      MoveCoordinator(cfg, x, op, WORKING, s.counted);
    }
  }

  lemma StepCoordinator(cfg: Config, s: State, a: Action)
    requires Inv(cfg, s) && Enabled(cfg, s, a)
    ensures var s' := Step(cfg, s, a); CoordinatorOK(cfg, s'.site[cfg.coordinator].pc, s'.counted)
  {
    if a.Own? && a.host == cfg.coordinator {
      OwnCoordinator(cfg, s, a.op);
    } else if a.Own? {
      assert MemberOK(s.site[a.host]);
    }
  }

  lemma StepPcs(cfg: Config, s: State, a: Action)
    requires Inv(cfg, s) && Enabled(cfg, s, a)
    ensures PcsOK(cfg, Step(cfg, s, a))
  {
    var s' := Step(cfg, s, a);
    StepExtends(cfg, s, a);
    if a.Own? {
      OwnPc(cfg, s, a.host, a.op);
    }
    forall h | h in cfg.Hosts() ensures PcOK(cfg, s', s'.site[h].pc) {
      PcStays(cfg, s, s', s.site[h].pc);
    }
  }

  lemma OwnPc(cfg: Config, s: State, h: Host, op: Op)
    requires Inv(cfg, s) && Enabled(cfg, s, Own(h, op))
    ensures var s' := Step(cfg, s, Own(h, op)); PcOK(cfg, s', s'.site[h].pc)
  {
    var x := s.site[h];
    var s' := Step(cfg, s, Own(h, op));
    StepExtends(cfg, s, Own(h, op));
    PcStays(cfg, s, s', x.pc);
    if op.TermOnce? {
      TermAnswerStays(cfg, s, h);
      var p := Target(cfg, x);
      var y := s.site[p].LogOnce(ABORT);
      MovePc(cfg, s', h, if p == h then y else x, op, y.log);
    } else {
      if op.TakeVote? || op.TakeDecision? {
        MsgStays(cfg, s, s', x.inbox[0]);
      }
      if op.TakeVote? && x.inbox[0].kind.VoteYesKind? {
        CoordinatorCollects(cfg, s, h);
        NextVote(cfg, s);
      }
      if op.VoteCallEnds? {
        assert MemberOK(x);
        assert !x.pc.yes ==> Doomed(s'.site[h]);
      }
      MovePc(cfg, s', h, x, op, WORKING);
    }
  }

  lemma CoordinatorCollects(cfg: Config, s: State, h: Host)
    requires Inv(cfg, s) && h in cfg.Hosts() && s.site[h].pc.Collect?
    ensures h == cfg.coordinator
  {
    assert h in cfg.Members() ==> MemberOK(s.site[h]);
  }

  lemma TermAnswerStays(cfg: Config, s: State, h: Host)
    requires Inv(cfg, s) && Enabled(cfg, s, Own(h, TermOnce))
    ensures var p := Target(cfg, s.site[h]);
      TermAnswerOK(cfg, Step(cfg, s, Own(h, TermOnce)), p, s.site[p].LogOnce(ABORT).log)
  {
    var p := Target(cfg, s.site[h]);
    var y := s.site[p].LogOnce(ABORT);
    var r := s.Set(p, y);
    var s' := Step(cfg, s, Own(h, TermOnce));
    TermAnswer(cfg, s, p);
    assert Extends(cfg, r, s');
    match y.log
    case ABORT => EvidenceStays(cfg, r, s', Abort);
    case COMMIT => EvidenceStays(cfg, r, s', Commit);
    case _ =>
  }

  lemma StepNet(cfg: Config, s: State, a: Action)
    requires Inv(cfg, s) && Enabled(cfg, s, a)
    ensures NetOK(cfg, Step(cfg, s, a))
  {
    var s' := Step(cfg, s, a);
    StepExtends(cfg, s, a);
    forall m | m in s'.net ensures MsgOK(cfg, s', m) {
      if m in s.net { MsgStays(cfg, s, s', m); }
    }
  }

  lemma StepInboxes(cfg: Config, s: State, a: Action)
    requires Inv(cfg, s) && Enabled(cfg, s, a)
    ensures InboxesOK(cfg, Step(cfg, s, a))
  {
    hide MsgOK, Extends;
    var s' := Step(cfg, s, a);
    StepExtends(cfg, s, a);
    forall h | h in cfg.Hosts() ensures InboxOK(cfg, s', h, s'.site[h].inbox) {
      InboxStays(cfg, s, s', h, s.site[h].inbox);
      if a.Deliver? && a.msg.dst == h {
        MsgStays(cfg, s, s', a.msg);
        ReceiveInbox(cfg, s', s.site[h], a.msg);
      } else {
        InboxShrinks(cfg, s, a, h);
      }
    }
  }

  lemma InboxStays(cfg: Config, s: State, s': State, h: Host, inbox: seq<Msg>)
    requires WF(cfg, s) && WF(cfg, s') && Extends(cfg, s, s') && InboxOK(cfg, s, h, inbox)
    ensures InboxOK(cfg, s', h, inbox)
  {
    forall m | m in inbox ensures MsgOK(cfg, s', m) {
      MsgStays(cfg, s, s', m);
    }
  }

  lemma ReceiveInbox(cfg: Config, s: State, x: Site, m: Msg)
    requires WF(cfg, s) && InboxOK(cfg, s, m.dst, x.inbox) && MsgOK(cfg, s, m)
    ensures InboxOK(cfg, s, m.dst, x.Receive(m).inbox)
  {
    hide MsgOK;
  }

  /** Only a delivery puts a request into a queue. */
  lemma InboxShrinks(cfg: Config, s: State, a: Action, h: Host)
    requires WF(cfg, s) && Enabled(cfg, s, a) && h in cfg.Hosts() && !(a.Deliver? && a.msg.dst == h)
    ensures forall m :: m in Step(cfg, s, a).site[h].inbox ==> m in s.site[h].inbox
  {
  }

  /** What a handler's step means for the yes-vote of `p`, seen locally. */
  lemma MoveVote(cfg: Config, h: Host, x: Site, op: Op, resp: Word, p: Host)
    requires Ready(cfg, x, op) && (h != cfg.coordinator ==> MemberOK(x))
    ensures var x' := Move(cfg, h, x, op, resp); var says := op.SayVote? && x.pc.SayYes?;
      && Sent(cfg, h, x, op)[Msg(VoteYesKind, p, cfg.coordinator)] == (if says && h == p then 1 else 0)
      && x'.inbox == (if op.TakeVote? || op.TakeDecision? then x.inbox[1..] else x.inbox)
      && (h != cfg.coordinator ==> SentYes(x') == (SentYes(x) || says))
      && (says ==> !SentYes(x))
  {
  }

  lemma StepVoteTerm(cfg: Config, s: State, h: Host, p: Host)
    requires Inv(cfg, s) && Enabled(cfg, s, Own(h, TermOnce)) && p in cfg.Members()
    ensures VoteOK(cfg, Step(cfg, s, Own(h, TermOnce)), p)
  {
    var x := s.site[h];
    var t := Target(cfg, x);
    var y := s.site[t].LogOnce(ABORT);
    assert VoteOK(cfg, s, p) && MemberOK(s.site[t]);
    assert h != cfg.coordinator ==> MemberOK(x);
    ClaimVote(s.site[t]);
    ClaimedVotes(cfg, s, t, y, p);
    TermVote(cfg, s.Set(t, y), h, y.log, p);
  }

  /** LOG_ONCE("ABORT") changes nothing about what its participant has sent. */
  lemma ClaimVote(x: Site)
    requires MemberOK(x)
    ensures var y := x.LogOnce(ABORT); MemberOK(y) && SentYes(y) == SentYes(x) && y.inbox == x.inbox
  {
  }

  lemma ClaimedVotes(cfg: Config, s: State, t: Host, y: Site, p: Host)
    requires WF(cfg, s) && t in cfg.Members() && p in cfg.Members() && VoteOK(cfg, s, p)
    requires SentYes(y) == SentYes(s.site[t]) && y.inbox == s.site[t].inbox
    ensures VoteOK(cfg, s.Set(t, y), p)
  {
  }

  lemma TermVote(cfg: Config, r: State, h: Host, resp: Word, p: Host)
    requires WF(cfg, r) && h in cfg.Hosts() && p in cfg.Members() && VoteOK(cfg, r, p)
    requires Ready(cfg, r.site[h], TermOnce) && (h != cfg.coordinator ==> MemberOK(r.site[h]))
    ensures VoteOK(cfg, r.Set(h, Move(cfg, h, r.site[h], TermOnce, resp)), p)
  {
    MoveVote(cfg, h, r.site[h], TermOnce, resp, p);
  }

  lemma StepVote(cfg: Config, s: State, h: Host, op: Op, p: Host)
    requires Inv(cfg, s) && Enabled(cfg, s, Own(h, op)) && p in cfg.Members() && !op.TermOnce? && !op.TakeVote?
    ensures VoteOK(cfg, Step(cfg, s, Own(h, op)), p)
  {
    var x := s.site[h];
    assert VoteOK(cfg, s, p);
    assert h != cfg.coordinator ==> MemberOK(x);
    MoveVote(cfg, h, x, op, WORKING, p);
  }

  lemma StepVoteTaken(cfg: Config, s: State, p: Host)
    requires Inv(cfg, s) && Enabled(cfg, s, Own(cfg.coordinator, TakeVote)) && p in cfg.Members()
    ensures VoteOK(cfg, Step(cfg, s, Own(cfg.coordinator, TakeVote)), p)
  {
    var x := s.site[cfg.coordinator];
    assert VoteOK(cfg, s, p);
    MoveVote(cfg, cfg.coordinator, x, TakeVote, WORKING, p);
    assert x.inbox == [x.inbox[0]] + x.inbox[1..];
    assert MsgOK(cfg, s, x.inbox[0]);
  }

  lemma StepVotes(cfg: Config, s: State, a: Action)
    requires Inv(cfg, s) && Enabled(cfg, s, a)
    ensures VotesOK(cfg, Step(cfg, s, a))
  {
    var s' := Step(cfg, s, a);
    forall p | p in cfg.Members() ensures VoteOK(cfg, s', p) {
      assert VoteOK(cfg, s, p);
      if a.Own? && a.op.TermOnce? {
        StepVoteTerm(cfg, s, a.host, p);
      } else if a.Own? && a.op.TakeVote? {
        CoordinatorCollects(cfg, s, a.host);
        StepVoteTaken(cfg, s, p);
      } else if a.Own? {
        StepVote(cfg, s, a.host, a.op, p);
      }
    }
    if a.Own? && a.op.TakeVote? && s.site[a.host].inbox[0].kind.VoteYesKind? {
      CoordinatorCollects(cfg, s, a.host);
      NextVote(cfg, s);
    }
  }

  lemma StepInv(cfg: Config, s: State, a: Action)
    requires Inv(cfg, s) && Enabled(cfg, s, a)
    ensures Inv(cfg, Step(cfg, s, a))
  {
    StepMembers(cfg, s, a);
    StepCoordinator(cfg, s, a);
    StepPcs(cfg, s, a);
    StepNet(cfg, s, a);
    StepInboxes(cfg, s, a);
    StepVotes(cfg, s, a);
  }

  /** The invariant holds in every reachable state. */
  lemma {:induction false} ExecInv(cfg: Config, schedule: seq<Action>)
    requires cfg.Valid()
    ensures Inv(cfg, Exec(cfg, schedule))
  {
    if schedule == [] {
      InitInv(cfg);
    } else {
      var front, a := schedule[..|schedule| - 1], schedule[|schedule| - 1];
      ExecInv(cfg, front);
      var s := Exec(cfg, front);
      if Enabled(cfg, s, a) { StepInv(cfg, s, a); }
    }
  }
}
