/**
  The Cornus 1 handlers as the sequential code of Coordinator.h, Participant.h and
  TransactionHandler.hpp, running against a cluster that moves on between any two of their steps.
  Each send, queue operation, log call and end of a call is one step of the transition system, so
  whatever is proved about all its runs holds for this code.
 */
module PaperHandlers {
  import opened Domain
  import opened PaperProtocol
  import opened PaperInvariant
  import opened PaperTheorems
  import opened PaperProgress

  /** The run ends with the coordinator taking an ABORT request from its queue. */
  ghost predicate TookAbort(cfg: Config, run: seq<Action>) {
    run != [] && run[|run| - 1] == Own(cfg.coordinator, TakeVote) &&
    var x := Exec(cfg, run[..|run| - 1]).site[cfg.coordinator];
    x.inbox != [] && x.inbox[0].kind.AbortKind?
  }

  lemma TakesAbort(cfg: Config, run: seq<Action>)
    requires var x := Exec(cfg, run).site[cfg.coordinator]; x.inbox != [] && x.inbox[0].kind.AbortKind?
    ensures TookAbort(cfg, run + [Own(cfg.coordinator, TakeVote)])
  {
    hide Exec;
    assert (run + [Own(cfg.coordinator, TakeVote)])[..|run|] == run;
  }

  predicate Moves(a: Action, h: Host) {
    a == Crash(h) || (a.Own? && a.host == h)
  }

  /** The message that tells a participant the decision, and the one a participant votes by. */
  function Telling(c: Host, d: Decision, p: Host): Msg {
    Msg(if d == Commit then CommitKind else AbortKind, c, p)
  }

  function VoteOf(cfg: Config, p: Host, yes: bool): Msg {
    Msg(if yes then VoteYesKind else AbortKind, p, cfg.coordinator)
  }

  class Cluster {
    const cfg: Config
    var s: State
    /** Everything that has happened so far. */
    ghost var run: seq<Action>

    /** The state is the one the run leads to. */
    ghost predicate Valid()
      reads this
    {
      cfg.Valid() && WF(cfg, s) && Inv(cfg, s) && s == Exec(cfg, run)
    }

    constructor (cfg: Config)
      requires cfg.Valid()
      ensures this.cfg == cfg && s == Init(cfg) && run == [] && Valid()
    {
      this.cfg := cfg;
      s := Init(cfg);
      run := [];
      InitInv(cfg);
    }

    /** The handler at `h` stands at `pc` on a live host. */
    ghost predicate At(h: Host, pc: PC)
      requires Valid()
      reads this
    {
      h in cfg.Hosts() && s.site[h].up && s.site[h].pc == pc
    }

    /** One step of the handler at `h`, other than a round of the termination loop. */
    method Perform(h: Host, op: Op)
      requires Valid() && Enabled(cfg, s, Own(h, op)) && !op.TermOnce?
      modifies this`s, this`run
      ensures Valid() && run == old(run) + [Own(h, op)] && s == Step(cfg, old(s), Own(h, op))
      ensures At(h, Move(cfg, h, old(s.site[h]), op, WORKING).pc)
      ensures Budget(cfg, h, s.site[h].pc) < old(Budget(cfg, h, s.site[h].pc))
      ensures Performed(cfg, run, |old(run)|, Own(h, op))
      ensures forall m :: Sent(cfg, h, old(s.site[h]), op) == multiset{m} ==>
        Sends(cfg, run, |old(run)|, Own(h, op), m)
      ensures h in cfg.Members() ==> SiteExtends(old(s.site[h]), s.site[h])
    {
      hide Inv, ExecFrom, Exec, Step, Performed, Sends, Sent, PutsOut;
      StepInv(cfg, s, Own(h, op));
      OwnBudget(cfg, s, h, op);
      OwnPlace(cfg, s, h, op);
      ExecMore(cfg, run, Own(h, op));
      StepKeeps(cfg, s, Own(h, op), h);
      PerformedNow(cfg, run, |run|, Own(h, op));
      forall m | Sent(cfg, h, s.site[h], op) == multiset{m}
        ensures Sends(cfg, run + [Own(h, op)], |run|, Own(h, op), m)
      {
        SentOut(cfg, s, h, op, m);
        SendsNow(cfg, run, |run|, Own(h, op), m);
      }
      s, run := Step(cfg, s, Own(h, op)), run + [Own(h, op)];
    }

    /** LOG_ONCE("ABORT") at the address of the i-th participant. */
    method LogOnceAbort(h: Host, i: nat) returns (resp: Word)
      requires Valid() && At(h, Term(i)) && i < |cfg.participants|
      modifies this`s, this`run
      ensures Valid() && run == old(run) + [Own(h, TermOnce)] && s == Step(cfg, old(s), Own(h, TermOnce))
      ensures resp == Once(old(s.site[cfg.participants[i]].log), ABORT)
      ensures resp != WORKING && At(h, TermNext(cfg, h, i, resp))
    {
      var p := cfg.participants[i];
      resp := Once(s.site[p].log, ABORT);
      TermAnswer(cfg, s, p);
      StepInv(cfg, s, Own(h, TermOnce));
      StaysUp(cfg, s, h, TermOnce);
      ExecMore(cfg, run, Own(h, TermOnce));
      s, run := Step(cfg, s, Own(h, TermOnce)), run + [Own(h, TermOnce)];
    }

    /** Everybody else, the network and the faults do whatever they like; only the live handler at `me`
        does not move, though its queue may grow. */
    method Interfere(me: Host)
      requires Valid() && me in cfg.Hosts() && s.site[me].up && !s.site[me].pc.Idle?
      modifies this`s, this`run
      ensures old(run) <= run && forall i :: |old(run)| <= i < |run| ==> !Moves(run[i], me)
      ensures Valid() && At(me, old(s.site[me].pc))
      ensures me in cfg.Members() ==> SiteExtends(old(s.site[me]), s.site[me])
    {
      hide Inv, ExecFrom, Step;
      var schedule: seq<Action> := *;
      for i := 0 to |schedule|
        invariant old(run) <= run && forall i :: |old(run)| <= i < |run| ==> !Moves(run[i], me)
        invariant Valid() && At(me, old(s.site[me].pc))
        invariant me in cfg.Members() ==> SiteExtends(old(s.site[me]), s.site[me])
      {
        var a := schedule[i];
        if !Moves(a, me) && Enabled(cfg, s, a) {
          StepInv(cfg, s, a);
          OthersBudget(cfg, s, a, me);
          StepKeeps(cfg, s, a, me);
          OthersUp(cfg, s, a, me);
          ExecMore(cfg, run, a);
          s, run := Step(cfg, s, a), run + [a];
        }
      }
    }

    /** PaperTransactionHandler::terminationProtocol. */
    method TerminationProtocol(h: Host) returns (d: Decision)
      requires Valid() && At(h, Term(0))
      modifies this`s, this`run
      ensures old(run) <= run
      ensures Valid() && At(h, Decided(cfg, h, d)) && Backed(cfg, s, d)
    {
      d := RunTermination(h);
      DecidedBacked(cfg, s, h, d);
    }

    method RunTermination(h: Host) returns (d: Decision)
      requires Valid() && At(h, Term(0))
      modifies this`s, this`run
      ensures old(run) <= run
      ensures Valid() && At(h, Decided(cfg, h, d))
    {
      hide Budget, Inv, ExecFrom, Step, Performed;
      for i := 0 to |cfg.participants|
        invariant old(run) <= run
        invariant Valid() && At(h, Term(i))
      {
        Interfere(h);
        var resp := LogOnceAbort(h, i);
        if resp == ABORT {
          return Abort;
        } else if resp == COMMIT {
          return Commit;
        } else if resp != VOTEYES {
          assert false; // "Unknown response from transaction log"
        }
      }
      Interfere(h);
      Perform(h, TermEnd);
      return Commit;
    }

    // -------------------------------------------------------------------------------------
    // PaperCoordinator

    /** sendToParticipants("VOTEREQ", ...): the calls. */
    method SendVoteRequests()
      requires Valid() && At(cfg.coordinator, SendReqs(cfg.Members(), cfg.Members()))
      modifies this`s, this`run
      ensures old(run) <= run
      ensures Valid() && At(cfg.coordinator, SendReqs({}, cfg.Members()))
      ensures forall p :: p in cfg.Members() ==>
        Sends(cfg, run, |old(run)|, Own(cfg.coordinator, SendReq(p)), Msg(VoteReqKind, cfg.coordinator, p))
    {
      hide Budget, Inv, ExecFrom, Exec, Step, Performed, Sends;
      var c := cfg.coordinator;
      ghost var from := |run|;
      for i := 0 to |cfg.participants|
        invariant old(run) <= run
        invariant Valid() && At(c, SendReqs(From(cfg.participants, i), cfg.Members()))
        invariant forall p :: p in cfg.participants[..i] ==>
          Sends(cfg, run, from, Own(c, SendReq(p)), Msg(VoteReqKind, c, p))
      {
        ghost var before := run;
        Interfere(c);
        FromStep(cfg.participants, i);
        ghost var now := |run|;
        Perform(c, SendReq(cfg.participants[i]));
        assert cfg.participants[..i + 1] == cfg.participants[..i] + [cfg.participants[i]];
        SendsStays(cfg, before, run, from);
        SendsSince(cfg, run, from, now);
      }
    }

    /** sendToParticipants(decision, ""): the calls. */
    method SendDecision(d: Decision)
      requires Valid() && At(cfg.coordinator, Tell(d, cfg.Members(), cfg.Members()))
      modifies this`s, this`run
      ensures old(run) <= run
      ensures Valid() && At(cfg.coordinator, Tell(d, {}, cfg.Members()))
      ensures forall p :: p in cfg.Members() ==>
        Sends(cfg, run, |old(run)|, Own(cfg.coordinator, TellOne(p)), Telling(cfg.coordinator, d, p))
    {
      hide Budget, Inv, ExecFrom, Exec, Step, Performed, Sends;
      var c := cfg.coordinator;
      ghost var from := |run|;
      for i := 0 to |cfg.participants|
        invariant old(run) <= run
        invariant Valid() && At(c, Tell(d, From(cfg.participants, i), cfg.Members()))
        invariant forall p :: p in cfg.participants[..i] ==> Sends(cfg, run, from, Own(c, TellOne(p)), Telling(c, d, p))
      {
        ghost var before := run;
        Interfere(c);
        FromStep(cfg.participants, i);
        ghost var now := |run|;
        Perform(c, TellOne(cfg.participants[i]));
        assert cfg.participants[..i + 1] == cfg.participants[..i] + [cfg.participants[i]];
        SendsStays(cfg, before, run, from);
        SendsSince(cfg, run, from, now);
      }
    }

    /** resolveFutures: wait for one call after the other to end. */
    method AwaitCalls()
      requires Valid() && cfg.coordinator in cfg.Hosts() && s.site[cfg.coordinator].up
      requires var pc := s.site[cfg.coordinator].pc;
        (pc.SendReqs? || pc.Tell?) && pc.pending == {} && pc.waiting == cfg.Members()
      modifies this`s, this`run
      ensures old(run) <= run
      ensures Valid() && At(cfg.coordinator, old(s.site[cfg.coordinator].pc).(waiting := {}))
    {
      hide Budget, Inv, ExecFrom, Exec, Step, Performed;
      var c := cfg.coordinator;
      ghost var pc := s.site[c].pc;
      for i := 0 to |cfg.participants|
        invariant old(run) <= run
        invariant Valid() && At(c, pc.(waiting := From(cfg.participants, i)))
      {
        Interfere(c);
        FromStep(cfg.participants, i);
        Perform(c, CallEnds(cfg.participants[i]));
      }
    }

    /** The voting phase of the coordinator: it decides by a full count, by an ABORT request at the head of
        its queue, or after a timeout by the termination loop. */
    method CollectVotes() returns (d: Decision)
      requires Valid() && At(cfg.coordinator, Collect(0))
      modifies this`s, this`run
      ensures old(run) <= run
      ensures Valid() && At(cfg.coordinator, Tell(d, cfg.Members(), cfg.Members()))
      ensures
        || (d == Commit && s.counted == cfg.Members())
        || (d == Abort && old(run) < run && TookAbort(cfg, run))
        || Performed(cfg, run, |old(run)|, Own(cfg.coordinator, Timeout))
    {
      hide Inv, ExecFrom, Exec, Step, Performed, TookAbort;
      var c := cfg.coordinator;
      var votes: nat := 0;
      while true
        invariant old(run) <= run
        invariant Valid() && At(c, Collect(votes))
        decreases Budget(cfg, c, s.site[c].pc)
      {
        Interfere(c);
        if s.site[c].inbox != [] {
          var kind := s.site[c].inbox[0].kind;
          FullCount(cfg, s);
          if kind == AbortKind { TakesAbort(cfg, run); }
          Perform(c, TakeVote);
          if kind == VoteYesKind {
            votes := votes + 1;
            if votes == |cfg.participants| {
              return Commit;
            }
          } else if kind == AbortKind {
            return Abort;
          }
        } else {
          d := TimeOut(c);
          return;
        }
      }
    }

    /** Timing out, and the termination loop. */
    method TimeOut(h: Host) returns (d: Decision)
      requires Valid() && h in cfg.Hosts() && Enabled(cfg, s, Own(h, Timeout))
      modifies this`s, this`run
      ensures old(run) <= run
      ensures Valid() && At(h, Decided(cfg, h, d)) && Backed(cfg, s, d)
      ensures forall from :: 0 <= from <= |old(run)| ==> Performed(cfg, run, from, Own(h, Timeout))
    {
      hide Inv, ExecFrom, Exec, Step, Performed;
      ghost var now := |run|;
      Perform(h, Timeout);
      ghost var before := run;
      d := TerminationProtocol(h);
      PerformedStays(cfg, before, run, now);
      forall from | 0 <= from <= now ensures Performed(cfg, run, from, Own(h, Timeout)) {
        PerformedSince(cfg, run, from, now);
      }
    }

    /** PaperCoordinator::handleTransaction. */
    method HandleAsCoordinator() returns (d: Decision)
      requires Valid() && At(cfg.coordinator, SendReqs(cfg.Members(), cfg.Members()))
      modifies this`s, this`run
      ensures old(run) <= run
      ensures Valid() && At(cfg.coordinator, Done(d)) && Backed(cfg, s, d)
      ensures forall p :: p in cfg.Members() ==>
        && Sends(cfg, run, |old(run)|, Own(cfg.coordinator, SendReq(p)), Msg(VoteReqKind, cfg.coordinator, p))
        && Sends(cfg, run, |old(run)|, Own(cfg.coordinator, TellOne(p)), Telling(cfg.coordinator, d, p))
    {
      hide Budget, Inv, ExecFrom, Exec, Step, Backed, Performed, Sends;
      SendVoteRequests();
      ghost var sent := run;
      AwaitCalls();
      Interfere(cfg.coordinator);
      Perform(cfg.coordinator, StartCollect);
      d := CollectVotes();
      ghost var now := |run|;
      Announce(d);
      SendsStays(cfg, sent, run, |old(run)|);
      SendsSince(cfg, run, |old(run)|, now);
      Returned(cfg, s, cfg.coordinator, d);
    }

    /** The end of the coordinator: all participants are told, then the client. */
    method Announce(d: Decision)
      requires Valid() && At(cfg.coordinator, Tell(d, cfg.Members(), cfg.Members()))
      modifies this`s, this`run
      ensures old(run) <= run
      ensures Valid() && At(cfg.coordinator, Done(d))
      ensures forall p :: p in cfg.Members() ==>
        Sends(cfg, run, |old(run)|, Own(cfg.coordinator, TellOne(p)), Telling(cfg.coordinator, d, p))
    {
      hide Budget, Inv, ExecFrom, Exec, Step, Performed, Sends;
      SendDecision(d);
      ghost var sent := run;
      AwaitCalls();
      Interfere(cfg.coordinator);
      Perform(cfg.coordinator, Reply);
      SendsStays(cfg, sent, run, |old(run)|);
    }

    // -------------------------------------------------------------------------------------
    // PaperParticipant

    /** sendToCoordinator: send the vote and wait for the call to end. */
    method SendVote(h: Host)
      requires Valid() && h in cfg.Hosts() && s.site[h].up && (s.site[h].pc.SayYes? || s.site[h].pc.SayNo?)
      modifies this`s, this`run
      ensures old(run) <= run
      ensures Valid() && At(h, if old(s.site[h].pc.SayYes?) then Wait else Done(Abort))
      ensures Sends(cfg, run, |old(run)|, Own(h, SayVote), VoteOf(cfg, h, old(s.site[h].pc.SayYes?)))
      ensures h in cfg.Members() ==> SiteExtends(old(s.site[h]), s.site[h])
    {
      hide Budget, Inv, ExecFrom, Exec, Step, Performed, Sends;
      Interfere(h);
      ghost var now := |run|;
      Perform(h, SayVote);
      ghost var before := run;
      Interfere(h);
      Perform(h, VoteCallEnds);
      SendsStays(cfg, before, run, now);
      SendsSince(cfg, run, |old(run)|, now);
    }

    /** The execution phase of a participant that has claimed its log: obey the first request, or time out
        and terminate. */
    method AwaitDecision(h: Host) returns (d: Decision)
      requires Valid() && h in cfg.Members() && At(h, Wait)
      modifies this`s, this`run
      ensures old(run) <= run
      ensures Valid() && At(h, Write(d))
      ensures
        || (|run| > |old(run)| && run[|run| - 1] == Own(h, TakeDecision))
        || Performed(cfg, run, |old(run)|, Own(h, Timeout))
    {
      hide Inv, ExecFrom, Exec, Step, Performed;
      Interfere(h);
      if s.site[h].inbox != [] {
        var kind := s.site[h].inbox[0].kind;
        ToldDecision(cfg, s, h);
        Perform(h, TakeDecision);
        if kind == CommitKind {
          return Commit;
        } else if kind == AbortKind {
          return Abort;
        } else {
          assert false; // the participant's failing assertion
        }
      } else {
        d := TimeOut(h);
      }
    }

    /** The prepare phase of a willing participant: claim the log, then tell the coordinator. */
    method ClaimAndTell(h: Host) returns (resp: Word)
      requires Valid() && h in cfg.Members() && At(h, Claim)
      modifies this`s, this`run
      ensures old(run) <= run
      ensures resp == Once(old(s.site[h].log), VOTEYES)
      ensures Valid() && At(h, if resp == VOTEYES then Wait else Done(Abort))
      ensures Performed(cfg, run, |old(run)|, Own(h, ClaimLog))
      ensures Sends(cfg, run, |old(run)|, Own(h, SayVote), VoteOf(cfg, h, resp == VOTEYES))
      ensures resp != VOTEYES ==> s.site[h].first == ABORT
    {
      hide Budget, Inv, ExecFrom, Exec, Step, Performed, Sends, VoteOf;
      Claims(cfg, s, h);
      resp := Once(s.site[h].log, VOTEYES);
      Perform(h, ClaimLog);
      ghost var claimed := run;
      SendVote(h);
      PerformedStays(cfg, claimed, run, |old(run)|);
      SendsSince(cfg, run, |old(run)|, |claimed|);
    }

    /** The execution phase: learn the decision, then LOG_WRITE it. */
    method Execute(h: Host) returns (d: Decision)
      requires Valid() && h in cfg.Members() && At(h, Wait)
      modifies this`s, this`run
      ensures old(run) <= run
      ensures Valid() && At(h, Done(d)) && s.site[h].log == d.AsWord()
    {
      hide Budget, Inv, ExecFrom, Exec, Step, Performed;
      d := AwaitDecision(h);
      Interfere(h);
      LogWritten(cfg, s, h);
      Perform(h, WriteLog);
    }

    /** PaperParticipant::handleTransaction; `vote` is what the worker answers to VOTE_REQ. A worker that
        agrees has its log claimed, and the vote sent is yes unless the claim found ABORT there. */
    method HandleAsParticipant(h: Host, vote: bool) returns (d: Decision)
      requires Valid() && h in cfg.Members() && At(h, Vote)
      modifies this`s, this`run
      ensures old(run) <= run
      ensures Valid() && At(h, Done(d)) && Backed(cfg, s, d)
      ensures Performed(cfg, run, |old(run)|, Own(h, CastVote(vote)))
      ensures !vote ==> d == Abort && Sends(cfg, run, |old(run)|, Own(h, SayVote), VoteOf(cfg, h, false))
      ensures vote ==> Performed(cfg, run, |old(run)|, Own(h, ClaimLog))
      ensures vote ==>
        || Sends(cfg, run, |old(run)|, Own(h, SayVote), VoteOf(cfg, h, true))
        || (d == Abort && s.site[h].log == ABORT && Sends(cfg, run, |old(run)|, Own(h, SayVote), VoteOf(cfg, h, false)))
      ensures d == Commit ==> s.site[h].log == COMMIT
    {
      hide Budget, Inv, ExecFrom, Exec, Step, Performed, Sends, VoteOf;
      Perform(h, CastVote(vote));
      ghost var asked := run;
      d := Abort;
      if !vote {
        SendVote(h);
      } else {
        d := Prepare(h);
      }
      PerformedStays(cfg, asked, run, |old(run)|);
      PerformedSince(cfg, run, |old(run)|, |asked|);
      SendsSince(cfg, run, |old(run)|, |asked|);
      Returned(cfg, s, h, d);
    }

    /** What a willing participant does. */
    method Prepare(h: Host) returns (d: Decision)
      requires Valid() && h in cfg.Members() && At(h, Claim)
      modifies this`s, this`run
      ensures old(run) <= run
      ensures Valid() && At(h, Done(d))
      ensures Performed(cfg, run, |old(run)|, Own(h, ClaimLog))
      ensures
        || Sends(cfg, run, |old(run)|, Own(h, SayVote), VoteOf(cfg, h, true))
        || (d == Abort && s.site[h].log == ABORT && Sends(cfg, run, |old(run)|, Own(h, SayVote), VoteOf(cfg, h, false)))
    {
      hide Budget, Inv, ExecFrom, Exec, Step, Performed, Sends, VoteOf;
      Interfere(h);
      ghost var now := |run|;
      ghost var before := run;
      var resp := ClaimAndTell(h);
      ghost var told := run;
      d := Abort;
      if resp == VOTEYES {
        d := Execute(h);
      } else {
        AbortedLog(cfg, s, h);
      }
      PerformedStays(cfg, told, run, now);
      PerformedSince(cfg, run, |old(run)|, now);
      SendsStays(cfg, told, run, now);
      SendsSince(cfg, run, |old(run)|, now);
    }
  }

  lemma Returned(cfg: Config, s: State, h: Host, d: Decision)
    requires Inv(cfg, s) && h in cfg.Hosts() && s.site[h].pc == Done(d)
    ensures Backed(cfg, s, d)
    ensures h in cfg.Members() && d == Commit ==> s.site[h].log == COMMIT
  {
    assert PcOK(cfg, s, s.site[h].pc);
    assert h in cfg.Members() ==> MemberOK(s.site[h]);
  }

  lemma DecidedBacked(cfg: Config, s: State, h: Host, d: Decision)
    requires Inv(cfg, s) && h in cfg.Hosts() && s.site[h].pc == Decided(cfg, h, d)
    ensures Backed(cfg, s, d)
  {
    assert PcOK(cfg, s, s.site[h].pc);
  }

  /** A vote that makes the coordinator decide COMMIT completes the set of voters. */
  lemma FullCount(cfg: Config, s: State)
    requires Inv(cfg, s) && Enabled(cfg, s, Own(cfg.coordinator, TakeVote))
    ensures var x := s.site[cfg.coordinator];
      x.inbox[0].kind.VoteYesKind? && x.pc.votes + 1 == |cfg.participants| ==>
        Step(cfg, s, Own(cfg.coordinator, TakeVote)).counted == cfg.Members()
  {
    if s.site[cfg.coordinator].inbox[0].kind.VoteYesKind? { NextVote(cfg, s); }
  }

  lemma LogWritten(cfg: Config, s: State, h: Host)
    requires WF(cfg, s) && Enabled(cfg, s, Own(h, WriteLog))
    ensures Step(cfg, s, Own(h, WriteLog)).site[h].log == s.site[h].pc.decision.AsWord()
  {
  }

  /** A claim that fails has found ABORT as the first value of the log. */
  lemma Claims(cfg: Config, s: State, h: Host)
    requires Inv(cfg, s) && h in cfg.Members() && Enabled(cfg, s, Own(h, ClaimLog))
    ensures Once(s.site[h].log, VOTEYES) != VOTEYES ==> s.site[h].first == ABORT
  {
    assert MemberOK(s.site[h]);
  }

  lemma StepKeeps(cfg: Config, s: State, a: Action, h: Host)
    requires Inv(cfg, s) && Enabled(cfg, s, a)
    ensures h in cfg.Members() ==> SiteExtends(s.site[h], Step(cfg, s, a).site[h])
  {
    StepExtends(cfg, s, a);
  }

  lemma AbortedLog(cfg: Config, s: State, h: Host)
    requires Inv(cfg, s) && h in cfg.Members() && s.site[h].first == ABORT && s.site[h].pc.Done?
    ensures s.site[h].log == ABORT
  {
    assert MemberOK(s.site[h]);
  }

  lemma SentOut(cfg: Config, s: State, h: Host, op: Op, m: Msg)
    requires WF(cfg, s) && Enabled(cfg, s, Own(h, op)) && !op.TermOnce? && Sent(cfg, h, s.site[h], op) == multiset{m}
    ensures PutsOut(cfg, s, Own(h, op), m)
  {
  }

  lemma OwnPlace(cfg: Config, s: State, h: Host, op: Op)
    requires WF(cfg, s) && Enabled(cfg, s, Own(h, op)) && !op.TermOnce?
    ensures var x := Step(cfg, s, Own(h, op)).site[h]; x.up && x.pc == Move(cfg, h, s.site[h], op, WORKING).pc
  {
  }

  lemma OthersUp(cfg: Config, s: State, a: Action, h: Host)
    requires WF(cfg, s) && h in cfg.Hosts() && Enabled(cfg, s, a)
    requires !(a.Own? && a.host == h) && a != Crash(h)
    ensures Step(cfg, s, a).site[h].up == s.site[h].up
  {
  }
}
