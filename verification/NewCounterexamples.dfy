/**
  Two guarantees a reader might expect of Cornus 2, runs of the code as written that break them, and
  exactly when they hold. The runs are built for every configuration that admits them.
 */
module NewCounterexamples {
  import opened Domain
  import opened NewProtocol
  import opened NewInvariant
  import opened NewTheorems

  const FRESH := Site(Idle, [], FNone, RIdle, [], WORKING, true, false, false, false)
  const VOTED := FRESH.(main := Wait, saidYes := true)

  predicate Quiet(x: Site) {
    x.up && x.log == WORKING && !x.written && x.repl.RIdle? && x.fin.FNone?
  }

  /** The coordinator and one participant look like this, nobody else has logged or owes anything, and
      the messages are on their way. */
  ghost predicate Looks(cfg: Config, s: State, p: Host, x: Site, y: Site, net: multiset<Msg>)
    requires WF(cfg, s) && p in cfg.Members()
  {
    && s.site[cfg.coordinator] == x && s.site[p] == y && net <= s.net
    && forall h :: h in cfg.Hosts() && h != cfg.coordinator && h != p ==> Quiet(s.site[h])
  }

  lemma OwnHop(cfg: Config, before: seq<Action>, h: Host, op: Op) returns (run: seq<Action>)
    requires Enabled(cfg, Exec(cfg, before), Own(h, op)) && !op.TakeVote?
    ensures var s, t := Exec(cfg, before), Exec(cfg, run);
      && t.site == s.site[h := Move(cfg, s.site[h], op)]
      && t.net == s.net + Sent(cfg, h, s.site[h], op)
      && t.unacked == if op.Resolve? && !op.acked then s.unacked + {op.to} else s.unacked
  {
    ExecMore(cfg, before, Own(h, op));
    run := before + [Own(h, op)];
  }

  lemma DeliverHop(cfg: Config, before: seq<Action>, m: Msg) returns (run: seq<Action>)
    requires m in Exec(cfg, before).net && m.dst in cfg.Hosts()
    ensures var s, t := Exec(cfg, before), Exec(cfg, run);
      t.site == s.site[m.dst := s.site[m.dst].Receive(m)] && t.net == s.net - multiset{m} && t.unacked == s.unacked
  {
    ExecMore(cfg, before, Deliver(m));
    run := before + [Deliver(m)];
  }

  // ---------------------------------------------------------------------------------------
  // Everybody votes yes

  /** Participant `q` is asked, agrees and votes. */
  lemma Invite(cfg: Config, before: seq<Action>, q: Host, pending: set<Host>) returns (run: seq<Action>)
    requires cfg.Valid() && q in cfg.Members() && q in pending
    requires var s := Exec(cfg, before);
      s.site[cfg.coordinator] == FRESH.(main := SendReqs(pending, pending)) && s.site[q] == FRESH
    ensures var s, t := Exec(cfg, before), Exec(cfg, run);
      && t.site == s.site[cfg.coordinator := FRESH.(main := SendReqs(pending - {q}, pending - {q}))][q := VOTED]
      && t.net == s.net + multiset{Msg(VoteYesKind, q, cfg.coordinator)}
      && t.unacked == s.unacked
  {
    hide ExecFrom, Step;
    run := Ask(cfg, before, q, pending);
    run := DeliverHop(cfg, run, Msg(VoteReqKind, cfg.coordinator, q));
    assert Exec(cfg, run).net == Exec(cfg, before).net;
    run := Agree(cfg, run, q);
  }

  lemma Ask(cfg: Config, before: seq<Action>, q: Host, pending: set<Host>) returns (run: seq<Action>)
    requires cfg.Valid() && q in cfg.Members() && q in pending
    requires Exec(cfg, before).site[cfg.coordinator] == FRESH.(main := SendReqs(pending, pending))
    ensures var s, t := Exec(cfg, before), Exec(cfg, run);
      && t.site == s.site[cfg.coordinator := FRESH.(main := SendReqs(pending - {q}, pending - {q}))]
      && t.net == s.net + multiset{Msg(VoteReqKind, cfg.coordinator, q)}
      && t.unacked == s.unacked
  {
    hide ExecFrom, Step;
    var c := cfg.coordinator;
    run := OwnHop(cfg, before, c, SendReq(q));
    var x := FRESH.(main := SendReqs(pending - {q}, pending));
    assert Exec(cfg, run).site[c] == x;
    assert Move(cfg, x, ReqCallEnds(q)) == FRESH.(main := SendReqs(pending - {q}, pending - {q}));
    run := OwnHop(cfg, run, c, ReqCallEnds(q));
  }

  lemma Agree(cfg: Config, before: seq<Action>, q: Host) returns (run: seq<Action>)
    requires cfg.Valid() && q in cfg.Members() && Exec(cfg, before).site[q] == FRESH.(main := Vote)
    ensures var s, t := Exec(cfg, before), Exec(cfg, run);
      && t.site == s.site[q := VOTED] && t.unacked == s.unacked
      && t.net == s.net + multiset{Msg(VoteYesKind, q, cfg.coordinator)}
  {
    hide ExecFrom, Exec, Step;
    run := OwnHop(cfg, before, q, CastVote(true));
    assert Exec(cfg, run).site[q] == FRESH.(main := SayYes, saidYes := true);
    run := Say(cfg, run, q);
  }

  lemma Say(cfg: Config, before: seq<Action>, q: Host) returns (run: seq<Action>)
    requires cfg.Valid() && q in cfg.Members()
    requires Exec(cfg, before).site[q] == FRESH.(main := SayYes, saidYes := true)
    ensures var s, t := Exec(cfg, before), Exec(cfg, run);
      && t.site == s.site[q := VOTED] && t.unacked == s.unacked
      && t.net == s.net + multiset{Msg(VoteYesKind, q, cfg.coordinator)}
  {
    hide ExecFrom, Exec, Step;
    var y := FRESH.(main := SayYes, saidYes := true);
    run := before;
    var z := y.(main := Said(true));
    assert Move(cfg, y, SayVote) == z;
    run := OwnHop(cfg, run, q, SayVote);
    assert Exec(cfg, run).site[q] == z;
    assert Move(cfg, z, VoteCallEnds) == VOTED;
    run := OwnHop(cfg, run, q, VoteCallEnds);
  }

  /** The coordinator when it is through with the first i participants. */
  function Asking(cfg: Config, i: nat): Site
    requires i <= |cfg.participants|
  {
    FRESH.(main := SendReqs(From(cfg.participants, i), From(cfg.participants, i)))
  }

  ghost predicate Invited(cfg: Config, s: State, i: nat)
    requires WF(cfg, s) && i <= |cfg.participants|
  {
    && s.site[cfg.coordinator] == Asking(cfg, i)
    && (forall j :: 0 <= j < i ==> Msg(VoteYesKind, cfg.participants[j], cfg.coordinator) in s.net)
    && (forall j :: 0 <= j < |cfg.participants| ==> s.site[cfg.participants[j]] == if j < i then VOTED else FRESH)
    && (forall h :: h in cfg.Hosts() && h != cfg.coordinator ==> Quiet(s.site[h]))
    && s.unacked == {}
  }

  lemma {:induction false} InviteAll(cfg: Config, i: nat) returns (run: seq<Action>)
    requires cfg.Valid() && i <= |cfg.participants|
    ensures Invited(cfg, Exec(cfg, run), i)
  {
    if i == 0 {
      run := [];
      assert cfg.participants[0..] == cfg.participants;
    } else {
      run := InviteAll(cfg, i - 1);
      FromStep(cfg.participants, i - 1);
      var s := Exec(cfg, run);
      run := Invite(cfg, run, cfg.participants[i - 1], From(cfg.participants, i - 1));
      InvitedNext(cfg, s, Exec(cfg, run), i - 1);
    }
  }

  lemma InvitedNext(cfg: Config, s: State, t: State, i: nat)
    requires cfg.Valid() && WF(cfg, s) && WF(cfg, t) && i < |cfg.participants| && Invited(cfg, s, i)
    requires var q := cfg.participants[i];
      && t.site == s.site[cfg.coordinator := Asking(cfg, i + 1)][q := VOTED]
      && t.net == s.net + multiset{Msg(VoteYesKind, q, cfg.coordinator)} && t.unacked == s.unacked
    ensures Invited(cfg, t, i + 1)
  {
    FromStep(cfg.participants, i);
  }

  /** The coordinator counts the vote of `q`. */
  lemma Count(cfg: Config, before: seq<Action>, q: Host, votes: nat) returns (run: seq<Action>)
    requires cfg.Valid() && q in cfg.Members()
    requires var s := Exec(cfg, before);
      s.site[cfg.coordinator] == FRESH.(main := Collect(votes)) && Msg(VoteYesKind, q, cfg.coordinator) in s.net
    ensures var s, t := Exec(cfg, before), Exec(cfg, run);
      && t.site == s.site[cfg.coordinator := FRESH.(main := CountVote(cfg, votes, VoteYesKind))]
      && t.net == s.net - multiset{Msg(VoteYesKind, q, cfg.coordinator)}
      && t.unacked == s.unacked
  {
    var c := cfg.coordinator;
    var m := Msg(VoteYesKind, q, c);
    var r := DeliverHop(cfg, before, m);
    var x := FRESH.(main := Collect(votes), inbox := [m]);
    assert Exec(cfg, r).site[c] == x;
    assert [m][1..] == [];
    assert Move(cfg, x, TakeVote) == FRESH.(main := CountVote(cfg, votes, VoteYesKind));
    ExecMore(cfg, r, Own(c, TakeVote));
    run := r + [Own(c, TakeVote)];
  }

  ghost predicate CountedTo(cfg: Config, s: State, i: nat)
    requires WF(cfg, s) && i <= |cfg.participants|
  {
    && s.site[cfg.coordinator] ==
         FRESH.(main := if 0 < i == |cfg.participants| then SendWill(cfg.Backups()) else Collect(i))
    && (forall j :: i <= j < |cfg.participants| ==> Msg(VoteYesKind, cfg.participants[j], cfg.coordinator) in s.net)
    && (forall j :: 0 <= j < |cfg.participants| ==> s.site[cfg.participants[j]] == VOTED)
    && (forall h :: h in cfg.Hosts() && h != cfg.coordinator ==> Quiet(s.site[h]))
    && s.unacked == {}
  }

  lemma StartCounting(cfg: Config) returns (run: seq<Action>)
    requires cfg.Valid()
    ensures CountedTo(cfg, Exec(cfg, run), 0)
  {
    run := InviteAll(cfg, |cfg.participants|);
    assert From(cfg.participants, |cfg.participants|) == {};
    assert Move(cfg, FRESH.(main := SendReqs({}, {})), StartCollect) == FRESH.(main := Collect(0));
    run := OwnHop(cfg, run, cfg.coordinator, StartCollect);
  }

  lemma {:induction false} CountAll(cfg: Config, i: nat) returns (run: seq<Action>)
    requires cfg.Valid() && i <= |cfg.participants|
    ensures CountedTo(cfg, Exec(cfg, run), i)
  {
    hide ExecFrom, Step;
    if i == 0 {
      run := StartCounting(cfg);
    } else {
      run := CountAll(cfg, i - 1);
      var before := run;
      assert Exec(cfg, before).site[cfg.coordinator] == FRESH.(main := Collect(i - 1));
      run := Count(cfg, before, cfg.participants[i - 1], i - 1);
      CountedNext(cfg, Exec(cfg, before), Exec(cfg, run), i - 1);
    }
  }

  lemma CountedNext(cfg: Config, s: State, t: State, i: nat)
    requires cfg.Valid() && WF(cfg, s) && WF(cfg, t) && i < |cfg.participants| && CountedTo(cfg, s, i)
    requires var q := cfg.participants[i];
      && t.site == s.site[cfg.coordinator := FRESH.(main := CountVote(cfg, i, VoteYesKind))]
      && t.net == s.net - multiset{Msg(VoteYesKind, q, cfg.coordinator)} && t.unacked == s.unacked
    ensures CountedTo(cfg, t, i + 1)
  {
    forall j | i < j < |cfg.participants| ensures Msg(VoteYesKind, cfg.participants[j], cfg.coordinator) in t.net {
      assert cfg.participants[i] != cfg.participants[j];
    }
  }

  // ---------------------------------------------------------------------------------------
  // The client is told COMMIT

  /** The coordinator has decided COMMIT and everybody else has done nothing beyond voting. */
  ghost predicate Waiting(cfg: Config, s: State, p: Host, m: MainPC, y: Site)
    requires WF(cfg, s) && p in cfg.Members()
  {
    && s.site[cfg.coordinator] == FRESH.(main := m)
    && s.site[p] == y
    && (forall h :: h in cfg.Hosts() && h != cfg.coordinator && h != p ==> Quiet(s.site[h]))
  }

  /** WILLCOMMIT goes out to the replicators. */
  lemma {:induction false} SendAll(cfg: Config, p: Host, i: nat) returns (run: seq<Action>)
    requires cfg.Valid() && p in cfg.Members() && i <= |cfg.replicators|
    ensures var s := Exec(cfg, run);
      && Waiting(cfg, s, p, SendWill(From(cfg.replicators, i)), VOTED)
      && s.unacked == {}
      && forall j :: 0 <= j < i ==> Msg(WillKind, cfg.coordinator, cfg.replicators[j]) in s.net
  {
    if i == 0 {
      run := CountAll(cfg, |cfg.participants|);
      assert cfg.replicators[0..] == cfg.replicators;
    } else {
      run := SendAll(cfg, p, i - 1);
      FromStep(cfg.replicators, i - 1);
      var x := FRESH.(main := SendWill(From(cfg.replicators, i - 1)));
      assert Move(cfg, x, SendWillTo(cfg.replicators[i - 1])) == FRESH.(main := SendWill(From(cfg.replicators, i)));
      run := OwnHop(cfg, run, cfg.coordinator, SendWillTo(cfg.replicators[i - 1]));
    }
  }

  const LAUNCHED := VOTED.(repl := RLaunched)

  /** At most the replicator on the participant's host, if there is one, gets WILLCOMMIT. */
  predicate Reached(cfg: Config, p: Host, y: Site) {
    y == VOTED || (p in cfg.Backups() && y == LAUNCHED)
  }

  function Failing(cfg: Config, p: Host, y: Site): set<Host> {
    if y.repl.RLaunched? then cfg.Backups() - {p} else cfg.Backups()
  }

  lemma Launch(cfg: Config, p: Host, y: Site) returns (run: seq<Action>)
    requires cfg.Valid() && p in cfg.Members() && Reached(cfg, p, y)
    ensures var s := Exec(cfg, run); Waiting(cfg, s, p, AwaitWill(cfg.Backups()), y) && s.unacked == {}
  {
    run := SendAll(cfg, p, |cfg.replicators|);
    assert From(cfg.replicators, |cfg.replicators|) == {};
    assert Move(cfg, FRESH.(main := SendWill({})), StartAwait) == FRESH.(main := AwaitWill(cfg.Backups()));
    run := OwnHop(cfg, run, cfg.coordinator, StartAwait);
    if y.repl.RLaunched? {
      assert VOTED.Receive(Msg(WillKind, cfg.coordinator, p)) == LAUNCHED;
      run := DeliverHop(cfg, run, Msg(WillKind, cfg.coordinator, p));
    }
  }

  lemma {:induction false} ResolveAll(cfg: Config, p: Host, y: Site, i: nat) returns (run: seq<Action>)
    requires cfg.Valid() && p in cfg.Members() && i <= |cfg.replicators|
    requires Reached(cfg, p, y)
    ensures var s := Exec(cfg, run);
      Waiting(cfg, s, p, AwaitWill(From(cfg.replicators, i)), y) && s.unacked <= Failing(cfg, p, y)
  {
    if i == 0 {
      run := Launch(cfg, p, y);
      assert cfg.replicators[0..] == cfg.replicators;
    } else {
      run := ResolveAll(cfg, p, y, i - 1);
      FromStep(cfg.replicators, i - 1);
      var r := cfg.replicators[i - 1];
      var x := FRESH.(main := AwaitWill(From(cfg.replicators, i - 1)));
      var acked := r == p && y.repl.RLaunched?;
      assert Move(cfg, x, Resolve(r, acked)) == FRESH.(main := AwaitWill(From(cfg.replicators, i)));
      run := OwnHop(cfg, run, cfg.coordinator, Resolve(r, acked));
    }
  }

  const ANSWERED := FRESH.(main := Done(Commit, Answered), fin := FLog(LRead))

  lemma Answer(cfg: Config, p: Host, y: Site) returns (run: seq<Action>)
    requires cfg.Valid() && p in cfg.Members()
    requires Reached(cfg, p, y)
    ensures Looks(cfg, Exec(cfg, run), p, ANSWERED, y, multiset{}) && Exec(cfg, run).unacked <= Failing(cfg, p, y)
  {
    run := ResolveAll(cfg, p, y, |cfg.replicators|);
    assert From(cfg.replicators, |cfg.replicators|) == {};
    run := OwnHop(cfg, run, cfg.coordinator, FinishWill);
    assert Exec(cfg, run).site[cfg.coordinator] == FRESH.(main := Returned(Commit));
    run := OwnHop(cfg, run, cfg.coordinator, Spawn);
    var x := FRESH.(main := Replying(Commit), fin := FLog(LRead));
    assert Exec(cfg, run).site[cfg.coordinator] == x;
    assert Move(cfg, x, Reply) == ANSWERED;
    run := OwnHop(cfg, run, cfg.coordinator, Reply);
  }

  // ---------------------------------------------------------------------------------------
  // Two-sided agreement

  /** The participant gives up waiting, has read its log and is about to write ABORT. */
  lemma GiveUp(cfg: Config, p: Host, y: Site) returns (run: seq<Action>)
    requires cfg.Valid() && p in cfg.Members()
    requires Reached(cfg, p, y)
    ensures Looks(cfg, Exec(cfg, run), p, ANSWERED, y.(main := TermWrite(WORKING)), multiset{})
    ensures Exec(cfg, run).unacked <= Failing(cfg, p, y)
  {
    run := Answer(cfg, p, y);
    run := OwnHop(cfg, run, p, WaitTimeout);
    assert Exec(cfg, run).site[p] == y.(main := TermRead);
    assert Move(cfg, y.(main := TermRead), DoRead) == y.(main := TermWrite(WORKING));
    run := OwnHop(cfg, run, p, DoRead);
  }

  /** Without any crash, the client is told COMMIT while participant `p` returns ABORT. */
  lemma AgreementFails(cfg: Config, p: Host) returns (run: seq<Action>)
    requires cfg.Valid() && p in cfg.Members()
    ensures var s := Exec(cfg, run);
      && s.site[cfg.coordinator].main == Done(Commit, Answered) && s.site[p].main == Done(Abort, TimedOut(WORKING))
      && forall h :: h in cfg.Hosts() ==> s.site[h].up
  {
    run := GiveUp(cfg, p, VOTED);
    run := OwnHop(cfg, run, p, DoWrite);
  }

  /** Agreement between the client's answer and the participants' return values, in every run. */
  ghost predicate TwoSided(cfg: Config) {
    forall run, p ::
      p in cfg.Members() && Exec(cfg, run).site[p].main.Done? && Exec(cfg, run).site[cfg.coordinator].main.Done? ==>
      Exec(cfg, run).site[p].main.decision == Exec(cfg, run).site[cfg.coordinator].main.decision
  }

  /** Only the answer COMMIT can be contradicted: when the client is told ABORT, no participant commits. */
  lemma AbortAgrees(cfg: Config, run: seq<Action>, p: Host)
    requires cfg.Valid() && p in cfg.Members()
    requires Exec(cfg, run).site[cfg.coordinator].main == Done(Abort, Answered) && Exec(cfg, run).site[p].main.Done?
    ensures Exec(cfg, run).site[p].main.decision == Abort
  {
    AbortMeansNobodyCommits(cfg, run, [], p);
    assert run + [] == run;
  }

  /** It holds only for transactions without participants. */
  lemma TwoSidedIff(cfg: Config)
    requires cfg.Valid()
    ensures TwoSided(cfg) <==> cfg.participants == []
  {
    if cfg.participants != [] {
      var run := AgreementFails(cfg, cfg.participants[0]);
      assert Exec(cfg, run).site[cfg.participants[0]].main.Done?;
    }
  }

  // ---------------------------------------------------------------------------------------
  // Keeping a written COMMIT

  const OVERWRITTEN := VOTED.(main := Done(Abort, TimedOut(WORKING)), repl := RDone, log := ABORT, written := true)

  /** The replicator on the host of `p` times out and writes COMMIT between the two halves of the
      participant's read-then-write on the same log, which then puts ABORT there. */
  lemma Overwrite(cfg: Config, p: Host) returns (run: seq<Action>)
    requires cfg.Valid() && p in cfg.Members() && p in cfg.Backups()
    ensures Looks(cfg, Exec(cfg, run), p, ANSWERED, OVERWRITTEN, multiset{})
    ensures Exec(cfg, run).unacked <= cfg.Backups() - {p}
  {
    run := GiveUp(cfg, p, LAUNCHED);
    var y := VOTED.(main := TermWrite(WORKING));
    run := OwnHop(cfg, run, p, Register);
    assert Exec(cfg, run).site[p] == y.(repl := RWait);
    run := OwnHop(cfg, run, p, ReplTimeout);
    assert Exec(cfg, run).site[p] == y.(repl := RLog(LRead));
    run := ReplicateLate(cfg, p, run);
  }

  lemma ReplicateLate(cfg: Config, p: Host, before: seq<Action>) returns (run: seq<Action>)
    requires cfg.Valid() && p in cfg.Members() && Exec(cfg, before).unacked <= cfg.Backups() - {p}
    requires var y := VOTED.(main := TermWrite(WORKING), repl := RLog(LRead));
      Looks(cfg, Exec(cfg, before), p, ANSWERED, y, multiset{})
    ensures Looks(cfg, Exec(cfg, run), p, ANSWERED, OVERWRITTEN, multiset{})
    ensures Exec(cfg, run).unacked <= cfg.Backups() - {p}
  {
    var y := VOTED.(main := TermWrite(WORKING));
    run := OwnHop(cfg, before, p, ReplLog(LogRead));
    assert Exec(cfg, run).site[p] == y.(repl := RLog(LWrite(WORKING)));
    run := OwnHop(cfg, run, p, ReplLog(LogWrite));
    assert Exec(cfg, run).site[p] == y.(repl := RLog(LEnd), log := COMMIT, written := true);
    run := OwnHop(cfg, run, p, ReplEnd);
    assert Exec(cfg, run).site[p] == y.(repl := RDone, log := COMMIT, written := true);
    run := OwnHop(cfg, run, p, DoWrite);
  }

  /** A written COMMIT stays, in every run. */
  ghost predicate CommitStays(cfg: Config) {
    forall run, h :: h in cfg.Hosts() && Exec(cfg, run).site[h].written ==> Exec(cfg, run).site[h].log == COMMIT
  }

  /** It does exactly when no replicator takes part in the transaction. */
  lemma CommitStaysIff(cfg: Config)
    requires cfg.Valid()
    ensures CommitStays(cfg) <==> cfg.Members() !! cfg.Backups()
  {
    if cfg.Members() !! cfg.Backups() {
      forall run, h | h in cfg.Hosts() && Exec(cfg, run).site[h].written ensures Exec(cfg, run).site[h].log == COMMIT {
        DisjointRolesKeepCommit(cfg, run, h);
      }
    } else {
      var p :| p in cfg.Members() && p in cfg.Backups();
      var run := Overwrite(cfg, p);
      assert Exec(cfg, run).site[p].written;
    }
  }

  /** All these hosts crash. */
  lemma {:induction false} CrashAll(cfg: Config, before: seq<Action>, dead: set<Host>) returns (run: seq<Action>)
    requires dead <= cfg.Hosts()
    ensures var s, t := Exec(cfg, before), Exec(cfg, run);
      && t.unacked == s.unacked
      && forall h :: h in cfg.Hosts() ==> t.site[h] == s.site[h].(up := s.site[h].up && h !in dead)
  {
    if dead == {} {
      run := before;
    } else {
      var h :| h in dead;
      run := CrashAll(cfg, before, dead - {h});
      ExecMore(cfg, run, Crash(h));
      run := run + [Crash(h)];
    }
  }

  /** The entry itself can be lost whenever a replicator also takes part: at most f crashes, WILLCOMMIT
      with every live replicator, and the client was told COMMIT, yet no log holds COMMIT and nobody owes it
      any more. */
  lemma CommitLost(cfg: Config, p: Host) returns (run: seq<Action>)
    requires cfg.Valid() && p in cfg.Members() && p in cfg.Backups()
    ensures Tolerated(cfg, Exec(cfg, run)) && !StoredOrOwed(cfg, Exec(cfg, run))
  {
    hide ExecFrom, Exec, Looks, Tolerated, StoredOrOwed;
    var before := Overwrite(cfg, p);
    run := CrashAll(cfg, before, AllBut(cfg, p));
    LooksLive(cfg, Exec(cfg, before), p);
    CrashesTolerated(cfg, Exec(cfg, run), p);
    NothingLeft(cfg, Exec(cfg, before), Exec(cfg, run), p);
  }

  /** The coordinator and all replicators but one: f hosts. */
  function AllBut(cfg: Config, p: Host): set<Host> {
    cfg.Backups() - {p} + {cfg.coordinator}
  }

  lemma AllButSize(cfg: Config, p: Host)
    requires cfg.Valid() && p in cfg.Backups()
    ensures |AllBut(cfg, p)| == |cfg.replicators|
  {
    DistinctSize(cfg.replicators);
    assert |cfg.Backups() - {p}| == |cfg.replicators| - 1;
  }

  lemma CrashesTolerated(cfg: Config, t: State, p: Host)
    requires cfg.Valid() && p in cfg.Members() && p in cfg.Backups() && WF(cfg, t)
    requires t.site[cfg.coordinator].main == Done(Commit, Answered) && t.unacked <= cfg.Backups() - {p}
    requires forall h :: h in cfg.Hosts() ==> (t.site[h].up <==> h !in AllBut(cfg, p))
    ensures Tolerated(cfg, t)
  {
    assert Crashed(cfg, t) <= AllBut(cfg, p);
    SubsetSize(Crashed(cfg, t), AllBut(cfg, p));
    AllButSize(cfg, p);
  }

  lemma LooksLive(cfg: Config, s: State, p: Host)
    requires WF(cfg, s) && p in cfg.Members() && Looks(cfg, s, p, ANSWERED, OVERWRITTEN, multiset{})
    ensures s.site[cfg.coordinator].main == Done(Commit, Answered)
    ensures forall h :: h in cfg.Hosts() ==> s.site[h].up
  {
  }

  lemma NothingLeft(cfg: Config, s: State, t: State, p: Host)
    requires cfg.Valid() && p in cfg.Members() && p in cfg.Backups() && WF(cfg, s) && WF(cfg, t)
    requires Looks(cfg, s, p, ANSWERED, OVERWRITTEN, multiset{})
    requires forall h :: h in cfg.Hosts() ==>
      t.site[h] == s.site[h].(up := s.site[h].up && h !in AllBut(cfg, p))
    ensures !StoredOrOwed(cfg, t)
  {
    forall h | h in cfg.Hosts() ensures t.site[h].log != COMMIT && !FinOwes(t.site[h]) && !ReplOwes(t.site[h]) {
      if h != cfg.coordinator && h != p { assert Quiet(s.site[h]); }
    }
  }

  /** Stored durability: whatever happens within the tolerated faults, COMMIT is stored or owed. */
  ghost predicate StaysDurable(cfg: Config) {
    forall run :: Tolerated(cfg, Exec(cfg, run)) ==> StoredOrOwed(cfg, Exec(cfg, run))
  }

  /** It holds exactly when no replicator takes part in the transaction. */
  lemma DurabilityStoredIff(cfg: Config)
    requires cfg.Valid()
    ensures StaysDurable(cfg) <==> cfg.Members() !! cfg.Backups()
  {
    if cfg.Members() !! cfg.Backups() {
      forall run | Tolerated(cfg, Exec(cfg, run)) ensures StoredOrOwed(cfg, Exec(cfg, run)) {
        DurabilityStored(cfg, run);
      }
    } else {
      var p :| p in cfg.Members() && p in cfg.Backups();
      var run := CommitLost(cfg, p);
      assert Tolerated(cfg, Exec(cfg, run));
    }
  }

  // ---------------------------------------------------------------------------------------
  // What the delivery of WILLCOMMIT is worth

  /** The coordinator never looks at how its WILLCOMMIT calls end. When all of them fail, its own crash is
      enough: all others are up, the client was told COMMIT, and COMMIT is neither written nor owed. */
  lemma AllCallsFail(cfg: Config) returns (run: seq<Action>)
    requires cfg.Valid() && cfg.participants != []
    ensures var s := Exec(cfg, run);
      && s.site[cfg.coordinator].main == Done(Commit, Answered)
      && (forall h :: h in cfg.Hosts() ==> (s.site[h].up <==> h != cfg.coordinator))
      && !SomeWritten(cfg, s) && !StoredOrOwed(cfg, s)
  {
    hide ExecFrom, Exec;
    var p := cfg.participants[0];
    assert p in cfg.Members();
    run := Answer(cfg, p, VOTED);
    var s := Exec(cfg, run);
    run := CrashAll(cfg, run, {cfg.coordinator});
    LooksQuiet(cfg, s, p);
  }

  lemma LooksQuiet(cfg: Config, s: State, p: Host)
    requires WF(cfg, s) && p in cfg.Members() && cfg.Valid() && Looks(cfg, s, p, ANSWERED, VOTED, multiset{})
    ensures s.site[cfg.coordinator] == ANSWERED
    ensures forall h :: h in cfg.Hosts() && h != cfg.coordinator ==> Quiet(s.site[h])
  {
  }

  /** With at most k crashes of the coordinator and its replicators, and no matter what WILLCOMMIT
      reached, COMMIT is always stored or owed once the client was told. */
  ghost predicate SurvivesUndelivered(cfg: Config, k: nat) {
    forall run ::
      Exec(cfg, run).site[cfg.coordinator].main == Done(Commit, Answered) && |Crashed(cfg, Exec(cfg, run))| <= k ==>
      StoredOrOwed(cfg, Exec(cfg, run))
  }

  /** Without the delivery of WILLCOMMIT no crash at all is tolerated, whatever f is. */
  lemma SurvivesUndeliveredIff(cfg: Config, k: nat)
    requires cfg.Valid()
    ensures SurvivesUndelivered(cfg, k) <==> k == 0 || cfg.participants == []
  {
    hide ExecFrom, Exec, StoredOrOwed;
    if k == 0 || cfg.participants == [] {
      forall run | Exec(cfg, run).site[cfg.coordinator].main == Done(Commit, Answered)
          && |Crashed(cfg, Exec(cfg, run))| <= k
        ensures StoredOrOwed(cfg, Exec(cfg, run))
      {
        CommitNeedsVoters(cfg, run);
        NobodyCrashed(cfg, Exec(cfg, run));
        LiveCoordinatorDurable(cfg, run);
      }
    } else {
      var run := AllCallsFail(cfg);
      OneCrash(cfg, Exec(cfg, run));
    }
  }

  lemma NobodyCrashed(cfg: Config, s: State)
    requires WF(cfg, s) && |Crashed(cfg, s)| == 0
    ensures s.site[cfg.coordinator].up
  {
    assert Crashed(cfg, s) == {};
    assert cfg.coordinator !in Crashed(cfg, s);
  }

  lemma OneCrash(cfg: Config, s: State)
    requires WF(cfg, s) && forall h :: h in cfg.Hosts() ==> (s.site[h].up <==> h != cfg.coordinator)
    ensures |Crashed(cfg, s)| == 1
  {
    assert Crashed(cfg, s) == {cfg.coordinator};
  }
}
