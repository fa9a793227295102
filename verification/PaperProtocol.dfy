/**
  Cornus 1 (the "Paper" version) as a labelled transition system for one transaction.
  One action is one log call, one send, one receive, one timeout, or one fault.
 */
module PaperProtocol {
  import opened Domain

  datatype Config = Config(coordinator: Host, participants: seq<Host>) {
    ghost predicate Valid() {
      Distinct(participants) && coordinator !in participants
    }
    function Members(): set<Host> { set p | p in participants }
    function Hosts(): set<Host> { Members() + {coordinator} }
  }

  datatype Kind = VoteReqKind | VoteYesKind | AbortKind | CommitKind

  /** The handlers never look at `src`; it only serves the invariants. */
  datatype Msg = Msg(kind: Kind, src: Host, dst: Host)

  /** Where a handler stands. The first group is the coordinator's, the second the participants'.
      `pending` are the hosts still to be sent to, `waiting` those whose calls have not ended yet; `Said`
      waits for the call that carried the vote. */
  datatype PC =
    | SendReqs(pending: set<Host>, waiting: set<Host>)
    | Collect(votes: nat)
    | Tell(decision: Decision, pending: set<Host>, waiting: set<Host>)

    | Idle
    | Vote
    | Claim
    | SayYes
    | SayNo
    | Said(yes: bool)
    | Wait
    | Write(decision: Decision)

    | Term(next: nat)
    | Done(decision: Decision)
    | Failed

  /** A host: its handler, the handler's message queue, and the transaction log kept at its address.
      `first` (the first value the log took) and `saidNo` (the worker refused) are history
      variables: no guard and no effect on the other fields looks at them. */
  datatype Site = Site(pc: PC, inbox: seq<Msg>, log: Word, up: bool, first: Word, saidNo: bool) {

    /** LOG_ONCE on the log at this address. */
    function LogOnce(data: Word): Site {
      this.(log := Once(log, data), first := if log == WORKING then data else first)
    }

    /** The handler map of the host has an entry for the transaction. */
    predicate Registered() {
      !pc.Idle? && !pc.Done? && !pc.Failed?
    }

    /** A request reaches the host: a vote request starts the handler, anything else is queued
        if the handler is registered and dropped otherwise. */
    function Receive(m: Msg): Site {
      if !up then this
      else if m.kind == VoteReqKind then (if pc.Idle? then this.(pc := Vote) else this)
      else if Registered() then this.(inbox := inbox + [m])
      else this
    }
  }

  /** `counted` (whose yes-votes were counted) and `timedOut` (someone timed out) are history variables. */
  datatype State = State(site: map<Host, Site>, net: multiset<Msg>, counted: set<Host>, timedOut: bool) {
    function Set(h: Host, x: Site): State { this.(site := site[h := x]) }
  }

  /** What a handler can do in one step. A call ends when the reply is there or the connection breaks,
      which may happen at any time; the handlers never look at the reply. */
  datatype Op =
    // coordinator
    | SendReq(to: Host)
    | StartCollect
    | TakeVote
    | TellOne(to: Host)
    | CallEnds(to: Host)
    | Reply
    // participant
    | CastVote(yes: bool)
    | ClaimLog
    | SayVote
    | VoteCallEnds
    | TakeDecision
    | WriteLog
    // both
    | Timeout
    | TermOnce
    | TermEnd

  datatype Action =
    | Own(host: Host, op: Op)
    | Deliver(msg: Msg)
    | Lose(msg: Msg)
    | Crash(host: Host)

  ghost predicate WF(cfg: Config, s: State) {
    forall h :: h in cfg.Hosts() ==> h in s.site
  }

  function Init(cfg: Config): State {
    State(
      map h | h in cfg.Hosts() ::
        Site(if h == cfg.coordinator then SendReqs(cfg.Members(), cfg.Members()) else Idle,
             [], WORKING, true, WORKING, false),
      multiset{}, {}, false)
  }

  /** Whether a handler standing at `x` can perform the step now. A queue with a message in it never
      times out. */
  predicate Ready(cfg: Config, x: Site, op: Op) {
    x.up &&
    match op
    case SendReq(to) => x.pc.SendReqs? && to in x.pc.pending
    case StartCollect => x.pc == SendReqs({}, {})
    case TakeVote => x.pc.Collect? && x.inbox != []
    case TellOne(to) => x.pc.Tell? && to in x.pc.pending
    case CallEnds(to) => (x.pc.SendReqs? || x.pc.Tell?) && to in x.pc.waiting && to !in x.pc.pending
    case Reply => x.pc.Tell? && x.pc.pending == {} && x.pc.waiting == {}
    case CastVote(_) => x.pc.Vote?
    case ClaimLog => x.pc.Claim?
    case SayVote => x.pc.SayYes? || x.pc.SayNo?
    case VoteCallEnds => x.pc.Said?
    case TakeDecision => x.pc.Wait? && x.inbox != []
    case WriteLog => x.pc.Write?
    case Timeout => (x.pc.Collect? || x.pc.Wait?) && x.inbox == []
    case TermOnce => x.pc.Term? && x.pc.next < |cfg.participants|
    case TermEnd => x.pc.Term? && x.pc.next >= |cfg.participants|
  }

  predicate Enabled(cfg: Config, s: State, a: Action)
    requires WF(cfg, s)
  {
    match a
    case Own(h, op) => h in cfg.Hosts() && Ready(cfg, s.site[h], op)
    case Deliver(m) => m in s.net && m.dst in cfg.Hosts()
    case Lose(m) => m in s.net
    case Crash(h) => h in cfg.Hosts()
  }

  /** Where a handler goes once its decision is known. */
  function Decided(cfg: Config, h: Host, d: Decision): PC {
    if h == cfg.coordinator then Tell(d, cfg.Members(), cfg.Members()) else Write(d)
  }

  /** The coordinator's reaction to one request from its queue. */
  function CountVote(cfg: Config, votes: nat, kind: Kind): PC {
    match kind
    case VoteYesKind =>
      if votes + 1 == |cfg.participants| then Tell(Commit, cfg.Members(), cfg.Members()) else Collect(votes + 1)
    case AbortKind => Tell(Abort, cfg.Members(), cfg.Members())
    case _ => Collect(votes)
  }

  /** The participant's reaction to the first request from its queue. */
  function Obey(kind: Kind): PC {
    match kind
    case CommitKind => Write(Commit)
    case AbortKind => Write(Abort)
    case _ => Failed
  }

  /** One round of the termination loop, after the log answered `resp`. */
  function TermNext(cfg: Config, h: Host, next: nat, resp: Word): PC {
    match resp
    case ABORT => Decided(cfg, h, Abort)
    case COMMIT => Decided(cfg, h, Commit)
    case VOTEYES => Term(next + 1)
    case WORKING => Failed
  }

  /** What a step does to the host that performs it. `resp` is the answer of the log in a round of
      the termination loop. */
  function Move(cfg: Config, h: Host, x: Site, op: Op, resp: Word): Site
    requires Ready(cfg, x, op)
  {
    match op
    case SendReq(to) => x.(pc := SendReqs(x.pc.pending - {to}, x.pc.waiting))
    case StartCollect => x.(pc := Collect(0))
    case TakeVote => x.(pc := CountVote(cfg, x.pc.votes, x.inbox[0].kind), inbox := x.inbox[1..])
    case TellOne(to) => x.(pc := Tell(x.pc.decision, x.pc.pending - {to}, x.pc.waiting))
    case CallEnds(to) => x.(pc := x.pc.(waiting := x.pc.waiting - {to}))
    case Reply => x.(pc := Done(x.pc.decision))
    case CastVote(yes) => if yes then x.(pc := Claim) else x.(pc := SayNo, saidNo := true)
    case ClaimLog => x.LogOnce(VOTEYES).(pc := if Once(x.log, VOTEYES) == VOTEYES then SayYes else SayNo)
    case SayVote => x.(pc := Said(x.pc.SayYes?))
    case VoteCallEnds => x.(pc := if x.pc.yes then Wait else Done(Abort))
    case TakeDecision => x.(pc := Obey(x.inbox[0].kind), inbox := x.inbox[1..])
    case WriteLog => x.(pc := Done(x.pc.decision), log := x.pc.decision.AsWord())
    case Timeout => x.(pc := Term(0))
    case TermOnce => x.(pc := TermNext(cfg, h, x.pc.next, resp))
    case TermEnd => x.(pc := Decided(cfg, h, Commit))
  }

  /** The message a step sends, if any. */
  function Sent(cfg: Config, h: Host, x: Site, op: Op): multiset<Msg>
    requires Ready(cfg, x, op)
  {
    match op
    case SendReq(to) => multiset{Msg(VoteReqKind, h, to)}
    case TellOne(to) => multiset{Msg(if x.pc.decision == Commit then CommitKind else AbortKind, h, to)}
    case SayVote => multiset{Msg(if x.pc.SayYes? then VoteYesKind else AbortKind, h, cfg.coordinator)}
    case _ => multiset{}
  }

  /** The senders whose yes-votes have been counted after the step. */
  function Counted(cfg: Config, x: Site, op: Op, counted: set<Host>): set<Host>
    requires Ready(cfg, x, op)
  {
    if op.TakeVote? && x.inbox[0].kind.VoteYesKind? then counted + {x.inbox[0].src} else counted
  }

  /** The participant whose log a handler in its termination loop turns to next. */
  function Target(cfg: Config, x: Site): Host
    requires x.pc.Term? && x.pc.next < |cfg.participants|
  {
    cfg.participants[x.pc.next]
  }

  /** A handler's step. A round of the termination loop first logs ABORT at the next participant's
      address; the answer is what that log then holds. */
  function OwnStep(cfg: Config, s: State, h: Host, op: Op): (s': State)
    requires WF(cfg, s) && h in cfg.Hosts() && Ready(cfg, s.site[h], op)
    ensures WF(cfg, s')
  {
    var x := s.site[h];
    if op.TermOnce? then
      var p := Target(cfg, x);
      var y := s.site[p].LogOnce(ABORT);
      var s := s.Set(p, y);
      s.Set(h, Move(cfg, h, s.site[h], op, y.log))
    else
      State(s.site[h := Move(cfg, h, x, op, WORKING)], s.net + Sent(cfg, h, x, op),
            Counted(cfg, x, op, s.counted), s.timedOut || op.Timeout?)
  }

  function Step(cfg: Config, s: State, a: Action): (s': State)
    requires WF(cfg, s) && Enabled(cfg, s, a)
    ensures WF(cfg, s')
  {
    match a
    case Own(h, op) => OwnStep(cfg, s, h, op)
    case Deliver(m) => s.Set(m.dst, s.site[m.dst].Receive(m)).(net := s.net - multiset{m})
    case Lose(m) => s.(net := s.net - multiset{m})
    case Crash(h) => s.Set(h, s.site[h].(up := false))
  }

  /** A scheduler may pick any action at any time; picking a disabled one changes nothing. */
  function Do(cfg: Config, s: State, a: Action): (s': State)
    requires WF(cfg, s)
    ensures WF(cfg, s')
  {
    if Enabled(cfg, s, a) then Step(cfg, s, a) else s
  }

  function ExecFrom(cfg: Config, s: State, schedule: seq<Action>): (s': State)
    requires WF(cfg, s)
    ensures WF(cfg, s')
  {
    if schedule == [] then s
    else Do(cfg, ExecFrom(cfg, s, schedule[..|schedule| - 1]), schedule[|schedule| - 1])
  }

  /** The state a schedule leads to from the start of the transaction. */
  function Exec(cfg: Config, schedule: seq<Action>): (s: State)
    ensures WF(cfg, s)
  {
    ExecFrom(cfg, Init(cfg), schedule)
  }
}
