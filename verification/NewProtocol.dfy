/**
  Cornus 2 (the "New" version) as a labelled transition system for one transaction. A host may run two
  handlers: the coordinator also its background finishing thread, a participant also a replicator. They
  share the host's transaction log.
 */
module NewProtocol {
  import opened Domain

  datatype Config = Config(coordinator: Host, participants: seq<Host>, replicators: seq<Host>) {
    ghost predicate Valid() {
      && Distinct(participants) && Distinct(replicators)
      && coordinator !in participants && coordinator !in replicators
    }
    function Members(): set<Host> { set p | p in participants }
    function Backups(): set<Host> { set r | r in replicators }
    function Hosts(): set<Host> { Members() + Backups() + {coordinator} }
  }

  datatype Kind = VoteReqKind | VoteYesKind | AbortKind | CommitKind | WillKind | CompletedKind | OverrideKind

  /** The handlers never look at `src`; it only serves the invariants. */
  datatype Msg = Msg(kind: Kind, src: Host, dst: Host)

  /** How a handler came to return: it answered the client, its worker refused, it was told, or it timed
      out and found `read` in its log. */
  datatype Via = Answered | Refused | Told | TimedOut(read: Word)

  /** `pending` are the hosts still to be sent to, `waiting` those whose calls have not ended yet; `Said`
      waits for the call that carried the vote. */
  datatype MainPC =
    | SendReqs(pending: set<Host>, waiting: set<Host>)
    | Collect(votes: nat)
    | SendWill(pending: set<Host>)
    | AwaitWill(waiting: set<Host>)
    | Returned(decision: Decision)
    | Replying(decision: Decision)

    | Idle
    | Vote
    | SayYes
    | SayNo
    | Said(yes: bool)
    | Wait
    | TermRead
    | TermWrite(read: Word)

    | Done(decision: Decision, via: Via)
    | Failed

  /** logFinal("COMMIT", ...): read the log, write COMMIT unless it is there, override if it was ABORT. */
  datatype LogPC = LRead | LWrite(prev: Word) | LOverride(pending: set<Host>, waiting: set<Host>) | LEnd

  datatype FinPC =
    | FNone
    | FLog(log: LogPC)
    | FComplete(pending: set<Host>, waiting: set<Host>)
    | FTell(decision: Decision, pending: set<Host>, waiting: set<Host>)
    | FDone

  datatype ReplPC = RIdle | RLaunched | RWait | RLog(log: LogPC) | RDone

  /** `saidYes` (the worker agreed) and `written` (COMMIT has been written to the log at this address)
      are history variables. `overridden`: a Committer ran here, so the worker was told to commit. */
  datatype Site = Site(
    main: MainPC, inbox: seq<Msg>,
    fin: FinPC,
    repl: ReplPC, replInbox: seq<Msg>,
    log: Word, up: bool, overridden: bool,
    saidYes: bool, written: bool)
  {
    /** A request reaches the host and is routed to the handler map its type belongs to; a handler
        that is not in its map misses it. */
    function Receive(m: Msg): Site {
      if !up then this
      else
        match m.kind
        case VoteReqKind => if main.Idle? then this.(main := Vote) else this
        case WillKind => if repl.RIdle? then this.(repl := RLaunched) else this
        case OverrideKind => this.(overridden := true)
        case CompletedKind => if repl.RWait? || repl.RLog? then this.(replInbox := replInbox + [m]) else this
        case _ => if main.Idle? || main.Done? || main.Failed? then this else this.(inbox := inbox + [m])
    }
  }

  /** `counted` (whose yes-votes were counted) and `unacked` (whose WILLCOMMIT call failed) are history
      variables. */
  datatype State = State(site: map<Host, Site>, net: multiset<Msg>, counted: set<Host>, unacked: set<Host>) {
    function Set(h: Host, x: Site): State { this.(site := site[h := x]) }
  }

  datatype LogOp = LogRead | LogWrite | Override(to: Host) | OverrideCallEnds(to: Host) | OverrideEnd

  datatype Op =
    // coordinator
    | SendReq(to: Host)
    | ReqCallEnds(to: Host)
    | StartCollect
    | TakeVote
    | CollectTimeout
    | SendWillTo(to: Host)
    | StartAwait
    | Resolve(to: Host, acked: bool)
    | FinishWill
    | Spawn
    | Reply
    // participant
    | CastVote(yes: bool)
    | SayVote
    | VoteCallEnds
    | TakeDecision
    | WaitTimeout
    | DoRead
    | DoWrite
    // finishing thread
    | FinLog(k: LogOp)
    | FinLogged
    | Complete(to: Host)
    | CompleteCallEnds(to: Host)
    | StartTell
    | TellOne(to: Host)
    | TellCallEnds(to: Host)
    | TellEnd
    // replicator
    | Register
    | ReplTake
    | ReplTimeout
    | ReplLog(k: LogOp)
    | ReplEnd
  {
    predicate Main() {
      SendReq? || ReqCallEnds? || StartCollect? || TakeVote? || CollectTimeout? || SendWillTo? || StartAwait? ||
      Resolve? || FinishWill? || Spawn? || Reply? || CastVote? || SayVote? || VoteCallEnds? || TakeDecision? ||
      WaitTimeout? || DoRead? || DoWrite?
    }
    predicate Fin() {
      FinLog? || FinLogged? || Complete? || CompleteCallEnds? || StartTell? || TellOne? || TellCallEnds? || TellEnd?
    }
  }

  datatype Action =
    | Own(host: Host, op: Op)
    | Deliver(msg: Msg)
    | Lose(msg: Msg)
    | Crash(host: Host)

  ghost predicate WF(cfg: Config, s: State) {
    forall h :: h in cfg.Hosts() ==> h in s.site
  }

  function Init(cfg: Config): State {
    State(
      map h | h in cfg.Hosts() ::
        Site(if h == cfg.coordinator then SendReqs(cfg.Members(), cfg.Members()) else Idle, [], FNone, RIdle, [],
             WORKING, true, false, false, false),
      multiset{}, {}, {})
  }

  predicate LogReady(l: LogPC, k: LogOp) {
    match k
    case LogRead => l.LRead?
    case LogWrite => l.LWrite?
    case Override(to) => l.LOverride? && to in l.pending
    case OverrideCallEnds(to) => l.LOverride? && to in l.waiting && to !in l.pending
    case OverrideEnd => l.LOverride? && l.pending == {} && l.waiting == {}
  }

  /** Whether the handlers standing at `x` can perform the step now. */
  predicate Ready(x: Site, op: Op) {
    x.up &&
    match op
    case SendReq(to) => x.main.SendReqs? && to in x.main.pending
    case ReqCallEnds(to) => x.main.SendReqs? && to in x.main.waiting && to !in x.main.pending
    case StartCollect => x.main == SendReqs({}, {})
    case TakeVote => x.main.Collect? && x.inbox != []
    case CollectTimeout => x.main.Collect? && x.inbox == []
    case SendWillTo(to) => x.main.SendWill? && to in x.main.pending
    case StartAwait => x.main == SendWill({})
    case Resolve(to, _) => x.main.AwaitWill? && to in x.main.waiting
    case FinishWill => x.main == AwaitWill({})
    case Spawn => x.main.Returned?
    case Reply => x.main.Replying?
    case CastVote(_) => x.main.Vote?
    case SayVote => x.main.SayYes? || x.main.SayNo?
    case VoteCallEnds => x.main.Said?
    case TakeDecision => x.main.Wait? && x.inbox != []
    case WaitTimeout => x.main.Wait? && x.inbox == []
    case DoRead => x.main.TermRead?
    case DoWrite => x.main.TermWrite?
    case FinLog(k) => x.fin.FLog? && LogReady(x.fin.log, k)
    case FinLogged => x.fin == FLog(LEnd)
    case Complete(to) => x.fin.FComplete? && to in x.fin.pending
    case CompleteCallEnds(to) => x.fin.FComplete? && to in x.fin.waiting && to !in x.fin.pending
    case StartTell => x.fin == FComplete({}, {})
    case TellOne(to) => x.fin.FTell? && to in x.fin.pending
    case TellCallEnds(to) => x.fin.FTell? && to in x.fin.waiting && to !in x.fin.pending
    case TellEnd => x.fin.FTell? && x.fin.pending == {} && x.fin.waiting == {}
    case Register => x.repl.RLaunched?
    case ReplTake => x.repl.RWait? && x.replInbox != []
    case ReplTimeout => x.repl.RWait? && x.replInbox == []
    case ReplLog(k) => x.repl.RLog? && LogReady(x.repl.log, k)
    case ReplEnd => x.repl == RLog(LEnd)
  }

  /** A call ends when the reply is there or the connection breaks, which may happen at any time. Only of
      the WILLCOMMIT calls it matters which: there a reply needs the server to have run the callback. */
  predicate Enabled(cfg: Config, s: State, a: Action)
    requires WF(cfg, s)
  {
    match a
    case Own(h, op) =>
      && h in cfg.Hosts() && Ready(s.site[h], op)
      && (op.Resolve? && op.acked ==> op.to in cfg.Hosts() && !s.site[op.to].repl.RIdle?)
    case Deliver(m) => m in s.net && m.dst in cfg.Hosts()
    case Lose(m) => m in s.net
    case Crash(h) => h in cfg.Hosts()
  }

  /** The coordinator's reaction to one request from its queue. */
  function CountVote(cfg: Config, votes: nat, kind: Kind): MainPC {
    match kind
    case VoteYesKind => if votes + 1 == |cfg.participants| then SendWill(cfg.Backups()) else Collect(votes + 1)
    case AbortKind => Returned(Abort)
    case _ => Collect(votes)
  }

  /** The participant's reaction to the first request from its queue. */
  function Obey(kind: Kind): MainPC {
    match kind
    case CommitKind => Done(Commit, Told)
    case AbortKind => Done(Abort, Told)
    case _ => Failed
  }

  function MainMove(cfg: Config, x: Site, op: Op): Site
    requires op.Main() && Ready(x, op)
  {
    match op
    case SendReq(to) => x.(main := SendReqs(x.main.pending - {to}, x.main.waiting))
    case ReqCallEnds(to) => x.(main := SendReqs(x.main.pending, x.main.waiting - {to}))
    case StartCollect => x.(main := Collect(0))
    case TakeVote => x.(main := CountVote(cfg, x.main.votes, x.inbox[0].kind), inbox := x.inbox[1..])
    case CollectTimeout => x.(main := Returned(Abort))
    case SendWillTo(to) => x.(main := SendWill(x.main.pending - {to}))
    case StartAwait => x.(main := AwaitWill(cfg.Backups()))
    case Resolve(to, _) => x.(main := AwaitWill(x.main.waiting - {to}))
    case FinishWill => x.(main := Returned(Commit))
    case Spawn =>
      x.(main := Replying(x.main.decision),
         fin := if x.main.decision == Commit then FLog(LRead) else FTell(Abort, cfg.Members(), cfg.Members()))
    case Reply => x.(main := Done(x.main.decision, Answered))
    case CastVote(yes) => if yes then x.(main := SayYes, saidYes := true) else x.(main := SayNo)
    case SayVote => x.(main := Said(x.main.SayYes?))
    case VoteCallEnds => x.(main := if x.main.yes then Wait else Done(Abort, Refused))
    case TakeDecision => x.(main := Obey(x.inbox[0].kind), inbox := x.inbox[1..])
    case WaitTimeout => x.(main := TermRead)
    case DoRead =>
      x.(main :=
        if x.log == COMMIT then Done(Commit, TimedOut(COMMIT))
        else if x.log == ABORT then Done(Abort, TimedOut(ABORT))
        else TermWrite(x.log))
    case DoWrite => x.(main := Done(Abort, TimedOut(x.main.read)), log := ABORT)
  }

  /** One step of logFinal; the log is the one at the address of the host that runs it. */
  function LogMove(cfg: Config, l: LogPC, log: Word, k: LogOp): LogPC
    requires LogReady(l, k)
  {
    match k
    case LogRead => if log == COMMIT then LEnd else LWrite(log)
    case LogWrite => if l.prev == ABORT then LOverride(cfg.Members(), cfg.Members()) else LEnd
    case Override(to) => LOverride(l.pending - {to}, l.waiting)
    case OverrideCallEnds(to) => LOverride(l.pending, l.waiting - {to})
    case OverrideEnd => LEnd
  }

  function LogEffect(x: Site, k: LogOp): Site {
    if k.LogWrite? then x.(log := COMMIT, written := true) else x
  }

  function FinMove(cfg: Config, x: Site, op: Op): Site
    requires op.Fin() && Ready(x, op)
  {
    match op
    case FinLog(k) => LogEffect(x, k).(fin := FLog(LogMove(cfg, x.fin.log, x.log, k)))
    case FinLogged => x.(fin := FComplete(cfg.Backups(), cfg.Backups()))
    case Complete(to) => x.(fin := FComplete(x.fin.pending - {to}, x.fin.waiting))
    case CompleteCallEnds(to) => x.(fin := FComplete(x.fin.pending, x.fin.waiting - {to}))
    case StartTell => x.(fin := FTell(Commit, cfg.Members(), cfg.Members()))
    case TellOne(to) => x.(fin := FTell(x.fin.decision, x.fin.pending - {to}, x.fin.waiting))
    case TellCallEnds(to) => x.(fin := FTell(x.fin.decision, x.fin.pending, x.fin.waiting - {to}))
    case TellEnd => x.(fin := FDone)
  }

  function ReplMove(cfg: Config, x: Site, op: Op): Site
    requires !op.Main() && !op.Fin() && Ready(x, op)
  {
    match op
    case Register => x.(repl := RWait)
    case ReplTake =>
      x.(repl := if x.replInbox[0].kind.CompletedKind? then RDone else RLog(LRead), replInbox := x.replInbox[1..])
    case ReplTimeout => x.(repl := RLog(LRead))
    case ReplLog(k) => LogEffect(x, k).(repl := RLog(LogMove(cfg, x.repl.log, x.log, k)))
    case ReplEnd => x.(repl := RDone)
  }

  function Move(cfg: Config, x: Site, op: Op): Site
    requires Ready(x, op)
  {
    if op.Main() then MainMove(cfg, x, op)
    else if op.Fin() then FinMove(cfg, x, op)
    else ReplMove(cfg, x, op)
  }

  /** The message a step sends, if any. */
  function Sent(cfg: Config, h: Host, x: Site, op: Op): multiset<Msg>
    requires Ready(x, op)
  {
    match op
    case SendReq(to) => multiset{Msg(VoteReqKind, h, to)}
    case SendWillTo(to) => multiset{Msg(WillKind, h, to)}
    case SayVote => multiset{Msg(if x.main.SayYes? then VoteYesKind else AbortKind, h, cfg.coordinator)}
    case FinLog(Override(to)) => multiset{Msg(OverrideKind, h, to)}
    case ReplLog(Override(to)) => multiset{Msg(OverrideKind, h, to)}
    case Complete(to) => multiset{Msg(CompletedKind, h, to)}
    case TellOne(to) => multiset{Msg(if x.fin.decision == Commit then CommitKind else AbortKind, h, to)}
    case _ => multiset{}
  }

  function Step(cfg: Config, s: State, a: Action): (s': State)
    requires WF(cfg, s) && Enabled(cfg, s, a)
    ensures WF(cfg, s')
  {
    match a
    case Own(h, op) =>
      var x := s.site[h];
      State(
        s.site[h := Move(cfg, x, op)],
        s.net + Sent(cfg, h, x, op),
        if op.TakeVote? && x.inbox[0].kind.VoteYesKind? then s.counted + {x.inbox[0].src} else s.counted,
        if op.Resolve? && !op.acked then s.unacked + {op.to} else s.unacked)
    case Deliver(m) => s.Set(m.dst, s.site[m.dst].Receive(m)).(net := s.net - multiset{m})
    case Lose(m) => s.(net := s.net - multiset{m})
    case Crash(h) => s.Set(h, s.site[h].(up := false))
  }

  function Do(cfg: Config, s: State, a: Action): (s': State)
    requires WF(cfg, s)
    ensures WF(cfg, s')
  {
    if Enabled(cfg, s, a) then Step(cfg, s, a) else s
  }

  function ExecFrom(cfg: Config, s: State, schedule: seq<Action>): (s': State)
    requires WF(cfg, s)
    ensures WF(cfg, s')
  {
    if schedule == [] then s
    else Do(cfg, ExecFrom(cfg, s, schedule[..|schedule| - 1]), schedule[|schedule| - 1])
  }

  /** The state a schedule leads to from the start of the transaction. */
  function Exec(cfg: Config, schedule: seq<Action>): (s: State)
    ensures WF(cfg, s)
  {
    ExecFrom(cfg, Init(cfg), schedule)
  }
}
