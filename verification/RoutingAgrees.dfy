/** The protocols' transition systems receive requests as the nodes' front end routes them. */
module RoutingAgrees {
  import opened Domain
  import R = MessageRouting
  import C1 = PaperProtocol
  import C2 = NewProtocol
  import O1 = PaperOneHandler
  import O2 = NewOneHandler

  // ---------------------------------------------------------------------------------------
  // Cornus 1

  function PaperEndpoint(k: C1.Kind): R.Endpoint {
    match k
    case VoteReqKind => R.VOTEREQ
    case VoteYesKind => R.VOTEYES
    case AbortKind => R.ABORT
    case CommitKind => R.COMMIT
  }

  /** What a handler of Cornus 1 takes a message of this kind for. */
  function PaperType(k: C1.Kind): R.RequestType {
    match k
    case VoteReqKind => R.VoteReq
    case VoteYesKind => R.VoteYes
    case AbortKind => R.RequestType.Abort
    case CommitKind => R.RequestType.Commit
  }

  function PaperTypes(inbox: seq<C1.Msg>): seq<R.RequestType> {
    seq(|inbox|, i requires 0 <= i < |inbox| => PaperType(inbox[i].kind))
  }

  /** The entry of the handler map at this host. */
  function PaperEntry(x: C1.Site): Option<seq<R.RequestType>> {
    if x.Registered() then Some(PaperTypes(x.inbox)) else None
  }

  lemma PaperTypesMore(inbox: seq<C1.Msg>, m: C1.Msg)
    ensures PaperTypes(inbox + [m]) == PaperTypes(inbox) + [PaperType(m.kind)]
  {
  }

  /** A request changes the entry as the routing says; a second vote request would replace the handler. */
  lemma PaperReceives(x: C1.Site, m: C1.Msg, t: R.TransactionId)
    requires x.up && (x.pc.Idle? ==> x.inbox == []) && (m.kind.VoteReqKind? ==> x.pc.Idle?)
    ensures PaperEntry(x.Receive(m)) == R.Next(PaperEntry(x), R.Arrive(PaperEndpoint(m.kind), t), R.Handlers, t)
  {
    assert PaperTypes([]) == [];
    PaperTypesMore(x.inbox, m);
  }

  /** In every run every delivery to a live host does so: there is no second vote request. */
  lemma PaperDelivers(cfg: C1.Config, schedule: seq<C1.Action>, m: C1.Msg, t: R.TransactionId)
    requires cfg.Valid() && C1.Enabled(cfg, C1.Exec(cfg, schedule), C1.Deliver(m))
    requires C1.Exec(cfg, schedule).site[m.dst].up
    ensures var s := C1.Exec(cfg, schedule);
      PaperEntry(C1.Step(cfg, s, C1.Deliver(m)).site[m.dst]) ==
        R.Next(PaperEntry(s.site[m.dst]), R.Arrive(PaperEndpoint(m.kind), t), R.Handlers, t)
  {
    O1.AtMostOneHandler(cfg, schedule, m);
    PaperReceives(C1.Exec(cfg, schedule).site[m.dst], m, t);
  }

  // ---------------------------------------------------------------------------------------
  // Cornus 2

  function NewEndpoint(k: C2.Kind): R.Endpoint {
    match k
    case VoteReqKind => R.VOTEREQ
    case VoteYesKind => R.VOTEYES
    case AbortKind => R.ABORT
    case CommitKind => R.COMMIT
    case WillKind => R.WILLCOMMIT
    case CompletedKind => R.DECISIONCOMPLETED
    case OverrideKind => R.OVERRIDECOMMIT
  }

  /** What a handler of Cornus 2 takes a message of this kind for; OVERRIDECOMMIT means COMMIT to a Committer. */
  function NewType(k: C2.Kind): R.RequestType {
    match k
    case VoteReqKind => R.VoteReq
    case VoteYesKind => R.VoteYes
    case AbortKind => R.RequestType.Abort
    case CommitKind => R.RequestType.Commit
    case WillKind => R.WillCommit
    case CompletedKind => R.DecisionCompleted
    case OverrideKind => R.RequestType.Commit
  }

  function NewTypes(inbox: seq<C2.Msg>): seq<R.RequestType> {
    seq(|inbox|, i requires 0 <= i < |inbox| => NewType(inbox[i].kind))
  }

  function MainEntry(x: C2.Site): Option<seq<R.RequestType>> {
    if x.main.Idle? || x.main.Done? || x.main.Failed? then None else Some(NewTypes(x.inbox))
  }

  function ReplicatorEntry(x: C2.Site): Option<seq<R.RequestType>> {
    if x.repl.RWait? || x.repl.RLog? then Some(NewTypes(x.replInbox)) else None
  }

  lemma NewTypesMore(inbox: seq<C2.Msg>, m: C2.Msg)
    ensures NewTypes(inbox + [m]) == NewTypes(inbox) + [NewType(m.kind)]
  {
  }

  lemma NewReceivesMain(x: C2.Site, m: C2.Msg, t: R.TransactionId)
    requires x.up && (x.main.Idle? ==> x.inbox == []) && (m.kind.VoteReqKind? ==> x.main.Idle?)
    ensures MainEntry(x.Receive(m)) == R.Next(MainEntry(x), R.Arrive(NewEndpoint(m.kind), t), R.Handlers, t)
  {
    NewTypesMore(x.inbox, m);
  }

  /** WILLCOMMIT starts a thread; the entry is made when that thread comes to it. */
  lemma NewReceivesReplicator(x: C2.Site, m: C2.Msg, t: R.TransactionId)
    requires x.up && !m.kind.WillKind?
    ensures ReplicatorEntry(x.Receive(m)) ==
      R.Next(ReplicatorEntry(x), R.Arrive(NewEndpoint(m.kind), t), R.Replicators, t)
  {
    NewTypesMore(x.replInbox, m);
  }

  lemma MoveRegisters(cfg: C2.Config, x: C2.Site, t: R.TransactionId)
    requires C2.Ready(x, C2.Register) && x.replInbox == []
    ensures ReplicatorEntry(C2.Move(cfg, x, C2.Register)) ==
      R.Next(ReplicatorEntry(x), R.Arrive(R.WILLCOMMIT, t), R.Replicators, t)
  {
    assert NewTypes([]) == [];
  }

  /** In every run every delivery to a live host changes the entries of all three maps as the routing says;
      only WILLCOMMIT, which finds no replicator, has its effect when the replicator registers. */
  lemma NewDelivers(cfg: C2.Config, schedule: seq<C2.Action>, m: C2.Msg, t: R.TransactionId)
    requires cfg.Valid() && C2.Enabled(cfg, C2.Exec(cfg, schedule), C2.Deliver(m))
    requires C2.Exec(cfg, schedule).site[m.dst].up
    ensures var s := C2.Exec(cfg, schedule);
      var x, x' := s.site[m.dst], C2.Step(cfg, s, C2.Deliver(m)).site[m.dst];
      && MainEntry(x') == R.Next(MainEntry(x), R.Arrive(NewEndpoint(m.kind), t), R.Handlers, t)
      && (!m.kind.WillKind? ==>
            ReplicatorEntry(x') == R.Next(ReplicatorEntry(x), R.Arrive(NewEndpoint(m.kind), t), R.Replicators, t))
      && (m.kind.WillKind? ==> ReplicatorEntry(x) == None && x'.repl.RLaunched?)
  {
    O2.AtMostOneHandler(cfg, schedule, m);
    var x := C2.Exec(cfg, schedule).site[m.dst];
    NewReceivesMain(x, m, t);
    if !m.kind.WillKind? { NewReceivesReplicator(x, m, t); }
  }

  lemma NewRegisters(cfg: C2.Config, schedule: seq<C2.Action>, r: Host, t: R.TransactionId)
    requires cfg.Valid() && C2.Enabled(cfg, C2.Exec(cfg, schedule), C2.Own(r, C2.Register))
    ensures var s := C2.Exec(cfg, schedule);
      ReplicatorEntry(C2.Step(cfg, s, C2.Own(r, C2.Register)).site[r]) ==
        R.Next(ReplicatorEntry(s.site[r]), R.Arrive(R.WILLCOMMIT, t), R.Replicators, t)
  {
    O2.ExecOnce(cfg, schedule);
    assert O2.HostOnce(cfg, C2.Exec(cfg, schedule), r);
    MoveRegisters(cfg, C2.Exec(cfg, schedule).site[r], t);
  }
}
