/** Which handler of a node an incoming request is pushed to, if any. */
module MessageRouting {
  import opened Domain

  datatype Endpoint = VOTEREQ | VOTEYES | ABORT | COMMIT | WILLCOMMIT | DECISIONCOMPLETED | OVERRIDECOMMIT

  datatype RequestType = Transaction | VoteReq | VoteYes | Abort | WillCommit | DecisionCompleted | Commit

  datatype Table = Handlers | Replicators | Committers

  type TransactionId = nat

  /** What happens to the tables: a client's request, a request from another node, a handler's return. */
  datatype Event =
    | Client(txid: TransactionId)
    | Arrive(endpoint: Endpoint, txid: TransactionId)
    | Return(table: Table, txid: TransactionId)

  /** Requests that create a handler; all others are for an existing one. */
  predicate IsNew(e: Endpoint) {
    e.VOTEREQ? || e.WILLCOMMIT? || e.OVERRIDECOMMIT?
  }

  /** The table and type the callback of an endpoint is registered with. */
  function Registered(e: Endpoint): (Table, RequestType) {
    match e
    case VOTEREQ => (Handlers, VoteReq)
    case VOTEYES => (Handlers, VoteYes)
    case ABORT => (Handlers, RequestType.Abort)
    case COMMIT => (Handlers, RequestType.Commit)
    case WILLCOMMIT => (Replicators, WillCommit)
    case DECISIONCOMPLETED => (Replicators, DecisionCompleted)
    case OVERRIDECOMMIT => (Committers, RequestType.Commit)
  }

  predicate Starts(ev: Event, t: Table, x: TransactionId) {
    match ev
    case Client(y) => t == Handlers && y == x
    case Arrive(e, y) => IsNew(e) && Registered(e).0 == t && y == x
    case Return(_, _) => false
  }

  predicate Pushes(ev: Event, t: Table, x: TransactionId) {
    ev.Arrive? && !IsNew(ev.endpoint) && Registered(ev.endpoint).0 == t && ev.txid == x
  }

  /** What an event does to the queue of the handler for `x` in table `t`. */
  function Next(queue: Option<seq<RequestType>>, ev: Event, t: Table, x: TransactionId): Option<seq<RequestType>> {
    if Starts(ev, t, x) then Some([])
    else if ev == Return(t, x) then None
    else if Pushes(ev, t, x) && queue.Some? then Some(queue.value + [Registered(ev.endpoint).1])
    else queue
  }

  /** What the handler for `x` in table `t` has been pushed since it was created; None if there is none. */
  function Pushed(history: seq<Event>, t: Table, x: TransactionId): Option<seq<RequestType>> {
    if history == [] then None
    else Next(Pushed(history[..|history| - 1], t, x), history[|history| - 1], t, x)
  }

  function Lookup(m: map<TransactionId, seq<RequestType>>, x: TransactionId): Option<seq<RequestType>> {
    if x in m then Some(m[x]) else None
  }

  class GlobalMessageHandler {
    var handlers: map<TransactionId, seq<RequestType>>
    var replicators: map<TransactionId, seq<RequestType>>
    var committers: map<TransactionId, seq<RequestType>>
    ghost var history: seq<Event>

    function In(t: Table): map<TransactionId, seq<RequestType>>
      reads this
    {
      match t
      case Handlers => handlers
      case Replicators => replicators
      case Committers => committers
    }

    ghost predicate Valid()
      reads this
    {
      forall t, x :: Lookup(In(t), x) == Pushed(history, t, x)
    }

    constructor ()
      ensures Valid() && history == []
    {
      handlers, replicators, committers := map[], map[], map[];
      history := [];
    }

    method Put(t: Table, m: map<TransactionId, seq<RequestType>>)
      modifies this`handlers, this`replicators, this`committers
      ensures forall u :: In(u) == if u == t then m else old(In(u))
    {
      match t
      case Handlers => handlers := m;
      case Replicators => replicators := m;
      case Committers => committers := m;
    }

    method CreateNode(txid: TransactionId, t: Table)
      modifies this`handlers, this`replicators, this`committers
      ensures forall u :: In(u) == if u == t then old(In(u))[txid := []] else old(In(u))
    {
      Put(t, In(t)[txid := []]);
    }

    method RemoveFromMap(txid: TransactionId, t: Table)
      modifies this`handlers, this`replicators, this`committers
      ensures forall u :: In(u) == if u == t then old(In(u)) - {txid} else old(In(u))
    {
      if txid in In(t) {
        Put(t, In(t) - {txid});
      }
    }

    method SendMessage(txid: TransactionId, request: RequestType, t: Table)
      modifies this`handlers, this`replicators, this`committers
      ensures forall u :: u != t || txid !in old(In(t)) ==> In(u) == old(In(u))
      ensures txid in old(In(t)) ==> In(t) == old(In(t))[txid := old(In(t))[txid] + [request]]
    {
      if txid in In(t) {
        Put(t, In(t)[txid := In(t)[txid] + [request]]);
      }
    }

    /** Whatever happens, every handler has been pushed exactly what its history says. */
    method Process(ev: Event)
      requires Valid()
      modifies this
      ensures Valid() && history == old(history) + [ev]
    {
      match ev {
        case Client(txid) => CreateNode(txid, Handlers);
        case Arrive(e, txid) =>
          if IsNew(e) {
            CreateNode(txid, Registered(e).0);
          } else {
            SendMessage(txid, Registered(e).1, Registered(e).0);
          }
        case Return(t, txid) => RemoveFromMap(txid, t);
      }
      history := history + [ev];
      assert history[..|history| - 1] == old(history);
      assert forall t, x :: Lookup(In(t), x) == Next(old(Lookup(In(t), x)), ev, t, x);
    }
  }

  // ---------------------------------------------------------------------------------------
  // What a handler sees

  /** The types of the requests for `x` among the events, in order. */
  function Types(events: seq<Event>, t: Table, x: TransactionId): seq<RequestType> {
    if events == [] then []
    else
      var front, ev := events[..|events| - 1], events[|events| - 1];
      if Pushes(ev, t, x) then Types(front, t, x) + [Registered(ev.endpoint).1] else Types(front, t, x)
  }

  /** A handler sees exactly the requests for its transaction and table that arrive between its creation
      and its return, in order of arrival. */
  lemma {:induction false} SeesExactly(before: seq<Event>, start: Event, after: seq<Event>, t: Table, x: TransactionId)
    requires Starts(start, t, x)
    requires forall ev :: ev in after ==> !Starts(ev, t, x) && ev != Return(t, x)
    ensures Pushed(before + [start] + after, t, x) == Some(Types(after, t, x))
  {
    var all := before + [start] + after;
    if after == [] {
      assert all[|all| - 1] == start;
    } else {
      var front := after[..|after| - 1];
      SeesExactly(before, start, front, t, x);
      var ev := after[|after| - 1];
      assert all[..|all| - 1] == before + [start] + front && all[|all| - 1] == ev && ev in after;
    }
  }

  /** A request that finds no handler is dropped for good. */
  lemma {:induction false} MissesEarlier(events: seq<Event>, t: Table, x: TransactionId)
    requires forall ev :: ev in events ==> !Starts(ev, t, x)
    ensures Pushed(events, t, x) == None
  {
    if events != [] { MissesEarlier(events[..|events| - 1], t, x); }
  }

  /** What a queue becomes when its handler is pushed a request. */
  function Push(queue: Option<seq<RequestType>>, r: RequestType): Option<seq<RequestType>> {
    if queue.None? then None else Some(queue.value + [r])
  }

  /** The entry in table `t` after any history and then a request of this kind. */
  function After(history: seq<Event>, e: Endpoint, t: Table, x: TransactionId): Option<seq<RequestType>> {
    Pushed(history + [Arrive(e, x)], t, x)
  }

  /** A request for `x` reaches exactly one table: votes and decisions are pushed to the handler as what they
      are, and never create one; the three others create theirs. */
  lemma Lands(history: seq<Event>, x: TransactionId, t: Table)
    ensures var q := Pushed(history, t, x);
      && After(history, VOTEREQ, t, x) == (if t == Handlers then Some([]) else q)
      && After(history, Endpoint.VOTEYES, t, x) == (if t == Handlers then Push(q, VoteYes) else q)
      && After(history, Endpoint.ABORT, t, x) == (if t == Handlers then Push(q, RequestType.Abort) else q)
      && After(history, Endpoint.COMMIT, t, x) == (if t == Handlers then Push(q, RequestType.Commit) else q)
      && After(history, WILLCOMMIT, t, x) == (if t == Replicators then Some([]) else q)
      && After(history, DECISIONCOMPLETED, t, x) == (if t == Replicators then Push(q, DecisionCompleted) else q)
      && After(history, OVERRIDECOMMIT, t, x) == (if t == Committers then Some([]) else q)
  {
    hide Pushed, After;
    forall e ensures After(history, e, t, x) == Next(Pushed(history, t, x), Arrive(e, x), t, x) {
      AfterIs(history, e, t, x);
    }
  }

  lemma AfterIs(history: seq<Event>, e: Endpoint, t: Table, x: TransactionId)
    ensures After(history, e, t, x) == Next(Pushed(history, t, x), Arrive(e, x), t, x)
  {
    assert (history + [Arrive(e, x)])[..|history|] == history;
  }

  /** The types that can ever be in a handler's queue. */
  predicate Expected(t: Table, r: RequestType) {
    match t
    case Handlers => r.VoteYes? || r == RequestType.Abort || r == RequestType.Commit
    case Replicators => r.DecisionCompleted?
    case Committers => false
  }

  lemma {:induction false} RoutedTypes(history: seq<Event>, t: Table, x: TransactionId)
    ensures var q := Pushed(history, t, x); q.Some? ==> forall r :: r in q.value ==> Expected(t, r)
  {
    if history != [] { RoutedTypes(history[..|history| - 1], t, x); }
  }
}
