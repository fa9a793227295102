/** Sender: one request per group member; and what a vote request that is sent carries across. */
module VoteRequest {
  import opened Domain
  import opened Wire
  import P = Params
  import T = TransactionConfig

  /** std::to_string of an unsigned number, and the value of such a text. */
  function Decimal(n: nat): string {
    if n < 10 then ["0123456789"[n]] else Decimal(n / 10) + ["0123456789"[n % 10]]
  }

  function Digit(c: char): int {
    c as int - '0' as int
  }

  function Value(s: string): int {
    if s == "" then 0 else 10 * Value(s[..|s| - 1]) + Digit(s[|s| - 1])
  }

  lemma {:induction false} DecimalRoundTrip(n: nat)
    ensures Value(Decimal(n)) == n
    ensures forall i :: 0 <= i < |Decimal(n)| ==> '0' <= Decimal(n)[i] <= '9'
    ensures |Decimal(n)| > 0 && (Decimal(n)[0] == '0' ==> n == 0)
  {
    if n >= 10 {
      DecimalRoundTrip(n / 10);
      assert Decimal(n)[..|Decimal(n)| - 1] == Decimal(n / 10);
    } else {
      assert Decimal(n)[..0] == "";
    }
  }

  class Sender {
    const txid: nat
    const hostname: string
    var clients: set<string>
    /** The requests that went out, with their destinations, in the order of the calls. */
    var sent: seq<(string, string)>

    constructor (txid: nat, hostname: string)
      ensures this.txid == txid && this.hostname == hostname && clients == {} && sent == []
    {
      this.txid, this.hostname, clients, sent := txid, hostname, {}, [];
    }

    /** Sender::send: connects to members it has no client for yet, sends to all of them, and then waits
        for every reply (None: the call failed). A request that does not fit into the buffer is not sent
        to anybody, and all calls fail. */
    method Send(kind: string, config: string, group: seq<string>)
      returns (ghost body: string, replies: seq<Option<string>>)
      modifies this
      ensures |replies| == |group|
      ensures clients == old(clients) + set g | g in group
      ensures Carries(body,
        map["config" := config, "command" := "", "txid" := Decimal(txid), "type" := kind, "sender" := hostname])
      ensures |kind| + |body| + 2 < 512 ==> sent == old(sent) + To(group, kind + "\t" + body + "\n")
      ensures |kind| + |body| + 2 >= 512 ==> sent == old(sent) && forall i :: 0 <= i < |group| ==> replies[i].None?
    {
      var request := new P.TCPRequest.FromParams(kind, Fields(kind, config, txid, hostname));
      body := request.request;
      var bytes := Encode(Request(request.endpoint, request.request));
      EncodedIff(Request(kind, body));
      for i := 0 to |group|
        invariant clients == old(clients) + set g | g in group[..i]
        invariant sent == old(sent) + (if bytes.Some? then To(group[..i], bytes.value) else [])
      {
        clients := clients + {group[i]};
        if bytes.Some? {
          sent := sent + [(group[i], bytes.value)];
        }
        assert group[..i + 1] == group[..i] + [group[i]];
      }
      assert group[..|group|] == group;
      replies := [];
      for i := 0 to |group|
        invariant |replies| == i
        invariant bytes.None? ==> forall k :: 0 <= k < i ==> replies[k].None?
      {
        var reply: Option<string> := *;
        replies := replies + [if bytes.Some? then reply else None];
      }
    }
  }

  function To(group: seq<string>, bytes: string): seq<(string, string)> {
    seq(|group|, i requires 0 <= i < |group| => (group[i], bytes))
  }

  function Fields(kind: string, config: string, txid: nat, sender: string): map<string, string> {
    map["config" := config, "command" := "", "txid" := Decimal(txid), "type" := kind, "sender" := sender]
  }

  /** The body is a printed enumeration of the parameters. */
  ghost predicate Carries(body: string, params: map<string, string>) {
    exists items :: P.DistinctKeys(items) && P.ToMap(items) == params && body == P.Print(items)
  }

  /** A host address: one word, without the parameter delimiters. */
  predicate Address(s: string) {
    T.IsWord(s) && P.Plain(s)
  }

  predicate Addresses(s: seq<string>) {
    forall i :: 0 <= i < |s| ==> Address(s[i])
  }

  /** Text without wire or parameter delimiters. */
  predicate Safe(s: string) {
    P.Plain(s) && HEADER_DELIM !in s && MESSAGE_END !in s
  }

  lemma {:induction false} TextSafe(coordinator: string, participants: seq<string>)
    requires Address(coordinator) && Addresses(participants)
    ensures Safe(T.Text(coordinator, participants))
    decreases |participants|
  {
    if participants != [] {
      TextSafe(coordinator, participants[..|participants| - 1]);
      assert Address(participants[|participants| - 1]);
    }
  }

  lemma {:induction false} PrintSafe(items: seq<P.Pair>)
    requires forall i :: 0 <= i < |items| ==> Safe(items[i].key) && Safe(items[i].val)
    ensures HEADER_DELIM !in P.Print(items) && MESSAGE_END !in P.Print(items)
  {
    if items != [] {
      PrintSafe(items[1..]);
    }
  }

  /** A printed map of safe texts is a clean body, and parses back. */
  lemma BodyArrives(body: string, params: map<string, string>)
    requires Carries(body, params) && forall k :: k in params ==> Safe(k) && Safe(params[k])
    ensures HEADER_DELIM !in body && MESSAGE_END !in body && P.Parse(body) == params
  {
    var items: seq<P.Pair> :| P.DistinctKeys(items) && P.ToMap(items) == params && body == P.Print(items);
    P.ToMapHas(items);
    forall i | 0 <= i < |items| ensures Safe(items[i].key) && Safe(items[i].val) {
      assert items[i].key in params && params[items[i].key] == items[i].val;
    }
    PrintSafe(items);
    P.RoundTripIff(items);
  }

  lemma FieldsSafe(coordinator: string, participants: seq<string>, txid: nat, sender: string)
    requires Address(coordinator) && Addresses(participants) && Address(sender)
    ensures var params := Fields("VOTEREQ", T.Text(coordinator, participants), txid, sender);
      forall k :: k in params ==> Safe(k) && Safe(params[k])
  {
    TextSafe(coordinator, participants);
    DecimalSafe(txid);
    KeysSafe();
    ValuesSafe();
  }

  lemma DecimalSafe(n: nat)
    ensures Safe(Decimal(n))
  {
    DecimalRoundTrip(n);
  }

  lemma KeysSafe()
    ensures Safe("config") && Safe("command") && Safe("txid") && Safe("type") && Safe("sender")
  {
  }

  lemma ValuesSafe()
    ensures Safe("") && Safe("VOTEREQ")
  {
  }

  lemma PutWithout(m: map<string, string>, p: P.Pair, k: string)
    requires p.key != k
    ensures m[p.key := p.val] - {k} == (m - {k})[p.key := p.val]
  {
  }

  lemma ToMapLast(items: seq<P.Pair>, p: P.Pair)
    ensures P.ToMap(items + [p]) == P.ToMap(items)[p.key := p.val]
  {
    assert (items + [p])[..|items|] == items;
  }

  lemma {:induction false} ToMapWithout(items: seq<P.Pair>, i: nat)
    requires P.DistinctKeys(items) && i < |items|
    ensures P.ToMap(items[..i] + items[i + 1..]) == P.ToMap(items) - {items[i].key}
  {
    hide P.ToMap;
    var n := |items| - 1;
    var front, p := items[..n], items[n];
    assert items == front + [p];
    ToMapLast(front, p);
    if i == n {
      P.ToMapHas(front);
      assert items[..i] + items[i + 1..] == front;
    } else {
      ToMapWithout(front, i);
      ToMapLast(front[..i] + front[i + 1..], p);
      PutWithout(P.ToMap(front), p, items[i].key);
      assert items[..i] + items[i + 1..] == front[..i] + front[i + 1..] + [p];
    }
  }

  lemma {:induction false} PrintWithout(items: seq<P.Pair>, i: nat)
    requires i < |items|
    ensures |P.Print(items)| == |P.Print(items[..i] + items[i + 1..])| + |items[i].key| + |items[i].val| + 2
  {
    var rest := items[..i] + items[i + 1..];
    if i == 0 {
      assert rest == items[1..];
    } else {
      PrintWithout(items[1..], i - 1);
      assert rest[1..] == items[1..][..i - 1] + items[1..][i..];
    }
  }

  lemma FieldsAre(kind: string, config: string, txid: nat, sender: string)
    ensures var params := Fields(kind, config, txid, sender);
      && params.Keys == {"config", "command", "txid", "type", "sender"}
      && params["config"] == config && params["command"] == "" && params["txid"] == Decimal(txid)
      && params["type"] == kind && params["sender"] == sender
  {
    KeysDiffer();
  }

  lemma KeysDiffer()
    ensures Distinct(["config", "command", "txid", "type", "sender"])
  {
    assert "config"[0] != "txid"[0] && "txid"[1] != "type"[1] && "config"[2] != "command"[2];
  }

  /** The parameters without one of them. */
  lemma PrintOne(items: seq<P.Pair>, k: string) returns (rest: seq<P.Pair>)
    requires P.DistinctKeys(items) && k in P.ToMap(items)
    ensures P.DistinctKeys(rest) && P.ToMap(rest) == P.ToMap(items) - {k}
    ensures |P.Print(items)| == |P.Print(rest)| + |k| + |P.ToMap(items)[k]| + 2
  {
    P.ToMapHas(items);
    var i: nat :| i < |items| && items[i].key == k && items[i].val == P.ToMap(items)[k];
    ToMapWithout(items, i);
    PrintWithout(items, i);
    rest := items[..i] + items[i + 1..];
  }

  /** The order of the parameters does not matter for the length of the body. */
  lemma BodyLength(body: string, kind: string, config: string, txid: nat, sender: string)
    requires Carries(body, Fields(kind, config, txid, sender))
    ensures |body| == 37 + |config| + |Decimal(txid)| + |kind| + |sender|
  {
    hide Decimal, P.Print, P.ToMap;
    var params := Fields(kind, config, txid, sender);
    FieldsAre(kind, config, txid, sender);
    var items: seq<P.Pair> :| P.DistinctKeys(items) && P.ToMap(items) == params && body == P.Print(items);
    var i1 := PrintOne(items, "config");
    var i2 := PrintOne(i1, "command");
    var i3 := PrintOne(i2, "txid");
    var i4 := PrintOne(i3, "type");
    var i5 := PrintOne(i4, "sender");
    Nothing(i5);
  }

  lemma Nothing(items: seq<P.Pair>)
    ensures P.ToMap(items).Keys == {} ==> P.Print(items) == ""
  {
    if items != [] { assert items[|items| - 1].key in P.ToMap(items); }
  }

  /** Whether a vote request can be sent is a matter of the lengths of the addresses. */
  lemma VoteRequestFitsIff(coordinator: string, participants: seq<string>, txid: nat, sender: string, body: string)
    requires Carries(body, Fields("VOTEREQ", T.Text(coordinator, participants), txid, sender))
    ensures Encode(Request("VOTEREQ", body)).Some? <==>
      |coordinator| + T.Total(participants) + |Decimal(txid)| + |sender| < 458
  {
    BodyLength(body, "VOTEREQ", T.Text(coordinator, participants), txid, sender);
    T.TextLength(coordinator, participants);
    EncodedIff(Request("VOTEREQ", body));
  }

  /** A vote request that fits into the buffer reaches the participant whole, however its bytes are cut
      and in whatever order its parameters are printed: one callback, from whose parameters the
      participant rebuilds exactly the coordinator, the participant list and the transaction id. */
  lemma VoteRequestArrives(
      coordinator: string, participants: seq<string>, txid: nat, sender: string, body: string,
      callbacks: set<string>, served: seq<Request>, chunks: seq<string>)
    requires Address(coordinator) && Addresses(participants) && Address(sender)
    requires Carries(body, Fields("VOTEREQ", T.Text(coordinator, participants), txid, sender))
    requires |coordinator| + T.Total(participants) + |Decimal(txid)| + |sender| < 458 && "VOTEREQ" in callbacks
    requires Split(chunks, "VOTEREQ\t" + body + "\n")
    ensures Feed(callbacks, Conn("", served, true), chunks) == Conn("", served + [Request("VOTEREQ", body)], true)
    ensures var params := P.Parse(body);
      && params.Keys == {"config", "command", "txid", "type", "sender"}
      && T.Coordinator(T.Words(params["config"])) == coordinator
      && T.Participants(T.Words(params["config"])) == participants
      && Value(params["txid"]) == txid && params["type"] == "VOTEREQ" && params["sender"] == sender
  {
    hide Decimal, Value, P.Parse, T.Words, T.Text, Feed, Bytes, Fields;
    Rebuilds(coordinator, participants, txid, sender, body);
    FieldsAre("VOTEREQ", T.Text(coordinator, participants), txid, sender);
    VoteRequestFitsIff(coordinator, participants, txid, sender, body);
    VoteBytes(body);
    FeedRequest(callbacks, served, Request("VOTEREQ", body), chunks);
  }

  lemma VoteBytes(body: string)
    ensures Bytes(Request("VOTEREQ", body)) == "VOTEREQ\t" + body + "\n"
  {
    assert "VOTEREQ" + ['\t'] == "VOTEREQ\t";
  }

  lemma Rebuilds(coordinator: string, participants: seq<string>, txid: nat, sender: string, body: string)
    requires Address(coordinator) && Addresses(participants) && Address(sender)
    requires Carries(body, Fields("VOTEREQ", T.Text(coordinator, participants), txid, sender))
    ensures HEADER_DELIM !in body && MESSAGE_END !in body
    ensures var params := P.Parse(body);
      && params == Fields("VOTEREQ", T.Text(coordinator, participants), txid, sender)
      && T.Coordinator(T.Words(params["config"])) == coordinator
      && T.Participants(T.Words(params["config"])) == participants
      && Value(params["txid"]) == txid
  {
    var params := Fields("VOTEREQ", T.Text(coordinator, participants), txid, sender);
    FieldsSafe(coordinator, participants, txid, sender);
    BodyArrives(body, params);
    T.RoundTripIff(coordinator, participants);
    DecimalRoundTrip(txid);
  }
}
