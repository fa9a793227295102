/** The wire format of requests and the server's incremental decoder. */
module Wire {
  import opened Domain

  const MAX_MESSAGE_SIZE := 512
  const HEADER_DELIM := '\t'
  const MESSAGE_END := '\n'

  datatype Request = Request(endpoint: string, body: string)

  /** The bytes of a request; too long a request is not sent at all. */
  function Encode(r: Request): Option<string> {
    if |r.endpoint| + |r.body| + 2 >= MAX_MESSAGE_SIZE then None else Some(Bytes(r))
  }

  function Bytes(r: Request): string {
    r.endpoint + [HEADER_DELIM] + r.body + [MESSAGE_END]
  }

  /** A request is sent exactly if with its two marks it stays below 512 bytes. */
  lemma EncodedIff(r: Request)
    ensures Encode(r).Some? <==> |r.endpoint| + |r.body| + 2 < 512
    ensures Encode(r).Some? ==> Encode(r).value == r.endpoint + "\t" + r.body + "\n"
  {
    assert "\t" == ['\t'] && "\n" == ['\n'];
  }

  /** TCPClient::encodeIntoBuffer. */
  method EncodeIntoBuffer(r: Request, buffer: array<char>) returns (size: int)
    requires buffer.Length == MAX_MESSAGE_SIZE
    modifies buffer
    ensures size == if |r.endpoint| + |r.body| + 2 >= 512 then -1 else |r.endpoint| + |r.body| + 2
    ensures size != -1 ==> buffer[..size] == r.endpoint + "\t" + r.body + "\n"
    ensures size == -1 ==> buffer[..] == old(buffer[..])
    ensures Encode(r) == if size == -1 then None else Some(buffer[..size])
  {
    if |r.endpoint| + |r.body| + 2 >= MAX_MESSAGE_SIZE {
      return -1;
    }
    CopyInto(buffer, 0, r.endpoint);
    buffer[|r.endpoint|] := HEADER_DELIM;
    CopyInto(buffer, |r.endpoint| + 1, r.body);
    buffer[|r.endpoint| + |r.body| + 1] := MESSAGE_END;
    return |r.endpoint| + |r.body| + 2;
  }

  /** memcpy from a string. */
  method CopyInto(buffer: array<char>, at: nat, text: string)
    requires at + |text| <= buffer.Length
    modifies buffer
    ensures buffer[at..at + |text|] == text
    ensures buffer[..at] == old(buffer[..at]) && buffer[at + |text|..] == old(buffer[at + |text|..])
  {
    for i := 0 to |text|
      invariant buffer[at..at + i] == text[..i]
      invariant buffer[..at] == old(buffer[..at])
      invariant buffer[at + i..] == old(buffer[at + i..])
    {
      buffer[at + i] := text[i];
    }
  }

  // ---------------------------------------------------------------------------------------
  // Decoding

  /** `Broken`: the end lies before the header, and building the body throws; nobody catches that, so it
      ends the whole server process. */
  datatype Decoded = Incomplete | Complete(request: Request) | Broken

  /** The last position of a character, or -1. */
  function Last(s: string, c: char): (k: int)
    ensures -1 <= k < |s|
    ensures k >= 0 ==> s[k] == c
    ensures forall i :: k < i < |s| ==> s[i] != c
  {
    if s == [] then -1
    else if s[|s| - 1] == c then |s| - 1
    else Last(s[..|s| - 1], c)
  }

  lemma LastIn(s: string, c: char)
    ensures Last(s, c) >= 0 <==> c in s
  {
  }

  /** The decoder splits at the last header delimiter and the last message end it sees. */
  function Decode(msg: string): Decoded {
    var header, end := Last(msg, HEADER_DELIM), Last(msg, MESSAGE_END);
    if header == -1 || end == -1 then Incomplete
    else if end < header then Broken
    else Complete(Request(msg[..header], msg[header + 1..end]))
  }

  /** TCPServer::getRequest. */
  method GetRequest(msg: array<char>, size: nat) returns (d: Decoded)
    requires size <= msg.Length
    ensures d == Decode(msg[..size])
  {
    var header, end := -1, -1;
    for i := 0 to size
      invariant header == Last(msg[..i], HEADER_DELIM) && end == Last(msg[..i], MESSAGE_END)
    {
      assert msg[..i + 1][..i] == msg[..i];
      if msg[i] == HEADER_DELIM {
        header := i;
      }
      if msg[i] == MESSAGE_END {
        end := i;
      }
    }
    if header == -1 || end == -1 {
      return Incomplete;
    }
    if end < header {
      return Broken;
    }
    assert msg[..header] == msg[..size][..header] && msg[header + 1..end] == msg[..size][header + 1..end];
    return Complete(Request(msg[..header], msg[header + 1..end]));
  }

  /** memcpy(msg, msg + from, count), in ascending order. */
  method Shift(msg: array<char>, from: nat, count: nat)
    requires 0 < from && from + count <= msg.Length
    modifies msg
    ensures msg[..count] == old(msg[from..from + count])
  {
    for i := 0 to count
      invariant msg[..i] == old(msg[from..from + i])
      invariant forall j :: i <= j < msg.Length ==> msg[j] == old(msg[j])
    {
      msg[i] := msg[from + i];
    }
  }

  /** A connection: the bytes not yet consumed, the requests whose callback has run, and whether the
      server still reads. */
  datatype Conn = Conn(buffer: string, served: seq<Request>, open: bool) {
    /** How many bytes recv may still put into the buffer. */
    function Space(): int {
      MAX_MESSAGE_SIZE - |buffer|
    }
  }

  const NEW := Conn("", [], true)

  /** One round of the receive loop; an empty chunk means that the client has closed, or that there was
      no space to receive into. */
  function Receive(callbacks: set<string>, conn: Conn, chunk: string): (c: Conn)
    requires |chunk| <= conn.Space()
    ensures c.Space() >= 0
  {
    var msg := conn.buffer + chunk;
    match Decode(msg)
    case Incomplete => Conn(msg, conn.served, chunk != "")
    case Broken => Conn(msg, conn.served, false)
    case Complete(r) =>
      var size := |r.endpoint| + |r.body| + 2;
      Conn(msg[size..], if r.endpoint in callbacks then conn.served + [r] else conn.served, chunk != "")
  }

  /** How much of a piece of arrived bytes one recv takes. */
  function Fitting(conn: Conn, piece: string): (n: nat)
    requires conn.Space() >= 0
    ensures n <= |piece| && n <= conn.Space()
    ensures n == |piece| || n == conn.Space()
  {
    if |piece| <= conn.Space() then |piece| else conn.Space()
  }

  /** The rounds it takes to read a piece of the byte stream: each recv takes what fits. A full buffer
      makes recv return nothing, which ends the loop. */
  function Take(callbacks: set<string>, conn: Conn, piece: string): (c: Conn)
    requires conn.Space() >= 0
    ensures c.Space() >= 0
    decreases |piece|, conn.open
  {
    if !conn.open || piece == "" then conn
    else
      var n := Fitting(conn, piece);
      Take(callbacks, Receive(callbacks, conn, piece[..n]), piece[n..])
  }

  class Connection {
    const callbacks: set<string>
    const msg: array<char>
    var bufferPointer: nat
    var served: seq<Request>
    var open: bool

    ghost predicate Valid()
      reads this
    {
      msg.Length == MAX_MESSAGE_SIZE + 1 && bufferPointer <= MAX_MESSAGE_SIZE
    }

    ghost function Model(): (c: Conn)
      requires Valid()
      reads this, msg
      ensures c.Space() == MAX_MESSAGE_SIZE - bufferPointer
    {
      Conn(msg[..bufferPointer], served, open)
    }

    constructor (callbacks: set<string>)
      ensures Valid() && fresh(msg) && this.callbacks == callbacks && Model() == NEW
    {
      this.callbacks := callbacks;
      msg := new char[MAX_MESSAGE_SIZE + 1](_ => '\0');
      bufferPointer, served, open := 0, [], true;
    }

    /** recv: the chunk lands behind the bytes already there. */
    method Append(chunk: string)
      requires Valid() && bufferPointer + |chunk| <= MAX_MESSAGE_SIZE
      modifies this`bufferPointer, msg
      ensures Valid() && msg[..bufferPointer] == old(msg[..bufferPointer]) + chunk
    {
      CopyInto(msg, bufferPointer, chunk);
      assert msg[..bufferPointer + |chunk|] == msg[..bufferPointer] + msg[bufferPointer..bufferPointer + |chunk|];
      bufferPointer := bufferPointer + |chunk|;
    }

    /** The bytes of a served request make room for the next one. */
    method Discard(size: nat)
      requires Valid() && 0 < size <= bufferPointer
      modifies this`bufferPointer, msg
      ensures Valid() && msg[..bufferPointer] == old(msg[..bufferPointer])[size..]
    {
      Shift(msg, size, bufferPointer - size);
      bufferPointer := bufferPointer - size;
    }

    /** A complete request: run its callback, if there is one, and make room. */
    method ServeOne(r: Request)
      requires Valid() && Decode(msg[..bufferPointer]) == Complete(r)
      modifies this`bufferPointer, this`served, msg
      ensures Valid() && msg[..bufferPointer] == old(msg[..bufferPointer])[|r.endpoint| + |r.body| + 2..]
      ensures served == if r.endpoint in callbacks then old(served) + [r] else old(served)
    {
      if r.endpoint in callbacks {
        served := served + [r];
      }
      Discard(|r.endpoint| + |r.body| + 2);
    }

    /** The body of the loop in TCPServer::handle_connection; `chunk` is what recv returned. */
    method Round(chunk: string)
      requires Valid() && open && bufferPointer + |chunk| <= MAX_MESSAGE_SIZE
      modifies this`bufferPointer, this`served, this`open, msg
      ensures Valid() && Model() == Receive(callbacks, old(Model()), chunk)
    {
      hide Decode, Last;
      Append(chunk);
      var d := GetRequest(msg, bufferPointer);
      if d.Complete? {
        ServeOne(d.request);
      }
      open := chunk != "" && !d.Broken?;
    }

    /** The loop of handle_connection over bytes that have arrived. */
    method Read(bytes: string)
      requires Valid()
      modifies this`bufferPointer, this`served, this`open, msg
      ensures Valid() && Model() == Take(callbacks, old(Model()), bytes)
    {
      var piece := bytes;
      while open && piece != ""
        invariant Valid() && Take(callbacks, Model(), piece) == Take(callbacks, old(Model()), bytes)
        decreases |piece|, open
      {
        var n := MAX_MESSAGE_SIZE - bufferPointer;
        if |piece| < n {
          n := |piece|;
        }
        Round(piece[..n]);
        piece := piece[n..];
      }
    }
  }

  // ---------------------------------------------------------------------------------------
  // Byte streams

  function Join(chunks: seq<string>): string {
    if chunks == [] then "" else Join(chunks[..|chunks| - 1]) + chunks[|chunks| - 1]
  }

  /** A byte stream that arrives in these pieces. */
  function Feed(callbacks: set<string>, conn: Conn, chunks: seq<string>): (c: Conn)
    requires conn.Space() >= 0
    ensures c.Space() >= 0
  {
    if chunks == [] then conn
    else Take(callbacks, Feed(callbacks, conn, chunks[..|chunks| - 1]), chunks[|chunks| - 1])
  }

  /** What the receive loop makes of any byte stream, in whatever pieces it arrives. */
  method Serve(conn: Connection, chunks: seq<string>)
    requires conn.Valid()
    modifies conn, conn.msg
    ensures conn.Valid() && conn.Model() == Feed(conn.callbacks, old(conn.Model()), chunks)
  {
    for j := 0 to |chunks|
      invariant conn.Valid() && conn.Model() == Feed(conn.callbacks, old(conn.Model()), chunks[..j])
    {
      assert chunks[..j + 1][..j] == chunks[..j];
      conn.Read(chunks[j]);
    }
    assert chunks[..|chunks|] == chunks;
  }

  ghost predicate Split(chunks: seq<string>, bytes: string) {
    Join(chunks) == bytes && forall i :: 0 <= i < |chunks| ==> chunks[i] != ""
  }

  lemma {:induction false} JoinPrefix(chunks: seq<string>, j: nat)
    requires j <= |chunks|
    ensures |Join(chunks[..j])| <= |Join(chunks)| && Join(chunks[..j]) == Join(chunks)[..|Join(chunks[..j])|]
    ensures j < |chunks| ==> Join(chunks[..j + 1]) == Join(chunks[..j]) + chunks[j]
  {
    if j < |chunks| {
      assert chunks[..j + 1][..j] == chunks[..j];
    }
    if j == |chunks| {
      assert chunks[..j] == chunks;
    } else {
      var front := chunks[..|chunks| - 1];
      JoinPrefix(front, j);
      assert chunks[..j] == front[..j];
    }
  }

  lemma FeedNone(callbacks: set<string>, conn: Conn, chunks: seq<string>)
    requires conn.Space() >= 0
    ensures Join(chunks[..0]) == "" && Feed(callbacks, conn, chunks[..0]) == conn
  {
  }

  lemma FeedNext(callbacks: set<string>, conn: Conn, chunks: seq<string>, j: nat)
    requires conn.Space() >= 0 && j < |chunks|
    ensures Feed(callbacks, conn, chunks[..j + 1]) == Take(callbacks, Feed(callbacks, conn, chunks[..j]), chunks[j])
  {
    assert chunks[..j + 1][..j] == chunks[..j];
  }

  /** A piece that fits into the buffer is read at once. */
  lemma TakeWhole(callbacks: set<string>, conn: Conn, piece: string)
    requires conn.open && piece != "" && |piece| <= conn.Space()
    ensures Take(callbacks, conn, piece) == Receive(callbacks, conn, piece)
  {
    assert piece[..|piece|] == piece && piece[|piece|..] == "";
  }

  // ---------------------------------------------------------------------------------------
  // Fragmentation

  /** No delimiter where the decoder would take it for one. */
  predicate Clean(r: Request) {
    '\t' !in r.body && '\n' !in r.body && '\n' !in r.endpoint
  }

  /** The request fits into the server's buffer. */
  predicate Fits(r: Request) {
    |Bytes(r)| <= MAX_MESSAGE_SIZE
  }

  lemma LastIs(s: string, c: char, k: nat)
    requires k < |s| && s[k] == c && forall i :: k < i < |s| ==> s[i] != c
    ensures Last(s, c) == k
  {
  }

  lemma NoEnd(msg: string)
    requires MESSAGE_END !in msg
    ensures Decode(msg) == Incomplete
  {
    LastIn(msg, MESSAGE_END);
  }

  lemma DecodeAt(msg: string, header: nat)
    requires header < |msg| - 1 && msg[header] == HEADER_DELIM && msg[|msg| - 1] == MESSAGE_END
    requires HEADER_DELIM !in msg[header + 1..]
    ensures Decode(msg) == Complete(Request(msg[..header], msg[header + 1..|msg| - 1]))
  {
    forall i | header < i < |msg| ensures msg[i] != HEADER_DELIM {
      assert msg[i] == msg[header + 1..][i - header - 1];
    }
    LastIs(msg, HEADER_DELIM, header);
    LastIs(msg, MESSAGE_END, |msg| - 1);
  }

  lemma DecodeHeaderless(r: Request)
    requires HEADER_DELIM !in r.body
    ensures Decode(Bytes(r)) == Complete(r)
  {
    var b, h := Bytes(r), |r.endpoint|;
    assert b[h + 1..] == r.body + [MESSAGE_END];
    DecodeAt(b, h);
    assert b[..h] == r.endpoint && b[h + 1..|b| - 1] == r.body;
  }

  /** The callbacks that have run once the request is read: its own, if its endpoint has one. */
  function Ran(callbacks: set<string>, served: seq<Request>, r: Request): seq<Request> {
    if r.endpoint in callbacks then served + [r] else served
  }

  /** What the connection looks like after the first k bytes of a clean request. */
  function Arrived(served: seq<Request>, ran: seq<Request>, r: Request, k: nat): Conn
    requires k <= |Bytes(r)|
  {
    if k == |Bytes(r)| then Conn("", ran, true) else Conn(Bytes(r)[..k], served, true)
  }

  /** The piece comes right behind the first p bytes. */
  predicate Follows(bytes: string, p: nat, piece: string) {
    p + |piece| <= |bytes| && bytes[..p] + piece == bytes[..p + |piece|]
  }

  lemma ArrivedNone(served: seq<Request>, ran: seq<Request>, r: Request)
    ensures Arrived(served, ran, r, 0) == Conn("", served, true)
  {
  }

  lemma ArriveMore(callbacks: set<string>, served: seq<Request>, r: Request, k: nat, piece: string)
    requires Clean(r) && Fits(r)
    requires k < |Bytes(r)| && piece != "" && Follows(Bytes(r), k, piece)
    ensures var ran := Ran(callbacks, served, r);
      Take(callbacks, Arrived(served, ran, r, k), piece) == Arrived(served, ran, r, k + |piece|)
  {
    hide Take, Receive, Decode, Bytes, Ran, Clean;
    var conn := Arrived(served, Ran(callbacks, served, r), r, k);
    TakeWhole(callbacks, conn, piece);
    if k + |piece| == |Bytes(r)| {
      assert Bytes(r)[..k] + piece == Bytes(r);
      ReceiveLast(callbacks, conn, r, piece);
    } else {
      EndLast(r, k + |piece|);
      ReceivePart(callbacks, conn, piece);
    }
  }

  lemma EndLast(r: Request, k: nat)
    requires Clean(r) && k < |Bytes(r)|
    ensures MESSAGE_END !in Bytes(r)[..k]
  {
  }

  lemma ReceivePart(callbacks: set<string>, conn: Conn, piece: string)
    requires piece != "" && |piece| <= conn.Space() && MESSAGE_END !in conn.buffer + piece
    ensures Receive(callbacks, conn, piece) == Conn(conn.buffer + piece, conn.served, true)
  {
    NoEnd(conn.buffer + piece);
  }

  /** The piece that completes a clean request. */
  lemma ReceiveLast(callbacks: set<string>, conn: Conn, r: Request, piece: string)
    requires Clean(r) && piece != "" && |piece| <= conn.Space() && conn.buffer + piece == Bytes(r)
    ensures Receive(callbacks, conn, piece) == Conn("", Ran(callbacks, conn.served, r), true)
  {
    hide Decode;
    DecodeHeaderless(r);
    assert Bytes(r)[|Bytes(r)|..] == "";
  }

  lemma {:induction false} FeedArrived(
      callbacks: set<string>, served: seq<Request>, r: Request, chunks: seq<string>, j: nat)
    requires Clean(r) && Fits(r) && Split(chunks, Bytes(r)) && j <= |chunks|
    ensures |Join(chunks[..j])| <= |Bytes(r)|
    ensures Feed(callbacks, Conn("", served, true), chunks[..j]) ==
      Arrived(served, Ran(callbacks, served, r), r, |Join(chunks[..j])|)
  {
    hide Feed, Take, Bytes;
    JoinPrefix(chunks, j);
    if j == 0 {
      FeedNone(callbacks, Conn("", served, true), chunks);
      ArrivedNone(served, Ran(callbacks, served, r), r);
    } else {
      FeedArrived(callbacks, served, r, chunks, j - 1);
      FeedNext(callbacks, Conn("", served, true), chunks, j - 1);
      JoinPrefix(chunks, j - 1);
      ArriveMore(callbacks, served, r, |Join(chunks[..j - 1])|, chunks[j - 1]);
    }
  }

  /** However the bytes of one clean request that fits are cut into pieces, its callback runs exactly
      once, with exactly that request, and nothing stays in the buffer. Without a callback the request is
      skipped. */
  lemma FeedRequest(callbacks: set<string>, served: seq<Request>, r: Request, chunks: seq<string>)
    requires Clean(r) && Fits(r) && Split(chunks, Bytes(r))
    ensures Feed(callbacks, Conn("", served, true), chunks) ==
      Conn("", if r.endpoint in callbacks then served + [r] else served, true)
  {
    FeedArrived(callbacks, served, r, chunks, |chunks|);
    assert chunks[..|chunks|] == chunks;
  }

  /** Requests sent one at a time, each after the reply to the one before. */
  function FeedAll(callbacks: set<string>, conn: Conn, arrivals: seq<seq<string>>): (c: Conn)
    requires conn.Space() >= 0
    ensures c.Space() >= 0
  {
    if arrivals == [] then conn
    else Feed(callbacks, FeedAll(callbacks, conn, arrivals[..|arrivals| - 1]), arrivals[|arrivals| - 1])
  }

  ghost predicate OneByOne(callbacks: set<string>, requests: seq<Request>, arrivals: seq<seq<string>>) {
    && |arrivals| == |requests|
    && forall i :: 0 <= i < |requests| ==> (
      && Clean(requests[i]) && Fits(requests[i]) && requests[i].endpoint in callbacks
      && Split(arrivals[i], Bytes(requests[i])))
  }

  lemma {:induction false} FragmentationIndependent(
      callbacks: set<string>, requests: seq<Request>, arrivals: seq<seq<string>>)
    requires OneByOne(callbacks, requests, arrivals)
    ensures FeedAll(callbacks, NEW, arrivals) == Conn("", requests, true)
  {
    if requests != [] {
      var n := |requests| - 1;
      FragmentationIndependent(callbacks, requests[..n], arrivals[..n]);
      FeedRequest(callbacks, requests[..n], requests[n], arrivals[n]);
      assert requests[..n] + [requests[n]] == requests;
    }
  }

  /** The same of a connection with its in-place buffer. */
  method ServeAll(callbacks: set<string>, ghost requests: seq<Request>, arrivals: seq<seq<string>>)
    returns (conn: Connection)
    requires OneByOne(callbacks, requests, arrivals)
    ensures conn.Valid() && conn.Model() == Conn("", requests, true)
  {
    conn := new Connection(callbacks);
    for i := 0 to |arrivals|
      invariant conn.Valid() && conn.callbacks == callbacks && fresh(conn) && fresh(conn.msg)
      invariant conn.Model() == FeedAll(callbacks, NEW, arrivals[..i])
    {
      assert arrivals[..i + 1][..i] == arrivals[..i];
      Serve(conn, arrivals[i]);
    }
    assert arrivals[..|arrivals|] == arrivals;
    FragmentationIndependent(callbacks, requests, arrivals);
  }

  // ---------------------------------------------------------------------------------------
  // Exactly which requests are decoded right

  /** The decoder gets a request right under every fragmentation. */
  ghost predicate AlwaysServed(callbacks: set<string>, r: Request) {
    forall chunks :: Split(chunks, Bytes(r)) ==> Feed(callbacks, NEW, chunks) == Conn("", [r], true)
  }

  lemma FeedOne(callbacks: set<string>, chunk: string)
    requires chunk != ""
    ensures Split([chunk], chunk)
    ensures Feed(callbacks, NEW, [chunk]) == Take(callbacks, NEW, chunk)
  {
    FeedNext(callbacks, NEW, [chunk], 0);
    JoinPrefix([chunk], 0);
    assert [chunk][..0] == [] && [chunk][..1] == [chunk];
  }

  lemma FeedTwo(callbacks: set<string>, one: string, two: string)
    requires one != "" && two != ""
    ensures Split([one, two], one + two)
    ensures Feed(callbacks, NEW, [one, two]) == Take(callbacks, Take(callbacks, NEW, one), two)
  {
    FeedOne(callbacks, one);
    assert [one, two][..1] == [one];
  }

  /** Served requests are never taken back, and a closed connection serves no more. */
  lemma {:induction false} TakeGrows(callbacks: set<string>, conn: Conn, piece: string)
    requires conn.Space() >= 0
    ensures conn.served <= Take(callbacks, conn, piece).served
    ensures !conn.open ==> Take(callbacks, conn, piece) == conn
    decreases |piece|, conn.open
  {
    if conn.open && piece != "" {
      var n := Fitting(conn, piece);
      TakeGrows(callbacks, Receive(callbacks, conn, piece[..n]), piece[n..]);
    }
  }

  /** The connection has closed, or served something else first. */
  predicate Spoilt(conn: Conn, r: Request) {
    !conn.open || (conn.served != [] && conn.served[0] != r)
  }

  lemma {:induction false} SpoiltStays(callbacks: set<string>, conn: Conn, chunks: seq<string>, r: Request)
    requires conn.Space() >= 0 && Spoilt(conn, r)
    ensures Spoilt(Feed(callbacks, conn, chunks), r)
  {
    if chunks != [] {
      var front := chunks[..|chunks| - 1];
      SpoiltStays(callbacks, conn, front, r);
      TakeGrows(callbacks, Feed(callbacks, conn, front), chunks[|chunks| - 1]);
    }
  }

  /** A request whose bytes can be cut so that the first piece misfires is not always served. */
  lemma Misfires(callbacks: set<string>, r: Request, one: string, two: string)
    requires one != "" && two != "" && Bytes(r) == one + two && |one| <= MAX_MESSAGE_SIZE
    requires Spoilt(Receive(callbacks, NEW, one), r)
    ensures !AlwaysServed(callbacks, r)
  {
    FeedTwo(callbacks, one, two);
    TakeWhole(callbacks, NEW, one);
    TakeGrows(callbacks, Receive(callbacks, NEW, one), two);
  }

  lemma ReceiveFirst(callbacks: set<string>, chunk: string, q: Request)
    requires |chunk| <= MAX_MESSAGE_SIZE && Decode(chunk) == Complete(q)
    ensures var c := Receive(callbacks, NEW, chunk);
      c.served == (if q.endpoint in callbacks then [q] else []) && c.open == (chunk != "")
  {
    assert "" + chunk == chunk;
  }

  lemma BrokenByHeader(callbacks: set<string>, r: Request)
    requires Fits(r) && HEADER_DELIM in r.body
    ensures !AlwaysServed(callbacks, r)
  {
    LastIn(r.body, HEADER_DELIM);
    var m := Last(r.body, HEADER_DELIM);
    var q := Request(r.endpoint + [HEADER_DELIM] + r.body[..m], r.body[m + 1..]);
    assert Bytes(q) == Bytes(r) by {
      assert r.body == r.body[..m] + [HEADER_DELIM] + r.body[m + 1..];
    }
    DecodeHeaderless(q);
    FeedOne(callbacks, Bytes(r));
    TakeWhole(callbacks, NEW, Bytes(r));
    ReceiveFirst(callbacks, Bytes(r), q);
    assert |q.endpoint| > |r.endpoint|;
  }

  /** Cutting right behind an end mark inside the body serves a truncated request. */
  lemma BrokenByEndInBody(callbacks: set<string>, r: Request)
    requires Fits(r) && r.endpoint in callbacks && HEADER_DELIM !in r.body && MESSAGE_END in r.body
    ensures !AlwaysServed(callbacks, r)
  {
    LastIn(r.body, MESSAGE_END);
    var m := Last(r.body, MESSAGE_END);
    var q := Request(r.endpoint, r.body[..m]);
    var two := r.body[m + 1..] + [MESSAGE_END];
    assert Bytes(r) == Bytes(q) + two by {
      assert r.body == r.body[..m] + [MESSAGE_END] + r.body[m + 1..];
    }
    DecodeHeaderless(q);
    ReceiveFirst(callbacks, Bytes(q), q);
    Misfires(callbacks, r, Bytes(q), two);
  }

  lemma DecodeThrows(endpoint: string)
    requires MESSAGE_END in endpoint
    ensures Decode(endpoint + [HEADER_DELIM]) == Broken
  {
    var one := endpoint + [HEADER_DELIM];
    LastIs(one, HEADER_DELIM, |endpoint|);
    LastIn(one, MESSAGE_END);
  }

  /** Cutting right behind the header, with an end mark in front of it, makes the decoder throw. */
  lemma BrokenByEndInEndpoint(callbacks: set<string>, r: Request)
    requires Fits(r) && MESSAGE_END in r.endpoint
    ensures !AlwaysServed(callbacks, r)
  {
    var one, two := r.endpoint + [HEADER_DELIM], r.body + [MESSAGE_END];
    assert Bytes(r) == one + two;
    DecodeThrows(r.endpoint);
    assert "" + one == one;
    Misfires(callbacks, r, one, two);
  }

  /** Nothing larger than the buffer is ever served. */
  predicate AllFit(requests: seq<Request>) {
    forall i :: 0 <= i < |requests| ==> Fits(requests[i])
  }

  lemma {:induction false} TakeFits(callbacks: set<string>, conn: Conn, piece: string)
    requires conn.Space() >= 0 && AllFit(conn.served)
    ensures AllFit(Take(callbacks, conn, piece).served)
    decreases |piece|, conn.open
  {
    if conn.open && piece != "" {
      var n := Fitting(conn, piece);
      TakeFits(callbacks, Receive(callbacks, conn, piece[..n]), piece[n..]);
    }
  }

  lemma BrokenBySize(callbacks: set<string>, r: Request)
    requires !Fits(r)
    ensures !AlwaysServed(callbacks, r)
  {
    FeedOne(callbacks, Bytes(r));
    TakeFits(callbacks, NEW, Bytes(r));
    var served := Feed(callbacks, NEW, [Bytes(r)]).served;
    if |served| == 1 {
      assert Fits(served[0]);
    }
  }

  /** Exactly the clean requests that fit into the buffer are decoded right under every fragmentation:
      an end mark inside the endpoint or body, or a header mark inside the body, breaks some split. */
  lemma DecodedRightIff(callbacks: set<string>, r: Request)
    requires r.endpoint in callbacks
    ensures AlwaysServed(callbacks, r) <==> Clean(r) && |r.endpoint| + |r.body| + 2 <= 512
  {
    if !Fits(r) {
      BrokenBySize(callbacks, r);
    } else if Clean(r) {
      forall chunks | Split(chunks, Bytes(r)) ensures Feed(callbacks, NEW, chunks) == Conn("", [r], true) {
        FeedRequest(callbacks, [], r, chunks);
        assert [] + [r] == [r];
      }
    } else if HEADER_DELIM in r.body {
      BrokenByHeader(callbacks, r);
    } else if MESSAGE_END in r.body {
      BrokenByEndInBody(callbacks, r);
    } else {
      BrokenByEndInEndpoint(callbacks, r);
    }
  }
}
