/** Two requests on one connection without waiting for the first reply. */
module Pipelining {
  import opened Wire
  import P = Params

  function Both(r1: Request, r2: Request): string {
    Bytes(r1) + Bytes(r2)
  }

  /** How many bytes there are in front of the second request's first header mark. */
  function Limit(r1: Request, r2: Request): nat {
    |Bytes(r1)| + P.First(Bytes(r2), HEADER_DELIM)
  }

  predicate Good(callbacks: set<string>, r1: Request, r2: Request) {
    Clean(r1) && Fits(r1) && r1.endpoint in callbacks && Clean(r2) && Fits(r2) && r2.endpoint in callbacks
  }

  lemma LimitIs(r1: Request, r2: Request)
    requires MESSAGE_END !in r2.endpoint
    ensures Limit(r1, r2) <= |Bytes(r1)| + |r2.endpoint| < |Both(r1, r2)| - 1
    ensures Both(r1, r2)[Limit(r1, r2)] == HEADER_DELIM
    ensures HEADER_DELIM !in Both(r1, r2)[|Bytes(r1)|..Limit(r1, r2)]
    ensures MESSAGE_END !in Both(r1, r2)[|Bytes(r1)|..Limit(r1, r2)]
  {
    var b, n := Bytes(r2), P.First(Bytes(r2), HEADER_DELIM);
    assert b[|r2.endpoint|] == HEADER_DELIM;
    assert Both(r1, r2)[|Bytes(r1)|..Limit(r1, r2)] == b[..n] == r2.endpoint[..n];
  }

  /** What the connection should look like after the first p bytes. */
  function Reached(r1: Request, r2: Request, p: nat): Conn
    requires p <= |Both(r1, r2)|
  {
    if p < |Bytes(r1)| then Conn(Both(r1, r2)[..p], [], true) else Arrived([r1], [r1, r2], r2, p - |Bytes(r1)|)
  }

  /** Nothing of the second request that is already there stands out. */
  lemma DecodeFirst(r: Request, e: string)
    requires Clean(r) && HEADER_DELIM !in e && MESSAGE_END !in e
    ensures Decode(Bytes(r) + e) == Complete(r)
  {
    var msg := Bytes(r) + e;
    LastIs(msg, HEADER_DELIM, |r.endpoint|);
    LastIs(msg, MESSAGE_END, |Bytes(r)| - 1);
    assert msg[..|r.endpoint|] == r.endpoint;
    assert msg[|r.endpoint| + 1..|Bytes(r)| - 1] == r.body;
  }

  /** A read that ends between the first request and the second one's header mark serves the first. */
  lemma Cross(callbacks: set<string>, r1: Request, r2: Request, p: nat, piece: string)
    requires Good(callbacks, r1, r2) && p < |Bytes(r1)| <= p + |piece| <= Limit(r1, r2)
    requires p + |piece| <= MAX_MESSAGE_SIZE && Follows(Both(r1, r2), p, piece)
    ensures Receive(callbacks, Reached(r1, r2, p), piece) == Reached(r1, r2, p + |piece|)
  {
    hide Limit, Decode, Bytes;
    var a, q := |Bytes(r1)|, p + |piece|;
    LimitIs(r1, r2);
    var e := Both(r1, r2)[a..q];
    CrossBytes(r1, r2, q);
    DecodeFirst(r1, e);
    assert (Bytes(r1) + e)[a..] == e && [] + [r1] == [r1];
    Size(r1);
  }

  lemma Size(r: Request)
    ensures |Bytes(r)| == |r.endpoint| + |r.body| + 2
  {
  }

  lemma CrossBytes(r1: Request, r2: Request, q: nat)
    requires MESSAGE_END !in r2.endpoint && |Bytes(r1)| <= q <= Limit(r1, r2)
    ensures q < |Both(r1, r2)|
    ensures var e := Both(r1, r2)[|Bytes(r1)|..q];
      && Both(r1, r2)[..q] == Bytes(r1) + e && e == Bytes(r2)[..q - |Bytes(r1)|]
      && HEADER_DELIM !in e && MESSAGE_END !in e && q - |Bytes(r1)| < |Bytes(r2)|
  {
    LimitIs(r1, r2);
    var e := Both(r1, r2)[|Bytes(r1)|..q];
    assert e == Both(r1, r2)[|Bytes(r1)|..Limit(r1, r2)][..q - |Bytes(r1)|];
  }

  /** A piece that does not jump from inside the first request over the second one's header mark. */
  lemma Advance(callbacks: set<string>, r1: Request, r2: Request, p: nat, piece: string)
    requires Good(callbacks, r1, r2) && piece != "" && Follows(Both(r1, r2), p, piece)
    requires p >= |Bytes(r1)| || p + |piece| <= Limit(r1, r2) || MAX_MESSAGE_SIZE <= Limit(r1, r2)
    ensures Take(callbacks, Reached(r1, r2, p), piece) == Reached(r1, r2, p + |piece|)
  {
    var a, q := |Bytes(r1)|, p + |piece|;
    if p >= a {
      Second(r1, r2, p, piece);
      ArriveMore(callbacks, [r1], r2, p - a, piece);
    } else if q < a {
      TakeWhole(callbacks, Reached(r1, r2, p), piece);
      assert Both(r1, r2)[..q] == Bytes(r1)[..q];
      NoEnd(Both(r1, r2)[..q]);
    } else if q <= MAX_MESSAGE_SIZE {
      TakeWhole(callbacks, Reached(r1, r2, p), piece);
      Cross(callbacks, r1, r2, p, piece);
    } else {
      CutAtFull(callbacks, r1, r2, p, piece);
    }
  }

  lemma Second(r1: Request, r2: Request, p: nat, piece: string)
    requires |Bytes(r1)| <= p && Follows(Both(r1, r2), p, piece)
    ensures Follows(Bytes(r2), p - |Bytes(r1)|, piece)
  {
    var a := |Bytes(r1)|;
    assert Both(r1, r2)[..p][a..] == Bytes(r2)[..p - a];
    assert Both(r1, r2)[..p + |piece|][a..] == Bytes(r2)[..p - a + |piece|];
    assert (Both(r1, r2)[..p] + piece)[a..] == Both(r1, r2)[..p][a..] + piece;
  }

  /** The buffer's end cuts the piece in time. */
  lemma CutAtFull(callbacks: set<string>, r1: Request, r2: Request, p: nat, piece: string)
    requires Good(callbacks, r1, r2) && p < |Bytes(r1)| && MAX_MESSAGE_SIZE < p + |piece|
    requires Follows(Both(r1, r2), p, piece)
    requires p + |piece| <= Limit(r1, r2) || MAX_MESSAGE_SIZE <= Limit(r1, r2)
    ensures Take(callbacks, Reached(r1, r2, p), piece) == Reached(r1, r2, p + |piece|)
  {
    hide Take, Receive, Decode, Limit, Reached, Clean, Both, Bytes, Arrived, Follows;
    var n := MAX_MESSAGE_SIZE - p;
    Cuts(Both(r1, r2), p, piece, n);
    Cross(callbacks, r1, r2, p, piece[..n]);
    InFirst(r1, r2, p);
    Ends(Both(r1, r2), p, piece);
    TakeFull(callbacks, Reached(r1, r2, p), piece);
    Second(r1, r2, p + n, piece[n..]);
    InSecond(r1, r2, p + n);
    InSecond(r1, r2, p + |piece|);
    assert Ran(callbacks, [r1], r2) == [r1, r2];
    ArriveMore(callbacks, [r1], r2, p + n - |Bytes(r1)|, piece[n..]);
  }

  lemma Ends(bytes: string, p: nat, piece: string)
    requires Follows(bytes, p, piece)
    ensures p + |piece| <= |bytes|
  {
  }

  lemma InFirst(r1: Request, r2: Request, p: nat)
    requires p < |Bytes(r1)|
    ensures p <= |Both(r1, r2)| && Reached(r1, r2, p).open && Reached(r1, r2, p).Space() == MAX_MESSAGE_SIZE - p
  {
  }

  lemma InSecond(r1: Request, r2: Request, p: nat)
    requires |Bytes(r1)| <= p <= |Both(r1, r2)|
    ensures p - |Bytes(r1)| <= |Bytes(r2)| && Reached(r1, r2, p) == Arrived([r1], [r1, r2], r2, p - |Bytes(r1)|)
  {
  }

  lemma TakeFull(callbacks: set<string>, conn: Conn, piece: string)
    requires conn.open && 0 <= conn.Space() < |piece|
    ensures Take(callbacks, conn, piece) ==
      Take(callbacks, Receive(callbacks, conn, piece[..conn.Space()]), piece[conn.Space()..])
  {
  }

  lemma Cuts(bytes: string, p: nat, piece: string, n: nat)
    requires n <= |piece| && Follows(bytes, p, piece)
    ensures Follows(bytes, p, piece[..n]) && Follows(bytes, p + n, piece[n..])
  {
    assert bytes[..p] + piece[..n] == bytes[..p + |piece|][..p + n];
    assert piece == piece[..n] + piece[n..];
  }

  // ---------------------------------------------------------------------------------------
  // Misreading

  /** Both requests in one buffer are read as one. */
  lemma ReadAsOne(r1: Request, r2: Request)
    requires HEADER_DELIM !in r2.body
    ensures Decode(Both(r1, r2)) == Complete(Request(Bytes(r1) + r2.endpoint, r2.body))
  {
    var q := Request(Bytes(r1) + r2.endpoint, r2.body);
    assert Both(r1, r2) == Bytes(q);
    DecodeHeaderless(q);
  }

  /** The first request and part of the second one, header mark included, make the decoder throw. */
  lemma ThrowsInside(r1: Request, r2: Request, q: nat)
    requires Clean(r2) && Limit(r1, r2) < q < |Both(r1, r2)|
    ensures |Bytes(r1)| <= |Both(r1, r2)|
    ensures Decode(Both(r1, r2)[..q]) == Broken
  {
    LimitIs(r1, r2);
    var a, msg := |Bytes(r1)|, Both(r1, r2)[..q];
    assert msg[a - 1] == MESSAGE_END && msg[Limit(r1, r2)] == HEADER_DELIM;
    forall i | a <= i < q ensures msg[i] != MESSAGE_END {
      assert msg[i] == Bytes(r2)[i - a];
    }
    LastIs(msg, MESSAGE_END, a - 1);
    var m := Last(msg, HEADER_DELIM);
    assert m >= Limit(r1, r2);
  }

  /** The connection is spoilt for the first request, or everything was read and nothing served. */
  ghost predicate Misread(conn: Conn, r1: Request, r2: Request, p: nat) {
    Spoilt(conn, r1) || (conn.served == [] && p == |Both(r1, r2)|)
  }

  lemma MisreadNow(callbacks: set<string>, r1: Request, r2: Request, p: nat, piece: string)
    requires Good(callbacks, r1, r2) && p < |Bytes(r1)| && Follows(Both(r1, r2), p, piece)
    requires Limit(r1, r2) < p + |piece| <= MAX_MESSAGE_SIZE
    ensures Misread(Receive(callbacks, Reached(r1, r2, p), piece), r1, r2, p + |piece|)
  {
    hide Decode, Limit, Both, Bytes;
    var q := p + |piece|;
    Ends(Both(r1, r2), p, piece);
    if q == |Both(r1, r2)| {
      ReadAsOne(r1, r2);
      assert Both(r1, r2)[..q] == Both(r1, r2);
      Size(r1);
      Size(Request(Bytes(r1) + r2.endpoint, r2.body));
    } else {
      ThrowsInside(r1, r2, q);
    }
  }

  /** A piece that jumps from inside the first request over the second one's header mark. */
  lemma Jump(callbacks: set<string>, r1: Request, r2: Request, p: nat, piece: string)
    requires Good(callbacks, r1, r2) && p < |Bytes(r1)| && Follows(Both(r1, r2), p, piece)
    requires Limit(r1, r2) < p + |piece| && Limit(r1, r2) < MAX_MESSAGE_SIZE
    ensures Misread(Take(callbacks, Reached(r1, r2, p), piece), r1, r2, p + |piece|)
  {
    var conn := Reached(r1, r2, p);
    var n := Fitting(conn, piece);
    Cuts(Both(r1, r2), p, piece, n);
    MisreadNow(callbacks, r1, r2, p, piece[..n]);
    if n == |piece| {
      TakeWhole(callbacks, conn, piece);
      assert piece[..n] == piece;
    } else {
      TakeGrows(callbacks, Receive(callbacks, conn, piece[..n]), piece[n..]);
    }
  }

  // ---------------------------------------------------------------------------------------
  // Exactly when both requests are served

  /** Some piece ends between the first request and the second one's header mark. */
  ghost predicate Pause(r1: Request, r2: Request, chunks: seq<string>, n: nat)
    requires n <= |chunks|
  {
    exists j :: 0 <= j <= n && |Bytes(r1)| <= |Join(chunks[..j])| <= Limit(r1, r2)
  }

  /** The buffer's end, or a pause so far, keeps the two requests apart, or it has not come to that yet. */
  ghost predicate Apart(r1: Request, r2: Request, chunks: seq<string>, n: nat)
    requires n <= |chunks|
  {
    MAX_MESSAGE_SIZE <= Limit(r1, r2) || |Join(chunks[..n])| < |Bytes(r1)| || Pause(r1, r2, chunks, n)
  }

  lemma {:induction false} JoinGrows(chunks: seq<string>, i: nat, j: nat)
    requires i <= j <= |chunks|
    ensures |Join(chunks[..i])| <= |Join(chunks[..j])|
  {
    if i < j {
      JoinGrows(chunks, i, j - 1);
      JoinPrefix(chunks, j - 1);
    }
  }

  /** The next piece, as a stretch of the byte stream. */
  lemma NextPiece(chunks: seq<string>, bytes: string, n: nat)
    requires Split(chunks, bytes) && n < |chunks|
    ensures var p := |Join(chunks[..n])|;
      chunks[n] != "" && |Join(chunks[..n + 1])| == p + |chunks[n]| && Follows(bytes, p, chunks[n])
  {
    JoinPrefix(chunks, n);
    JoinPrefix(chunks, n + 1);
  }

  lemma StillApart(r1: Request, r2: Request, chunks: seq<string>, n: nat)
    requires n < |chunks| && Apart(r1, r2, chunks, n + 1)
    ensures Apart(r1, r2, chunks, n)
    ensures
      || |Join(chunks[..n])| >= |Bytes(r1)| || |Join(chunks[..n + 1])| <= Limit(r1, r2)
      || MAX_MESSAGE_SIZE <= Limit(r1, r2)
  {
    JoinGrows(chunks, n, n + 1);
    if Pause(r1, r2, chunks, n + 1) {
      var j :| 0 <= j <= n + 1 && |Bytes(r1)| <= |Join(chunks[..j])| <= Limit(r1, r2);
      if j <= n { JoinGrows(chunks, j, n); }
    }
  }

  lemma {:induction false} ServedApart(callbacks: set<string>, r1: Request, r2: Request, chunks: seq<string>, n: nat)
    requires Good(callbacks, r1, r2) && Split(chunks, Both(r1, r2)) && n <= |chunks| && Apart(r1, r2, chunks, n)
    ensures |Join(chunks[..n])| <= |Both(r1, r2)|
    ensures Feed(callbacks, NEW, chunks[..n]) == Reached(r1, r2, |Join(chunks[..n])|)
  {
    hide Feed, Take, Join, Both, Bytes, Limit, Follows, Reached, Good, Apart, Split;
    if n == 0 {
      FeedNone(callbacks, NEW, chunks);
      NothingYet(r1, r2);
    } else {
      StillApart(r1, r2, chunks, n - 1);
      ServedApart(callbacks, r1, r2, chunks, n - 1);
      FeedNext(callbacks, NEW, chunks, n - 1);
      NextPiece(chunks, Both(r1, r2), n - 1);
      Ends(Both(r1, r2), |Join(chunks[..n - 1])|, chunks[n - 1]);
      Advance(callbacks, r1, r2, |Join(chunks[..n - 1])|, chunks[n - 1]);
    }
  }

  lemma {:induction false} MisreadTogether(
      callbacks: set<string>, r1: Request, r2: Request, chunks: seq<string>, n: nat)
    requires Good(callbacks, r1, r2) && Split(chunks, Both(r1, r2)) && n <= |chunks| && !Apart(r1, r2, chunks, n)
    ensures Misread(Feed(callbacks, NEW, chunks[..n]), r1, r2, |Join(chunks[..n])|)
  {
    hide Feed, Take, Join, Both, Bytes, Limit, Follows, Reached, Good, Split;
    if n == 0 {
      FeedNone(callbacks, NEW, chunks);
      NothingYet(r1, r2);
    } else {
      FeedNext(callbacks, NEW, chunks, n - 1);
      NextPiece(chunks, Both(r1, r2), n - 1);
      Ends(Both(r1, r2), |Join(chunks[..n - 1])|, chunks[n - 1]);
      if Apart(r1, r2, chunks, n - 1) {
        ServedApart(callbacks, r1, r2, chunks, n - 1);
        Together(r1, r2, chunks, n - 1);
        Jump(callbacks, r1, r2, |Join(chunks[..n - 1])|, chunks[n - 1]);
      } else {
        MisreadTogether(callbacks, r1, r2, chunks, n - 1);
        TakeGrows(callbacks, Feed(callbacks, NEW, chunks[..n - 1]), chunks[n - 1]);
      }
    }
  }

  lemma NothingYet(r1: Request, r2: Request)
    ensures Reached(r1, r2, 0) == NEW && |Bytes(r1)| > 0
  {
  }

  lemma Together(r1: Request, r2: Request, chunks: seq<string>, n: nat)
    requires n < |chunks| && Apart(r1, r2, chunks, n) && !Apart(r1, r2, chunks, n + 1)
    ensures |Join(chunks[..n])| < |Bytes(r1)| && |Join(chunks[..n + 1])| > Limit(r1, r2)
  {
    assert 0 <= n + 1 <= n + 1 ==> !(|Bytes(r1)| <= |Join(chunks[..n + 1])| <= Limit(r1, r2));
  }

  /** Two requests sent without waiting are both served, in order, exactly if some piece ends after the
      first request and before the second one's header mark, or if the buffer does. */
  lemma PipelinedIff(callbacks: set<string>, r1: Request, r2: Request, chunks: seq<string>)
    requires Good(callbacks, r1, r2) && Split(chunks, Both(r1, r2))
    ensures Feed(callbacks, NEW, chunks) == Conn("", [r1, r2], true) <==>
      || MAX_MESSAGE_SIZE <= Limit(r1, r2)
      || exists j :: 0 <= j <= |chunks| && |Bytes(r1)| <= |Join(chunks[..j])| <= Limit(r1, r2)
  {
    var n := |chunks|;
    assert chunks[..n] == chunks;
    if Apart(r1, r2, chunks, n) {
      ServedApart(callbacks, r1, r2, chunks, n);
      assert [r1] + [r2] == [r1, r2];
    } else {
      MisreadTogether(callbacks, r1, r2, chunks, n);
    }
  }
}
