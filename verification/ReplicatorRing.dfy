/** How a host chooses its f replicators among the other hosts of the cluster. */
module ReplicatorRing {
  import opened Domain

  /** std::string's operator<. */
  predicate Less(a: string, b: string) {
    b != "" && (a == "" || a[0] < b[0] || (a[0] == b[0] && Less(a[1..], b[1..])))
  }

  lemma {:induction false} LessTotal(a: string, b: string)
    ensures a == b || Less(a, b) || Less(b, a)
  {
    if a != "" && b != "" {
      LessTotal(a[1..], b[1..]);
      assert a == [a[0]] + a[1..] && b == [b[0]] + b[1..];
    }
  }

  lemma {:induction false} LessAsymmetric(a: string, b: string)
    requires Less(a, b)
    ensures !Less(b, a)
  {
    if a != "" && a[0] == b[0] { LessAsymmetric(a[1..], b[1..]); }
  }

  lemma {:induction false} LessTransitive(a: string, b: string, c: string)
    requires Less(a, b) && Less(b, c)
    ensures Less(a, c)
  {
    if a != "" && a[0] == b[0] == c[0] { LessTransitive(a[1..], b[1..], c[1..]); }
  }

  /** What makes one string come before another: it is a proper prefix of it, or smaller where they first
      differ. */
  ghost predicate Precedes(a: string, b: string, n: nat) {
    n <= |a| && n < |b| && a[..n] == b[..n] && (n < |a| ==> a[n] < b[n])
  }

  lemma {:induction false} LessIff(a: string, b: string)
    ensures Less(a, b) <==> exists n: nat :: Precedes(a, b, n)
  {
    if a == "" || b == "" || a[0] != b[0] {
      assert b != "" && (a == "" || a[0] < b[0]) ==> Precedes(a, b, 0);
      assert forall n: nat :: Precedes(a, b, n) && n > 0 ==> a[..n][0] == b[..n][0];
    } else {
      LessIff(a[1..], b[1..]);
      forall n: nat ensures Precedes(a[1..], b[1..], n) <==> Precedes(a, b, n + 1) {
        PrecedesTail(a, b, n);
      }
      if n: nat :| Precedes(a, b, n) {
        assert n > 0;
        assert Precedes(a[1..], b[1..], n - 1);
      }
    }
  }

  lemma PrecedesTail(a: string, b: string, n: nat)
    requires a != "" && b != "" && a[0] == b[0]
    ensures Precedes(a[1..], b[1..], n) <==> Precedes(a, b, n + 1)
  {
    if n + 1 <= |a| && n + 1 < |b| {
      assert a[..n + 1] == [a[0]] + a[1..][..n] && b[..n + 1] == [b[0]] + b[1..][..n];
      assert a[1..n + 1] == a[1..][..n] && b[1..n + 1] == b[1..][..n];
    }
  }

  /** Sorted as std::sort leaves it. */
  ghost predicate Sorted(s: seq<string>) {
    forall i, j :: 0 <= i < j < |s| ==> !Less(s[j], s[i])
  }

  ghost predicate Ascending(s: seq<string>) {
    forall i, j :: 0 <= i < j < |s| ==> Less(s[i], s[j])
  }

  method Sort(s: seq<string>) returns (r: seq<string>)
    ensures Sorted(r) && multiset(r) == multiset(s)
  {
    r := [];
    for n := 0 to |s|
      invariant Sorted(r) && multiset(r) == multiset(s[..n])
    {
      var k := 0;
      while k < |r| && !Less(s[n], r[k])
        invariant 0 <= k <= |r|
        invariant forall i :: 0 <= i < k ==> !Less(s[n], r[i])
      {
        k := k + 1;
      }
      InsertSorted(r, s[n], k);
      assert r == r[..k] + r[k..];
      r := r[..k] + [s[n]] + r[k..];
      assert s[..n + 1] == s[..n] + [s[n]];
    }
    assert s[..|s|] == s;
  }

  lemma InsertSorted(r: seq<string>, x: string, k: nat)
    requires Sorted(r) && k <= |r|
    requires forall i :: 0 <= i < k ==> !Less(x, r[i])
    requires k < |r| ==> Less(x, r[k])
    ensures Sorted(r[..k] + [x] + r[k..])
  {
    forall i | k <= i < |r| ensures !Less(r[i], x) {
      if Less(r[i], x) {
        LessTransitive(r[i], x, r[k]);
        if i == k { LessAsymmetric(x, r[k]); }
      }
    }
  }

  // ---------------------------------------------------------------------------------------
  // The choice

  /** How many of the sorted hosts come before `id`. */
  function Before(others: seq<string>, id: string): (k: nat)
    ensures k <= |others|
    ensures forall i :: 0 <= i < k ==> Less(others[i], id)
    ensures k < |others| ==> !Less(others[k], id)
  {
    if others == [] || !Less(others[0], id) then 0 else 1 + Before(others[1..], id)
  }

  /** The first f hosts met when walking on from `id`, starting over at the end. */
  function Choice(others: seq<string>, id: string, f: nat): seq<string>
    requires f <= |others|
  {
    var k := Before(others, id);
    (others[k..] + others[..k])[..f]
  }

  lemma {:induction false} BeforeIs(others: seq<string>, id: string, k: nat)
    requires k <= |others| && forall i :: 0 <= i < k ==> Less(others[i], id)
    requires k < |others| ==> !Less(others[k], id)
    ensures Before(others, id) == k
  {
    if k > 0 { BeforeIs(others[1..], id, k - 1); }
  }

  /** The three loops over the sorted hosts; they never leave its bounds. */
  method Walk(others: seq<string>, id: string, f: nat) returns (replicators: seq<string>)
    requires f <= |others|
    ensures replicators == Choice(others, id, f)
  {
    var i, count := 0, f;
    while i < |others| && Less(others[i], id)
      invariant 0 <= i <= |others| && forall q :: 0 <= q < i ==> Less(others[q], id)
    {
      i := i + 1;
    }
    BeforeIs(others, id, i);
    ghost var k := i;
    ghost var all := others[k..] + others[..k];
    replicators := [];
    while i < |others| && count > 0
      invariant k <= i <= |others| && 0 <= count && i - k + count == f
      invariant replicators == all[..i - k]
    {
      replicators := replicators + [others[i]];
      count := count - 1;
      i := i + 1;
    }
    i := 0;
    while count > 0
      invariant 0 <= i <= k && 0 <= count && |replicators| + count == f
      invariant replicators == all[..|replicators|]
      invariant count > 0 ==> |replicators| == |others| - k + i
    {
      replicators := replicators + [others[i]];
      count := count - 1;
      i := i + 1;
    }
  }

  /** The part of the HostConfig constructor that fills `replicators`; None where it asserts false. */
  method ChooseReplicators(id: string, allOthers: seq<string>, f: nat)
    returns (others: seq<string>, replicators: Option<seq<string>>)
    ensures multiset(others) == multiset(allOthers) && |others| == |allOthers|
    ensures f > |allOthers| ==> replicators == None
    ensures f <= |allOthers| ==> Sorted(others) && replicators == Some(Choice(others, id, f))
  {
    if |allOthers| < f {
      return allOthers, None;
    }
    others := Sort(allOthers);
    assert |multiset(others)| == |others| && |multiset(allOthers)| == |allOthers|;
    var r := Walk(others, id, f);
    return others, Some(r);
  }

  /** The first replicator is the least host that does not come before `id`; if all do, the least of all. */
  lemma FirstChosen(others: seq<string>, id: string, f: nat)
    requires Sorted(others) && 0 < f <= |others|
    ensures var r := Choice(others, id, f)[0];
      && r in others && (Less(r, id) ==> forall o :: o in others ==> Less(o, id))
      && forall o :: o in others && (Less(r, id) || !Less(o, id)) ==> !Less(o, r)
  {
    var k := Before(others, id);
    var r := Choice(others, id, f)[0];
    assert r == if k < |others| then others[k] else others[0];
    if r !in others || Less(r, r) { LessAsymmetric(r, r); }
  }

  // ---------------------------------------------------------------------------------------
  // The ring

  /** Position j + 1 + k on a ring of n. */
  function Wrap(n: nat, j: nat, k: nat): (r: nat)
    requires j < n && k < n
    ensures r < n && r == (j + 1 + k) % n
  {
    if j + 1 + k < n then j + 1 + k else j + 1 + k - n
  }

  lemma Tail(s: seq<string>)
    requires s != []
    ensures multiset(s) == multiset{s[0]} + multiset(s[1..])
  {
    assert s == [s[0]] + s[1..];
  }

  lemma Cancel(x: string, p: multiset<string>, q: multiset<string>)
    requires multiset{x} + p == multiset{x} + q
    ensures p == q
  {
    forall y ensures p[y] == q[y] {
      assert (multiset{x} + p)[y] == (multiset{x} + q)[y];
    }
  }

  lemma {:induction false} SortedUnique(a: seq<string>, b: seq<string>)
    requires Sorted(a) && Ascending(b) && multiset(a) == multiset(b)
    ensures a == b
    decreases |b|
  {
    assert |multiset(a)| == |multiset(b)|;
    if b != [] {
      assert b[0] in multiset(a) && a[0] in multiset(b);
      SameHead(a, b);
      Tail(a);
      Tail(b);
      Cancel(a[0], multiset(a[1..]), multiset(b[1..]));
      SortedUnique(a[1..], b[1..]);
      assert a == [a[0]] + a[1..] && b == [b[0]] + b[1..];
    }
  }

  lemma SameHead(a: seq<string>, b: seq<string>)
    requires Sorted(a) && Ascending(b) && a != [] && b != [] && b[0] in a && a[0] in b
    ensures a[0] == b[0]
  {
    var i :| 0 <= i < |a| && a[i] == b[0];
    var j :| 0 <= j < |b| && b[j] == a[0];
    assert i > 0 ==> !Less(a[i], a[0]);
    assert j > 0 ==> Less(b[0], b[j]);
  }

  /** What remains of the cluster when the host at position j is taken out. */
  lemma OthersAre(hosts: seq<string>, j: nat, others: seq<string>)
    requires Ascending(hosts) && j < |hosts|
    requires Sorted(others) && multiset(others) + multiset{hosts[j]} == multiset(hosts)
    ensures others == hosts[..j] + hosts[j + 1..]
  {
    var rest := hosts[..j] + hosts[j + 1..];
    assert hosts == hosts[..j] + [hosts[j]] + hosts[j + 1..];
    assert multiset(hosts) == multiset{hosts[j]} + multiset(rest);
    Cancel(hosts[j], multiset(rest), multiset(others));
    SortedUnique(others, rest);
  }

  lemma ChoiceIs(hosts: seq<string>, j: nat, f: nat)
    requires Ascending(hosts) && j < |hosts| && f < |hosts|
    ensures Choice(hosts[..j] + hosts[j + 1..], hosts[j], f) == (hosts[j + 1..] + hosts[..j])[..f]
  {
    var others := hosts[..j] + hosts[j + 1..];
    forall i | j < i < |hosts| ensures !Less(hosts[i], hosts[j]) {
      LessAsymmetric(hosts[j], hosts[i]);
    }
    BeforeIs(others, hosts[j], j);
    assert others[j..] == hosts[j + 1..] && others[..j] == hosts[..j];
  }

  /** In a cluster of n distinct hosts, each listing all the others in any order, with f < n, the host
      at sorted position j chooses exactly the hosts at positions j + 1 to j + f modulo n: f different
      ones, never itself. */
  lemma RingChoice(hosts: seq<string>, j: nat, others: seq<string>, f: nat)
    requires Ascending(hosts) && j < |hosts| && f < |hosts|
    requires Sorted(others) && multiset(others) + multiset{hosts[j]} == multiset(hosts)
    ensures |others| == |hosts| - 1
    ensures var choice := Choice(others, hosts[j], f);
      && |choice| == f && (forall k :: 0 <= k < f ==> choice[k] == hosts[Wrap(|hosts|, j, k)])
      && hosts[j] !in choice && Distinct(choice)
  {
    OthersAre(hosts, j, others);
    ChoiceIs(hosts, j, f);
    AscendingDistinct(hosts);
  }

  lemma AscendingDistinct(hosts: seq<string>)
    requires Ascending(hosts)
    ensures Distinct(hosts)
  {
    forall i, j | 0 <= i < j < |hosts| ensures hosts[i] != hosts[j] {
      if hosts[i] == hosts[j] { LessAsymmetric(hosts[i], hosts[j]); }
    }
  }

  predicate Serves(n: nat, f: nat, j: nat, i: nat)
    requires f <= n && j < n
  {
    exists k :: 0 <= k < f && Wrap(n, j, k) == i
  }

  /** The positions whose hosts have the host at position i as one of their f replicators. */
  ghost function ServedBy(n: nat, f: nat, i: nat): set<nat>
    requires f <= n && i < n
  {
    set j | 0 <= j < n && Serves(n, f, j, i)
  }

  /** The load is balanced: every host is a replicator of exactly f others. */
  lemma {:induction false} LoadBalanced(n: nat, f: nat, i: nat)
    requires f < n && i < n
    ensures |ServedBy(n, f, i)| == f && i !in ServedBy(n, f, i)
  {
    if f == 0 {
      assert ServedBy(n, 0, i) == {};
    } else {
      LoadBalanced(n, f - 1, i);
      var j := if i >= f then i - f else i - f + n;
      assert ServedBy(n, f, i) == ServedBy(n, f - 1, i) + {j} by {
        forall q: nat | q < n ensures Serves(n, f, q, i) <==> Serves(n, f - 1, q, i) || q == j {
          ServesNext(n, f, q, i);
        }
      }
      ServesNext(n, f, j, i);
    }
  }

  /** The host at position i is the f-th replicator of exactly one host. */
  lemma ServesNext(n: nat, f: nat, q: nat, i: nat)
    requires 0 < f < n && i < n && q < n
    ensures var j := if i >= f then i - f else i - f + n;
      (Serves(n, f, q, i) <==> Serves(n, f - 1, q, i) || q == j) && !Serves(n, f - 1, j, i)
  {
    assert Wrap(n, q, f - 1) == i <==> q == if i >= f then i - f else i - f + n;
    if Serves(n, f, q, i) {
      var k :| 0 <= k < f && Wrap(n, q, k) == i;
    }
    if Serves(n, f - 1, q, i) {
      var k :| 0 <= k < f - 1 && Wrap(n, q, k) == i;
    }
  }

  /** The same of the hosts themselves: exactly f of them, none being the host at position i, choose it. */
  lemma EveryHostServesF(hosts: seq<string>, f: nat, i: nat)
    requires Ascending(hosts) && f < |hosts| && i < |hosts|
    ensures var choosers := set j | 0 <= j < |hosts| && hosts[i] in Choice(hosts[..j] + hosts[j + 1..], hosts[j], f);
      |choosers| == f && i !in choosers
  {
    var n := |hosts|;
    forall j | 0 <= j < n ensures hosts[i] in Choice(hosts[..j] + hosts[j + 1..], hosts[j], f) <==> Serves(n, f, j, i) {
      ChosenAt(hosts, j, f, i);
    }
    assert (set j | 0 <= j < n && hosts[i] in Choice(hosts[..j] + hosts[j + 1..], hosts[j], f)) == ServedBy(n, f, i);
    LoadBalanced(n, f, i);
  }

  lemma ChosenAt(hosts: seq<string>, j: nat, f: nat, i: nat)
    requires Ascending(hosts) && f < |hosts| && i < |hosts| && j < |hosts|
    ensures hosts[i] in Choice(hosts[..j] + hosts[j + 1..], hosts[j], f) <==> Serves(|hosts|, f, j, i)
  {
    var choice := (hosts[j + 1..] + hosts[..j])[..f];
    ChoiceIs(hosts, j, f);
    AscendingDistinct(hosts);
    assert forall k :: 0 <= k < f ==> choice[k] == hosts[Wrap(|hosts|, j, k)];
    if Serves(|hosts|, f, j, i) {
      var k :| 0 <= k < f && Wrap(|hosts|, j, k) == i;
      assert choice[k] == hosts[i];
    }
    if hosts[i] in choice {
      var k :| 0 <= k < f && choice[k] == hosts[i];
      assert Wrap(|hosts|, j, k) == i;
    }
  }
}
