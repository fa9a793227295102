/** Vocabulary shared by both commit protocols. */
module Domain {

  /** A node address, "hostname:port". */
  datatype Host = Host(address: string)

  /** The contents of a transaction log. */
  datatype Word = WORKING | VOTEYES | COMMIT | ABORT

  datatype Decision = Commit | Abort {
    function AsWord(): Word {
      if this == Commit then COMMIT else ABORT
    }
  }

  datatype Option<+T> = None | Some(value: T)

  /** LOG_ONCE on a transaction log: the new contents, which is also the response. */
  function Once(current: Word, data: Word): Word {
    if current != WORKING then current else data
  }

  ghost predicate Distinct<T>(s: seq<T>) {
    forall i, j :: 0 <= i < j < |s| ==> s[i] != s[j]
  }

  /** A duplicate-free sequence has as many elements as it has positions. */
  lemma {:induction false} DistinctSize<T>(s: seq<T>)
    requires Distinct(s)
    ensures |set x | x in s| == |s|
  {
    if s == [] {
      assert (set x | x in s) == {};
    } else {
      var front, last := s[..|s| - 1], s[|s| - 1];
      DistinctSize(front);
      assert s == front + [last];
      assert (set x | x in s) == (set x | x in front) + {last};
    }
  }

  lemma {:induction false} SubsetSize<T>(a: set<T>, b: set<T>)
    requires a <= b
    ensures |a| <= |b|
  {
    if a != {} {
      var x :| x in a;
      SubsetSize(a - {x}, b - {x});
    }
  }

  /** Counting argument: a subset as large as the whole set is the whole set. */
  lemma Pigeonhole<T>(a: set<T>, b: set<T>)
    requires a <= b && |a| >= |b|
    ensures a == b
  {
    if x :| x in b && x !in a {
      SubsetSize(a, b - {x});
    }
  }

  /** The hosts a sending loop has yet to reach. */
  function From(hosts: seq<Host>, i: nat): set<Host>
    requires i <= |hosts|
  {
    set h | h in hosts[i..]
  }

  lemma FromStep(hosts: seq<Host>, i: nat)
    requires Distinct(hosts) && i < |hosts|
    ensures hosts[i] in From(hosts, i) && From(hosts, i + 1) == From(hosts, i) - {hosts[i]}
  {
    assert hosts[i..] == [hosts[i]] + hosts[i + 1..];
  }
}
