/** One-shot atomic commitment: what a commit protocol is for, without messages, logs or timeouts. */
module AtomicCommit {
  import opened Domain

  datatype Ballot = Open | Yes | No

  /** The participants' ballots, and what each host has announced so far. */
  datatype Spec = Spec(ballot: map<Host, Ballot>, said: map<Host, Option<Decision>>)

  ghost predicate Init(t: Spec) {
    (forall p :: p in t.ballot ==> t.ballot[p] == Open) && (forall h :: h in t.said ==> t.said[h] == None)
  }

  /** COMMIT once every ballot is Yes, ABORT once some ballot is No. */
  ghost function Outcome(t: Spec): Option<Decision> {
    if exists p :: p in t.ballot && t.ballot[p] == No then Some(Abort)
    else if forall p :: p in t.ballot ==> t.ballot[p] == Yes then Some(Commit)
    else None
  }

  ghost predicate Cast(t: Spec, t': Spec, p: Host) {
    && p in t.ballot && t.ballot[p] == Open
    && p in t'.ballot && t' == t.(ballot := t.ballot[p := t'.ballot[p]])
  }

  ghost predicate Announce(t: Spec, t': Spec, h: Host) {
    && h in t.said && t.said[h] == None && Outcome(t).Some?
    && t' == t.(said := t.said[h := Outcome(t)])
  }

  /** One step: nothing happens, one open ballot is cast, or one host announces the outcome. */
  ghost predicate Next(t: Spec, t': Spec) {
    t' == t || (exists p :: Cast(t, t', p)) || (exists h :: Announce(t, t', h))
  }

  /** Whatever has been announced is the outcome. */
  ghost predicate Consistent(t: Spec) {
    forall h :: h in t.said && t.said[h].Some? ==> t.said[h] == Outcome(t)
  }

  /** The outcome never changes once it is known. */
  lemma OutcomeStable(t: Spec, t': Spec)
    requires Next(t, t') && Outcome(t).Some?
    ensures Outcome(t') == Outcome(t)
  {
    if p :| Cast(t, t', p) {
      if q :| q in t.ballot && t.ballot[q] == No {
        assert q in t'.ballot && t'.ballot[q] == No;
      }
    }
  }

  lemma ConsistentStep(t: Spec, t': Spec)
    requires Next(t, t') && Consistent(t)
    ensures Consistent(t')
  {
    if Outcome(t).Some? {
      OutcomeStable(t, t');
    }
  }

  /** A run, state by state. */
  ghost predicate Run(run: seq<Spec>) {
    run != [] && Init(run[0]) && forall i :: 0 < i < |run| ==> Next(run[i - 1], run[i])
  }

  lemma {:induction false} RunConsistent(run: seq<Spec>, i: nat)
    requires Run(run) && i < |run|
    ensures Consistent(run[i])
  {
    if i > 0 {
      RunConsistent(run, i - 1);
      ConsistentStep(run[i - 1], run[i]);
    }
  }

  lemma {:induction false} RunStable(run: seq<Spec>, i: nat, j: nat)
    requires Run(run) && i <= j < |run| && Outcome(run[i]).Some?
    ensures Outcome(run[j]) == Outcome(run[i])
  {
    if i < j {
      RunStable(run, i, j - 1);
      OutcomeStable(run[j - 1], run[j]);
    }
  }
}
