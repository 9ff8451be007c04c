/** Runs of a transition system, given by its step relation. */
module Traces {
  /** The actions lead from s to t, one step each. */
  ghost predicate Leads<S(!new), A(!new)>(step: (S, A, S) -> bool, s: S, acts: seq<A>, t: S)
    decreases |acts|
  {
    if acts == [] then s == t
    else exists m :: step(s, acts[0], m) && Leads(step, m, acts[1..], t)
  }

  lemma {:induction false} LeadsConcat<S(!new), A(!new)>(
      step: (S, A, S) -> bool, s: S, a: seq<A>, t: S, b: seq<A>, u: S)
    requires Leads(step, s, a, t) && Leads(step, t, b, u)
    ensures Leads(step, s, a + b, u)
    decreases |a|
  {
    if a == [] {
      assert a + b == b;
    } else {
      var m :| step(s, a[0], m) && Leads(step, m, a[1..], t);
      LeadsConcat(step, m, a[1..], t, b, u);
      assert (a + b)[0] == a[0] && (a + b)[1..] == a[1..] + b;
    }
  }

  lemma LeadsThen<S(!new), A(!new)>(step: (S, A, S) -> bool, s: S, acts: seq<A>, t: S, a: A, u: S)
    requires Leads(step, s, acts, t) && step(t, a, u)
    ensures Leads(step, s, acts + [a], u)
  {
    assert [a][1..] == [];
    assert Leads(step, u, [], u);
    assert Leads(step, t, [a], u);
    LeadsConcat(step, s, acts, t, [a], u);
  }

  /** What every step keeps, every run keeps. */
  lemma {:induction false} RunKeeps<S(!new), A(!new)>(
      step: (S, A, S) -> bool, inv: S -> bool, s: S, acts: seq<A>, t: S)
    requires Leads(step, s, acts, t) && inv(s)
    requires forall x, a, y :: inv(x) && step(x, a, y) ==> inv(y)
    ensures inv(t)
    decreases |acts|
  {
    if acts != [] {
      var m :| step(s, acts[0], m) && Leads(step, m, acts[1..], t);
      RunKeeps(step, inv, m, acts[1..], t);
    }
  }

  /** A reflexive, transitive relation that holds across every step holds across every run. */
  lemma {:induction false} RunRelates<S(!new), A(!new)>(
      step: (S, A, S) -> bool, rel: (S, S) -> bool, s: S, acts: seq<A>, t: S)
    requires Leads(step, s, acts, t)
    requires forall x :: rel(x, x)
    requires forall x, y, z :: rel(x, y) && rel(y, z) ==> rel(x, z)
    requires forall x, a, y :: step(x, a, y) ==> rel(x, y)
    ensures rel(s, t)
    decreases |acts|
  {
    if acts != [] {
      var m :| step(s, acts[0], m) && Leads(step, m, acts[1..], t);
      RunRelates(step, rel, m, acts[1..], t);
    }
  }

  /** A run of one system is a run of every system that allows more. */
  lemma {:induction false} LeadsWeakens<S(!new), A(!new)>(
      step: (S, A, S) -> bool, wider: (S, A, S) -> bool, s: S, acts: seq<A>, t: S)
    requires Leads(step, s, acts, t)
    requires forall x, a, y :: step(x, a, y) ==> wider(x, a, y)
    ensures Leads(wider, s, acts, t)
    decreases |acts|
  {
    if acts != [] {
      var m :| step(s, acts[0], m) && Leads(step, m, acts[1..], t);
      LeadsWeakens(step, wider, m, acts[1..], t);
    }
  }

  lemma InHeadOrTail<A>(acts: seq<A>, a: A)
    requires acts != []
    ensures a in acts <==> a == acts[0] || a in acts[1..]
  {
    assert acts == [acts[0]] + acts[1..];
  }

  /** What exactly one action brings about, and nothing undoes, holds after a run exactly if it held
      before or the action was taken. */
  lemma {:induction false} RunBringsAbout<S(!new), A(!new)>(
      step: (S, A, S) -> bool, p: S -> bool, mark: A, s: S, acts: seq<A>, t: S)
    requires Leads(step, s, acts, t)
    requires forall x, a, y :: step(x, a, y) ==> (p(y) <==> p(x) || a == mark)
    ensures p(t) <==> p(s) || mark in acts
    decreases |acts|
  {
    if acts != [] {
      var m :| step(s, acts[0], m) && Leads(step, m, acts[1..], t);
      RunBringsAbout(step, p, mark, m, acts[1..], t);
      InHeadOrTail(acts, mark);
    }
  }
}
