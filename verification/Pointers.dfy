/** Linked structures as C keeps them: nodes are addresses, NULL is 0, and each link field
    is a map from node address to the address stored in that field. */
module Pointers {

  type Ptr = nat
  const NULL: Ptr := 0
  type Field = map<Ptr, Ptr>

  function Head(s: seq<Ptr>): Ptr { if s == [] then NULL else s[0] }

  function Last(s: seq<Ptr>): Ptr { if s == [] then NULL else s[|s| - 1] }

  /** Non-null, pairwise different addresses. */
  ghost predicate NodeBag(all: multiset<Ptr>) {
    NULL !in all && forall x {:trigger all[x]} :: all[x] <= 1
  }

  ghost predicate Nodes(s: seq<Ptr>) { NodeBag(multiset(s)) }

  lemma NodesDistinct(s: seq<Ptr>)
    requires Nodes(s)
    ensures NULL !in s
    ensures forall i, j | 0 <= i < j < |s| :: s[i] != s[j]
  {
    forall i, j | 0 <= i < j < |s| ensures s[i] != s[j] {
      assert s == s[..j] + s[j..];
      assert s[i] in s[..j] && s[j] in s[j..];
      assert multiset(s)[s[i]] == multiset(s[..j])[s[i]] + multiset(s[j..])[s[i]];
    }
    assert NULL in s ==> NULL in multiset(s);
  }

  /** Following `next` from s[0] visits s and then arrives at `end`. */
  ghost predicate Linked(next: Field, s: seq<Ptr>, end: Ptr) {
    && (forall i | 0 <= i < |s| :: s[i] in next)
    && (forall i {:trigger next[s[i]]} | 0 <= i < |s| :: next[s[i]] == if i + 1 < |s| then s[i + 1] else end)
  }

  /** `prev` of s[0] is `first`, and of every other node its predecessor in s. */
  ghost predicate BackLinked(prev: Field, s: seq<Ptr>, first: Ptr) {
    && (forall i | 0 <= i < |s| :: s[i] in prev)
    && (forall i {:trigger prev[s[i]]} | 0 <= i < |s| :: prev[s[i]] == if i > 0 then s[i - 1] else first)
  }

  /** Nothing outside `all` was written. */
  ghost predicate Frame(before: Field, after: Field, all: multiset<Ptr>) {
    && before.Keys == after.Keys
    && forall x {:trigger after[x]} | x in before && x !in all :: after[x] == before[x]
  }
}
