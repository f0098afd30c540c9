/** The conduction graph shared by planning, readiness and diagnosis.

    A node is an effector together with the ids of its immediate upstreams.  Every search in the
    program looks an effector up by scanning the declarations and stopping at the first match, so the
    graph is a sequence of nodes rather than a map. */
module ConductionGraph {

  datatype Node = Node(id: string, conduction: seq<string>)

  /** The position of the first declaration of `id`, or -1. */
  function IndexOf(nodes: seq<Node>, id: string): (i: int)
    ensures -1 <= i < |nodes|
    ensures i >= 0 ==> nodes[i].id == id && forall j :: 0 <= j < i ==> nodes[j].id != id
    ensures i < 0 ==> forall j :: 0 <= j < |nodes| ==> nodes[j].id != id
  {
    if nodes == [] then -1
    else if nodes[0].id == id then 0
    else
      var rest := IndexOf(nodes[1..], id);
      if rest < 0 then -1 else rest + 1
  }

  /** The scan itself. */
  method FindNode(nodes: seq<Node>, id: string) returns (index: int)
    ensures index == IndexOf(nodes, id)
  {
    index := -1;
    for candidate := 0 to |nodes|
      invariant index == -1
      invariant forall j :: 0 <= j < candidate ==> nodes[j].id != id
    {
      if nodes[candidate].id == id {
        index := candidate;
        break;
      }
    }
  }

  predicate Declared(nodes: seq<Node>, id: string) {
    IndexOf(nodes, id) >= 0
  }

  ghost function DeclaredIds(nodes: seq<Node>): set<string> {
    set n | n in nodes :: n.id
  }

  lemma DeclaredInIds(nodes: seq<Node>, id: string)
    ensures Declared(nodes, id) <==> id in DeclaredIds(nodes)
  {
    var i := IndexOf(nodes, id);
    if i >= 0 {
      assert nodes[i] in nodes;
    }
  }

  /** The immediate upstreams of `id`; none when `id` is not declared. */
  function Upstreams(nodes: seq<Node>, id: string): seq<string> {
    var i := IndexOf(nodes, id);
    if i < 0 then [] else nodes[i].conduction
  }

  /** A walk follows conduction from a node to one of its upstreams, step by step. */
  ghost predicate Walk(nodes: seq<Node>, p: seq<string>) {
    forall i :: 0 <= i < |p| - 1 ==> p[i + 1] in Upstreams(nodes, p[i])
  }

  ghost predicate WalkFromTo(nodes: seq<Node>, p: seq<string>, a: string, b: string) {
    |p| >= 2 && p[0] == a && p[|p| - 1] == b && Walk(nodes, p)
  }

  /** `b` is a transitive upstream of `a`. */
  ghost predicate Reaches(nodes: seq<Node>, a: string, b: string) {
    exists p :: WalkFromTo(nodes, p, a, b)
  }

  ghost predicate Acyclic(nodes: seq<Node>) {
    forall a :: !Reaches(nodes, a, a)
  }

  lemma EdgeReaches(nodes: seq<Node>, a: string, b: string)
    requires b in Upstreams(nodes, a)
    ensures Reaches(nodes, a, b)
  {
    assert WalkFromTo(nodes, [a, b], a, b);
  }

  lemma ReachesTransitive(nodes: seq<Node>, a: string, b: string, c: string)
    requires Reaches(nodes, a, b) && Reaches(nodes, b, c)
    ensures Reaches(nodes, a, c)
  {
    var p :| WalkFromTo(nodes, p, a, b);
    var q :| WalkFromTo(nodes, q, b, c);
    var r := p + q[1..];
    forall i | 0 <= i < |r| - 1
      ensures r[i + 1] in Upstreams(nodes, r[i])
    {
      if i < |p| - 1 {
        assert r[i] == p[i] && r[i + 1] == p[i + 1];
      } else {
        assert r[i] == q[i - (|p| - 1)] && r[i + 1] == q[i - (|p| - 1) + 1];
      }
    }
    assert WalkFromTo(nodes, r, a, c);
  }

  /** A set closed under upstreams contains everything reachable from its members. */
  lemma {:induction false} WalkStaysInside(nodes: seq<Node>, p: seq<string>, inside: set<string>)
    requires |p| >= 1 && Walk(nodes, p) && p[0] in inside
    requires forall x, u :: x in inside && u in Upstreams(nodes, x) && Declared(nodes, u) ==> u in inside
    ensures Declared(nodes, p[|p| - 1]) || |p| == 1 ==> p[|p| - 1] in inside
    decreases |p|
  {
    if |p| > 1 {
      var q := p[..|p| - 1];
      assert Walk(nodes, q);
      WalkStaysInside(nodes, q, inside);
      assert p[|p| - 1] in Upstreams(nodes, q[|q| - 1]);
    }
  }
}
