/** The transitive upstreams of an effector: correlation_advance's explicit-stack search.

    `AncestorOrder` is the plain recursive depth-first post-order.  The stack loop is proved to compute
    exactly that, and the properties promised for the listing are proved about the recursive form. */
module Ancestors {
  import opened Sets
  import opened ConductionGraph

  datatype Visited = Visited(seen: set<string>, order: seq<string>)

  /** Unseen declarations: what bounds both the recursion and the stack loop. */
  ghost function Unseen(nodes: seq<Node>, seen: set<string>): nat {
    |DeclaredIds(nodes) - seen|
  }

  lemma UnseenShrinks(nodes: seq<Node>, seen: set<string>, more: set<string>)
    requires seen <= more
    ensures Unseen(nodes, more) <= Unseen(nodes, seen)
    ensures forall id :: id in more && id !in seen && Declared(nodes, id) ==> Unseen(nodes, more) < Unseen(nodes, seen)
  {
    SubsetSize(DeclaredIds(nodes) - more, DeclaredIds(nodes) - seen);
    forall id | id in more && id !in seen && Declared(nodes, id)
      ensures Unseen(nodes, more) < Unseen(nodes, seen)
    {
      DeclaredInIds(nodes, id);
      SubsetSize(DeclaredIds(nodes) - more, DeclaredIds(nodes) - seen - {id});
    }
  }

  /** Visit one effector: its unseen upstreams first, in declaration order, then itself. */
  ghost function Visit(nodes: seq<Node>, id: string, seen: set<string>): (v: Visited)
    ensures seen <= v.seen
    decreases Unseen(nodes, seen), 0, 0
  {
    if id in seen || !Declared(nodes, id) then Visited(seen, [])
    else
      UnseenShrinks(nodes, seen, seen + {id});
      var v := VisitAll(nodes, Upstreams(nodes, id), seen + {id});
      Visited(v.seen, v.order + [id])
  }

  ghost function VisitAll(nodes: seq<Node>, ids: seq<string>, seen: set<string>): (v: Visited)
    ensures seen <= v.seen
    decreases Unseen(nodes, seen), 1, |ids|
  {
    if ids == [] then Visited(seen, [])
    else
      var first := Visit(nodes, ids[0], seen);
      UnseenShrinks(nodes, seen, first.seen);
      var rest := VisitAll(nodes, ids[1..], first.seen);
      Visited(rest.seen, first.order + rest.order)
  }

  /** Post-order of everything upstream of `start`, without `start` itself. */
  ghost function AncestorOrder(nodes: seq<Node>, start: string): seq<string> {
    if Declared(nodes, start) then VisitAll(nodes, Upstreams(nodes, start), {start}).order else []
  }

  // ---------------------------------------------------------------- what a visit adds

  /** The order lists exactly the newly seen effectors, once each, all declared. */
  ghost predicate ListsExactlyNew(nodes: seq<Node>, seen: set<string>, v: Visited) {
    && (forall x :: x in v.order <==> x in v.seen && x !in seen)
    && (forall i, j :: 0 <= i < j < |v.order| ==> v.order[i] != v.order[j])
    && (forall x :: x in v.order ==> Declared(nodes, x))
  }

  lemma {:induction false} VisitListsNew(nodes: seq<Node>, id: string, seen: set<string>)
    ensures ListsExactlyNew(nodes, seen, Visit(nodes, id, seen))
    ensures Declared(nodes, id) ==> id in Visit(nodes, id, seen).seen
    decreases Unseen(nodes, seen), 0, 0
  {
    if id !in seen && Declared(nodes, id) {
      UnseenShrinks(nodes, seen, seen + {id});
      VisitAllListsNew(nodes, Upstreams(nodes, id), seen + {id});
    }
  }

  lemma {:induction false} VisitAllListsNew(nodes: seq<Node>, ids: seq<string>, seen: set<string>)
    ensures ListsExactlyNew(nodes, seen, VisitAll(nodes, ids, seen))
    ensures forall x :: x in ids && Declared(nodes, x) ==> x in VisitAll(nodes, ids, seen).seen
    decreases Unseen(nodes, seen), 1, |ids|
  {
    if ids != [] {
      var first := Visit(nodes, ids[0], seen);
      VisitListsNew(nodes, ids[0], seen);
      UnseenShrinks(nodes, seen, first.seen);
      VisitAllListsNew(nodes, ids[1..], first.seen);
      var rest := VisitAll(nodes, ids[1..], first.seen);
      ListsExactlyNewConcat(nodes, seen, first, rest);
      forall x | x in ids && Declared(nodes, x) ensures x in rest.seen {
        if x != ids[0] { assert x in ids[1..]; }
      }
    }
  }

  lemma ListsExactlyNewConcat(nodes: seq<Node>, seen: set<string>, first: Visited, rest: Visited)
    requires seen <= first.seen <= rest.seen
    requires ListsExactlyNew(nodes, seen, first) && ListsExactlyNew(nodes, first.seen, rest)
    ensures ListsExactlyNew(nodes, seen, Visited(rest.seen, first.order + rest.order))
  {
    var order := first.order + rest.order;
    forall i, j | 0 <= i < j < |order| ensures order[i] != order[j] {
      if i < |first.order| <= j {
        assert order[i] in first.order && order[j] in rest.order;
      }
    }
  }

  /** Everything seen was seen before, or is the visited effector, or is upstream of it. */
  lemma {:induction false} VisitSound(nodes: seq<Node>, id: string, seen: set<string>)
    ensures forall x :: x in Visit(nodes, id, seen).seen ==> x in seen || x == id || Reaches(nodes, id, x)
    decreases Unseen(nodes, seen), 0, 0
  {
    if id !in seen && Declared(nodes, id) {
      UnseenShrinks(nodes, seen, seen + {id});
      VisitAllSound(nodes, Upstreams(nodes, id), seen + {id}, id);
    }
  }

  lemma {:induction false} VisitAllSound(nodes: seq<Node>, ids: seq<string>, seen: set<string>, from: string)
    requires forall x :: x in ids ==> x in Upstreams(nodes, from)
    ensures forall x :: x in VisitAll(nodes, ids, seen).seen ==> x in seen || Reaches(nodes, from, x)
    decreases Unseen(nodes, seen), 1, |ids|
  {
    if ids != [] {
      var first := Visit(nodes, ids[0], seen);
      VisitSound(nodes, ids[0], seen);
      UnseenShrinks(nodes, seen, first.seen);
      VisitAllSound(nodes, ids[1..], first.seen, from);
      EdgeReaches(nodes, from, ids[0]);
      forall x | x in first.seen && x !in seen ensures Reaches(nodes, from, x) {
        if x != ids[0] { ReachesTransitive(nodes, from, ids[0], x); }
      }
    }
  }

  /** The declared upstreams of `x` all lie in `inside`. */
  ghost predicate ClosedAt(nodes: seq<Node>, x: string, inside: set<string>) {
    forall u :: u in Upstreams(nodes, x) && Declared(nodes, u) ==> u in inside
  }

  lemma {:induction false} VisitCloses(nodes: seq<Node>, id: string, seen: set<string>)
    ensures forall x :: x in Visit(nodes, id, seen).order ==> ClosedAt(nodes, x, Visit(nodes, id, seen).seen)
    decreases Unseen(nodes, seen), 0, 0
  {
    if id !in seen && Declared(nodes, id) {
      UnseenShrinks(nodes, seen, seen + {id});
      VisitAllCloses(nodes, Upstreams(nodes, id), seen + {id});
      VisitAllListsNew(nodes, Upstreams(nodes, id), seen + {id});
    }
  }

  lemma {:induction false} VisitAllCloses(nodes: seq<Node>, ids: seq<string>, seen: set<string>)
    ensures forall x :: x in VisitAll(nodes, ids, seen).order ==> ClosedAt(nodes, x, VisitAll(nodes, ids, seen).seen)
    decreases Unseen(nodes, seen), 1, |ids|
  {
    if ids != [] {
      var first := Visit(nodes, ids[0], seen);
      VisitCloses(nodes, ids[0], seen);
      UnseenShrinks(nodes, seen, first.seen);
      VisitAllCloses(nodes, ids[1..], first.seen);
      var rest := VisitAll(nodes, ids[1..], first.seen);
      forall x | x in first.order + rest.order ensures ClosedAt(nodes, x, rest.seen) {
        if x in first.order { assert ClosedAt(nodes, x, first.seen); }
      }
    }
  }

  // ---------------------------------------------------------------- the promised properties

  /** Exactness: the listing holds every declared transitive upstream except `start`, each once. */
  lemma AncestorsExact(nodes: seq<Node>, start: string)
    ensures forall x :: x in AncestorOrder(nodes, start) <==> Declared(nodes, x) && x != start && Reaches(nodes, start, x)
    ensures forall i, j :: 0 <= i < j < |AncestorOrder(nodes, start)| ==>
              AncestorOrder(nodes, start)[i] != AncestorOrder(nodes, start)[j]
  {
    var ups := Upstreams(nodes, start);
    var v := VisitAll(nodes, ups, {start});
    VisitAllListsNew(nodes, ups, {start});
    VisitAllSound(nodes, ups, {start}, start);
    VisitAllCloses(nodes, ups, {start});
    forall x | Declared(nodes, x) && x != start && Reaches(nodes, start, x)
      ensures Declared(nodes, start) && x in v.order
    {
      var p :| WalkFromTo(nodes, p, start, x);
      assert p[1] in Upstreams(nodes, p[0]);
      forall y, u | y in v.seen && u in Upstreams(nodes, y) && Declared(nodes, u) ensures u in v.seen {
        if y != start { assert y in v.order && ClosedAt(nodes, y, v.seen); }
      }
      WalkStaysInside(nodes, p, v.seen);
    }
  }

  /** Each listed effector comes after all of its own upstreams, except those already seen. */
  ghost predicate UpstreamsFirst(nodes: seq<Node>, seen: set<string>, order: seq<string>) {
    forall i, u :: 0 <= i < |order| && u in Upstreams(nodes, order[i]) && Declared(nodes, u) ==> u in seen || u in order[..i]
  }

  lemma UpstreamsFirstConcat(nodes: seq<Node>, seen: set<string>, a: seq<string>, middle: set<string>, b: seq<string>)
    requires UpstreamsFirst(nodes, seen, a) && UpstreamsFirst(nodes, middle, b)
    requires forall x :: x in middle ==> x in seen || x in a
    ensures UpstreamsFirst(nodes, seen, a + b)
  {
    var order := a + b;
    forall i, u | 0 <= i < |order| && u in Upstreams(nodes, order[i]) && Declared(nodes, u)
      ensures u in seen || u in order[..i]
    {
      if i < |a| {
        assert order[..i] == a[..i];
      } else {
        assert order[..i] == a + b[..i - |a|];
      }
    }
  }

  lemma {:induction false} VisitUpstreamsFirst(nodes: seq<Node>, id: string, seen: set<string>)
    requires Acyclic(nodes)
    ensures UpstreamsFirst(nodes, seen, Visit(nodes, id, seen).order)
    decreases Unseen(nodes, seen), 0, 0
  {
    if id !in seen && Declared(nodes, id) {
      var ups := Upstreams(nodes, id);
      UnseenShrinks(nodes, seen, seen + {id});
      var v := VisitAll(nodes, ups, seen + {id});
      VisitAllUpstreamsFirst(nodes, ups, seen + {id});
      VisitAllSound(nodes, ups, seen + {id}, id);
      VisitAllListsNew(nodes, ups, seen + {id});
      // No member reached from `id` can have `id` as an upstream: that would close a cycle.
      forall i, u | 0 <= i < |v.order| && u in Upstreams(nodes, v.order[i]) && Declared(nodes, u)
        ensures u in seen || u in v.order[..i]
      {
        if u == id {
          assert v.order[i] in v.order;
          EdgeReaches(nodes, v.order[i], id);
          ReachesTransitive(nodes, id, v.order[i], id);
        }
      }
      forall u | u in ups && Declared(nodes, u) ensures u in seen || u in v.order {
        if u == id { EdgeReaches(nodes, id, id); }
      }
      var order := v.order + [id];
      forall i, u | 0 <= i < |order| && u in Upstreams(nodes, order[i]) && Declared(nodes, u)
        ensures u in seen || u in order[..i]
      {
        if i < |v.order| { assert order[..i] == v.order[..i]; } else { assert order[..i] == v.order; }
      }
    }
  }

  lemma {:induction false} VisitAllUpstreamsFirst(nodes: seq<Node>, ids: seq<string>, seen: set<string>)
    requires Acyclic(nodes)
    ensures UpstreamsFirst(nodes, seen, VisitAll(nodes, ids, seen).order)
    decreases Unseen(nodes, seen), 1, |ids|
  {
    if ids != [] {
      var first := Visit(nodes, ids[0], seen);
      VisitUpstreamsFirst(nodes, ids[0], seen);
      VisitListsNew(nodes, ids[0], seen);
      UnseenShrinks(nodes, seen, first.seen);
      VisitAllUpstreamsFirst(nodes, ids[1..], first.seen);
      var rest := VisitAll(nodes, ids[1..], first.seen);
      UpstreamsFirstConcat(nodes, seen, first.order, first.seen, rest.order);
    }
  }

  /** In an acyclic graph the listing is a topological order of the ancestors. */
  lemma AncestorsAfterTheirUpstreams(nodes: seq<Node>, start: string)
    requires Acyclic(nodes)
    ensures forall i, u :: 0 <= i < |AncestorOrder(nodes, start)|
              && u in Upstreams(nodes, AncestorOrder(nodes, start)[i]) && Declared(nodes, u)
              ==> u in AncestorOrder(nodes, start)[..i]
  {
    var order := AncestorOrder(nodes, start);
    AncestorsExact(nodes, start);
    VisitAllUpstreamsFirst(nodes, Upstreams(nodes, start), {start});
    forall i, u | 0 <= i < |order| && u in Upstreams(nodes, order[i]) && Declared(nodes, u)
      ensures u in order[..i]
    {
      if u == start {
        assert order[i] in order;
        EdgeReaches(nodes, order[i], start);
        ReachesTransitive(nodes, start, order[i], start);
      }
    }
  }

  // ---------------------------------------------------------------- the stack loop

  datatype Frame = Frame(id: string, done: bool)

  /** What remains to be listed when the stack (top last) is worked off. */
  ghost function Drain(nodes: seq<Node>, stack: seq<Frame>, seen: set<string>): seq<string>
    decreases |stack|
  {
    if stack == [] then []
    else
      var top, below := stack[|stack| - 1], stack[..|stack| - 1];
      if top.done then [top.id] + Drain(nodes, below, seen)
      else
        var v := Visit(nodes, top.id, seen);
        v.order + Drain(nodes, below, v.seen)
  }

  /** The frames pushed for `ids`, so that ids[0] ends on top. */
  ghost function Pushed(ids: seq<string>): seq<Frame> {
    seq(|ids|, i requires 0 <= i < |ids| => Frame(ids[|ids| - 1 - i], false))
  }

  lemma {:induction false} DrainPushed(nodes: seq<Node>, below: seq<Frame>, ids: seq<string>, seen: set<string>)
    ensures Drain(nodes, below + Pushed(ids), seen)
         == VisitAll(nodes, ids, seen).order + Drain(nodes, below, VisitAll(nodes, ids, seen).seen)
    decreases |ids|
  {
    if ids == [] {
      assert below + Pushed(ids) == below;
    } else {
      var stack := below + Pushed(ids);
      assert Pushed(ids)[..|ids| - 1] == Pushed(ids[1..]);
      assert stack[|stack| - 1] == Frame(ids[0], false);
      assert stack[..|stack| - 1] == below + Pushed(ids[1..]);
      DrainPushed(nodes, below, ids[1..], Visit(nodes, ids[0], seen).seen);
    }
  }

  /** Upstreams already seen when they would be pushed are passed over. */
  ghost function Filtered(ids: seq<string>, skip: set<string>): seq<string> {
    if ids == [] then []
    else (if ids[0] in skip then [] else [ids[0]]) + Filtered(ids[1..], skip)
  }

  lemma {:induction false} VisitAllFiltered(nodes: seq<Node>, ids: seq<string>, skip: set<string>, seen: set<string>)
    requires skip <= seen
    ensures VisitAll(nodes, Filtered(ids, skip), seen) == VisitAll(nodes, ids, seen)
    decreases |ids|
  {
    if ids != [] {
      var first := Visit(nodes, ids[0], seen);
      VisitAllFiltered(nodes, ids[1..], skip, first.seen);
      if ids[0] in skip {
        assert first == Visited(seen, []);
        assert Filtered(ids, skip) == Filtered(ids[1..], skip);
      } else {
        assert Filtered(ids, skip)[1..] == Filtered(ids[1..], skip);
      }
    }
  }

  lemma FilteredSnoc(ids: seq<string>, skip: set<string>, k: nat)
    requires k < |ids|
    ensures Filtered(ids[k..], skip) == (if ids[k] in skip then [] else [ids[k]]) + Filtered(ids[k + 1..], skip)
  {
    assert ids[k..][1..] == ids[k + 1..];
  }

  lemma PushedCons(id: string, ids: seq<string>)
    ensures Pushed([id] + ids) == Pushed(ids) + [Frame(id, false)]
  {
    assert Pushed([id] + ids)[..|ids|] == Pushed(ids);
  }

  ghost function Elements(s: seq<string>): set<string> { set x | x in s }

  ghost function Without(s: seq<string>, x: string): seq<string> {
    if s == [] then [] else (if s[0] == x then [] else [s[0]]) + Without(s[1..], x)
  }

  lemma {:induction false} WithoutConcat(a: seq<string>, b: seq<string>, x: string)
    ensures Without(a + b, x) == Without(a, x) + Without(b, x)
  {
    if a == [] {
      assert a + b == b;
    } else {
      assert (a + b)[1..] == a[1..] + b;
      WithoutConcat(a[1..], b, x);
    }
  }

  lemma {:induction false} WithoutAbsent(s: seq<string>, x: string)
    requires x !in s
    ensures Without(s, x) == s
  {
    if s != [] { WithoutAbsent(s[1..], x); }
  }

  /** Popping a finish marker lists its effector, unless it is the root of the search. */
  lemma DrainMarker(nodes: seq<Node>, below: seq<Frame>, id: string, seen: set<string>, order: seq<string>, root: string)
    ensures order + Without(Drain(nodes, below + [Frame(id, true)], seen), root)
         == (if id == root then order else order + [id]) + Without(Drain(nodes, below, seen), root)
  {
    var stack := below + [Frame(id, true)];
    assert stack[..|stack| - 1] == below;
    WithoutConcat([id], Drain(nodes, below, seen), root);
    assert Without([id], root) == if id == root then [] else [id];
  }

  /** Popping a seen or undeclared effector changes nothing. */
  lemma DrainIgnored(nodes: seq<Node>, below: seq<Frame>, id: string, seen: set<string>)
    requires id in seen || !Declared(nodes, id)
    ensures Drain(nodes, below + [Frame(id, false)], seen) == Drain(nodes, below, seen)
  {
    var stack := below + [Frame(id, false)];
    assert stack[..|stack| - 1] == below;
  }

  /** Popping a new effector replaces it by its finish marker under its upstreams. */
  lemma DrainExpanded(nodes: seq<Node>, below: seq<Frame>, id: string, seen: set<string>)
    requires id !in seen && Declared(nodes, id)
    ensures Drain(nodes, below + [Frame(id, false)], seen)
         == Drain(nodes, below + [Frame(id, true)] + Pushed(Filtered(Upstreams(nodes, id), seen + {id})), seen + {id})
  {
    var stack, marked, skip, ups := below + [Frame(id, false)], below + [Frame(id, true)], seen + {id}, Upstreams(nodes, id);
    assert stack[..|stack| - 1] == below && marked[..|marked| - 1] == below;
    VisitAllFiltered(nodes, ups, skip, skip);
    DrainPushed(nodes, marked, Filtered(ups, skip), skip);
    var v := VisitAll(nodes, ups, skip);
    assert v.order + ([id] + Drain(nodes, below, v.seen)) == (v.order + [id]) + Drain(nodes, below, v.seen);
  }

  /** The two parallel stacks, read as one stack of frames. */
  ghost predicate Frames(stack: seq<Frame>, cursor: seq<string>, finished: seq<bool>) {
    |cursor| == |finished| == |stack| && forall i :: 0 <= i < |stack| ==> stack[i] == Frame(cursor[i], finished[i])
  }

  lemma FramesPushed(stack: seq<Frame>, cursor: seq<string>, finished: seq<bool>, id: string, done: bool)
    requires Frames(stack, cursor, finished)
    ensures Frames(stack + [Frame(id, done)], cursor + [id], finished + [done])
  {
  }

  lemma FramesPopped(stack: seq<Frame>, cursor: seq<string>, finished: seq<bool>)
    requires Frames(stack, cursor, finished) && |stack| > 0
    ensures Frames(stack[..|stack| - 1], cursor[..|cursor| - 1], finished[..|finished| - 1])
    ensures stack == stack[..|stack| - 1] + [Frame(cursor[|cursor| - 1], finished[|finished| - 1])]
  {
  }

  /** Push the upstreams of one effector in reverse, passing over seen ones and the root. */
  method PushUpstreams(conduction: seq<string>, seen: seq<string>, root: string, cursor: seq<string>, finished: seq<bool>,
                       ghost stack: seq<Frame>)
    returns (cursor': seq<string>, finished': seq<bool>, ghost stack': seq<Frame>)
    requires Frames(stack, cursor, finished) && root in seen
    ensures Frames(stack', cursor', finished')
    ensures stack' == stack + Pushed(Filtered(conduction, Elements(seen)))
  {
    cursor', finished', stack' := cursor, finished, stack;
    ghost var skip := Elements(seen);
    for offset := 0 to |conduction|
      invariant Frames(stack', cursor', finished')
      invariant stack' == stack + Pushed(Filtered(conduction[|conduction| - offset..], skip))
    {
      var upstream := conduction[|conduction| - 1 - offset];
      FilteredSnoc(conduction, skip, |conduction| - 1 - offset);
      PushedCons(upstream, Filtered(conduction[|conduction| - offset..], skip));
      if upstream !in seen && upstream != root {
        cursor', finished', stack' := cursor' + [upstream], finished' + [false], stack' + [Frame(upstream, false)];
      }
    }
    assert conduction[0..] == conduction;
  }

  /** Draining the initial stack lists the ancestors and then the start. */
  lemma WholeListing(nodes: seq<Node>, start: string)
    ensures Without(Drain(nodes, [Frame(start, false)], {}), start) == AncestorOrder(nodes, start)
  {
    var v := Visit(nodes, start, {});
    assert Drain(nodes, [Frame(start, false)], {}) == v.order + [] == v.order;
    if Declared(nodes, start) {
      assert {} + {start} == {start};
      VisitAllListsNew(nodes, Upstreams(nodes, start), {start});
      WithoutConcat(AncestorOrder(nodes, start), [start], start);
      WithoutAbsent(AncestorOrder(nodes, start), start);
    }
  }

  lemma Expanded(nodes: seq<Node>, below: seq<Frame>, id: string, seen: seq<string>)
    requires id !in seen && Declared(nodes, id)
    ensures Drain(nodes, below + [Frame(id, false)], Elements(seen))
         == Drain(nodes, below + [Frame(id, true)] + Pushed(Filtered(Upstreams(nodes, id), Elements(seen + [id]))), Elements(seen + [id]))
    ensures Unseen(nodes, Elements(seen + [id])) < Unseen(nodes, Elements(seen))
  {
    DrainExpanded(nodes, below, id, Elements(seen));
    UnseenShrinks(nodes, Elements(seen), Elements(seen) + {id});
    assert Elements(seen + [id]) == Elements(seen) + {id};
  }

  /** correlation_advance's `_ancestor_effectors`, with its two parallel stacks. */
  method AncestorEffectors(nodes: seq<Node>, effectorId: string) returns (order: seq<string>)
    ensures order == AncestorOrder(nodes, effectorId)
  {
    order := [];
    var seen: seq<string> := [];
    var cursor, finished := [effectorId], [false];
    ghost var stack := [Frame(effectorId, false)];
    WholeListing(nodes, effectorId);
    assert Elements(seen) == {};
    while |cursor| > 0
      invariant Frames(stack, cursor, finished)
      invariant order + Without(Drain(nodes, stack, Elements(seen)), effectorId) == AncestorOrder(nodes, effectorId)
      invariant effectorId in seen || cursor == [effectorId] || cursor == []
      decreases Unseen(nodes, Elements(seen)), |cursor|
    {
      hide AncestorOrder, Drain, Without, Unseen;
      var current, done := cursor[|cursor| - 1], finished[|finished| - 1];
      assert current == effectorId || effectorId in seen;
      FramesPopped(stack, cursor, finished);
      cursor, finished := cursor[..|cursor| - 1], finished[..|finished| - 1];
      ghost var below := stack[..|stack| - 1];
      stack := below;
      if done {
        DrainMarker(nodes, below, current, Elements(seen), order, effectorId);
        if current != effectorId {
          order := order + [current];
        }
        continue;
      }
      if current in seen {
        DrainIgnored(nodes, below, current, Elements(seen));
        continue;
      }
      var index := FindNode(nodes, current);
      if index < 0 {
        DrainIgnored(nodes, below, current, Elements(seen));
        continue;
      }
      Expanded(nodes, below, current, seen);
      FramesPushed(below, cursor, finished, current, true);
      seen := seen + [current];
      cursor, finished, stack :=
        PushUpstreams(nodes[index].conduction, seen, effectorId, cursor + [current], finished + [true], below + [Frame(current, true)]);
    }
  }
}
