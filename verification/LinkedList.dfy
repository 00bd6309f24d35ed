// The intrusive circular list of common/linked_list.c on the heap, and that it is the sequence the
// other modules take it for.
module LinkedList {
  import opened Options

  // A struct linked_list, with the flag of the structure it is embedded in.
  class Node {
    var next: Node?
    var prev: Node?
    var killed: bool

    constructor (killed: bool)
      ensures next == null && prev == null && this.killed == killed
    {
      next, prev, this.killed := null, null, killed;
    }
  }

  function After(i: nat, n: nat): nat {
    if i + 1 < n then i + 1 else 0
  }

  predicate Linked(r: seq<Node>, i: nat)
    requires i < |r|
    reads r
  {
    r[i].next == r[After(i, |r|)] && (i > 0 ==> r[i].prev == r[i - 1]) && (i == 0 ==> r[i].prev == r[|r| - 1])
  }

  // These nodes, in this order, are a whole list; any of them may be the anchor.
  ghost predicate Ring(r: seq<Node>)
    reads r
  {
    r != [] && Distinct(r) && forall i :: 0 <= i < |r| ==> Linked(r, i)
  }

  // linked_list_init
  method Init(list: Node)
    modifies list`next, list`prev
    ensures Ring([list])
  {
    list.next, list.prev := list, list;
  }

  function Inserted(r: seq<Node>, k: nat, elem: Node): seq<Node>
    requires k < |r|
  {
    r[..k + 1] + [elem] + r[k + 1..]
  }

  lemma InsertedDistinct(r: seq<Node>, k: nat, elem: Node)
    requires k < |r| && Distinct(r) && elem !in r
    ensures Distinct(Inserted(r, k, elem))
  {
    var s := Inserted(r, k, elem);
    assert forall i :: 0 <= i <= k ==> s[i] == r[i];
    assert forall i :: k + 1 < i < |s| ==> s[i] == r[i - 1];
  }

  // linked_list_insert: right behind the anchor, which is at `k`.
  method Insert(list: Node, elem: Node, ghost r: seq<Node>, ghost k: nat)
    requires Ring(r) && k < |r| && r[k] == list && elem !in r && elem.prev == elem.next
    modifies r`next, r`prev, elem`next, elem`prev
    ensures Ring(r[..k + 1] + [elem] + r[k + 1..])
  {
    assert Linked(r, k);
    elem.prev, elem.next := list, list.next;
    list.next := elem;
    elem.next.prev := elem;
    ghost var s, j := Inserted(r, k, elem), After(k, |r|);
    InsertedDistinct(r, k, elem);
    assert forall i :: 0 <= i < |r| ==> r[i].next == if i == k then elem else old(r[i].next);
    assert forall i :: 0 <= i < |r| ==> r[i].prev == if i == j then elem else old(r[i].prev);
    forall i | 0 <= i < |s| ensures Linked(s, i) {
      if i <= k {
        assert old(Linked(r, i)) && s[i] == r[i];
        if i < k { assert s[i + 1] == r[i + 1]; }
      } else if i > k + 1 {
        assert old(Linked(r, i - 1)) && s[i] == r[i - 1];
      }
    }
  }

  function Removed(r: seq<Node>, k: nat): seq<Node>
    requires k < |r|
  {
    r[..k] + r[k + 1..]
  }

  lemma RemovedDistinct(r: seq<Node>, k: nat)
    requires k < |r| && Distinct(r)
    ensures Distinct(Removed(r, k))
  {
    var s := Removed(r, k);
    assert forall i :: 0 <= i < k ==> s[i] == r[i];
    assert forall i :: k <= i < |s| ==> s[i] == r[i + 1];
  }

  // linked_list_remove
  method Remove(elem: Node, ghost r: seq<Node>, ghost k: nat)
    requires Ring(r) && k < |r| && r[k] == elem
    modifies r`next, r`prev
    ensures (|r| > 1 ==> Ring(r[..k] + r[k + 1..])) && elem.next == null && elem.prev == null
  {
    assert Linked(r, k);
    elem.prev.next := elem.next;
    elem.next.prev := elem.prev;
    elem.next, elem.prev := null, null;
    ghost var s := Removed(r, k);
    RemovedDistinct(r, k);
    forall i | 0 <= i < |s| ensures Linked(s, i) {
      if i < k { assert old(Linked(r, i)); } else { assert old(Linked(r, i + 1)); }
    }
  }

  // linked_list_empty
  method Empty(list: Node, ghost r: seq<Node>) returns (yes: bool)
    requires Ring(r) && r[0] == list
    ensures yes == (|r| == 1)
  {
    assert Linked(r, 0);
    yes := list.next == list;
  }

  function Taken(t: seq<Node>, s: seq<Node>): seq<Node>
    requires t != [] && s != []
  {
    [t[0]] + s[1..] + t[1..]
  }

  predicate Apart(t: seq<Node>, s: seq<Node>) {
    forall i, j :: 0 <= i < |t| && 0 <= j < |s| ==> t[i] != s[j]
  }

  lemma TakenDistinct(t: seq<Node>, s: seq<Node>)
    requires t != [] && s != [] && Distinct(t) && Distinct(s) && Apart(t, s)
    ensures Distinct(Taken(t, s))
  {
    var r, n := Taken(t, s), |s| - 1;
    assert forall i :: 0 < i <= n ==> r[i] == s[i];
    assert forall i :: n < i < |r| ==> r[i] == t[i - n];
  }

  // linked_list_take: what `source` held goes in front of what `target` holds.
  method Take(target: Node, source: Node, ghost t: seq<Node>, ghost s: seq<Node>)
    requires Ring(t) && t[0] == target && Ring(s) && s[0] == source && Apart(t, s)
    modifies t`next, t`prev, s`next, s`prev
    ensures Ring([target] + s[1..] + t[1..]) && Ring([source])
  {
    var empty := Empty(source, s);
    if empty {
      assert Taken(t, s) == t;
      assert s == [source];
      return;
    }
    TakenDistinct(t, s);
    Splice(target, source, t, s);
    Init(source);
  }

  // Its four assignments.
  method Splice(target: Node, source: Node, ghost t: seq<Node>, ghost s: seq<Node>)
    requires Ring(t) && t[0] == target && Ring(s) && s[0] == source && Apart(t, s) && |s| > 1
    modifies t`next, t`prev, s`next, s`prev
    ensures forall i :: 0 <= i < |Taken(t, s)| ==> Linked(Taken(t, s), i)
  {
    assert Linked(s, 0) && Linked(t, 0);
    source.next.prev := target;
    source.prev.next := target.next;
    target.next.prev := source.prev;
    target.next := source.next;
    ghost var r, n := Taken(t, s), |s| - 1;
    assert forall i :: 0 < i <= n ==> r[i] == s[i];
    assert forall i :: n < i < |r| ==> r[i] == t[i - n];
    forall i | 0 <= i < |r| ensures Linked(r, i) {
      if i == 0 {
        assert old(Linked(t, 0));
      } else if i <= n {
        assert old(Linked(s, i));
      } else {
        assert old(Linked(t, i - n));
      }
    }
  }

  // ---------------------------------------------------------------- removal while iterating

  function Kept(r: seq<Node>): seq<Node>
    reads r`killed
  {
    if r == [] then [] else Kept(r[..|r| - 1]) + if r[|r| - 1].killed then [] else [r[|r| - 1]]
  }

  lemma KeptMore(r: seq<Node>, x: Node)
    ensures Kept(r + [x]) == Kept(r) + if x.killed then [] else [x]
  {
    assert (r + [x])[..|r|] == r;
  }

  // `k` has elements of `r`, in the same order.
  ghost predicate InOrder(r: seq<Node>, k: seq<Node>) {
    forall i, j, p, q :: 0 <= i < j < |k| && 0 <= p < |r| && 0 <= q < |r| && r[p] == k[i] && r[q] == k[j] ==> p < q
  }

  // `k` has exactly those that are not killed.
  ghost predicate AllKept(r: seq<Node>, k: seq<Node>)
    reads r, k
  {
    && (forall i :: 0 <= i < |k| ==> k[i] in r && !k[i].killed)
    && (forall i :: 0 <= i < |r| && !r[i].killed ==> r[i] in k)
  }

  // What stays is what is not killed, in its order.
  lemma {:induction false} KeptIs(r: seq<Node>)
    requires Distinct(r)
    ensures AllKept(r, Kept(r)) && InOrder(r, Kept(r))
  {
    if r != [] {
      var n := |r| - 1;
      var before, x := r[..n], r[n];
      assert Distinct(before);
      KeptIs(before);
      assert r == before + [x];
      KeptMore(before, x);
      OneMoreInOrder(before, Kept(before), x);
    }
  }

  lemma OneMoreInOrder(r: seq<Node>, k: seq<Node>, x: Node)
    requires InOrder(r, k) && x !in r && forall i :: 0 <= i < |k| ==> k[i] in r
    ensures InOrder(r + [x], k) && InOrder(r + [x], k + [x])
  {
    var all := r + [x];
    forall i, j, p, q | 0 <= i < j < |k + [x]| && 0 <= p < |all| && 0 <= q < |all|
                        && all[p] == (k + [x])[i] && all[q] == (k + [x])[j]
      ensures p < q
    {
      assert k[i] in r && p < |r|;
      if j < |k| { assert k[j] in r && q < |r|; }
    }
    assert forall i :: 0 <= i < |k| ==> (k + [x])[i] == k[i];
  }

  predicate Within(r: seq<Node>, all: set<Node>) {
    forall i :: 0 <= i < |r| ==> r[i] in all
  }

  // The loop is at `elem`: the elements `visited` were looked at, `todo` are still to come.
  ghost predicate Sweeping(list: Node, elem: Node, visited: seq<Node>, todo: seq<Node>, all: set<Node>)
    reads all
  {
    elem == (if todo == [] then list else todo[0]) && Swept(list, visited, todo, all)
  }

  ghost predicate Swept(list: Node, visited: seq<Node>, todo: seq<Node>, all: set<Node>)
    reads all
  {
    && Within(visited, all)
    && var r := [list] + Kept(visited) + todo;
       Within(r, all) && Ring(r)
  }

  // It is back at the anchor when there is nothing left.
  lemma BackAtAnchor(list: Node, elem: Node, visited: seq<Node>, todo: seq<Node>, all: set<Node>)
    requires Sweeping(list, elem, visited, todo, all)
    ensures elem == list <==> todo == []
  {
    var r := [list] + Kept(visited) + todo;
    if todo != [] { assert r[1 + |Kept(visited)|] == todo[0] && r[0] == list; }
  }

  // The body of the loop: step back and remove, or pass; then on to the next.
  method DropOrPass(elem: Node, ghost r: seq<Node>, ghost k: nat) returns (next: Node)
    requires Ring(r) && 0 < k < |r| && r[k] == elem
    modifies r`next, r`prev
    ensures Ring(if elem.killed then Removed(r, k) else r) && next == r[After(k, |r|)]
  {
    assert Linked(r, k);
    var at := elem;
    if elem.killed {
      at := elem.prev;
      Remove(elem, r, k);
      assert Linked(Removed(r, k), k - 1);
    }
    next := at.next;
  }

  lemma MoveOver<T>(a: seq<T>, b: seq<T>)
    requires b != []
    ensures a + [b[0]] + b[1..] == a + b
  {
  }

  lemma DropFirst(a: seq<Node>, b: seq<Node>)
    requires b != []
    ensures Removed(a + b, |a|) == a + b[1..]
  {
    assert (a + b)[..|a|] == a;
    assert (a + b)[|a| + 1..] == b[1..];
  }

  lemma SweptMore(list: Node, visited: seq<Node>, todo: seq<Node>)
    requires todo != []
    ensures var done := [list] + Kept(visited);
            [list] + Kept(visited + [todo[0]]) + todo[1..] ==
              if todo[0].killed then Removed(done + todo, |done|) else done + todo
  {
    var done := [list] + Kept(visited);
    KeptMore(visited, todo[0]);
    if todo[0].killed {
      DropFirst(done, todo);
    } else {
      Associative([list], Kept(visited), [todo[0]]);
      MoveOver(done, todo);
    }
  }

  // One turn of the loop.
  method Step(list: Node, elem: Node, ghost visited: seq<Node>, ghost todo: seq<Node>, ghost all: set<Node>)
    returns (next: Node)
    requires Sweeping(list, elem, visited, todo, all) && todo != []
    modifies all`next, all`prev
    ensures todo[0] == elem && Sweeping(list, next, visited + [elem], todo[1..], all)
  {
    ghost var done := [list] + Kept(visited);
    SweptMore(list, visited, todo);
    WithinMore(list, visited, todo, all);
    next := DropOrPass(elem, done + todo, |done|);
    assert Kept(visited + [elem]) == old(Kept(visited + [elem]));
    NextUp(done, todo);
  }

  lemma WithinMore(list: Node, visited: seq<Node>, todo: seq<Node>, all: set<Node>)
    requires todo != [] && Within(visited, all) && Within([list] + Kept(visited) + todo, all)
    ensures Within(visited + [todo[0]], all) && Within([list] + Kept(visited + [todo[0]]) + todo[1..], all)
  {
    var r := [list] + Kept(visited) + todo;
    assert r[1 + |Kept(visited)|] == todo[0];
    SweptMore(list, visited, todo);
  }

  lemma NextUp(done: seq<Node>, todo: seq<Node>)
    requires done != [] && todo != []
    ensures (done + todo)[After(|done|, |done + todo|)] == if |todo| > 1 then todo[1] else done[0]
  {
  }

  lemma StartSweep(list: Node, r: seq<Node>, all: set<Node>)
    requires Ring(r) && r[0] == list && Within(r, all)
    ensures list.next != null && Sweeping(list, list.next, [], r[1..], all)
  {
    assert Linked(r, 0);
    assert [list] + Kept([]) + r[1..] == r;
  }

  lemma EndSweep(list: Node, elem: Node, visited: seq<Node>, all: set<Node>)
    requires Sweeping(list, elem, visited, [], all)
    ensures Ring([list] + Kept(visited))
  {
    assert [list] + Kept(visited) + [] == [list] + Kept(visited);
  }

  // The loops of regenerate (seatd/poller.c) over an anchored list: every element is visited once,
  // and exactly those that are not killed stay, in their order.
  method Sweep(list: Node, ghost r: seq<Node>, ghost all: set<Node>)
    returns (ghost visited: seq<Node>, ghost kept: seq<Node>)
    requires Ring(r) && r[0] == list && Within(r, all)
    modifies all`next, all`prev
    ensures visited == r[1..] && Ring([list] + kept)
    ensures AllKept(r[1..], kept) && InOrder(r[1..], kept)
  {
    ghost var elements := r[1..];
    kept := Kept(elements);
    KeptIs(elements);
    StartSweep(list, r, all);
    var elem: Node := list.next;
    ghost var todo := elements;
    visited := [];
    BackAtAnchor(list, elem, visited, todo, all);
    while elem != list
      invariant elem == list <==> todo == []
      invariant Sweeping(list, elem, visited, todo, all) && visited + todo == elements
      decreases |todo|
    {
      MoveOver(visited, todo);
      ghost var x := elem;
      elem := Step(list, elem, visited, todo, all);
      visited, todo := visited + [x], todo[1..];
      BackAtAnchor(list, elem, visited, todo, all);
    }
    EndSweep(list, elem, visited, all);
  }
}
