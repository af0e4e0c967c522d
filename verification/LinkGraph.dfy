/**
 The graph of actor links and the check that it has no cycle (actors/controllers.py, has_cycles).  A dictionary of
 links has at most one successor for each node; the empty id stands for "no link".
 */
module LinkGraph {
  type Links = map<string, string>

  const NOTHING := ""

  /** The node that a walk moves to, or the empty id when it ends. */
  function Next(links: Links, node: string): string {
    if node in links then links[node] else NOTHING
  }

  /** The node reached by following n links, none of them through the empty id. */
  function Follow(links: Links, node: string, n: nat): string {
    if n == 0 then node
    else
      var before := Follow(links, node, n - 1);
      if before == NOTHING then NOTHING else Next(links, before)
  }

  /** A node that reaches itself by following one or more links. */
  ghost predicate OnCycle(links: Links, node: string) {
    node != NOTHING && exists n: nat :: n >= 1 && Follow(links, node, n) == node
  }

  ghost predicate HasCycle(links: Links) {
    exists node :: OnCycle(links, node)
  }

  lemma {:induction false} FollowAdds(links: Links, node: string, m: nat, n: nat)
    requires Follow(links, node, m) != NOTHING
    ensures Follow(links, Follow(links, node, m), n) == Follow(links, node, m + n)
  {
    if n > 0 {
      FollowAdds(links, node, m, n - 1);
    }
  }

  lemma {:induction false} WalkStaysEnded(links: Links, node: string, m: nat, n: nat)
    requires Follow(links, node, m) == NOTHING && m <= n
    ensures Follow(links, node, n) == NOTHING
    decreases n
  {
    if m < n {
      WalkStaysEnded(links, node, m, n - 1);
    }
  }

  /** Going round a cycle any number of times. */
  lemma {:induction false} GoRound(links: Links, node: string, n: nat, rounds: nat)
    requires node != NOTHING && Follow(links, node, n) == node
    ensures Follow(links, node, n * rounds) == node
    decreases rounds
  {
    if rounds > 0 {
      GoRound(links, node, n, rounds - 1);
      FollowAdds(links, node, n * (rounds - 1), n);
    }
  }

  /** A walk that ends does not start on a cycle. */
  lemma EndedWalkIsNotOnCycle(links: Links, node: string, m: nat)
    requires Follow(links, node, m) == NOTHING
    ensures !OnCycle(links, node)
  {
    if OnCycle(links, node) {
      var n: nat :| n >= 1 && Follow(links, node, n) == node;
      GoRound(links, node, n, m);
      WalkStaysEnded(links, node, m, n * m);
    }
  }

  /** Two visits of one node on a walk close a cycle. */
  lemma SecondVisitClosesCycle(links: Links, node: string, m: nat, n: nat)
    requires m < n && Follow(links, node, m) == Follow(links, node, n) != NOTHING
    ensures OnCycle(links, Follow(links, node, m))
  {
    FollowAdds(links, node, m, n - m);
  }

  /** Only nodes with a link are on a cycle. */
  lemma CycleNodesHaveLinks(links: Links, node: string)
    requires OnCycle(links, node)
    ensures node in links
  {
    if node !in links {
      assert Follow(links, node, 1) == NOTHING by { assert Follow(links, node, 0) == node; }
      EndedWalkIsNotOnCycle(links, node, 1);
    }
  }

  lemma NextIsOnCycle(links: Links, x: string)
    requires OnCycle(links, x)
    ensures OnCycle(links, Next(links, x))
  {
    var n: nat :| n >= 1 && Follow(links, x, n) == x;
    assert Follow(links, x, 0) == x && Follow(links, x, 1) == Next(links, x);
    if Next(links, x) == NOTHING {
      EndedWalkIsNotOnCycle(links, x, 1);
      assert false;
    } else {
      FollowAdds(links, x, n, 1);
      SecondVisitClosesCycle(links, x, 1, n + 1);
    }
  }

  /** A node on a cycle has a predecessor on it. */
  lemma CyclePredecessor(links: Links, x: string) returns (y: string)
    requires OnCycle(links, x)
    ensures x in links && y in links && links[y] == x && OnCycle(links, y)
  {
    CycleNodesHaveLinks(links, x);
    var n: nat :| n >= 1 && Follow(links, x, n) == x;
    y := Follow(links, x, n - 1);
    assert Follow(links, x, 0) == x && Follow(links, x, 1) == Next(links, x);
    FollowAdds(links, x, n - 1, 1);
    FollowAdds(links, x, n, n - 1);
    SecondVisitClosesCycle(links, x, n - 1, n + (n - 1));
  }

  lemma {:induction false} CycleWalkTransfers(a: Links, b: Links, region: set<string>, x: string, n: nat)
    requires OnCycle(a, x) && x in region
    requires forall y :: y in region && OnCycle(a, y) ==> Next(b, y) == Next(a, y) && Next(a, y) in region
    ensures Follow(b, x, n) == Follow(a, x, n) && Follow(a, x, n) in region && OnCycle(a, Follow(a, x, n))
  {
    if n > 0 {
      CycleWalkTransfers(a, b, region, x, n - 1);
      NextIsOnCycle(a, Follow(a, x, n - 1));
    }
  }

  /** A cycle that stays in a region, where another graph has the same links, is a cycle of that graph too. */
  lemma CycleTransfers(a: Links, b: Links, region: set<string>, x: string)
    requires OnCycle(a, x) && x in region
    requires forall y :: y in region && OnCycle(a, y) ==> Next(b, y) == Next(a, y) && Next(a, y) in region
    ensures OnCycle(b, x)
  {
    forall n: nat ensures Follow(b, x, n) == Follow(a, x, n) {
      CycleWalkTransfers(a, b, region, x, n);
    }
  }

  lemma {:induction false} FewerLinksFewerWalks(a: Links, b: Links, x: string, n: nat)
    requires forall k :: k in a ==> k in b && b[k] == a[k]
    requires Follow(a, x, n) != NOTHING
    ensures Follow(b, x, n) == Follow(a, x, n)
  {
    if n > 0 {
      FewerLinksFewerWalks(a, b, x, n - 1);
    }
  }

  lemma SubgraphStaysAcyclic(a: Links, b: Links)
    requires forall k :: k in a ==> k in b && b[k] == a[k]
    requires !HasCycle(b)
    ensures !HasCycle(a)
  {
    forall x ensures !OnCycle(a, x) {
      if OnCycle(a, x) {
        var n: nat :| n >= 1 && Follow(a, x, n) == x;
        FewerLinksFewerWalks(a, b, x, n);
        assert OnCycle(b, x);
      }
    }
  }

  /** A new link from a node that no link leads to closes no cycle. */
  lemma UnlinkedNodeIsHarmless(before: Links, after: Links, node: string)
    requires forall k :: k != node ==> Next(after, k) == Next(before, k)
    requires forall k :: k in after ==> after[k] != node
    requires !HasCycle(before)
    ensures !HasCycle(after)
  {
    forall x ensures !OnCycle(after, x) {
      if OnCycle(after, x) {
        forall y | OnCycle(after, y) ensures Next(before, y) == Next(after, y) && Next(after, y) in after.Keys {
          var z := CyclePredecessor(after, y);
          NextIsOnCycle(after, y);
          CycleNodesHaveLinks(after, after[y]);
        }
        CycleNodesHaveLinks(after, x);
        CycleTransfers(after, before, after.Keys, x);
      }
    }
  }

  lemma TwoLinksAreAcyclic(x: string, y: string, z: string)
    requires x != y && y != z && z != x
    ensures !HasCycle(map[x := y, y := z])
  {
    var links := map[x := y, y := z];
    forall node ensures !OnCycle(links, node) {
      if OnCycle(links, node) {
        NextIsOnCycle(links, node);
        NextIsOnCycle(links, Next(links, node));
        CycleNodesHaveLinks(links, node);
        CycleNodesHaveLinks(links, Next(links, node));
        CycleNodesHaveLinks(links, Next(links, Next(links, node)));
      }
    }
  }

  lemma TwoCycle(links: Links, x: string, y: string)
    requires x in links && y in links && links[x] == y && links[y] == x && x != NOTHING && y != NOTHING
    ensures HasCycle(links)
  {
    assert Follow(links, x, 0) == x && Follow(links, x, 1) == y && Follow(links, x, 2) == x;
    assert OnCycle(links, x);
  }

  /** The walk from one key.  It reports the cycle it runs into, whether or not the key itself is on it. */
  method WalkFindsCycle(links: Links, k: string) returns (found: bool)
    requires k in links
    ensures found ==> HasCycle(links)
    ensures !found ==> !OnCycle(links, k)
  {
    var current := links[k];
    var visited := [k, current];
    ghost var v := links[k];
    ghost var nodes := links.Keys + links.Values + {NOTHING};
    ghost var left := nodes;  // what the walk may still visit
    while current != NOTHING
      invariant |visited| >= 2 && visited[0] == k && current == visited[|visited| - 1]
      invariant forall i :: 1 <= i < |visited| ==> visited[i] == Follow(links, v, i - 1)
      invariant v != NOTHING || |visited| == 2
      invariant forall node :: node in nodes && node !in visited ==> node in left
      decreases current != NOTHING, left
    {
      current := Next(links, current);
      assert current in nodes && current == Follow(links, v, |visited| - 1);
      if current != NOTHING && current in visited {
        var i :| 0 <= i < |visited| && visited[i] == current;
        if i == 0 {
          assert Follow(links, k, 0) == k && Follow(links, k, 1) == v;
          FollowAdds(links, k, 1, |visited| - 1);
          assert OnCycle(links, k);
        } else {
          SecondVisitClosesCycle(links, v, i - 1, |visited| - 1);
        }
        return true;
      }
      left := left - {current};
      visited := visited + [current];
    }
    if k != NOTHING {
      assert Follow(links, k, 0) == k && Follow(links, k, 1) == v;
      if v != NOTHING {
        FollowAdds(links, k, 1, |visited| - 2);
      }
      EndedWalkIsNotOnCycle(links, k, |visited| - 1);
    }
    return false;
  }

  /** On every dictionary of links the check terminates, and it says true exactly when the graph has a cycle. */
  method HasCycles(links: Links) returns (result: bool)
    ensures result <==> HasCycle(links)
  {
    var keys := links.Keys;
    while keys != {}
      invariant keys <= links.Keys
      invariant forall k :: k in links.Keys - keys ==> !OnCycle(links, k)
      decreases keys
    {
      var k :| k in keys;
      var found := WalkFindsCycle(links, k);
      if found {
        return true;
      }
      keys := keys - {k};
    }
    forall node ensures !OnCycle(links, node) {
      if OnCycle(links, node) {
        CycleNodesHaveLinks(links, node);
      }
    }
    return false;
  }
}
