/** Depth-first cycle detection: `_validate_acyclic` (workflows/spec.py). */
module CycleSearch {
  import opened Names
  import opened Wrappers
  import opened Sequences
  import opened Digraph

  /** A dictionary of dependency sets, all of whose members are keys. */
  ghost predicate Closed(graph: map<Name, set<Name>>) {
    forall k, d | k in graph && d in graph[k] :: d in graph
  }

  function ArcsOf(graph: map<Name, set<Name>>): (arcs: Arcs)
    ensures forall x, y :: (x, y) in arcs <==> x in graph && y in graph[x]
  {
    set k, d | k in graph && d in graph[k] :: (k, d)
  }

  /** The marks and the path the nested `visit` closes over. */
  class Search {
    const graph: map<Name, set<Name>>
    var temp: set<Name>
    var permanent: set<Name>
    var path: seq<Name>
    ghost var finished: seq<Name>

    constructor (graph: map<Name, set<Name>>)
      requires Closed(graph)
      ensures this.graph == graph && Valid() && path == [] && permanent == {}
    {
      this.graph := graph;
      temp, permanent, path, finished := {}, {}, [], [];
    }

    /** The path is a walk without repetition and holds the temporary marks; the permanent marks,
        in the order they were set, form a supported order. */
    ghost predicate Valid()
      reads this
    {
      && Closed(graph)
      && temp == Elements(path) && Distinct(path) && Walk(ArcsOf(graph), path)
      && permanent == Elements(finished) && Distinct(finished) && Supported(ArcsOf(graph), finished)
      && temp <= graph.Keys && permanent <= graph.Keys && temp !! permanent
    }

    /** `visit`: either marks the node permanently and restores the path, or reports a cycle. */
    method Visit(node: Name) returns (cycle: Option<seq<Name>>)
      requires Valid() && node in graph
      requires path == [] || (path[|path| - 1], node) in ArcsOf(graph)
      modifies this
      ensures cycle.None? ==> Valid() && path == old(path) && old(permanent) <= permanent && node in permanent
      ensures cycle.Some? ==> IsCycle(ArcsOf(graph), cycle.value)
      decreases graph.Keys - temp, 0
    {
      hide Walk, Supported, IsCycle, Distinct, Elements;
      if node in permanent {
        return None;
      }
      InElements(path, node);
      InElements(finished, node);
      if node in temp {
        CloseCycleIsCycle(ArcsOf(graph), path, node);
        return Some(CloseCycle(path, node));
      }
      PushPath(ArcsOf(graph), path, node);
      ghost var before := path;
      temp := temp + {node};
      path := path + [node];
      cycle := VisitAll(node, before);
      if cycle.Some? {
        return;
      }
      InElements(finished, node);
      PushFinished(ArcsOf(graph), finished, node);
      path := path[..|path| - 1];
      temp := temp - {node};
      permanent := permanent + {node};
      finished := finished + [node];
      assert path == before;
    }

    /** `for dependency in graph[node]: visit(dependency)`, in whatever order the set yields. */
    method VisitAll(node: Name, ghost before: seq<Name>) returns (cycle: Option<seq<Name>>)
      requires Valid() && node in graph && path == before + [node] && node !in permanent
      modifies this
      ensures cycle.None? ==> Valid() && path == old(path) && old(permanent) <= permanent && graph[node] <= permanent
      ensures cycle.Some? ==> IsCycle(ArcsOf(graph), cycle.value)
      decreases graph.Keys - temp, 1
    {
      var rest := graph[node];
      while rest != {}
        invariant Valid() && path == old(path) && old(permanent) <= permanent
        invariant rest <= graph[node] && graph[node] - rest <= permanent
        decreases rest
      {
        var d :| d in rest;
        cycle := Visit(d);
        if cycle.Some? {
          return;
        }
        rest := rest - {d};
      }
      return None;
    }
  }

  /** `[*path[path.index(node):], node]` */
  function CloseCycle(path: seq<Name>, node: Name): seq<Name>
    requires node in path
  {
    if path[0] == node then path + [node] else CloseCycle(path[1..], node)
  }

  lemma {:induction false} CloseCycleIsCycle(arcs: Arcs, path: seq<Name>, node: Name)
    requires Walk(arcs, path) && node in path && (path[|path| - 1], node) in arcs
    ensures IsCycle(arcs, CloseCycle(path, node))
  {
    if path[0] == node {
      var c := path + [node];
      assert Walk(arcs, c);
    } else {
      var rest := path[1..];
      assert path == [path[0]] + rest;
      assert Walk(arcs, rest) by {
        forall i, j | 0 <= i && j == i + 1 && j < |rest| ensures (rest[i], rest[j]) in arcs {
          assert (path[i + 1], path[j + 1]) in arcs;
        }
      }
      CloseCycleIsCycle(arcs, rest, node);
    }
  }

  lemma InElements(s: seq<Name>, x: Name)
    ensures x in Elements(s) <==> x in s
  {
  }

  lemma PushPath(arcs: Arcs, path: seq<Name>, node: Name)
    requires Walk(arcs, path) && Distinct(path) && node !in path
    requires path == [] || (path[|path| - 1], node) in arcs
    ensures Walk(arcs, path + [node]) && Distinct(path + [node])
    ensures Elements(path + [node]) == Elements(path) + {node}
  {
  }

  lemma PushFinished(arcs: Arcs, finished: seq<Name>, node: Name)
    requires Supported(arcs, finished) && Distinct(finished) && node !in finished
    requires Needs(arcs, node) <= Elements(finished)
    ensures Supported(arcs, finished + [node]) && Distinct(finished + [node])
    ensures Elements(finished + [node]) == Elements(finished) + {node}
  {
    var order := finished + [node];
    forall i, y | 0 <= i < |order| && (order[i], y) in arcs ensures Before(order, y, i) {
      if i < |finished| {
        var j :| 0 <= j < i && finished[j] == y;
        assert order[j] == y;
      } else {
        assert y in Needs(arcs, node);
        var j :| 0 <= j < |finished| && finished[j] == y;
        assert order[j] == y;
      }
    }
  }

  /** `_validate_acyclic`: raises exactly when there is a cycle, and what it reports is one. */
  method ValidateAcyclic(keys: seq<Name>, graph: map<Name, set<Name>>) returns (cycle: Option<seq<Name>>)
    requires Closed(graph) && graph.Keys == Elements(keys)
    ensures cycle.None? <==> Acyclic(ArcsOf(graph))
    ensures cycle.Some? ==> IsCycle(ArcsOf(graph), cycle.value)
  {
    var search := new Search(graph);
    var i := 0;
    while i < |keys|
      invariant 0 <= i <= |keys| && fresh(search) && search.graph == graph
      invariant search.Valid() && search.path == []
      invariant Elements(keys[..i]) <= search.permanent
    {
      assert keys[i] in Elements(keys);
      cycle := search.Visit(keys[i]);
      if cycle.Some? {
        return;
      }
      assert keys[..i + 1] == keys[..i] + [keys[i]];
      i := i + 1;
    }
    assert keys[..i] == keys;
    SupportedAcyclic(ArcsOf(graph), search.finished);
    return None;
  }
}
