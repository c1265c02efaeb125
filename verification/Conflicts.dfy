/** Write conflicts between the tasks of a plan. */
module Conflicts {
  import opened Wrappers
  import opened Text

  datatype EdgeKind = Data | Dependency | Route | Feedback

  datatype Edge = Edge(from: string, to: string, kind: EdgeKind)

  datatype GateOutcome = Valid | Invalid | Error | Cancelled

  datatype RouteCondition = RouteCondition(gate: string, outcome: GateOutcome)

  datatype Task = Task(id: string, write: seq<string>, activateOnAny: seq<RouteCondition>)

  // ----- Reachability -----

  /** A path of one edge or more that is not a feedback edge. */
  ghost predicate IsPath(edges: seq<Edge>, path: seq<string>)
  {
    |path| >= 2 && forall i :: 0 <= i < |path| - 1 ==> Joined(edges, path[i], path[i + 1])
  }

  predicate Joined(edges: seq<Edge>, from: string, to: string)
  {
    exists k :: 0 <= k < |edges| && edges[k].kind != Feedback && edges[k].from == from && edges[k].to == to
  }

  ghost predicate PathBetween(edges: seq<Edge>, path: seq<string>, from: string, to: string)
  {
    IsPath(edges, path) && path[0] == from && path[|path| - 1] == to
  }

  ghost predicate Reachable(edges: seq<Edge>, from: string, to: string)
  {
    exists path :: PathBetween(edges, path, from, to)
  }

  lemma ReachableOne(edges: seq<Edge>, from: string, to: string)
    requires Joined(edges, from, to)
    ensures Reachable(edges, from, to)
  {
    assert PathBetween(edges, [from, to], from, to);
  }

  lemma ReachableMore(edges: seq<Edge>, from: string, middle: string, to: string)
    requires Reachable(edges, from, middle) && Joined(edges, middle, to)
    ensures Reachable(edges, from, to)
  {
    var path :| PathBetween(edges, path, from, middle);
    var longer := path + [to];
    forall i | 0 <= i < |longer| - 1
      ensures Joined(edges, longer[i], longer[i + 1])
    {
      if i < |path| - 1 { assert Joined(edges, path[i], path[i + 1]); }
    }
    assert PathBetween(edges, longer, from, to);
  }

  /** A set of nodes that no edge leaves. */
  predicate Closed(edges: seq<Edge>, nodes: set<string>)
  {
    forall k :: 0 <= k < |edges| && edges[k].kind != Feedback && edges[k].from in nodes ==> edges[k].to in nodes
  }

  lemma {:induction false} PathStaysInside(edges: seq<Edge>, nodes: set<string>, path: seq<string>, i: nat)
    requires Closed(edges, nodes) && IsPath(edges, path) && path[0] in nodes && i < |path|
    ensures path[i] in nodes
  {
    if i > 0 {
      PathStaysInside(edges, nodes, path, i - 1);
      assert Joined(edges, path[i - 1], path[i - 1 + 1]);
    }
  }

  /** The edges into `target`, if any, do not start in `nodes`. */
  predicate NoEdgeInto(edges: seq<Edge>, nodes: set<string>, target: string)
  {
    forall k :: 0 <= k < |edges| && edges[k].kind != Feedback && edges[k].from in nodes ==> edges[k].to != target
  }

  lemma ClosedWithoutTarget(edges: seq<Edge>, nodes: set<string>, start: string, target: string)
    requires Closed(edges, nodes) && NoEdgeInto(edges, nodes, target) && start in nodes
    ensures !Reachable(edges, start, target)
  {
    forall path | IsPath(edges, path) && path[0] == start
      ensures path[|path| - 1] != target
    {
      PathStaysInside(edges, nodes, path, |path| - 2);
      assert Joined(edges, path[|path| - 2], path[|path| - 2 + 1]);
    }
  }

  class Reachability {
    var outgoing: map<string, seq<string>>

    /** `outgoing` lists exactly the successors over edges that are not feedback. */
    ghost predicate Lists(edges: seq<Edge>)
      reads this
    {
      && (forall from, to :: from in outgoing && to in outgoing[from] ==> Joined(edges, from, to))
      && (forall k :: 0 <= k < |edges| && edges[k].kind != Feedback ==>
            edges[k].from in outgoing && edges[k].to in outgoing[edges[k].from])
    }

    constructor (edges: seq<Edge>)
      ensures Lists(edges)
    {
      outgoing := map[];
      new;
      for i := 0 to |edges|
        invariant forall from, to :: from in outgoing && to in outgoing[from] ==> Joined(edges, from, to)
        invariant forall k :: 0 <= k < i && edges[k].kind != Feedback ==>
                    edges[k].from in outgoing && edges[k].to in outgoing[edges[k].from]
      {
        var e := edges[i];
        if e.kind != Feedback {
          assert Joined(edges, e.from, e.to);
          var sofar := if e.from in outgoing then outgoing[e.from] else [];
          outgoing := outgoing[e.from := sofar + [e.to]];
        }
      }
    }

    /** Breadth-first search: whether a path of at least one edge leads from `start` to `target`. */
    method Reaches(edges: seq<Edge>, start: string, target: string) returns (found: bool)
      requires Lists(edges)
      ensures found <==> Reachable(edges, start, target)
    {
      var queue, seen := [start], {};
      ghost var all := {start} + (set k | 0 <= k < |edges| :: edges[k].to);
      while queue != []
        invariant seen <= all && forall q :: q in queue ==> q in all
        invariant forall q :: q in queue || q in seen ==> q == start || Reachable(edges, start, q)
        invariant start in queue || start in seen
        invariant Expanded(edges, seen, queue) && NoEdgeInto(edges, seen, target)
        decreases all - seen, |queue|
      {
        var node := queue[0];
        queue := queue[1..];
        if node in seen {
          continue;
        }
        seen := seen + {node};
        var successors := if node in outgoing then outgoing[node] else [];
        found, queue := Expand(edges, start, target, node, successors, queue, all);
        if found {
          return;
        }
        assert NoEdgeInto(edges, seen, target);
      }
      ClosedWithoutTarget(edges, seen, start, target);
      found := false;
    }

    method Expand(
      edges: seq<Edge>, start: string, target: string, node: string, successors: seq<string>, queue: seq<string>,
      ghost all: set<string>)
      returns (found: bool, queue': seq<string>)
      requires forall to :: to in successors ==> Joined(edges, node, to) && to in all
      requires node == start || Reachable(edges, start, node)
      ensures found <==> target in successors
      ensures found ==> Reachable(edges, start, target)
      ensures !found ==> queue' == queue + successors
      ensures forall to :: to in successors ==> Reachable(edges, start, to)
    {
      forall to | to in successors
        ensures Reachable(edges, start, to)
      {
        if node == start { ReachableOne(edges, start, to); } else { ReachableMore(edges, start, node, to); }
      }
      queue' := queue;
      for i := 0 to |successors|
        invariant queue' == queue + successors[..i]
        invariant target !in successors[..i]
      {
        if successors[i] == target {
          return true, queue';
        }
        queue' := queue' + [successors[i]];
      }
      found := false;
    }

    method Ordered(edges: seq<Edge>, left: string, right: string) returns (ordered: bool)
      requires Lists(edges)
      ensures ordered <==> Reachable(edges, left, right) || Reachable(edges, right, left)
    {
      ordered := Reaches(edges, left, right);
      if !ordered {
        ordered := Reaches(edges, right, left);
      }
    }
  }

  /** The successors of what has been seen are seen or waiting. */
  predicate Expanded(edges: seq<Edge>, seen: set<string>, queue: seq<string>)
  {
    forall k :: 0 <= k < |edges| && edges[k].kind != Feedback && edges[k].from in seen ==>
      edges[k].to in seen || edges[k].to in queue
  }

  // ----- Exclusive routes -----

  predicate MutuallyExclusive(left: seq<RouteCondition>, right: seq<RouteCondition>)
  {
    && left != [] && right != []
    && forall i, j :: 0 <= i < |left| && 0 <= j < |right| ==>
         left[i].gate == right[j].gate && left[i].outcome != right[j].outcome
  }

  /** Under an assignment of one outcome to each gate, a task without conditions is always active and any
      other task when some condition holds. */
  predicate Active(conditions: seq<RouteCondition>, outcome: string -> GateOutcome)
  {
    conditions == [] || exists i :: 0 <= i < |conditions| && outcome(conditions[i].gate) == conditions[i].outcome
  }

  /** Two tasks are exclusive exactly when no assignment makes both active. */
  lemma ExclusiveIff(left: seq<RouteCondition>, right: seq<RouteCondition>)
    ensures MutuallyExclusive(left, right)
            <==> forall outcome: string -> GateOutcome :: !(Active(left, outcome) && Active(right, outcome))
  {
    if !MutuallyExclusive(left, right) {
      var outcome := BothActive(left, right);
      assert Active(left, outcome) && Active(right, outcome);
    }
  }

  lemma BothActive(left: seq<RouteCondition>, right: seq<RouteCondition>) returns (outcome: string -> GateOutcome)
    requires !MutuallyExclusive(left, right)
    ensures Active(left, outcome) && Active(right, outcome)
  {
    if left == [] {
      outcome := gate => if right == [] then Valid else right[0].outcome;
    } else if right == [] {
      outcome := gate => left[0].outcome;
    } else {
      var i, j :| 0 <= i < |left| && 0 <= j < |right|
          && !(left[i].gate == right[j].gate && left[i].outcome != right[j].outcome);
      var l, r := left[i], right[j];
      outcome := gate => if gate == l.gate then l.outcome else r.outcome;
      assert outcome(l.gate) == l.outcome && outcome(r.gate) == r.outcome;
    }
  }

  // ----- Path specifications -----

  const GLOB_CHARACTERS: set<char> := {'*', '?', '[', ']'}

  function TakeLiteral(components: seq<string>): (prefix: seq<string>)
    ensures prefix <= components
  {
    if components == [] || Contains(components[0], GLOB_CHARACTERS) then []
    else [components[0]] + TakeLiteral(components[1..])
  }

  /** The components before the first one with a wildcard. */
  function LiteralPrefix(specification: string): seq<string>
  {
    TakeLiteral(Split(specification, {'/'}))
  }

  /** The literal prefix of a specification is the pieces between slashes up to the first one that contains
      an asterisk, a question mark or a bracket. */
  lemma LiteralPrefixMeans(specification: string) returns (pieces: seq<string>, slashes: string)
    ensures |pieces| == |slashes| + 1 && Spelled(pieces, slashes) == specification
    ensures forall i :: 0 <= i < |slashes| ==> slashes[i] == '/'
    ensures forall i :: 0 <= i < |pieces| ==> '/' !in pieces[i]
    ensures var n := |LiteralPrefix(specification)|;
            && n <= |pieces| && LiteralPrefix(specification) == pieces[..n]
            && (forall i, c :: 0 <= i < n && c in "*?[]" ==> c !in pieces[i])
            && (n < |pieces| ==> exists c :: c in "*?[]" && c in pieces[n])
  {
    pieces := Split(specification, {'/'});
    slashes := SplitMeans(specification, {'/'});
    forall i | 0 <= i < |pieces|
      ensures '/' !in pieces[i]
    {
      assert !Contains(pieces[i], {'/'});
    }
    TakeLiteralMeans(pieces);
    GlobCharacters();
    var n := |LiteralPrefix(specification)|;
    forall i | 0 <= i < n
      ensures forall c :: c in "*?[]" ==> c !in pieces[i]
    {
      assert !Contains(pieces[i], GLOB_CHARACTERS);
    }
    if n < |pieces| {
      assert Contains(pieces[n], GLOB_CHARACTERS);
      var i :| 0 <= i < |pieces[n]| && pieces[n][i] in GLOB_CHARACTERS;
      assert pieces[n][i] in pieces[n];
    }
  }

  lemma GlobCharacters()
    ensures forall c :: c in "*?[]" <==> c in GLOB_CHARACTERS
  {
    forall c
      ensures c in "*?[]" <==> c in GLOB_CHARACTERS
    {
      var all := "*?[]";
      assert all[0] == '*' && all[1] == '?' && all[2] == '[' && all[3] == ']';
    }
  }

  lemma {:induction false} TakeLiteralMeans(pieces: seq<string>)
    ensures var n := |TakeLiteral(pieces)|;
            && n <= |pieces| && TakeLiteral(pieces) == pieces[..n]
            && (forall i :: 0 <= i < n ==> !Contains(pieces[i], GLOB_CHARACTERS))
            && (n < |pieces| ==> Contains(pieces[n], GLOB_CHARACTERS))
  {
    hide Contains;
    if pieces != [] && !Contains(pieces[0], GLOB_CHARACTERS) {
      TakeLiteralMeans(pieces[1..]);
      var n := |TakeLiteral(pieces[1..])|;
      forall i | 0 <= i < n + 1
        ensures !Contains(pieces[i], GLOB_CHARACTERS)
      {
        if i > 0 { assert pieces[i] == pieces[1..][i - 1]; }
      }
    }
  }

  predicate SpecsOverlap(left: string, right: string)
  {
    var l, r := LiteralPrefix(left), LiteralPrefix(right);
    l == [] || r == [] || l <= r || r <= l
  }

  /** `path` starts with the literal prefixes of both specifications. */
  predicate UnderBoth(left: string, right: string, path: seq<string>)
  {
    LiteralPrefix(left) <= path && LiteralPrefix(right) <= path
  }

  /** Specifications overlap exactly when some path starts with both literal prefixes. */
  lemma OverlapIff(left: string, right: string)
    ensures SpecsOverlap(left, right) <==> exists path: seq<string> :: UnderBoth(left, right, path)
  {
    var l, r := LiteralPrefix(left), LiteralPrefix(right);
    if SpecsOverlap(left, right) {
      var path := if |l| <= |r| then r else l;
      assert UnderBoth(left, right, path);
    }
    if path: seq<string> :| UnderBoth(left, right, path) {
      assert l == path[..|l|] && r == path[..|r|];
    }
  }

  // ----- Reported conflicts -----

  /** Two tasks and a write specification of each, all by position. */
  datatype Conflict = Conflict(left: nat, right: nat, leftSpec: nat, rightSpec: nat)

  ghost predicate Unordered(edges: seq<Edge>, a: Task, b: Task)
  {
    && !Reachable(edges, a.id, b.id) && !Reachable(edges, b.id, a.id)
    && !MutuallyExclusive(a.activateOnAny, b.activateOnAny)
  }

  predicate Overlapping(a: Task, b: Task, leftSpec: nat, rightSpec: nat)
  {
    leftSpec < |a.write| && rightSpec < |b.write| && SpecsOverlap(a.write[leftSpec], b.write[rightSpec])
  }

  ghost predicate IsConflict(edges: seq<Edge>, tasks: seq<Task>, c: Conflict)
  {
    && c.left < c.right < |tasks|
    && Unordered(edges, tasks[c.left], tasks[c.right])
    && Overlapping(tasks[c.left], tasks[c.right], c.leftSpec, c.rightSpec)
  }

  /** The order in which conflicts are found. */
  predicate Precedes(c: Conflict, d: Conflict)
  {
    || c.left < d.left
    || (c.left == d.left && (c.right < d.right
        || (c.right == d.right
            && (c.leftSpec < d.leftSpec || (c.leftSpec == d.leftSpec && c.rightSpec < d.rightSpec)))))
  }

  /** In order, so none twice. */
  predicate Ascending(found: seq<Conflict>)
  {
    forall i, j :: 0 <= i < j < |found| ==> Precedes(found[i], found[j])
  }

  lemma AscendingConcat(a: seq<Conflict>, b: seq<Conflict>)
    requires Ascending(a) && Ascending(b) && forall c, d :: c in a && d in b ==> Precedes(c, d)
    ensures Ascending(a + b)
  {
    forall i, j | 0 <= i < j < |a + b|
      ensures Precedes((a + b)[i], (a + b)[j])
    {
      if i < |a| && j >= |a| { assert (a + b)[i] in a && (a + b)[j] in b; }
    }
  }

  method OverlappingPairs(left: nat, right: nat, a: Task, b: Task) returns (found: seq<Conflict>)
    ensures forall c :: c in found <==> c.left == left && c.right == right && Overlapping(a, b, c.leftSpec, c.rightSpec)
    ensures Ascending(found)
  {
    hide SpecsOverlap;
    found := [];
    for i := 0 to |a.write|
      invariant forall c :: c in found <==>
                  c.left == left && c.right == right && Overlapping(a, b, c.leftSpec, c.rightSpec) && c.leftSpec < i
      invariant Ascending(found)
    {
      for j := 0 to |b.write|
        invariant forall c :: c in found <==>
                    && c.left == left && c.right == right && Overlapping(a, b, c.leftSpec, c.rightSpec)
                    && (c.leftSpec < i || (c.leftSpec == i && c.rightSpec < j))
        invariant Ascending(found)
      {
        if SpecsOverlap(a.write[i], b.write[j]) {
          AscendingConcat(found, [Conflict(left, right, i, j)]);
          found := found + [Conflict(left, right, i, j)];
        }
      }
    }
  }

  /** Report every pair of overlapping write specifications of tasks that may run side by side, each once
      and in order. */
  method CheckWriteConflicts(edges: seq<Edge>, tasks: seq<Task>) returns (conflicts: seq<Conflict>)
    ensures forall c :: c in conflicts <==> IsConflict(edges, tasks, c)
    ensures Ascending(conflicts)
  {
    hide SpecsOverlap, MutuallyExclusive, Reachable;
    var reachability := new Reachability(edges);
    conflicts := [];
    for left := 0 to |tasks|
      invariant reachability.Lists(edges)
      invariant forall c :: c in conflicts <==> IsConflict(edges, tasks, c) && c.left < left
      invariant Ascending(conflicts)
    {
      for right := left + 1 to |tasks|
        invariant reachability.Lists(edges)
        invariant forall c :: c in conflicts <==>
                    IsConflict(edges, tasks, c) && (c.left < left || (c.left == left && c.right < right))
        invariant Ascending(conflicts)
      {
        var a, b := tasks[left], tasks[right];
        if a.write == [] || b.write == [] {
          continue;
        }
        var ordered := reachability.Ordered(edges, a.id, b.id);
        if ordered || MutuallyExclusive(a.activateOnAny, b.activateOnAny) {
          continue;
        }
        var found := OverlappingPairs(left, right, a, b);
        AscendingConcat(conflicts, found);
        conflicts := conflicts + found;
      }
    }
  }

  /** Two tasks may write the same path at once: no order between them, some gate outcomes activate both,
      and a path starts with the literal prefix of a specification of each. */
  ghost predicate MayCollide(edges: seq<Edge>, tasks: seq<Task>, left: nat, right: nat)
  {
    && left < right < |tasks|
    && !Reachable(edges, tasks[left].id, tasks[right].id)
    && !Reachable(edges, tasks[right].id, tasks[left].id)
    && (exists outcome: string -> GateOutcome ::
          Active(tasks[left].activateOnAny, outcome) && Active(tasks[right].activateOnAny, outcome))
    && (exists l, r, path: seq<string> :: SharedPath(tasks[left], tasks[right], l, r, path))
  }

  ghost predicate SharedPath(a: Task, b: Task, l: string, r: string, path: seq<string>)
  {
    l in a.write && r in b.write && UnderBoth(l, r, path)
  }

  /** `CheckWriteConflicts` reports nothing exactly when no two tasks may collide. */
  lemma NothingReportedIff(edges: seq<Edge>, tasks: seq<Task>)
    ensures (forall c :: !IsConflict(edges, tasks, c)) <==>
            (forall left: nat, right: nat :: !MayCollide(edges, tasks, left, right))
  {
    if left: nat, right: nat :| MayCollide(edges, tasks, left, right) {
      CollisionIsConflict(edges, tasks, left, right);
    }
    if c :| IsConflict(edges, tasks, c) {
      ConflictIsCollision(edges, tasks, c);
    }
  }

  lemma CollisionIsConflict(edges: seq<Edge>, tasks: seq<Task>, left: nat, right: nat)
    requires MayCollide(edges, tasks, left, right)
    ensures exists c :: IsConflict(edges, tasks, c)
  {
    var a, b := tasks[left], tasks[right];
    ExclusiveIff(a.activateOnAny, b.activateOnAny);
    var l, r, path: seq<string> :| SharedPath(a, b, l, r, path);
    OverlapIff(l, r);
    var i, j :| 0 <= i < |a.write| && a.write[i] == l && 0 <= j < |b.write| && b.write[j] == r;
    assert IsConflict(edges, tasks, Conflict(left, right, i, j));
  }

  lemma ConflictIsCollision(edges: seq<Edge>, tasks: seq<Task>, c: Conflict)
    requires IsConflict(edges, tasks, c)
    ensures MayCollide(edges, tasks, c.left, c.right)
  {
    var a, b := tasks[c.left], tasks[c.right];
    var outcome := BothActive(a.activateOnAny, b.activateOnAny);
    var l, r := a.write[c.leftSpec], b.write[c.rightSpec];
    OverlapIff(l, r);
    var path: seq<string> :| UnderBoth(l, r, path);
    assert SharedPath(a, b, l, r, path);
  }
}
