/** How deep a task lies below the root of its workflow, on any parent map, whole, broken or cyclic. */
module Chains {
  import opened Tables
  import opened Records

  datatype Depth = Deep(n: nat) | ParentMissing | CycleDetected

  /** Follow parents for at most `left` steps. */
  function Walk(tasks: seq<Task>, t: Id, left: nat): Depth
    requires t < |tasks|
    decreases left
  {
    match tasks[t].payload.parent
    case None => Deep(0)
    case Some(p) =>
      if p >= |tasks| then ParentMissing
      else if left == 0 then CycleDetected
      else Below(Walk(tasks, p, left - 1), 1)
  }

  function Below(depth: Depth, n: nat): Depth {
    match depth
    case Deep(m) => Deep(m + n)
    case other => other
  }

  function DepthOf(tasks: seq<Task>, t: Id): Depth
    requires t < |tasks|
  {
    Walk(tasks, t, |tasks|)
  }

  /** The task `n` links above `t`, if the chain is that long; the last one may be missing from the table. */
  function Ancestor(tasks: seq<Task>, t: Id, n: nat): Option<Id>
    decreases n
  {
    if n == 0 then Some(t)
    else if t >= |tasks| || tasks[t].payload.parent.None? then None
    else Ancestor(tasks, tasks[t].payload.parent.value, n - 1)
  }

  predicate Root(tasks: seq<Task>, t: Option<Id>) {
    t.Some? && t.value < |tasks| && tasks[t.value].payload.parent.None?
  }

  predicate Dangling(tasks: seq<Task>, t: Option<Id>) {
    t.Some? && t.value >= |tasks|
  }

  predicate Present(tasks: seq<Task>, t: Option<Id>) {
    t.Some? && t.value < |tasks|
  }

  lemma {:induction false} AncestorNext(tasks: seq<Task>, t: Id, n: nat)
    requires Present(tasks, Ancestor(tasks, t, n))
    ensures Ancestor(tasks, t, n + 1) == tasks[Ancestor(tasks, t, n).value].payload.parent
    decreases n
  {
    if n > 0 {
      AncestorNext(tasks, tasks[t].payload.parent.value, n - 1);
    }
  }

  /** Nothing follows the end of a chain, and everything before a link is in the table. */
  lemma {:induction false} AncestorEnds(tasks: seq<Task>, t: Id, m: nat, n: nat)
    requires m < n && Ancestor(tasks, t, n).Some?
    ensures Present(tasks, Ancestor(tasks, t, m)) && !Root(tasks, Ancestor(tasks, t, m))
    decreases n
  {
    if m > 0 {
      AncestorEnds(tasks, tasks[t].payload.parent.value, m - 1, n - 1);
    }
  }

  lemma {:induction false} WalkAlong(tasks: seq<Task>, t: Id, n: nat, left: nat)
    requires t < |tasks| && n <= left && Present(tasks, Ancestor(tasks, t, n))
    ensures Walk(tasks, t, left) == Below(Walk(tasks, Ancestor(tasks, t, n).value, left - n), n)
    decreases n
  {
    if n > 0 {
      if n > 1 {
        AncestorEnds(tasks, t, 1, n);
      }
      assert Present(tasks, Ancestor(tasks, t, 1));
      WalkAlong(tasks, tasks[t].payload.parent.value, n - 1, left - 1);
    }
  }

  // ---- Exploring a chain ----------------------------------------------------------------------

  /** The loop's view after `depth` links: `visited` holds every task met, `current` is the last. */
  ghost predicate Explored(tasks: seq<Task>, t: Id, depth: nat, current: Id, visited: set<Id>) {
    && Ancestor(tasks, t, depth) == Some(current)
    && t in visited && current in visited && |visited| == depth + 1
    && (forall v :: v in visited ==> v < |tasks|)
    && forall v {:trigger tasks[v]} :: v in visited && v != current ==>
         tasks[v].payload.parent.Some? && tasks[v].payload.parent.value in visited
  }

  lemma VisitedBound(visited: set<Id>, n: nat)
    requires forall v :: v in visited ==> v < n
    ensures |visited| <= n
    decreases n
  {
    if n > 0 {
      if n - 1 in visited {
        VisitedBound(visited - {n - 1}, n - 1);
      } else {
        VisitedBound(visited, n - 1);
      }
    } else {
      assert visited == {};
    }
  }

  /** A set of tasks that holds the parent of each of its members is never left. */
  lemma {:induction false} ClosedChain(tasks: seq<Task>, t: Id, visited: set<Id>, n: nat)
    requires t in visited && forall v :: v in visited ==> v < |tasks|
    requires forall v {:trigger tasks[v]} :: v in visited ==>
               tasks[v].payload.parent.Some? && tasks[v].payload.parent.value in visited
    ensures Walk(tasks, t, n) == CycleDetected && Present(tasks, Ancestor(tasks, t, n))
    decreases n
  {
    if n > 0 {
      ClosedChain(tasks, tasks[t].payload.parent.value, visited, n - 1);
    }
  }

  lemma ExploredDepth(tasks: seq<Task>, t: Id, depth: nat, current: Id, visited: set<Id>)
    requires Explored(tasks, t, depth, current, visited)
    ensures depth < |tasks|
    ensures DepthOf(tasks, t) == Below(Walk(tasks, current, |tasks| - depth), depth)
  {
    VisitedBound(visited, |tasks|);
    WalkAlong(tasks, t, depth, |tasks|);
  }

  lemma ExploreNext(
    tasks: seq<Task>, t: Id, depth: nat, current: Id, visited: set<Id>, next: Id, wider: set<Id>)
    requires Explored(tasks, t, depth, current, visited)
    requires tasks[current].payload.parent == Some(next) && next < |tasks|
    requires next !in visited && wider == visited + {next}
    ensures Explored(tasks, t, depth + 1, next, wider)
  {
    AncestorNext(tasks, t, depth);
  }

  /** The loop stops with the right answer. */
  lemma ExploreStops(tasks: seq<Task>, t: Id, depth: nat, current: Id, visited: set<Id>)
    requires Explored(tasks, t, depth, current, visited)
    ensures depth < |tasks| && t < |tasks| && current < |tasks|
    ensures match tasks[current].payload.parent
            case None => DepthOf(tasks, t) == Deep(depth)
            case Some(p) =>
              && (p >= |tasks| ==> DepthOf(tasks, t) == ParentMissing)
              && (p in visited ==> DepthOf(tasks, t) == CycleDetected)
  {
    ExploredDepth(tasks, t, depth, current, visited);
    if tasks[current].payload.parent.Some? && tasks[current].payload.parent.value in visited {
      ClosedChain(tasks, current, visited, |tasks| - depth);
    }
  }

  /** `_workflow_depth`: follow parents until the root, a missing row or a task already visited. */
  method WorkflowDepth(tasks: seq<Task>, task: Id) returns (result: Depth)
    requires task < |tasks|
    ensures result == DepthOf(tasks, task)
  {
    var depth: nat, current: Id, visited: set<Id> := 0, task, {task};
    while tasks[current].payload.parent.Some?
      invariant Explored(tasks, task, depth, current, visited)
      decreases |tasks| - depth
    {
      ExploreStops(tasks, task, depth, current, visited);
      var parent := tasks[current].payload.parent.value;
      if parent >= |tasks| {
        return ParentMissing;
      }
      if parent in visited {
        return CycleDetected;
      }
      var wider := visited + {parent};
      ExploreNext(tasks, task, depth, current, visited, parent, wider);
      visited := wider;
      depth := depth + 1;
      current := parent;
    }
    ExploreStops(tasks, task, depth, current, visited);
    result := Deep(depth);
  }

  // ---- What the answer means ------------------------------------------------------------------

  /** Somewhere above `t` a parent is missing from the table. */
  ghost predicate Broken(tasks: seq<Task>, t: Id) {
    exists n: nat :: Dangling(tasks, Ancestor(tasks, t, n))
  }

  lemma {:induction false} BrokenAbove(tasks: seq<Task>, t: Id, p: Id)
    requires t < |tasks| && tasks[t].payload.parent == Some(p) && (p >= |tasks| || Broken(tasks, p))
    ensures Broken(tasks, t)
  {
    var n: nat := 0;
    if p < |tasks| {
      n :| Dangling(tasks, Ancestor(tasks, p, n));
    }
    assert Ancestor(tasks, t, n + 1) == Ancestor(tasks, p, n);
  }

  lemma {:induction false} WalkSound(tasks: seq<Task>, t: Id, left: nat)
    requires t < |tasks|
    ensures match Walk(tasks, t, left)
            case Deep(n) => Root(tasks, Ancestor(tasks, t, n))
            case ParentMissing => Broken(tasks, t)
            case CycleDetected => true
    decreases left
  {
    match tasks[t].payload.parent
    case None =>
    case Some(p) =>
      if p >= |tasks| {
        BrokenAbove(tasks, t, p);
      } else if left > 0 {
        WalkSound(tasks, p, left - 1);
        match Walk(tasks, p, left - 1)
        case Deep(m) => assert Ancestor(tasks, t, m + 1) == Ancestor(tasks, p, m);
        case ParentMissing => BrokenAbove(tasks, t, p);
        case CycleDetected =>
      }
  }

  /** A cycle is reported only for chains without end. */
  lemma {:induction false} CycleNeverEnds(tasks: seq<Task>, t: Id, depth: nat, current: Id, visited: set<Id>, n: nat)
    requires Explored(tasks, t, depth, current, visited) && DepthOf(tasks, t) == CycleDetected
    ensures Present(tasks, Ancestor(tasks, t, n)) && !Root(tasks, Ancestor(tasks, t, n))
    decreases |tasks| - depth
  {
    ExploredDepth(tasks, t, depth, current, visited);
    var parent := tasks[current].payload.parent.value;
    if parent in visited {
      ClosedChain(tasks, t, visited, n);
      ClosedChain(tasks, t, visited, n + 1);
      AncestorEnds(tasks, t, n, n + 1);
    } else {
      ExploreNext(tasks, t, depth, current, visited, parent, visited + {parent});
      CycleNeverEnds(tasks, t, depth + 1, parent, visited + {parent}, n);
    }
  }

  /** A chain has one end at most. */
  lemma OneEnd(tasks: seq<Task>, t: Id, end: nat, n: nat)
    requires Root(tasks, Ancestor(tasks, t, end)) || Dangling(tasks, Ancestor(tasks, t, end))
    ensures n != end ==> !Root(tasks, Ancestor(tasks, t, n)) && !Dangling(tasks, Ancestor(tasks, t, n))
    ensures !Present(tasks, Ancestor(tasks, t, end + 1))
  {
    if Ancestor(tasks, t, end + 1).Some? {
      AncestorEnds(tasks, t, end, end + 1);
    }
    if n < end {
      AncestorEnds(tasks, t, n, end);
    } else if n > end && Ancestor(tasks, t, n).Some? {
      AncestorEnds(tasks, t, end, n);
    }
  }

  lemma EndMeans(tasks: seq<Task>, t: Id, n: nat)
    requires t < |tasks|
    ensures DepthOf(tasks, t) == Deep(n) <==> Root(tasks, Ancestor(tasks, t, n))
    ensures Dangling(tasks, Ancestor(tasks, t, n)) ==> DepthOf(tasks, t) == ParentMissing
    ensures DepthOf(tasks, t) == CycleDetected ==> Present(tasks, Ancestor(tasks, t, n))
  {
    var depth := DepthOf(tasks, t);
    WalkSound(tasks, t, |tasks|);
    if depth == CycleDetected {
      assert Explored(tasks, t, 0, t, {t});
      CycleNeverEnds(tasks, t, 0, t, {t}, n);
    } else if depth.Deep? {
      OneEnd(tasks, t, depth.n, n);
    } else {
      var end: nat :| Dangling(tasks, Ancestor(tasks, t, end));
      OneEnd(tasks, t, end, n);
    }
  }

  /** On any parent map the answer is the length of the chain, or names the way in which it is broken. */
  lemma DepthMeans(tasks: seq<Task>, t: Id)
    requires t < |tasks|
    ensures forall n: nat :: DepthOf(tasks, t) == Deep(n) <==> Root(tasks, Ancestor(tasks, t, n))
    ensures DepthOf(tasks, t) == ParentMissing <==> Broken(tasks, t)
    ensures DepthOf(tasks, t) == CycleDetected <==> forall n: nat :: Present(tasks, Ancestor(tasks, t, n))
  {
    forall n: nat
      ensures DepthOf(tasks, t) == Deep(n) <==> Root(tasks, Ancestor(tasks, t, n))
      ensures Dangling(tasks, Ancestor(tasks, t, n)) ==> DepthOf(tasks, t) == ParentMissing
      ensures DepthOf(tasks, t) == CycleDetected ==> Present(tasks, Ancestor(tasks, t, n))
    {
      EndMeans(tasks, t, n);
    }
    WalkSound(tasks, t, |tasks|);
    if DepthOf(tasks, t) != CycleDetected {
      ChainsStop(tasks, t);
    }
  }

  lemma ChainsStop(tasks: seq<Task>, t: Id)
    requires t < |tasks| && DepthOf(tasks, t) != CycleDetected
    ensures exists n: nat :: !Present(tasks, Ancestor(tasks, t, n))
  {
    WalkSound(tasks, t, |tasks|);
    var end: nat :| Root(tasks, Ancestor(tasks, t, end)) || Dangling(tasks, Ancestor(tasks, t, end));
    OneEnd(tasks, t, end, end);
  }
}
