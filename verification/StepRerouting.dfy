/**
 Removing workflow steps that write a dropped column, and rerouting the graph around them
 (alembic/versions/cf1_drop_client_install_fields.py).
 */
module StepRerouting {
  import opened Common

  datatype Step = Step(workflow: Id, actionType: string, updates: Option<set<string>>)
  datatype Edge = Edge(source: Id, target: Id, workflow: Id)

  type Pairs = set<(Id, Id)>

  /** A step is doomed when it writes one of the two dropped columns. */
  predicate IsDoomed(s: Step) {
    && s.actionType == "UPDATE_FIELD"
    && s.updates.Some?
    && ("installation_status" in s.updates.value || "installation_date" in s.updates.value)
  }

  function Doomed(steps: map<Id, Step>): set<Id> {
    set i | i in steps && IsDoomed(steps[i])
  }

  /** Exactly the steps that update one of the two columns are doomed. */
  lemma DoomedIff(steps: map<Id, Step>, i: Id)
    ensures i in Doomed(steps) <==>
            i in steps && steps[i].actionType == "UPDATE_FIELD" && steps[i].updates.Some? &&
            exists column :: column in steps[i].updates.value && column in {"installation_date", "installation_status"}
  {
  }

  /** The workflows that own a doomed step; only their edges are loaded. */
  function AffectedWorkflows(steps: map<Id, Step>): set<Id> {
    set i | i in steps && IsDoomed(steps[i]) :: steps[i].workflow
  }

  function Loaded(edges: seq<Edge>, workflows: set<Id>): seq<Edge> {
    if edges == [] then []
    else (if edges[0].workflow in workflows then [edges[0]] else []) + Loaded(edges[1..], workflows)
  }

  /** What the cascade of the two step keys leaves of the edges. */
  function Surviving(edges: seq<Edge>, dead: set<Id>): seq<Edge> {
    if edges == [] then []
    else (if edges[0].source !in dead && edges[0].target !in dead then [edges[0]] else []) + Surviving(edges[1..], dead)
  }

  function Pair(e: Edge): (Id, Id) {
    (e.source, e.target)
  }

  function PairsOf(edges: seq<Edge>): Pairs {
    set e | e in edges :: Pair(e)
  }

  lemma LoadedMembers(edges: seq<Edge>, workflows: set<Id>)
    ensures forall e :: e in Loaded(edges, workflows) <==> e in edges && e.workflow in workflows
  {
  }

  lemma SurvivingMembers(edges: seq<Edge>, dead: set<Id>)
    ensures forall e :: e in Surviving(edges, dead) <==> e in edges && e.source !in dead && e.target !in dead
  {
  }

  lemma {:induction false} SurvivingAppend(edges: seq<Edge>, more: seq<Edge>, dead: set<Id>)
    requires forall e | e in more :: e.source !in dead && e.target !in dead
    ensures Surviving(edges + more, dead) == Surviving(edges, dead) + more
  {
    if edges == [] {
      assert edges + more == more;
      AllSurvive(more, dead);
    } else {
      SurvivingAppend(edges[1..], more, dead);
      assert (edges + more)[1..] == edges[1..] + more && (edges + more)[0] == edges[0];
      var head := if edges[0].source !in dead && edges[0].target !in dead then [edges[0]] else [];
      Associate(head, Surviving(edges[1..], dead), more);
    }
  }

  lemma {:induction false} AllSurvive(edges: seq<Edge>, dead: set<Id>)
    requires forall e | e in edges :: e.source !in dead && e.target !in dead
    ensures Surviving(edges, dead) == edges
  {
    if edges != [] {
      AllSurvive(edges[1..], dead);
      assert edges[0] in edges && edges == [edges[0]] + edges[1..];
    }
  }

  /* ---------- Paths ---------- */

  /** A path of one edge or more. */
  ghost predicate IsPath(g: Pairs, p: seq<Id>) {
    |p| >= 2 && forall i | 0 <= i < |p| - 1 :: (p[i], p[i + 1]) in g
  }

  ghost predicate IsPathFromTo(g: Pairs, p: seq<Id>, u: Id, v: Id) {
    IsPath(g, p) && p[0] == u && p[|p| - 1] == v
  }

  ghost predicate Reaches(g: Pairs, u: Id, v: Id) {
    exists p :: IsPathFromTo(g, p, u, v)
  }

  /** Some path leads from `u` to `v` with nothing but `dead` steps in between. */
  ghost predicate Bypass(g: Pairs, dead: set<Id>, u: Id, v: Id) {
    exists p :: IsPathFromTo(g, p, u, v) && forall i | 0 < i < |p| - 1 :: p[i] in dead
  }

  ghost predicate IsDag(g: Pairs) {
    forall x :: !Reaches(g, x, x)
  }

  lemma EdgeBypasses(g: Pairs, dead: set<Id>, u: Id, v: Id)
    requires (u, v) in g
    ensures Bypass(g, dead, u, v)
  {
    assert IsPathFromTo(g, [u, v], u, v);
  }

  lemma BypassStep(g: Pairs, dead: set<Id>, u: Id, d: Id, v: Id)
    requires (u, d) in g && d in dead && Bypass(g, dead, d, v)
    ensures Bypass(g, dead, u, v)
  {
    var p :| IsPathFromTo(g, p, d, v) && forall i | 0 < i < |p| - 1 :: p[i] in dead;
    assert IsPathFromTo(g, [u] + p, u, v);
  }

  lemma BypassReaches(g: Pairs, dead: set<Id>, u: Id, v: Id)
    requires Bypass(g, dead, u, v)
    ensures Reaches(g, u, v)
  {
  }

  lemma ReachesTrans(g: Pairs, u: Id, v: Id, w: Id)
    requires Reaches(g, u, v) && Reaches(g, v, w)
    ensures Reaches(g, u, w)
  {
    var p :| IsPathFromTo(g, p, u, v);
    var q :| IsPathFromTo(g, q, v, w);
    var r := p + q[1..];
    forall i | 0 <= i < |r| - 1 ensures (r[i], r[i + 1]) in g {
      if i >= |p| - 1 {
        assert r[i] == q[i - |p| + 1] && r[i + 1] == q[i - |p| + 2];
      }
    }
    assert IsPathFromTo(g, r, u, w);
  }

  lemma ReachesMonotone(g: Pairs, h: Pairs, u: Id, v: Id)
    requires g <= h && Reaches(g, u, v)
    ensures Reaches(h, u, v)
  {
    var p :| IsPathFromTo(g, p, u, v);
    assert IsPathFromTo(h, p, u, v);
  }

  /* ---------- The search through doomed steps ---------- */

  type Successors = map<Id, seq<Id>>

  function SuccessorsOf(succ: Successors, x: Id): seq<Id> {
    if x in succ then succ[x] else []
  }

  ghost function GraphOf(succ: Successors): Pairs {
    set x, y | x in succ && y in succ[x] :: (x, y)
  }

  /** Everything a doomed step of `expanded` leads to has been seen. */
  ghost predicate ExpandedInto(succ: Successors, doomed: set<Id>, expanded: set<Id>, seen: set<Id>) {
    forall d, y | d in expanded && d in doomed && y in SuccessorsOf(succ, d) :: y in seen
  }

  ghost predicate NoDuplicates(s: seq<Id>) {
    forall i, j | 0 <= i < j < |s| :: s[i] != s[j]
  }

  lemma AppendDistinct(s: seq<Id>, t: seq<Id>)
    requires NoDuplicates(s) && NoDuplicates(t) && forall x | x in t :: x !in s
    ensures NoDuplicates(s + t)
  {
    var r := s + t;
    forall i, j | 0 <= i < j < |r| ensures r[i] != r[j] {
      if i < |s| <= j {
        assert r[i] in s && r[j] in t;
      }
    }
  }

  /** The depth-first search; `seen` is shared by all of it and only grows, so it ends on cyclic graphs too. */
  method LiveSuccessors(succ: Successors, doomed: set<Id>, step: Id, seen: set<Id>, ghost all: set<Id>)
    returns (out: seq<Id>, seen': set<Id>)
    requires seen <= all && forall x, y | x in succ && y in succ[x] :: y in all
    requires step in doomed
    ensures seen <= seen' <= all
    ensures forall x :: x in out <==> x in seen' && x !in seen && x !in doomed
    ensures NoDuplicates(out)
    ensures forall x | x in seen' && x !in seen :: Bypass(GraphOf(succ), doomed, step, x)
    ensures ExpandedInto(succ, doomed, seen' - seen + {step}, seen')
    decreases all - seen
  {
    out, seen' := [], seen;
    var next := SuccessorsOf(succ, step);
    for i := 0 to |next|
      invariant seen <= seen' <= all
      invariant forall x :: x in out <==> x in seen' && x !in seen && x !in doomed
      invariant NoDuplicates(out)
      invariant forall x | x in seen' && x !in seen :: Bypass(GraphOf(succ), doomed, step, x)
      invariant forall j | 0 <= j < i :: next[j] in seen'
      invariant ExpandedInto(succ, doomed, seen' - seen, seen')
    {
      var nxt := next[i];
      if nxt !in seen' {
        ghost var before := seen';
        assert (step, nxt) in GraphOf(succ);
        EdgeBypasses(GraphOf(succ), doomed, step, nxt);
        seen' := seen' + {nxt};
        if nxt in doomed {
          var more: seq<Id>;
          more, seen' := LiveSuccessors(succ, doomed, nxt, seen', all);
          forall x | x in seen' && x !in before + {nxt} ensures Bypass(GraphOf(succ), doomed, step, x) {
            BypassStep(GraphOf(succ), doomed, step, nxt, x);
          }
          assert forall d :: d in seen' - seen ==> d in before - seen || d in seen' - (before + {nxt}) + {nxt};
          AppendDistinct(out, more);
          out := out + more;
        } else {
          out := out + [nxt];
        }
      }
    }
  }

  /** Started from one doomed step, the search finds exactly the live steps behind it. */
  lemma SearchIsComplete(succ: Successors, doomed: set<Id>, step: Id, seen: set<Id>, x: Id)
    requires step in doomed && step in seen
    requires ExpandedInto(succ, doomed, seen, seen)
    requires Bypass(GraphOf(succ), doomed, step, x)
    ensures x in seen
  {
    var p :| IsPathFromTo(GraphOf(succ), p, step, x) && forall i | 0 < i < |p| - 1 :: p[i] in doomed;
    var i := 0;
    while i < |p| - 1
      invariant 0 <= i < |p| && p[i] in seen
    {
      assert (p[i], p[i + 1]) in GraphOf(succ);
      assert p[i + 1] in SuccessorsOf(succ, p[i]);
      i := i + 1;
    }
  }

  /* ---------- What the clean-up makes of the graph ---------- */

  /** The edges a clean-up of `steps` may leave behind: the surviving rows, then the inserted ones. */
  ghost predicate Rerouted(steps: map<Id, Step>, edges: seq<Edge>, after: seq<Edge>) {
    var dead := Doomed(steps);
    var loaded := PairsOf(Loaded(edges, AffectedWorkflows(steps)));
    exists inserted: seq<Edge> ::
      && after == Surviving(edges, dead) + inserted
      && InsertedOk(inserted, Loaded(edges, AffectedWorkflows(steps)), dead, AffectedWorkflows(steps))
      && (forall u, v | u !in dead && v !in dead ::
            (u, v) in PairsOf(after) <==> (u, v) in PairsOf(edges) || Bypass(loaded, dead, u, v))
  }

  /** `f` enters a doomed step on the way that `e` replaces, and `e` is filed under its workflow. */
  ghost predicate IsEntryOf(f: Edge, e: Edge, loaded: Pairs, dead: set<Id>) {
    f.source == e.source && f.target in dead && f.workflow == e.workflow && Bypass(loaded, dead, f.target, e.target)
  }

  ghost predicate HasEntry(loaded: seq<Edge>, dead: set<Id>, e: Edge) {
    exists f :: f in loaded && IsEntryOf(f, e, PairsOf(loaded), dead)
  }

  /** Inserted edges join live steps, each for a loaded entry edge of its workflow, and repeat no pair, old or new. */
  ghost predicate InsertedOk(inserted: seq<Edge>, loaded: seq<Edge>, dead: set<Id>, workflows: set<Id>) {
    && (forall e | e in inserted ::
          e.source !in dead && e.target !in dead && e.workflow in workflows && Pair(e) !in PairsOf(loaded) &&
          Bypass(PairsOf(loaded), dead, e.source, e.target) && HasEntry(loaded, dead, e))
    && (forall i, j | 0 <= i < j < |inserted| :: Pair(inserted[i]) != Pair(inserted[j]))
  }

  /** Every edge at a doomed step belongs to a workflow that is loaded. */
  ghost predicate DoomedEdgesLoaded(steps: map<Id, Step>, edges: seq<Edge>) {
    forall e | e in edges && (e.source in Doomed(steps) || e.target in Doomed(steps)) ::
      e.workflow in AffectedWorkflows(steps)
  }

  lemma ReroutedIsSound(steps: map<Id, Step>, edges: seq<Edge>, after: seq<Edge>, u: Id, v: Id)
    requires Rerouted(steps, edges, after) && Reaches(PairsOf(after), u, v)
    ensures u !in Doomed(steps) && v !in Doomed(steps)
    ensures Reaches(PairsOf(edges), u, v)
  {
    var dead := Doomed(steps);
    SurvivingMembers(edges, dead);
    var p :| IsPathFromTo(PairsOf(after), p, u, v);
    var last := |p| - 2;
    assert (p[0], p[0 + 1]) in PairsOf(after) && (p[last], p[last + 1]) in PairsOf(after);
    ReroutedEdgeIsSound(steps, edges, after, p[0], p[1]);
    ReroutedEdgeIsSound(steps, edges, after, p[last], p[last + 1]);
    forall i | 0 <= i < |p| - 1 ensures Reaches(PairsOf(edges), p[i], p[i + 1]) {
      assert (p[i], p[i + 1]) in PairsOf(after);
      ReroutedEdgeIsSound(steps, edges, after, p[i], p[i + 1]);
    }
    ChainReaches(PairsOf(edges), p, |p| - 1);
  }

  lemma ReroutedEdgeIsSound(steps: map<Id, Step>, edges: seq<Edge>, after: seq<Edge>, u: Id, v: Id)
    requires Rerouted(steps, edges, after) && (u, v) in PairsOf(after)
    ensures u !in Doomed(steps) && v !in Doomed(steps) && Reaches(PairsOf(edges), u, v)
  {
    var dead := Doomed(steps);
    var loaded := PairsOf(Loaded(edges, AffectedWorkflows(steps)));
    SurvivingMembers(edges, dead);
    LoadedMembers(edges, AffectedWorkflows(steps));
    if (u, v) in PairsOf(edges) {
      EdgeReaches(PairsOf(edges), u, v);
    } else {
      BypassReaches(loaded, dead, u, v);
      ReachesMonotone(loaded, PairsOf(edges), u, v);
    }
  }

  lemma {:induction false} ChainReaches(g: Pairs, p: seq<Id>, n: nat)
    requires 0 < n < |p| && forall i | 0 <= i < n :: Reaches(g, p[i], p[i + 1])
    ensures Reaches(g, p[0], p[n])
  {
    assert Reaches(g, p[n - 1], p[n - 1 + 1]);
    if n > 1 {
      ChainReaches(g, p, n - 1);
      ReachesTrans(g, p[0], p[n - 1], p[n]);
    }
  }

  lemma PartsArePaths(g: Pairs, p: seq<Id>, k: nat)
    requires IsPath(g, p) && 0 < k < |p|
    ensures IsPath(g, p[..k + 1])
    ensures k < |p| - 1 ==> IsPath(g, p[k..])
  {
    var q := p[k..];
    forall i | 0 <= i < |q| - 1 ensures (q[i], q[i + 1]) in g {
      assert (p[k + i], p[k + i + 1]) in g;
    }
  }

  lemma FirstSurvivor(p: seq<Id>, dead: set<Id>) returns (k: nat)
    requires |p| >= 2 && p[|p| - 1] !in dead
    ensures 0 < k < |p| && p[k] !in dead
    ensures forall i | 0 < i < k :: p[i] in dead
  {
    k := 1;
    while p[k] in dead
      invariant 1 <= k < |p|
      invariant forall i | 0 < i < k :: p[i] in dead
      decreases |p| - k
    {
      k := k + 1;
    }
  }

  lemma EdgeReaches(g: Pairs, u: Id, v: Id)
    requires (u, v) in g
    ensures Reaches(g, u, v)
  {
    assert IsPathFromTo(g, [u, v], u, v);
  }

  /** A kept edge, or a route through doomed steps along loaded edges. */
  ghost predicate HasRoute(steps: map<Id, Step>, edges: seq<Edge>, u: Id, v: Id) {
    (u, v) in PairsOf(edges) || Bypass(PairsOf(Loaded(edges, AffectedWorkflows(steps))), Doomed(steps), u, v)
  }

  ghost predicate IsRouted(steps: map<Id, Step>, edges: seq<Edge>, p: seq<Id>, u: Id, v: Id) {
    && |p| >= 2 && p[0] == u && p[|p| - 1] == v
    && (forall i | 0 <= i < |p| :: p[i] !in Doomed(steps))
    && (forall i | 0 <= i < |p| - 1 :: HasRoute(steps, edges, p[i], p[i + 1]))
  }

  /** Every way through doomed steps is also a chain of kept edges and loaded routes. */
  ghost predicate BypassesCovered(steps: map<Id, Step>, edges: seq<Edge>) {
    forall u, v | u !in Doomed(steps) && v !in Doomed(steps) && Bypass(PairsOf(edges), Doomed(steps), u, v) ::
      exists p :: IsRouted(steps, edges, p, u, v)
  }

  lemma RoutedReaches(steps: map<Id, Step>, edges: seq<Edge>, after: seq<Edge>, p: seq<Id>, u: Id, v: Id)
    requires Rerouted(steps, edges, after) && IsRouted(steps, edges, p, u, v)
    ensures Reaches(PairsOf(after), u, v)
  {
    forall i | 0 <= i < |p| - 1 ensures (p[i], p[i + 1]) in PairsOf(after) {
      assert HasRoute(steps, edges, p[i], p[i + 1]);
    }
    assert IsPathFromTo(PairsOf(after), p, u, v);
  }

  lemma EdgeHasRoute(steps: map<Id, Step>, edges: seq<Edge>, after: seq<Edge>, u: Id, v: Id)
    requires Rerouted(steps, edges, after) && (u, v) in PairsOf(after)
    ensures u !in Doomed(steps) && v !in Doomed(steps) && HasRoute(steps, edges, u, v)
  {
    ReroutedEdgeIsSound(steps, edges, after, u, v);
  }

  lemma ReachesIsRouted(steps: map<Id, Step>, edges: seq<Edge>, after: seq<Edge>, u: Id, v: Id)
    requires Rerouted(steps, edges, after) && Reaches(PairsOf(after), u, v)
    ensures exists p :: IsRouted(steps, edges, p, u, v)
  {
    var p :| IsPathFromTo(PairsOf(after), p, u, v);
    forall i | 0 <= i < |p| - 1 ensures HasRoute(steps, edges, p[i], p[i + 1]) {
      EdgeHasRoute(steps, edges, after, p[i], p[i + 1]);
    }
    forall i | 0 <= i < |p| ensures p[i] !in Doomed(steps) {
      var j := if i < |p| - 1 then i else i - 1;
      EdgeHasRoute(steps, edges, after, p[j], p[j + 1]);
    }
    assert IsRouted(steps, edges, p, u, v);
  }

  lemma {:induction false} CoveredIsComplete(steps: map<Id, Step>, edges: seq<Edge>, after: seq<Edge>, p: seq<Id>)
    requires Rerouted(steps, edges, after) && BypassesCovered(steps, edges)
    requires IsPath(PairsOf(edges), p) && p[0] !in Doomed(steps) && p[|p| - 1] !in Doomed(steps)
    ensures Reaches(PairsOf(after), p[0], p[|p| - 1])
    decreases |p|
  {
    var k := FirstSurvivor(p, Doomed(steps));
    PartsArePaths(PairsOf(edges), p, k);
    var hop, rest := p[..k + 1], p[k..];
    assert IsPathFromTo(PairsOf(edges), hop, p[0], p[k]);
    assert Bypass(PairsOf(edges), Doomed(steps), p[0], p[k]);
    var route :| IsRouted(steps, edges, route, p[0], p[k]);
    RoutedReaches(steps, edges, after, route, p[0], p[k]);
    if k < |p| - 1 {
      assert rest[0] == p[k] && rest[|rest| - 1] == p[|p| - 1];
      CoveredIsComplete(steps, edges, after, rest);
      ReachesTrans(PairsOf(after), p[0], p[k], p[|p| - 1]);
    }
  }

  ghost predicate SameReachability(steps: map<Id, Step>, edges: seq<Edge>, after: seq<Edge>) {
    forall u, v | u !in Doomed(steps) && v !in Doomed(steps) ::
      Reaches(PairsOf(after), u, v) <==> Reaches(PairsOf(edges), u, v)
  }

  /** The clean-up keeps reachability exactly when what it loads covers every way through a doomed step. */
  lemma ReachabilityPreservedIff(steps: map<Id, Step>, edges: seq<Edge>, after: seq<Edge>)
    requires Rerouted(steps, edges, after)
    ensures SameReachability(steps, edges, after) <==> BypassesCovered(steps, edges)
  {
    if SameReachability(steps, edges, after) {
      forall u, v | u !in Doomed(steps) && v !in Doomed(steps) && Bypass(PairsOf(edges), Doomed(steps), u, v)
        ensures exists p :: IsRouted(steps, edges, p, u, v)
      {
        BypassReaches(PairsOf(edges), Doomed(steps), u, v);
        ReachesIsRouted(steps, edges, after, u, v);
      }
    }
    if BypassesCovered(steps, edges) {
      forall u, v | u !in Doomed(steps) && v !in Doomed(steps)
        ensures Reaches(PairsOf(after), u, v) <==> Reaches(PairsOf(edges), u, v)
      {
        if Reaches(PairsOf(after), u, v) {
          ReroutedIsSound(steps, edges, after, u, v);
        }
        if Reaches(PairsOf(edges), u, v) {
          var p :| IsPathFromTo(PairsOf(edges), p, u, v);
          CoveredIsComplete(steps, edges, after, p);
        }
      }
    }
  }

  /** A DAG stays a DAG, whatever was loaded. */
  lemma DagPreserved(steps: map<Id, Step>, edges: seq<Edge>, after: seq<Edge>)
    requires Rerouted(steps, edges, after) && IsDag(PairsOf(edges))
    ensures IsDag(PairsOf(after))
  {
    forall x ensures !Reaches(PairsOf(after), x, x) {
      if Reaches(PairsOf(after), x, x) {
        ReroutedIsSound(steps, edges, after, x, x);
      }
    }
  }

  lemma RouteBypasses(steps: map<Id, Step>, edges: seq<Edge>, u: Id, v: Id)
    requires HasRoute(steps, edges, u, v)
    ensures Bypass(PairsOf(edges), Doomed(steps), u, v)
  {
    var dead := Doomed(steps);
    var loaded := PairsOf(Loaded(edges, AffectedWorkflows(steps)));
    LoadedMembers(edges, AffectedWorkflows(steps));
    if (u, v) in PairsOf(edges) {
      EdgeBypasses(PairsOf(edges), dead, u, v);
    } else {
      var p :| IsPathFromTo(loaded, p, u, v) && forall i | 0 < i < |p| - 1 :: p[i] in dead;
      assert IsPathFromTo(PairsOf(edges), p, u, v);
    }
  }

  /** Every way through doomed steps is a kept edge or runs along loaded edges. */
  ghost predicate BypassesHaveRoutes(steps: map<Id, Step>, edges: seq<Edge>) {
    forall u, v | u !in Doomed(steps) && v !in Doomed(steps) && Bypass(PairsOf(edges), Doomed(steps), u, v) ::
      HasRoute(steps, edges, u, v)
  }

  /** Surviving steps are joined by an edge exactly when a path through doomed steps only joined them. */
  ghost predicate EdgesAreBypasses(steps: map<Id, Step>, edges: seq<Edge>, after: seq<Edge>) {
    forall u, v | u !in Doomed(steps) && v !in Doomed(steps) ::
      (u, v) in PairsOf(after) <==> Bypass(PairsOf(edges), Doomed(steps), u, v)
  }

  lemma EdgeIffRoute(steps: map<Id, Step>, edges: seq<Edge>, after: seq<Edge>, u: Id, v: Id)
    requires Rerouted(steps, edges, after) && u !in Doomed(steps) && v !in Doomed(steps)
    ensures (u, v) in PairsOf(after) <==> HasRoute(steps, edges, u, v)
    ensures HasRoute(steps, edges, u, v) ==> Bypass(PairsOf(edges), Doomed(steps), u, v)
  {
    if HasRoute(steps, edges, u, v) {
      RouteBypasses(steps, edges, u, v);
    }
  }

  /** The edges left are the bypasses, in any state, exactly when what is loaded has a route for each of them. */
  lemma SurvivingEdgesExactly(steps: map<Id, Step>, edges: seq<Edge>, after: seq<Edge>)
    requires Rerouted(steps, edges, after)
    ensures EdgesAreBypasses(steps, edges, after) <==> BypassesHaveRoutes(steps, edges)
  {
    forall u, v | u !in Doomed(steps) && v !in Doomed(steps)
      ensures (u, v) in PairsOf(after) <==> HasRoute(steps, edges, u, v)
      ensures HasRoute(steps, edges, u, v) ==> Bypass(PairsOf(edges), Doomed(steps), u, v)
    {
      EdgeIffRoute(steps, edges, after, u, v);
    }
  }

  /** Both conditions hold when every edge at a doomed step is filed under a loaded workflow. */
  lemma LoadedEdgesSuffice(steps: map<Id, Step>, edges: seq<Edge>)
    requires DoomedEdgesLoaded(steps, edges)
    ensures BypassesHaveRoutes(steps, edges) && BypassesCovered(steps, edges)
  {
    forall u, v | u !in Doomed(steps) && v !in Doomed(steps) && Bypass(PairsOf(edges), Doomed(steps), u, v)
      ensures HasRoute(steps, edges, u, v) && exists p :: IsRouted(steps, edges, p, u, v)
    {
      LoadedBypassHasRoute(steps, edges, u, v);
      assert IsRouted(steps, edges, [u, v], u, v);
    }
  }

  lemma LoadedBypassHasRoute(steps: map<Id, Step>, edges: seq<Edge>, u: Id, v: Id)
    requires DoomedEdgesLoaded(steps, edges) && Bypass(PairsOf(edges), Doomed(steps), u, v)
    ensures HasRoute(steps, edges, u, v)
  {
    var p :| IsPathFromTo(PairsOf(edges), p, u, v) && forall i | 0 < i < |p| - 1 :: p[i] in Doomed(steps);
    var loaded := PairsOf(Loaded(edges, AffectedWorkflows(steps)));
    LoadedMembers(edges, AffectedWorkflows(steps));
    if |p| > 2 {
      forall i | 0 <= i < |p| - 1 ensures (p[i], p[i + 1]) in loaded {
        assert (p[i], p[i + 1]) in PairsOf(edges);
        assert p[i] in Doomed(steps) || p[i + 1] in Doomed(steps);
      }
      assert IsPathFromTo(loaded, p, u, v);
    } else {
      assert (p[0], p[1]) in PairsOf(edges);
    }
  }

  lemma OnlyInto(a: Id, b: Id, dead: set<Id>, u: Id, v: Id)
    requires Bypass({(a, b)}, dead, u, v)
    ensures v == b
  {
    var p :| IsPathFromTo({(a, b)}, p, u, v) && forall i | 0 < i < |p| - 1 :: p[i] in dead;
    assert (p[|p| - 2], p[|p| - 2 + 1]) in {(a, b)};
  }

  /** An edge filed under another workflow is not loaded: its route is lost with the doomed step. */
  lemma EdgeOfAnotherWorkflowIsLost()
    ensures var steps := map[1 := Step(7, "SEND", None),
                             2 := Step(7, "UPDATE_FIELD", Some({"installation_date"})),
                             3 := Step(7, "SEND", None)];
            var edges := [Edge(1, 2, 7), Edge(2, 3, 8)];
            && !DoomedEdgesLoaded(steps, edges)
            && Reaches(PairsOf(edges), 1, 3)
            && forall after | Rerouted(steps, edges, after) :: !Reaches(PairsOf(after), 1, 3)
  {
    var steps := map[1 := Step(7, "SEND", None),
                     2 := Step(7, "UPDATE_FIELD", Some({"installation_date"})),
                     3 := Step(7, "SEND", None)];
    var edges := [Edge(1, 2, 7), Edge(2, 3, 8)];
    var dead := Doomed(steps);
    assert 2 in dead && dead == {2};
    assert 7 in AffectedWorkflows(steps) && AffectedWorkflows(steps) == {7};
    assert edges[1] in edges && Pair(edges[0]) in PairsOf(edges) && Pair(edges[1]) in PairsOf(edges);
    assert IsPathFromTo(PairsOf(edges), [1, 2, 3], 1, 3);
    LoadedMembers(edges, {7});
    var loaded := PairsOf(Loaded(edges, {7}));
    assert loaded == {(1, 2)};
    forall after | Rerouted(steps, edges, after) ensures !Reaches(PairsOf(after), 1, 3) {
      if Reaches(PairsOf(after), 1, 3) {
        var p :| IsPathFromTo(PairsOf(after), p, 1, 3);
        assert (p[0], p[1]) in PairsOf(after);
        ReroutedEdgeIsSound(steps, edges, after, p[0], p[1]);
        assert Bypass(loaded, dead, p[0], p[1]);
        OnlyInto(1, 2, dead, p[0], p[1]);
      }
    }
  }

  /* ---------- Each workflow for itself ---------- */

  /** Every edge is filed under the workflow of both its steps. */
  ghost predicate FiledRight(steps: map<Id, Step>, edges: seq<Edge>) {
    forall e | e in edges :: EdgeFiledRight(steps, e)
  }

  predicate EdgeFiledRight(steps: map<Id, Step>, e: Edge) {
    && e.source in steps && steps[e.source].workflow == e.workflow
    && e.target in steps && steps[e.target].workflow == e.workflow
  }

  /** Paths along well-filed edges stay in their workflow. */
  lemma {:induction false} PathStaysInWorkflow(steps: map<Id, Step>, edges: seq<Edge>, p: seq<Id>, k: nat)
    requires FiledRight(steps, edges) && IsPath(PairsOf(edges), p) && k < |p|
    ensures p[0] in steps && p[k] in steps && steps[p[k]].workflow == steps[p[0]].workflow
  {
    assert (p[0], p[1]) in PairsOf(edges);
    if k > 0 {
      PathStaysInWorkflow(steps, edges, p, k - 1);
      assert (p[k - 1], p[k - 1 + 1]) in PairsOf(edges);
    }
  }

  /** Rerouted edges are filed under the workflow of the steps they join. */
  lemma ReroutedIsFiledRight(steps: map<Id, Step>, edges: seq<Edge>, after: seq<Edge>)
    requires FiledRight(steps, edges) && Rerouted(steps, edges, after)
    ensures FiledRight(steps - Doomed(steps), after)
  {
    var dead := Doomed(steps);
    var loaded := Loaded(edges, AffectedWorkflows(steps));
    LoadedMembers(edges, AffectedWorkflows(steps));
    SurvivingMembers(edges, dead);
    forall e | e in after ensures EdgeFiledRight(steps - dead, e) {
      if e in edges && e.source !in dead && e.target !in dead {
        assert EdgeFiledRight(steps, e);
      } else {
        var f :| f in loaded && IsEntryOf(f, e, PairsOf(loaded), dead);
        var p :| IsPathFromTo(PairsOf(loaded), p, f.target, e.target);
        PathStaysInWorkflow(steps, loaded, p, |p| - 1);
        assert EdgeFiledRight(steps, f);
      }
    }
  }

  function InWorkflow(edges: seq<Edge>, w: Id): seq<Edge> {
    Loaded(edges, {w})
  }

  /** From a step of workflow `w`, only the edges of `w` lead anywhere. */
  lemma ReachesInWorkflow(steps: map<Id, Step>, edges: seq<Edge>, w: Id, u: Id, v: Id)
    requires FiledRight(steps, edges)
    ensures Reaches(PairsOf(InWorkflow(edges, w)), u, v) <==>
            u in steps && steps[u].workflow == w && Reaches(PairsOf(edges), u, v)
  {
    LoadedMembers(edges, {w});
    var own := PairsOf(InWorkflow(edges, w));
    if p :| IsPathFromTo(own, p, u, v) {
      assert (p[0], p[1]) in own;
      ReachesMonotone(own, PairsOf(edges), u, v);
    }
    if u in steps && steps[u].workflow == w && Reaches(PairsOf(edges), u, v) {
      var p :| IsPathFromTo(PairsOf(edges), p, u, v);
      forall i | 0 <= i < |p| - 1 ensures (p[i], p[i + 1]) in own {
        PathStaysInWorkflow(steps, edges, p, i);
        assert (p[i], p[i + 1]) in PairsOf(edges);
      }
      assert IsPathFromTo(own, p, u, v);
    }
  }

  lemma FiledRightIsLoaded(steps: map<Id, Step>, edges: seq<Edge>)
    requires FiledRight(steps, edges)
    ensures DoomedEdgesLoaded(steps, edges)
  {
    forall e | e in edges && (e.source in Doomed(steps) || e.target in Doomed(steps))
      ensures e.workflow in AffectedWorkflows(steps)
    {
      assert EdgeFiledRight(steps, e);
    }
  }

  /** No two edges of one workflow join the same steps. */
  ghost predicate RoutesUnique(edges: seq<Edge>) {
    forall i, j | 0 <= i < j < |edges| && edges[i].workflow == edges[j].workflow :: Pair(edges[i]) != Pair(edges[j])
  }

  lemma {:induction false} SurvivingUnique(edges: seq<Edge>, dead: set<Id>)
    requires RoutesUnique(edges)
    ensures RoutesUnique(Surviving(edges, dead))
  {
    if edges != [] {
      SurvivingMembers(edges[1..], dead);
      SurvivingUnique(edges[1..], dead);
      forall e | e in edges[1..] && e.workflow == edges[0].workflow ensures Pair(e) != Pair(edges[0]) {
        var k :| 0 <= k < |edges[1..]| && edges[1..][k] == e;
        assert edges[k + 1] == e;
      }
    }
  }

  lemma UniqueTogether(a: seq<Edge>, b: seq<Edge>)
    requires RoutesUnique(a) && RoutesUnique(b)
    requires forall e, f | e in a && f in b && e.workflow == f.workflow :: Pair(e) != Pair(f)
    ensures RoutesUnique(a + b)
  {
  }

  /** The clean-up never leaves a route twice in one workflow, whatever was loaded. */
  lemma RoutesStayUnique(steps: map<Id, Step>, edges: seq<Edge>, after: seq<Edge>)
    requires RoutesUnique(edges) && Rerouted(steps, edges, after)
    ensures RoutesUnique(after)
  {
    var dead, workflows := Doomed(steps), AffectedWorkflows(steps);
    var inserted :| after == Surviving(edges, dead) + inserted && InsertedOk(inserted, Loaded(edges, workflows), dead, workflows);
    SurvivingUnique(edges, dead);
    SurvivingMembers(edges, dead);
    LoadedMembers(edges, workflows);
    forall e, f | e in Surviving(edges, dead) && f in inserted && e.workflow == f.workflow ensures Pair(e) != Pair(f) {
      assert e in Loaded(edges, workflows) && Pair(e) in PairsOf(Loaded(edges, workflows));
    }
    UniqueTogether(Surviving(edges, dead), inserted);
  }

  /** Within each workflow, the steps that stay reach each other exactly as before along the workflow's own edges. */
  lemma WorkflowKeepsReachability(steps: map<Id, Step>, edges: seq<Edge>, after: seq<Edge>, w: Id, u: Id, v: Id)
    requires FiledRight(steps, edges) && Rerouted(steps, edges, after)
    requires u !in Doomed(steps) && v !in Doomed(steps)
    ensures Reaches(PairsOf(InWorkflow(after, w)), u, v) <==> Reaches(PairsOf(InWorkflow(edges, w)), u, v)
  {
    FiledRightIsLoaded(steps, edges);
    LoadedEdgesSuffice(steps, edges);
    ReachabilityPreservedIff(steps, edges, after);
    ReroutedIsFiledRight(steps, edges, after);
    ReachesInWorkflow(steps, edges, w, u, v);
    ReachesInWorkflow(steps - Doomed(steps), after, w, u, v);
  }

  /* ---------- The migration itself ---------- */

  class WorkflowTables {
    var steps: map<Id, Step>
    var edges: seq<Edge>

    constructor (steps: map<Id, Step>, edges: seq<Edge>)
      ensures this.steps == steps && this.edges == edges
    {
      this.steps, this.edges := steps, edges;
    }

    method CleanupWorkflowSteps()
      modifies this
      ensures steps == old(steps) - Doomed(old(steps))
      ensures Rerouted(old(steps), old(edges), edges)
      ensures Doomed(steps) == {}
    {
      var doomed := Doomed(steps);
      if doomed == {} {
        NothingDoomed(steps, edges);
        return;
      }
      var loaded := Loaded(edges, AffectedWorkflows(steps));
      var succ: Successors, existing: Pairs := map[], {};
      for i := 0 to |loaded|
        invariant existing == PairsOf(loaded[..i]) == GraphOf(succ)
      {
        var e := loaded[i];
        assert loaded[..i + 1] == loaded[..i] + [e];
        ghost var succ0 := succ;
        succ := succ[e.source := SuccessorsOf(succ, e.source) + [e.target]];
        existing := existing + {Pair(e)};
        assert GraphOf(succ) == GraphOf(succ0) + {Pair(e)} by {
          forall x, y | (x, y) in GraphOf(succ0) + {Pair(e)} ensures (x, y) in GraphOf(succ) {
            assert x in succ && y in succ[x];
          }
        }
        assert PairsOf(loaded[..i + 1]) == PairsOf(loaded[..i]) + {Pair(e)};
      }
      assert loaded[..|loaded|] == loaded;
      LoadedMembers(edges, AffectedWorkflows(steps));
      var inserted := ReroutedEdges(loaded, succ, existing, doomed, AffectedWorkflows(steps));
      SurvivingAppend(edges, inserted, doomed);
      SurvivingMembers(edges, doomed);
      ghost var before := edges;
      edges := Surviving(edges + inserted, doomed);
      steps := steps - doomed;
      forall u, v | u !in doomed && v !in doomed
        ensures (u, v) in PairsOf(edges) <==> (u, v) in PairsOf(before) || Bypass(PairsOf(loaded), doomed, u, v)
      {
        if (u, v) in PairsOf(before) {
          var e :| e in before && Pair(e) == (u, v);
          assert e in edges;
        }
        if (u, v) in PairsOf(inserted) {
          var e :| e in inserted && Pair(e) == (u, v);
          assert e in edges;
        }
      }
    }

    /** A row for each live step behind entry edge `e` that its source does not lead to yet. */
    method InsertRoutes(e: Edge, targets: seq<Id>, inserted0: seq<Edge>, existing0: Pairs,
                        ghost loaded: seq<Edge>, ghost doomed: set<Id>, ghost workflows: set<Id>)
      returns (inserted: seq<Edge>, existing: Pairs)
      requires e in loaded && e.source !in doomed && e.target in doomed && e.workflow in workflows
      requires forall x | x in targets :: x !in doomed && Bypass(PairsOf(loaded), doomed, e.target, x)
      requires InsertedOk(inserted0, loaded, doomed, workflows) && existing0 == PairsOf(loaded) + PairsOf(inserted0)
      ensures InsertedOk(inserted, loaded, doomed, workflows) && existing == PairsOf(loaded) + PairsOf(inserted)
      ensures existing0 <= existing && forall x | x in targets :: (e.source, x) in existing
    {
      inserted, existing := inserted0, existing0;
      for j := 0 to |targets|
        invariant InsertedOk(inserted, loaded, doomed, workflows) && existing == PairsOf(loaded) + PairsOf(inserted)
        invariant existing0 <= existing && forall k | 0 <= k < j :: (e.source, targets[k]) in existing
      {
        var row := Edge(e.source, targets[j], e.workflow);
        if Pair(row) !in existing {
          assert Pair(e) in PairsOf(loaded);
          BypassStep(PairsOf(loaded), doomed, e.source, e.target, targets[j]);
          assert IsEntryOf(e, row, PairsOf(loaded), doomed);
          InsertedOneMore(inserted, loaded, doomed, workflows, row);
          inserted, existing := inserted + [row], existing + {Pair(row)};
        }
      }
    }

    /** The loop over entry edges; each new row is reported in insertion order. */
    method ReroutedEdges(loaded: seq<Edge>, succ: Successors, existing0: Pairs, doomed: set<Id>, workflows: set<Id>)
      returns (inserted: seq<Edge>)
      requires existing0 == PairsOf(loaded) == GraphOf(succ)
      requires forall e | e in loaded :: e.workflow in workflows
      ensures InsertedOk(inserted, loaded, doomed, workflows)
      ensures forall u, v | u !in doomed && v !in doomed && Bypass(PairsOf(loaded), doomed, u, v) ::
                (u, v) in PairsOf(loaded) || (u, v) in PairsOf(inserted)
    {
      ghost var all := set e | e in loaded :: e.target;
      forall x, y | x in succ && y in succ[x] ensures y in all {
        assert (x, y) in GraphOf(succ);
      }
      var existing := existing0;
      inserted := [];
      for i := 0 to |loaded|
        invariant InsertedOk(inserted, loaded, doomed, workflows)
        invariant existing == PairsOf(loaded) + PairsOf(inserted)
        invariant forall k | 0 <= k < i :: EntryServed(loaded[k], PairsOf(loaded), doomed, existing)
      {
        var e := loaded[i];
        assert Pair(e) in PairsOf(loaded);
        if e.source !in doomed && e.target in doomed {
          var targets, seen := LiveSuccessors(succ, doomed, e.target, {e.target}, all);
          forall x | x !in doomed && Bypass(PairsOf(loaded), doomed, e.target, x) ensures x in targets {
            SearchIsComplete(succ, doomed, e.target, seen, x);
          }
          ghost var existed := existing;
          inserted, existing := InsertRoutes(e, targets, inserted, existing, loaded, doomed, workflows);
          forall k | 0 <= k < i ensures EntryServed(loaded[k], PairsOf(loaded), doomed, existing) {
            StaysServed(loaded[k], PairsOf(loaded), doomed, existed, existing);
          }
        }
      }
      forall u, v | u !in doomed && v !in doomed && Bypass(PairsOf(loaded), doomed, u, v)
        ensures (u, v) in existing
      {
        BypassEntersServed(loaded, doomed, existing, u, v);
      }
    }
  }

  lemma InsertedOneMore(inserted: seq<Edge>, loaded: seq<Edge>, doomed: set<Id>, workflows: set<Id>, row: Edge)
    requires InsertedOk(inserted, loaded, doomed, workflows)
    requires row.source !in doomed && row.target !in doomed && row.workflow in workflows
    requires Pair(row) !in PairsOf(loaded) + PairsOf(inserted) && Bypass(PairsOf(loaded), doomed, row.source, row.target)
    requires HasEntry(loaded, doomed, row)
    ensures InsertedOk(inserted + [row], loaded, doomed, workflows)
    ensures PairsOf(inserted + [row]) == PairsOf(inserted) + {Pair(row)}
  {
    forall k | 0 <= k < |inserted| ensures Pair(inserted[k]) != Pair(row) {
      assert inserted[k] in inserted;
    }
  }

  lemma StaysServed(e: Edge, loaded: Pairs, doomed: set<Id>, existed: Pairs, existing: Pairs)
    requires EntryServed(e, loaded, doomed, existed) && existed <= existing
    ensures EntryServed(e, loaded, doomed, existing)
  {
  }

  /** An entry edge is served once its source leads directly to every live step behind its target. */
  ghost predicate EntryServed(e: Edge, loaded: Pairs, doomed: set<Id>, existing: Pairs) {
    e.source !in doomed && e.target in doomed ==>
      forall x | x !in doomed && Bypass(loaded, doomed, e.target, x) :: (e.source, x) in existing
  }

  lemma BypassEntersServed(loaded: seq<Edge>, doomed: set<Id>, existing: Pairs, u: Id, v: Id)
    requires u !in doomed && v !in doomed && Bypass(PairsOf(loaded), doomed, u, v)
    requires PairsOf(loaded) <= existing
    requires forall k | 0 <= k < |loaded| :: EntryServed(loaded[k], PairsOf(loaded), doomed, existing)
    ensures (u, v) in existing
  {
    var g := PairsOf(loaded);
    var p :| IsPathFromTo(g, p, u, v) && forall i | 0 < i < |p| - 1 :: p[i] in doomed;
    assert (p[0], p[1]) in g;
    if |p| > 2 {
      var e :| e in loaded && Pair(e) == (p[0], p[1]);
      var k :| 0 <= k < |loaded| && loaded[k] == e;
      var q := p[1..];
      forall i | 0 <= i < |q| - 1 ensures (q[i], q[i + 1]) in g {
        assert (p[i + 1], p[i + 1 + 1]) in g;
      }
      assert IsPathFromTo(g, q, p[1], v);
      assert Bypass(g, doomed, p[1], v);
      assert EntryServed(loaded[k], g, doomed, existing);
    }
  }

  lemma NothingDoomed(steps: map<Id, Step>, edges: seq<Edge>)
    requires Doomed(steps) == {}
    ensures Rerouted(steps, edges, edges)
  {
    var dead := Doomed(steps);
    var loaded := PairsOf(Loaded(edges, AffectedWorkflows(steps)));
    SurvivingAppend([], edges, dead);
    assert [] + edges == edges && Surviving(edges, dead) + [] == edges;
    LoadedMembers(edges, AffectedWorkflows(steps));
    forall u, v | Bypass(loaded, dead, u, v) ensures (u, v) in PairsOf(edges) {
      var p :| IsPathFromTo(loaded, p, u, v) && forall i | 0 < i < |p| - 1 :: p[i] in dead;
      var second := p[if |p| > 2 then 1 else 0];
      assert |p| > 2 ==> second in dead;
      assert (p[0], p[1]) in loaded;
    }
    assert InsertedOk([], Loaded(edges, AffectedWorkflows(steps)), dead, AffectedWorkflows(steps));
  }
}
