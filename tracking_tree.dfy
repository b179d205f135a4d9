/** A root-to-leaf path of nested decorated components. Level 0 is constructed
    with the context `outer` that reaches the outermost decorated component
    (usually none); every deeper level is constructed with the `tracking`
    context its parent publishes through `getChildContext`. The lemmas say what
    each level then sees, in terms of the levels' own options and props alone. */
module TrackingTree {
  import opened TrackingTypes
  import opened TrackingRules

  /** One decorated component on the path: its decorator options and its props. */
  datatype Level<!D, !P> = Level(options: Options<D, P>, props: P)

  /** The context a level constructed with `context` publishes to its children. */
  function Published<D, P>(ops: ObjectOps<D>, level: Level<D, P>, context: Option<TrackingContext<D>>): TrackingContext<D>
  {
    ChildContext(ops, level.options, context, TrackingFieldsFor(ops, level.options, level.props, context))
  }

  /** The `tracking` context level `k` is constructed with. */
  function ContextAt<D, P>(ops: ObjectOps<D>, path: seq<Level<D, P>>, outer: Option<TrackingContext<D>>, k: nat): Option<TrackingContext<D>>
    requires k <= |path|
  {
    if k == 0 then outer else Some(Published(ops, path[k - 1], ContextAt(ops, path, outer, k - 1)))
  }

  /** Independent reference: the data inherited from `outer`, then the own data of
      levels 0 .. k-1 merged in one after the other, outermost first. */
  function Accumulated<D, P>(ops: ObjectOps<D>, path: seq<Level<D, P>>, outer: Option<TrackingContext<D>>, k: nat): D
    requires k <= |path|
  {
    if k == 0 then ContextTrackingData(ops, outer)
    else ops.merge(Accumulated(ops, path, outer, k - 1),
                   OrEmpty(ops, OwnTrackingData(path[k - 1].options.trackingData, path[k - 1].props)))
  }

  /** The `process` that reaches the path from outside. */
  function OuterProcess<D>(outer: Option<TrackingContext<D>>): Process<D>
  {
    if outer.Some? then outer.value.process else NoProcess
  }

  /** Some level above `k`, or the outer context, declares a process. */
  ghost predicate DeclaredAbove<D, P>(path: seq<Level<D, P>>, outer: Option<TrackingContext<D>>, k: nat)
    requires k <= |path|
  {
    OuterProcess(outer).Declared() || exists i :: 0 <= i < k && path[i].options.process.Declared()
  }

  /** Every level's tracking data (its `trackingData` field, and the data it
      publishes) is the outer data with the own data of it and every level above
      merged in, outermost first. */
  lemma {:induction false} TrackingDataAccumulates<D, P>(
    ops: ObjectOps<D>, path: seq<Level<D, P>>, outer: Option<TrackingContext<D>>, k: nat)
    requires k < |path|
    ensures TrackingFieldsFor(ops, path[k].options, path[k].props, ContextAt(ops, path, outer, k)).merged
         == Accumulated(ops, path, outer, k + 1)
    ensures Published(ops, path[k], ContextAt(ops, path, outer, k)).data == Some(Accumulated(ops, path, outer, k + 1))
  {
    if k > 0 {
      TrackingDataAccumulates(ops, path, outer, k - 1);
    }
  }

  /** Every level dispatches through the same function: the outer context's
      dispatch if it has one, otherwise the `dispatch` option of the outermost
      level. The `dispatch` options of deeper levels are never used. */
  lemma {:induction false} DispatcherIsOutermost<D, P>(
    ops: ObjectOps<D>, path: seq<Level<D, P>>, outer: Option<TrackingContext<D>>, k: nat)
    requires k < |path|
    ensures ResolveDispatcher(path[k].options, ContextAt(ops, path, outer, k))
         == ResolveDispatcher(path[0].options, outer)
  {
    if k > 0 {
      DispatcherIsOutermost(ops, path, outer, k - 1);
    }
  }

  /** The process that reaches level `k` is truthy exactly when the outer context
      or some level above `k` declares one. */
  lemma {:induction false} ProcessReachesIffDeclaredAbove<D, P>(
    ops: ObjectOps<D>, path: seq<Level<D, P>>, outer: Option<TrackingContext<D>>, k: nat)
    requires k <= |path|
    ensures ContextProcess(ContextAt(ops, path, outer, k)).Declared() <==> DeclaredAbove(path, outer, k)
  {
    if k > 0 {
      ProcessReachesIffDeclaredAbove(ops, path, outer, k - 1);
      if path[k - 1].options.process.Declared() {
        assert DeclaredAbove(path, outer, k);
      } else if DeclaredAbove(path, outer, k) && !OuterProcess(outer).Declared() {
        var i :| 0 <= i < k && path[i].options.process.Declared();
        assert i < k - 1;
      }
    }
  }

  /** First declaration wins: when the outer context brings no process, the
      process in force at level `k` is that of the outermost level above `k` that
      declares one; the declarations of the levels between are ignored. */
  lemma {:induction false} FirstDeclaredProcessWins<D, P>(
    ops: ObjectOps<D>, path: seq<Level<D, P>>, outer: Option<TrackingContext<D>>, j: nat, k: nat)
    requires j < k <= |path|
    requires !OuterProcess(outer).Declared()
    requires path[j].options.process.Declared()
    requires forall i :: 0 <= i < j ==> !path[i].options.process.Declared()
    ensures ContextProcess(ContextAt(ops, path, outer, k)) == path[j].options.process
  {
    if k == j + 1 {
      ProcessReachesIffDeclaredAbove(ops, path, outer, j);
    } else {
      FirstDeclaredProcessWins(ops, path, outer, j, k - 1);
    }
  }

  /** An outer process stays in force at every level. */
  lemma {:induction false} OuterProcessWins<D, P>(
    ops: ObjectOps<D>, path: seq<Level<D, P>>, outer: Option<TrackingContext<D>>, k: nat)
    requires k <= |path|
    requires OuterProcess(outer).Declared()
    ensures ContextProcess(ContextAt(ops, path, outer, k)) == OuterProcess(outer)
  {
    if k > 0 {
      OuterProcessWins(ops, path, outer, k - 1);
    }
  }

  /** Level `k` raises the duplicate-process diagnostic exactly when it declares a
      process and the outer context or a level above it declares one too. */
  lemma DiagnosticIffDeclaredTwice<D, P>(
    ops: ObjectOps<D>, path: seq<Level<D, P>>, outer: Option<TrackingContext<D>>, k: nat)
    requires k < |path|
    ensures DuplicateProcess(path[k].options, ContextAt(ops, path, outer, k)) <==>
              path[k].options.process.Declared() && DeclaredAbove(path, outer, k)
  {
    ProcessReachesIffDeclaredAbove(ops, path, outer, k);
  }

  /** The mount event of the level that declares the first process is unaffected
      by that process: with no process from above, it fires only through its own
      `dispatchOnMount`. The level below it runs that process on mount. */
  lemma ProcessRunsOneLevelDown<D, P>(
    ops: ObjectOps<D>, path: seq<Level<D, P>>, outer: Option<TrackingContext<D>>, k: nat)
    requires k + 1 < |path|
    requires !DeclaredAbove(path, outer, k)
    requires path[k].options.process.ProcessFn?
    ensures var fields := TrackingFieldsFor(ops, path[k].options, path[k].props, ContextAt(ops, path, outer, k));
            MountActionFor(ops, path[k].options, ContextAt(ops, path, outer, k), fields.own, fields.merged).Track?
            <==> !path[k].options.dispatchOnMount.Off?
    ensures ContextProcess(ContextAt(ops, path, outer, k + 1)) == path[k].options.process
  {
    ProcessReachesIffDeclaredAbove(ops, path, outer, k);
    assert forall i :: 0 <= i < k ==> !path[i].options.process.Declared();
    FirstDeclaredProcessWins(ops, path, outer, k, k + 1);
  }
}
