# react-tracking: the `WithTracking` component as a state machine

`withTrackingComponentDecorator(trackingData, options)` wraps a React component in
a class `WithTracking`. Each instance:

- computes its own tracking data from its props;
- merges it over the tracking data inherited from the `tracking` slot of the
  React context;
- publishes the merged data, a dispatch function and a `process` function to
  its subtree;
- sends tracking events to the resolved dispatch function, when the wrapped
  component calls `trackEvent` and, depending on the options, once on mount.

This project models one such instance in Dafny and proves what it computes.
It also models a root-to-leaf chain of nested instances, and proves the
relations along it.

The model is generic in the type `D` of tracking objects and the type `P` of
props. `deepmerge` is a parameter, `ObjectOps.merge`, about which nothing is
assumed. So every property is about which arguments reach `merge` and in which
order, not about the merged result. JavaScript falsy values (`undefined`,
`null`, `false`) are `None` of an `Option`.

- `tracking_types.dfy` (module `TrackingTypes`): tracking objects,
  dispatchers (opaque identities, `DispatchTrackingEvent` being the library
  default), the option values, the `tracking` context, and the record of one
  dispatch call.
  - `dispatchOnMount` is `Off | On | Computed(f)`.
  - `process` is `NoProcess | ProcessFn(f) | NotAFunction`. The third variant
    is a truthy non-function value: the code tests `process` for truthiness in
    the constructor and in `getChildContext`, but with `typeof … === 'function'`
    on mount.
- `tracking_rules.dfy` (module `TrackingRules`): the rules as functions of the
  options, the props and the inherited context. These are the option defaults,
  the tracking-data computation, dispatcher resolution, the published child
  context, the diagnostic condition and the mount decision table.
- `with_tracking.dfy` (module `WithTrackingComponent`): class `WithTracking`,
  with the instance fields the source assigns.
  - Methods: the constructor, `ComputeTrackingData`, `TrackEvent`,
    `ComponentDidMount` and `ComponentWillReceiveProps`.
  - Functions over the fields: `GetTrackingDispatcher`, `GetChildContext` and
    `GetTrackingData`.
  - Dispatch calls are appended to the field `dispatched`. The `console.error`
    diagnostic is the flag `processWarning`.
  - `Valid()` is the invariant kept by every method: `trackingData` is the
    merge of `contextTrackingData` and `ownTrackingData || {}`.
- `tracking_tree.dfy` (module `TrackingTree`): a path of nested decorated
  components. Each level is constructed with the context its parent publishes.
  By induction along the path, the lemmas show:
  - each level's data is the outer data with every level's own data merged in,
    outermost first;
  - every level dispatches through the outermost dispatcher;
  - the first declared `process` is the one in force below it;
  - the diagnostic fires exactly at levels that redeclare a process.

Three behaviours of the code are easy to misread; the model follows the code:

- **Mount table with `dispatchOnMount: true`.** The `true` branch is reached
  only when no `process` function comes from the context. With a context
  `process` and `dispatchOnMount: true`, the `process` branch is taken, and a
  falsy `process` result then fires nothing. `MountActionFor`'s first
  `ensures` states this.
- **Which dispatcher is used.** A component takes its dispatcher from its
  parent's context, but every level republishes the dispatcher it resolved. So
  the dispatcher in force everywhere is the outer context's, or else the
  outermost level's `dispatch` option (`DispatcherIsOutermost`).
- **Where `process` runs.** A `process` option never runs at the level that
  declares it (`MountIgnoresOwnProcess`). It runs in the `componentDidMount` of
  every decorated descendant (`ProcessRunsOneLevelDown`,
  `FirstDeclaredProcessWins`).

## Model

| member | source | states |
|---|---|---|
| `TrackingRules.Decorate` | src/withTrackingComponentDecorator.js:14-16 | Omitted arguments take their defaults: tracking data `{}`, dispatcher `dispatchTrackingEvent` (used exactly when no dispatcher or that one is given), no dispatch on mount. `process` has no default. |
| `TrackingRules.TrackingFieldsFor` | src/withTrackingComponentDecorator.js:58-69 | Own data is the static object, or the function applied to the props. Context data is `context.tracking.data`, or `{}` when the context or its data is missing. Merged data is `merge(contextData, own or {})`. |
| `TrackingRules.ResolveDispatcher` | src/withTrackingComponentDecorator.js:52-56 | The context's dispatch when a tracking context with a dispatch exists, otherwise the `dispatch` option. |
| `TrackingRules.InheritedProcess` | src/withTrackingComponentDecorator.js:79-81 | A truthy inherited process is published unchanged; otherwise the local option. The result is truthy iff either one is. |
| `TrackingRules.ChildContext` | src/withTrackingComponentDecorator.js:71-84 | The published context holds `merge(contextData, own or {})`, the resolved dispatcher and the inherited-or-local process. |
| `TrackingRules.DuplicateProcess` | src/withTrackingComponentDecorator.js:26-31 | The diagnostic condition holds iff the context carries a truthy process and the local `process` option is truthy. |
| `TrackingRules.MountActionFor` | src/withTrackingComponentDecorator.js:86-110 | The decision table fires iff (a context process function, and either a `dispatchOnMount` function or a truthy process result) or (no context process function, and `dispatchOnMount` is a function or `true`). The event data of each branch, in priority order: `merge(process(own) or {}, dispatchOnMount(data) or {})`; the process result; the `dispatchOnMount` result; `undefined`. |
| `TrackingRules.MountIgnoresOwnProcess` | src/withTrackingComponentDecorator.js:87-88 | Replacing the component's own `process` option by any other value leaves its mount decision unchanged. |
| `WithTrackingComponent.WithTracking.constructor` | src/withTrackingComponentDecorator.js:23-34 | The tracking fields are those computed from the props and context; nothing is dispatched. The diagnostic flag is set exactly under the duplicate-process condition and does not change the computed data. |
| `WithTrackingComponent.WithTracking.ComputeTrackingData` | src/withTrackingComponentDecorator.js:58-69 | Assigns exactly the three tracking fields, to the values given by `TrackingFieldsFor`. Keeps `Valid()`. |
| `WithTrackingComponent.WithTracking.GetTrackingDispatcher` | src/withTrackingComponentDecorator.js:52-56 | The context dispatch if there is one, else the configured option. |
| `WithTrackingComponent.WithTracking.TrackEvent` | src/withTrackingComponentDecorator.js:44-50 | Appends exactly one entry to the dispatch log: the resolved dispatcher, `merge(trackingData, data or {})` and the current props. No other field changes. |
| `WithTrackingComponent.WithTracking.GetTrackingData` | src/withTrackingComponentDecorator.js:116-119 | Returns `merge(contextTrackingData, ownTrackingData or {})`, without changing state. |
| `WithTrackingComponent.WithTracking.GetChildContext` | src/withTrackingComponentDecorator.js:71-84 | The published data equals `getTrackingData()`, the published dispatch equals `getTrackingDispatcher()`, and the published process is the inherited-or-local one. Nothing changes and nothing is dispatched. |
| `WithTrackingComponent.WithTracking.ComponentDidMount` | src/withTrackingComponentDecorator.js:86-110 | Appends one entry exactly when `MountActionFor` says `Track(data)`, with the data `trackEvent(data)` sends, and none otherwise. So it makes at most one dispatch. |
| `WithTrackingComponent.WithTracking.ComponentWillReceiveProps` | src/withTrackingComponentDecorator.js:112-114 | Recomputes the tracking fields from the next props and context, and afterwards `getTrackingData()` returns the new merged data. Nothing is dispatched, and the diagnostic flag and the log are unchanged. |
| `TrackingTree.TrackingDataAccumulates` | src/withTrackingComponentDecorator.js:58-84 | At every level of a nested chain, the tracking data and the published data equal the outer data with each level's own data merged in, outermost first. |
| `TrackingTree.DispatcherIsOutermost` | src/withTrackingComponentDecorator.js:52-84 | Every level of a chain resolves the same dispatcher as the outermost level. |
| `TrackingTree.ProcessReachesIffDeclaredAbove` | src/withTrackingComponentDecorator.js:79-81 | A truthy process reaches level `k` iff the outer context or some level above `k` declares one. |
| `TrackingTree.FirstDeclaredProcessWins` | src/withTrackingComponentDecorator.js:79-81 | Without an outer process, the process in force below the first declaring level is that level's. Later declarations are ignored. |
| `TrackingTree.OuterProcessWins` | src/withTrackingComponentDecorator.js:79-81 | A process from the outer context stays in force at every level. |
| `TrackingTree.DiagnosticIffDeclaredTwice` | src/withTrackingComponentDecorator.js:26-31 | Level `k` raises the diagnostic iff it declares a process and the outer context or a level above declares one too. |
| `TrackingTree.ProcessRunsOneLevelDown` | src/withTrackingComponentDecorator.js:86-104 | The first level to declare a process fires on mount only through its own `dispatchOnMount`. Its process is the one in force at the next level, where it runs on mount. |

## Left out

- Rendering and the spreading of props into the wrapped component (`render`): React output, not tracking logic.
- The PropTypes shapes, `contextTypes` and `childContextTypes`: framework declarations.
- `displayName` and `hoistNonReactStatic`: framework plumbing.
- The internals of `deepmerge`: a foreign library, kept as an uninterpreted function parameter. No right-wins, key-preservation or array semantics are assumed or proved.
- The implementation of the default `dispatchTrackingEvent`: dispatchers are identities. `src/dispatchTrackingEvent.js` is not part of this model.
- The text of the `console.error` message: only the fact that it is emitted is modelled, as a flag.
- When React assigns `this.props` and `this.context` relative to `componentWillReceiveProps`: framework lifecycle timing. `ComponentWillReceiveProps` leaves the `props` and `context` fields as they were.
- A `dispatch` option passed explicitly as a falsy value (which would make `trackEvent` call a non-function): the option is modelled as always being a dispatch function.
- A truthy non-function `dispatch` in a context: the context dispatch is modelled as absent or a dispatch function.
