/** The rules of the tracking decorator as functions of the decorator's options,
    the component's props and the inherited tracking context. The class in
    with_tracking.dfy applies them to its fields; the chain of nested components
    in tracking_tree.dfy composes them level by level. */
module TrackingRules {
  import opened TrackingTypes

  /** The three instance fields that `computeTrackingData` assigns. */
  datatype TrackingFields<D> = TrackingFields(own: Option<D>, fromContext: D, merged: D)

  /** The decorator's parameters with their defaults: tracking data `{}`, the
      library's `dispatchTrackingEvent`, no dispatch on mount; `process` has no
      default. */
  function Decorate<D, P>(
    ops: ObjectOps<D>,
    trackingData: Arg<TrackingSpec<D, P>>,
    dispatch: Arg<Dispatcher>,
    dispatchOnMount: Arg<OnMount<D>>,
    process: Process<D>): (o: Options<D, P>)
    ensures trackingData.Omitted? ==> o.trackingData == Static(Some(ops.emptyObject))
    ensures trackingData.Given? ==> o.trackingData == trackingData.value
    ensures o.dispatch == DispatchTrackingEvent <==>
              dispatch.Omitted? || dispatch.value == DispatchTrackingEvent
    ensures dispatch.Given? ==> o.dispatch == dispatch.value
    ensures dispatchOnMount.Omitted? ==> o.dispatchOnMount.Off?
    ensures dispatchOnMount.Given? ==> o.dispatchOnMount == dispatchOnMount.value
    ensures o.process == process
  {
    Options(
      if trackingData.Given? then trackingData.value else Static(Some(ops.emptyObject)),
      if dispatch.Given? then dispatch.value else DispatchTrackingEvent,
      if dispatchOnMount.Given? then dispatchOnMount.value else Off,
      process)
  }

  /** The component's own tracking data: the static object, or the function of
      the props applied afresh. */
  function OwnTrackingData<D, P>(spec: TrackingSpec<D, P>, props: P): Option<D>
  {
    match spec
    case Static(data) => data
    case FromProps(compute) => compute(props)
  }

  /** `(context.tracking && context.tracking.data) || {}` */
  function ContextTrackingData<D>(ops: ObjectOps<D>, context: Option<TrackingContext<D>>): D
  {
    if context.Some? then OrEmpty(ops, context.value.data) else ops.emptyObject
  }

  /** What `computeTrackingData(props, context)` stores. */
  function TrackingFieldsFor<D, P>(
    ops: ObjectOps<D>, options: Options<D, P>, props: P, context: Option<TrackingContext<D>>): (f: TrackingFields<D>)
    ensures options.trackingData.Static? ==> f.own == options.trackingData.data
    ensures options.trackingData.FromProps? ==> f.own == options.trackingData.compute(props)
    ensures context.Some? && context.value.data.Some? ==> f.fromContext == context.value.data.value
    ensures context.None? || context.value.data.None? ==> f.fromContext == ops.emptyObject
    ensures f.merged == ops.merge(f.fromContext, OrEmpty(ops, f.own))
  {
    var own := OwnTrackingData(options.trackingData, props);
    var fromContext := ContextTrackingData(ops, context);
    TrackingFields(own, fromContext, ops.merge(fromContext, OrEmpty(ops, own)))
  }

  /** `(context.tracking && context.tracking.dispatch) || dispatch` */
  function ResolveDispatcher<D, P>(options: Options<D, P>, context: Option<TrackingContext<D>>): (d: Dispatcher)
    ensures context.Some? && context.value.dispatch.Some? ==> d == context.value.dispatch.value
    ensures context.None? || context.value.dispatch.None? ==> d == options.dispatch
  {
    if context.Some? && context.value.dispatch.Some? then context.value.dispatch.value
    else options.dispatch
  }

  /** `context.tracking && context.tracking.process` */
  function ContextProcess<D>(context: Option<TrackingContext<D>>): Process<D>
  {
    if context.Some? then context.value.process else NoProcess
  }

  /** The `process` a component publishes: the inherited one if truthy, else its own option. */
  function InheritedProcess<D, P>(options: Options<D, P>, context: Option<TrackingContext<D>>): (p: Process<D>)
    ensures ContextProcess(context).Declared() ==> p == ContextProcess(context)
    ensures !ContextProcess(context).Declared() ==> p == options.process
    ensures p.Declared() <==> ContextProcess(context).Declared() || options.process.Declared()
  {
    var inherited := ContextProcess(context);
    if inherited.Declared() then inherited else options.process
  }

  /** `getChildContext().tracking`, from the instance's current tracking fields. */
  function ChildContext<D, P>(
    ops: ObjectOps<D>, options: Options<D, P>, context: Option<TrackingContext<D>>,
    fields: TrackingFields<D>): (c: TrackingContext<D>)
    ensures c.data == Some(ops.merge(fields.fromContext, OrEmpty(ops, fields.own)))
    ensures c.dispatch == Some(ResolveDispatcher(options, context))
    ensures c.process == InheritedProcess(options, context)
  {
    TrackingContext(
      Some(ops.merge(fields.fromContext, OrEmpty(ops, fields.own))),
      Some(ResolveDispatcher(options, context)),
      InheritedProcess(options, context))
  }

  /** The constructor's diagnostic ("options.process should be used once on top
      level component"): both the context and the options declare a process. */
  function DuplicateProcess<D, P>(options: Options<D, P>, context: Option<TrackingContext<D>>): (warn: bool)
    ensures warn <==> context.Some? && context.value.process.Declared() && options.process.Declared()
  {
    ContextProcess(context).Declared() && options.process.Declared()
  }

  /** What `componentDidMount` does: nothing, or one `trackEvent` call whose
      argument (possibly `undefined`) is `data`. */
  datatype MountAction<D> = NoEvent | Track(data: Option<D>)

  /** The mount decision table, checked in this order: a context process function
      together with a `dispatchOnMount` function; a context process function
      alone, which fires only on a truthy result; a `dispatchOnMount` function
      alone; `dispatchOnMount === true`. The component's own `process` option is
      not consulted. */
  function MountActionFor<D, P>(
    ops: ObjectOps<D>, options: Options<D, P>, context: Option<TrackingContext<D>>,
    own: Option<D>, merged: D): (a: MountAction<D>)
    ensures a.Track? <==>
              if ContextProcess(context).ProcessFn? then
                options.dispatchOnMount.Computed? || ContextProcess(context).run(own).Some?
              else
                options.dispatchOnMount.Computed? || options.dispatchOnMount.On?
    ensures ContextProcess(context).ProcessFn? && options.dispatchOnMount.Computed? ==>
              a == Track(Some(ops.merge(OrEmpty(ops, ContextProcess(context).run(own)),
                                        OrEmpty(ops, options.dispatchOnMount.compute(merged)))))
    ensures ContextProcess(context).ProcessFn? && !options.dispatchOnMount.Computed? && a.Track? ==>
              a.data == ContextProcess(context).run(own)
    ensures !ContextProcess(context).ProcessFn? && options.dispatchOnMount.Computed? ==>
              a.data == options.dispatchOnMount.compute(merged)
    ensures !ContextProcess(context).ProcessFn? && options.dispatchOnMount.On? ==> a == Track(None)
  {
    var contextProcess := ContextProcess(context);
    match (contextProcess, options.dispatchOnMount)
    case (ProcessFn(run), Computed(compute)) =>
      Track(Some(ops.merge(OrEmpty(ops, run(own)), OrEmpty(ops, compute(merged)))))
    case (ProcessFn(run), _) =>
      var processed := run(own);
      if processed.Some? then Track(processed) else NoEvent
    case (_, Computed(compute)) => Track(compute(merged))
    case (_, On) => Track(None)
    case _ => NoEvent
  }

  /** The component's own `process` option never influences its mount event. */
  lemma MountIgnoresOwnProcess<D, P>(
    ops: ObjectOps<D>, options: Options<D, P>, context: Option<TrackingContext<D>>,
    own: Option<D>, merged: D, other: Process<D>)
    ensures MountActionFor(ops, options, context, own, merged)
         == MountActionFor(ops, options.(process := other), context, own, merged)
  {
  }
}
