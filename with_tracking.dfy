/** One instance of the `WithTracking` component that the decorator returns.
    The fields are the instance's own (`ownTrackingData`, `contextTrackingData`,
    `trackingData`) and those the framework sets (`props`, and `context`, which
    stands for `this.context.tracking`). Calls of a dispatch function are
    recorded in `dispatched`; the constructor's `console.error` diagnostic in
    `processWarning`. */
module WithTrackingComponent {
  import opened TrackingTypes
  import opened TrackingRules

  class WithTracking<D, P> {
    /** `deepmerge` and `{}`, shared by every instance. */
    const ops: ObjectOps<D>
    /** The decorator's arguments, closed over by the class. */
    const options: Options<D, P>

    var props: P
    var context: Option<TrackingContext<D>>

    var ownTrackingData: Option<D>
    var contextTrackingData: D
    var trackingData: D

    var dispatched: seq<Dispatched<D, P>>
    var processWarning: bool

    /** `trackingData` is always the merge of the other two tracking fields. */
    ghost predicate Valid()
      reads this
    {
      trackingData == ops.merge(contextTrackingData, OrEmpty(ops, ownTrackingData))
    }

    /** The three tracking fields as one value. */
    function Fields(): TrackingFields<D>
      reads this
    {
      TrackingFields(ownTrackingData, contextTrackingData, trackingData)
    }

    constructor (ops: ObjectOps<D>, options: Options<D, P>, props: P, context: Option<TrackingContext<D>>)
      ensures Valid()
      ensures this.ops == ops && this.options == options
      ensures this.props == props && this.context == context
      ensures Fields() == TrackingFieldsFor(ops, options, props, context)
      ensures dispatched == []
      ensures processWarning == DuplicateProcess(options, context)
    {
      this.ops := ops;
      this.options := options;
      this.props := props;
      this.context := context;
      ownTrackingData := None;
      contextTrackingData := ops.emptyObject;
      trackingData := ops.emptyObject;
      dispatched := [];
      processWarning := false;
      new;
      if context.Some? && context.value.process.Declared() && options.process.Declared() {
        processWarning := true;
      }
      ComputeTrackingData(props, context);
    }

    /** `computeTrackingData(props, context)`: recompute the three tracking fields. */
    method ComputeTrackingData(props: P, context: Option<TrackingContext<D>>)
      modifies this`ownTrackingData, this`contextTrackingData, this`trackingData
      ensures Valid()
      ensures Fields() == TrackingFieldsFor(ops, options, props, context)
    {
      ownTrackingData := OwnTrackingData(options.trackingData, props);
      contextTrackingData := ContextTrackingData(ops, context);
      trackingData := ops.merge(contextTrackingData, OrEmpty(ops, ownTrackingData));
    }

    /** `getTrackingDispatcher()` */
    function GetTrackingDispatcher(): (d: Dispatcher)
      reads this
      ensures context.Some? && context.value.dispatch.Some? ==> d == context.value.dispatch.value
      ensures context.None? || context.value.dispatch.None? ==> d == options.dispatch
    {
      ResolveDispatcher(options, context)
    }

    /** `trackEvent(data)`: one call of the resolved dispatcher with the event data
        merged over the instance's tracking data, and the current props. */
    method TrackEvent(data: Option<D>)
      modifies this`dispatched
      ensures dispatched == old(dispatched) +
                [Dispatched(GetTrackingDispatcher(), ops.merge(trackingData, OrEmpty(ops, data)), props)]
    {
      dispatched := dispatched + [Dispatched(GetTrackingDispatcher(), ops.merge(trackingData, OrEmpty(ops, data)), props)];
    }

    /** `tracking.getTrackingData()` */
    function GetTrackingData(): (d: D)
      reads this
      requires Valid()
      ensures d == ops.merge(contextTrackingData, OrEmpty(ops, ownTrackingData))
    {
      trackingData
    }

    /** `getChildContext().tracking` */
    function GetChildContext(): (c: TrackingContext<D>)
      reads this
      requires Valid()
      ensures c.data == Some(GetTrackingData())
      ensures c.dispatch == Some(GetTrackingDispatcher())
      ensures c.process == InheritedProcess(options, context)
      ensures c == ChildContext(ops, options, context, Fields())
    {
      ChildContext(ops, options, context, Fields())
    }

    /** `componentDidMount()`: at most one `trackEvent`, chosen by the mount
        decision table. */
    method ComponentDidMount()
      modifies this`dispatched
      ensures match MountActionFor(ops, options, context, ownTrackingData, trackingData)
              case NoEvent => dispatched == old(dispatched)
              case Track(data) =>
                dispatched == old(dispatched) +
                  [Dispatched(GetTrackingDispatcher(), ops.merge(trackingData, OrEmpty(ops, data)), props)]
      ensures |old(dispatched)| <= |dispatched| <= |old(dispatched)| + 1
    {
      var contextProcess := ContextProcess(context);
      if contextProcess.ProcessFn? && options.dispatchOnMount.Computed? {
        TrackEvent(Some(ops.merge(OrEmpty(ops, contextProcess.run(ownTrackingData)),
                                  OrEmpty(ops, options.dispatchOnMount.compute(trackingData)))));
      } else if contextProcess.ProcessFn? {
        var processed := contextProcess.run(ownTrackingData);
        if processed.Some? {
          TrackEvent(processed);
        }
      } else if options.dispatchOnMount.Computed? {
        TrackEvent(options.dispatchOnMount.compute(trackingData));
      } else if options.dispatchOnMount.On? {
        TrackEvent(None);
      }
    }

    /** `componentWillReceiveProps(nextProps, nextContext)`: recompute the tracking
        fields; nothing is dispatched and no diagnostic is raised. */
    method ComponentWillReceiveProps(nextProps: P, nextContext: Option<TrackingContext<D>>)
      modifies this`ownTrackingData, this`contextTrackingData, this`trackingData
      ensures Valid()
      ensures Fields() == TrackingFieldsFor(ops, options, nextProps, nextContext)
      ensures GetTrackingData() == TrackingFieldsFor(ops, options, nextProps, nextContext).merged
    {
      ComputeTrackingData(nextProps, nextContext);
    }
  }
}
