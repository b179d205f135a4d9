/** Values that flow through the tracking decorator: tracking objects, dispatchers,
    the decorator's options and the `tracking` slot of the ambient context.

    The model is generic in `D`, the type of plain tracking objects, and `P`, the
    type of a component's props. Nothing is assumed about `D` beyond the two
    operations in `ObjectOps`.
 */
module TrackingTypes {

  /** A JavaScript value that may be falsy. `None` stands for `undefined`, `null`
      or `false`; `Some(v)` for an object, which is always truthy (`{}` included). */
  datatype Option<T> = None | Some(value: T)

  /** An argument as the caller passes it to the decorator: left out (`undefined`,
      so the default parameter applies) or given. */
  datatype Arg<T> = Omitted | Given(value: T)

  /** The two operations on tracking objects that the decorator uses: the
      `deepmerge` library function, whose behaviour is not modelled, and the
      empty object literal `{}`. */
  datatype ObjectOps<!D> = ObjectOps(merge: (D, D) -> D, emptyObject: D)

  /** `x || {}` */
  function OrEmpty<D>(ops: ObjectOps<D>, x: Option<D>): D
  {
    match x
    case Some(d) => d
    case None => ops.emptyObject
  }

  /** A dispatch function, known only by its identity: the library's
      `dispatchTrackingEvent` or one supplied by the user. */
  datatype Dispatcher = DispatchTrackingEvent | CustomDispatcher(id: nat)

  /** The decorator's first argument: a static tracking object (which the caller
      may also pass as `null`) or a function computing one from the props. */
  datatype TrackingSpec<!D, !P> = Static(data: Option<D>) | FromProps(compute: P -> Option<D>)

  /** `options.dispatchOnMount`. `Off` stands for `false`, an omitted option and
      every other value that is neither `true` nor a function. */
  datatype OnMount<!D> = Off | On | Computed(compute: D -> Option<D>)

  /** `options.process`, and the `process` published in a tracking context: absent
      (falsy), a function of the own tracking data, or some other truthy value. */
  datatype Process<!D> = NoProcess | ProcessFn(run: Option<D> -> Option<D>) | NotAFunction
  {
    /** JavaScript truthiness of the value. */
    predicate Declared()
    {
      !NoProcess?
    }
  }

  /** The decorator's configuration after the default parameters have applied. */
  datatype Options<!D, !P> = Options(
    trackingData: TrackingSpec<D, P>,
    dispatch: Dispatcher,
    dispatchOnMount: OnMount<D>,
    process: Process<D>)

  /** `context.tracking`: what a decorated ancestor publishes to its subtree. */
  datatype TrackingContext<!D> = TrackingContext(
    data: Option<D>,
    dispatch: Option<Dispatcher>,
    process: Process<D>)

  /** One call of a dispatch function: which one, with which event data and props. */
  datatype Dispatched<D, P> = Dispatched(dispatcher: Dispatcher, data: D, props: P)
}
