/** `applyMiddleware` (`src/applyMiddleware.ts`): a store enhancer that wraps a
    store's `dispatch` in a chain of middleware.

    Actions have type A and a dispatch returns an R or throws. A store's
    `getState` is kept as an opaque value of type G, and the store's other
    fields (`subscribe`, `replaceReducer`, ...) as one opaque value of type F. */
module ApplyMiddleware {
  import opened Js

  type DispatchFn<!A, R> = A -> Outcome<R>

  /** A chain link, `next => action => ...`: what a middleware makes of the
      dispatch it wraps. */
  type Link<!A, !R> = DispatchFn<A, R> -> DispatchFn<A, R>

  /** A middleware, `api => next => action => ...`: given the API object it
      makes its chain link. */
  type Middleware<!G, !A, !R> = MiddlewareApi<G, A, R> -> Link<A, R>

  datatype Store<G, !A, R, F> = Store(getState: G, dispatch: DispatchFn<A, R>, others: F)

  const ConstructingMessage :=
    "Dispatching while constructing your middleware is not allowed. " +
    "Other middleware would not be applied to this dispatch."

  /** The `middlewareAPI` object together with the local `dispatch` variable its
      `dispatch` member forwards to. The variable is the `slot` field: `None`
      while it still holds the placeholder that throws, `Some` once the
      composed dispatch has been assigned to it. */
  class MiddlewareApi<G, A, R> {
    const getState: G
    var slot: Option<DispatchFn<A, R>>

    constructor (getState: G)
      ensures this.getState == getState && slot == None
    {
      this.getState := getState;
      slot := None;
    }

    /** `middlewareAPI.dispatch(action)`: reads the variable at the time of the
        call, so it throws before the chain is built and runs the composed
        dispatch afterwards. */
    function Dispatch(action: A): (o: Outcome<R>)
      reads this
      ensures slot == None ==> o == Threw(ConstructingMessage)
      ensures slot != None ==> o == slot.value(action)
    {
      match slot
      case None => Threw(ConstructingMessage)
      case Some(dispatch) => dispatch(action)
    }

    /** `dispatch = compose(...chain)(store.dispatch)`: the one assignment to
        the variable. */
    method Finalize(dispatch: DispatchFn<A, R>)
      requires slot == None
      modifies this
      ensures slot == Some(dispatch)
      ensures forall action :: Dispatch(action) == dispatch(action)
    {
      slot := Some(dispatch);
    }
  }

  /** `middlewares.map(middleware => middleware(middlewareAPI))`: one link per
      middleware, in the same order, each made by calling that middleware
      once with the same API object. */
  function BuildChain<G, A, R>(middlewares: seq<Middleware<G, A, R>>, api: MiddlewareApi<G, A, R>)
    : (chain: seq<Link<A, R>>)
    ensures |chain| == |middlewares|
    ensures forall j :: 0 <= j < |middlewares| ==> chain[j] == middlewares[j](api)
    decreases |middlewares|
  {
    if middlewares == [] then []
    else [middlewares[0](api)] + BuildChain(middlewares[1..], api)
  }

  /** `compose(...links)`: right-to-left composition, so that the first link
      is outermost. `compose` itself (`src/compose.ts`) is not part of this
      model; it is specified here by the fold the comment in
      `src/applyMiddleware.ts` describes, with zero links giving the identity. */
  function Compose<A, R>(links: seq<Link<A, R>>): Link<A, R>
  {
    (next: DispatchFn<A, R>) => Wrap(links, next)
  }

  /** `compose(...links)(next)`: every link wraps the dispatch made by the
      links to its right, the last one wrapping `next`. */
  function Wrap<A, R>(links: seq<Link<A, R>>, next: DispatchFn<A, R>): DispatchFn<A, R>
    decreases |links|
  {
    if links == [] then next else links[0](Wrap(links[1..], next))
  }

  /** Wrapping in two runs of links is wrapping in the first what the second
      made. */
  lemma {:induction false} WrapAppend<A, R>(xs: seq<Link<A, R>>, ys: seq<Link<A, R>>, next: DispatchFn<A, R>)
    ensures Wrap(xs + ys, next) == Wrap(xs, Wrap(ys, next))
    decreases |xs|
  {
    if xs == [] {
      assert xs + ys == ys;
    } else {
      assert (xs + ys)[1..] == xs[1..] + ys;
      WrapAppend(xs[1..], ys, next);
    }
  }

  /** Link `i` receives as `next` the dispatch built by all links to its
      right, the last one receiving the store's own dispatch; what it returns
      is wrapped by the links to its left, so the first link is outermost. */
  lemma WrapAroundLink<A, R>(links: seq<Link<A, R>>, i: nat, base: DispatchFn<A, R>)
    requires i < |links|
    ensures Wrap(links, base) == Wrap(links[..i], links[i](Wrap(links[i + 1..], base)))
    ensures i == |links| - 1 ==> Wrap(links[i + 1..], base) == base
    ensures i == 0 ==> Wrap(links, base) == links[0](Wrap(links[1..], base))
  {
    var left, right := links[..i], links[i..];
    assert links == left + right;
    WrapAppend(left, right, base);
    assert right[0] == links[i] && right[1..] == links[i + 1..];
    if i == 0 {
      assert left == [];
    }
    if i == |links| - 1 {
      assert links[i + 1..] == [];
    }
  }

  /** The wrapping order the comment in `src/applyMiddleware.ts` walks
      through: the last link is applied to the store's dispatch first, then
      each link to its left is applied to what the previous step produced. */
  function InsideOut<A, R>(links: seq<Link<A, R>>, base: DispatchFn<A, R>): DispatchFn<A, R>
    decreases |links|
  {
    if links == [] then base
    else InsideOut(links[..|links| - 1], links[|links| - 1](base))
  }

  /** The right-to-left composition wraps in exactly that order. */
  lemma {:induction false} WrapIsInsideOut<A, R>(links: seq<Link<A, R>>, base: DispatchFn<A, R>)
    ensures Wrap(links, base) == InsideOut(links, base)
    decreases |links|
  {
    if links != [] {
      var n := |links| - 1;
      assert links == links[..n] + [links[n]];
      WrapAppend(links[..n], [links[n]], base);
      WrapIsInsideOut(links[..n], links[n](base));
    }
  }

  /** `compose(...links)(next)` applies the last link to `next` first and
      each link to its left to the previous result; no links give `next`
      itself. */
  lemma ComposeIsInsideOut<A, R>(links: seq<Link<A, R>>, next: DispatchFn<A, R>)
    ensures Compose(links)(next) == InsideOut(links, next)
    ensures links == [] ==> Compose(links)(next) == next
  {
    WrapIsInsideOut(links, next);
  }

  /** When every link passes this action on to `next` unchanged (links may
      still intercept other actions, as a thunk middleware does), the action
      reaches the store's dispatch and the result is that dispatch's result. */
  lemma {:induction false} ForwardingChainReachesStore<A, R>(links: seq<Link<A, R>>, base: DispatchFn<A, R>, action: A)
    requires forall i, next :: 0 <= i < |links| ==> links[i](next)(action) == next(action)
    ensures Wrap(links, base)(action) == base(action)
    decreases |links|
  {
    if links != [] {
      ForwardingChainReachesStore(links[1..], base, action);
    }
  }

  /** A link that never calls `next` cuts off everything to its right: the
      composed dispatch is the same whatever the store's dispatch is and
      whatever links follow it. */
  lemma SwallowingLinkHidesStore<A, R>(
    links: seq<Link<A, R>>, links2: seq<Link<A, R>>, i: nat, base1: DispatchFn<A, R>, base2: DispatchFn<A, R>)
    requires i < |links| && i < |links2| && links2[..i + 1] == links[..i + 1]
    requires forall next1, next2 :: links[i](next1) == links[i](next2)
    ensures Wrap(links, base1) == Wrap(links2, base2)
  {
    var inner1, inner2 := Wrap(links[i + 1..], base1), Wrap(links2[i + 1..], base2);
    WrapAroundLink(links, i, base1);
    WrapAroundLink(links2, i, base2);
    assert links2[..i] == links[..i + 1][..i] == links[..i];
    assert links2[i] == links[..i + 1][i] == links[i];
    assert links[i](inner1) == links[i](inner2);
  }

  /** For one action: when the links to the left of link `i` forward it and
      link `i` gives the same answer for it whatever `next` is (a filter that
      drops this action type, say), what the composed dispatch
      returns for it depends neither on the store's dispatch nor on any link
      to the right of link `i`. */
  lemma DroppedActionHidesStore<A, R>(
    links: seq<Link<A, R>>, links2: seq<Link<A, R>>, i: nat,
    base1: DispatchFn<A, R>, base2: DispatchFn<A, R>, action: A)
    requires i < |links| && i < |links2| && links2[..i + 1] == links[..i + 1]
    requires forall j, next :: 0 <= j < i ==> links[j](next)(action) == next(action)
    requires forall next1, next2 :: links[i](next1)(action) == links[i](next2)(action)
    ensures Wrap(links, base1)(action) == Wrap(links2, base2)(action)
  {
    var inner1, inner2 := Wrap(links[i + 1..], base1), Wrap(links2[i + 1..], base2);
    WrapAroundLink(links, i, base1);
    WrapAroundLink(links2, i, base2);
    assert links2[..i] == links[..i + 1][..i] == links[..i];
    assert links2[i] == links[..i + 1][i] == links[i];
    ForwardingChainReachesStore(links[..i], links[i](inner1), action);
    ForwardingChainReachesStore(links[..i], links[i](inner2), action);
  }

  /** `applyMiddleware(...middlewares)(createStore)(reducer, args)`: calls
      `createStore` once, builds the chain against a fresh API object, assigns
      the composed dispatch to the API's variable and returns the store with
      only its `dispatch` replaced. The API object and the chain are returned
      too, so that what the middleware were given can be stated. */
  method ApplyMiddleware<G, A, R, F, Reducer, Args>(
    middlewares: seq<Middleware<G, A, R>>,
    createStore: (Reducer, Args) -> Store<G, A, R, F>,
    reducer: Reducer,
    args: Args)
    returns (enhanced: Store<G, A, R, F>, api: MiddlewareApi<G, A, R>, chain: seq<Link<A, R>>)
    ensures api.getState == createStore(reducer, args).getState
    ensures |chain| == |middlewares|
    ensures forall j :: 0 <= j < |middlewares| ==> chain[j] == middlewares[j](api)
    ensures enhanced.dispatch == Compose(chain)(createStore(reducer, args).dispatch)
    ensures enhanced.getState == createStore(reducer, args).getState
    ensures enhanced.others == createStore(reducer, args).others
    ensures api.slot == Some(enhanced.dispatch)
    ensures forall action :: api.Dispatch(action) == enhanced.dispatch(action)
    ensures middlewares == [] ==> enhanced == createStore(reducer, args)
  {
    var store := createStore(reducer, args);
    api := new MiddlewareApi(store.getState);
    chain := BuildChain(middlewares, api);
    var dispatch := Compose(chain)(store.dispatch);
    api.Finalize(dispatch);
    enhanced := store.(dispatch := dispatch);
  }

  /** Until the composed dispatch is assigned, and so all the while the
      middleware are being called, every call of the API's `dispatch` fails
      with the construction-order error, whatever the action. */
  method DispatchWhileConstructing<G, A, R>(middlewares: seq<Middleware<G, A, R>>, getState: G, action: A)
    returns (o: Outcome<R>)
    ensures o == Threw(ConstructingMessage)
  {
    var api := new MiddlewareApi<G, A, R>(getState);
    // Every middleware is called with the API object, as in the source; a
    // middleware is a function of its argument and cannot assign the slot.
    var chain := BuildChain(middlewares, api);
    o := api.Dispatch(action);
  }
}
