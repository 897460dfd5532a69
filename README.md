# Redux core: middleware, bound action creators, plain objects, reserved action types

A Dafny model of four pieces of the Redux core, with proofs of what each one promises.

- **`applyMiddleware`** is a store enhancer. It calls `createStore` once and gives every middleware an API object. The API's `dispatch` forwards to a local `dispatch` variable. That variable holds a placeholder that throws until the chain of links is built. Then the links are composed right to left around the store's own `dispatch`, and the result is assigned to the variable. The store comes back with only `dispatch` replaced.
  - `MiddlewareApi` is a class whose `slot` field is that variable. `Dispatch` reads the slot on every call, and `Finalize` assigns it once.
  - `compose` is modelled by the fold `Wrap`, with `Compose` returning it as a function. `InsideOut` is an independent reference definition that follows the wrapping order walked through in the source comment.
- **`bindActionCreators`** classifies its input with `typeof`:
  - a function is wrapped so that calling it dispatches what the creator makes;
  - `null`, or anything that is neither an object nor a function, throws an error naming what it received;
  - an object is walked key by key in a loop, and only its function-valued keys are kept, each wrapped.
- **`isPlainObject`** climbs an object's prototype chain to its top in a `while` loop. It answers whether the object's immediate prototype is that top. The heap is a finite map from objects to prototype links. The chains of ordinary objects are finite and acyclic, and the model asks that of every chain it is given.
- **`ActionTypes`** holds the reserved `@@redux/INIT`, `@@redux/REPLACE` and `@@redux/PROBE_UNKNOWN_ACTION` types. Each is a prefix followed by random base-36 digits joined with dots.

Files: `js.dfy` (JavaScript value kinds, `typeof`, calls that return or throw, the heap), `apply_middleware.dfy`, `bind_action_creators.dfy`, `is_plain_object.dfy`, `action_types.dfy`.

An object with a `null` prototype (`Object.create(null)`) is not plain: its top is itself, and its prototype `null` is not that top (`PlainObject.NullPrototypeIsNotPlain`).

## Model

| member | source | states |
|---|---|---|
| `Js.TypeOf` | src/utils/isPlainObject.ts:8 | `typeof` gives "function" exactly for functions, "object" exactly for `null` and objects, "undefined" exactly for `undefined` |
| `ApplyMiddleware.MiddlewareApi.constructor` | src/applyMiddleware.ts:83-93 | the API object gets the store's `getState` as it is, and its `dispatch` variable starts as the throwing placeholder |
| `ApplyMiddleware.MiddlewareApi.Dispatch` | src/applyMiddleware.ts:83-92 | `middlewareAPI.dispatch` reads the variable at call time: it throws the construction-order error while the placeholder is there, and otherwise forwards the action to the assigned dispatch |
| `ApplyMiddleware.MiddlewareApi.Finalize` | src/applyMiddleware.ts:120 | the one assignment of the composed dispatch; from then on the API's `dispatch` behaves as that dispatch on every action |
| `ApplyMiddleware.BuildChain` | src/applyMiddleware.ts:96 | one link per middleware, in the same order, each made by calling that middleware with the same API object |
| `ApplyMiddleware.ComposeIsInsideOut` | src/applyMiddleware.ts:101-120 | `compose(...chain)(store.dispatch)` applies the last link to `store.dispatch` first and each link to its left to the previous result; with no links it is `store.dispatch` itself (the fold `Wrap` that defines `Compose` is stated by the three `Wrap` lemmas) |
| `ApplyMiddleware.WrapAppend` | src/applyMiddleware.ts:101-120 | composing two runs of links equals composing the first around the second's result (compose is associative over concatenation) |
| `ApplyMiddleware.WrapAroundLink` | src/applyMiddleware.ts:101-120 | link `i` receives as `next` what the links to its right built; the last link receives the store's dispatch; the first link is outermost |
| `ApplyMiddleware.WrapIsInsideOut` | src/applyMiddleware.ts:101-118 | the right-to-left composition equals the order the comment walks through: the last middleware's link is applied to `store.dispatch` first, then each earlier link to the previous result |
| `ApplyMiddleware.ForwardingChainReachesStore` | src/applyMiddleware.ts:109-118 | when every link passes this one action on to `next` unchanged (links may still intercept other actions, as the thunk middleware does with function actions), the action reaches the store's dispatch and the result is that dispatch's result |
| `ApplyMiddleware.SwallowingLinkHidesStore` | src/applyMiddleware.ts:101-120 | a link that never calls `next` makes the composed dispatch independent of the store's dispatch and of every link to its right: two chains that agree up to that link, around any two store dispatches, compose to the same dispatch |
| `ApplyMiddleware.DroppedActionHidesStore` | src/applyMiddleware.ts:101-120 | the same for one action: when the links to the left forward it and link `i` gives the same answer for it whatever `next` is (a filter that drops that action type), the result for it depends neither on the store's dispatch nor on the links to the right |
| `ApplyMiddleware.ApplyMiddleware` | src/applyMiddleware.ts:70-127 | `createStore` is called with the same reducer and arguments; the chain matches the middleware one to one; the returned store equals the base store except that `dispatch` is the right-to-left composition around `store.dispatch`; the API's `dispatch` afterwards runs that composed dispatch; with no middleware the store comes back unchanged |
| `ApplyMiddleware.DispatchWhileConstructing` | src/applyMiddleware.ts:79-96 | a call of the API's `dispatch` made after the middleware have been called, but before the assignment, throws the construction-order error for every action |
| `BindActionCreators.BindActionCreator` | src/bindActionCreators.ts:21-28 | the wrapper, called with any arguments, returns `dispatch` applied to what the creator returns for the same arguments |
| `BindActionCreators.InvalidInputMessage` | src/bindActionCreators.ts:80-85 | the message starts with the expectation, has the received name right after it, and ends with the import hint |
| `BindActionCreators.BindActionCreators` | src/bindActionCreators.ts:70-97 | a function gives one bound function; `null` throws the error naming "null" and any other non-object, non-function value throws it naming its `typeof`; an object gives a map whose keys are exactly its function-valued keys, each bound with the same `dispatch` |
| `BindActionCreators.InvalidInputMessageNamesReceived` | src/bindActionCreators.ts:79-86 | different received names give different messages, so `null` and `number` are told apart |
| `PlainObject.Top` | src/utils/isPlainObject.ts:10-14 | the top of a chain is an existing object whose prototype is `null` |
| `PlainObject.TopFollowsLinks` | src/utils/isPlainObject.ts:10-14 | the top is the one reached from the object itself by following prototype links: an object whose prototype is `null` is its own top, and any other object has the top of its prototype |
| `PlainObject.IsPlainObject` | src/utils/isPlainObject.ts:7-17 | the loop climbs to the top of the chain and ends; the result is true exactly when the value is a non-null object whose immediate prototype is that top |
| `PlainObject.PlainIffParentIsRoot` | src/utils/isPlainObject.ts:10-16 | an object is plain exactly when it has a prototype and that prototype's own prototype is `null` |
| `PlainObject.LiteralIsPlain` | src/utils/isPlainObject.ts:6-16 | an object whose prototype is the root of the chain (an object literal, `new Object()`) is plain |
| `PlainObject.DeepInstanceIsNotPlain` | src/utils/isPlainObject.ts:6-16 | an object with two or more ancestors above it (a class instance, an array) is not plain |
| `PlainObject.NullPrototypeIsNotPlain` | src/utils/isPlainObject.ts:10-16 | an object with a `null` prototype is not plain |
| `PlainObject.NonObjectIsNotPlain` | src/utils/isPlainObject.ts:8 | `null` and every value whose `typeof` is not "object" are not plain |
| `ActionTypes.SkipSeven` | src/utils/actionTypes.ts:12 | `substring(7)` keeps the characters from index 7 on, and gives the empty string for a text of at most 7 characters |
| `ActionTypes.JoinWithDots` | src/utils/actionTypes.ts:13-14 | `split('').join('.')` puts one dot between neighbouring characters: the length is 2·\|d\|−1, or 0 for an empty d |
| `ActionTypes.RandomString` | src/utils/actionTypes.ts:8-14 | `randomString()` holds the digits from index 7 on at its even positions, so splitting it at the dots gives those digits back (base-36 digits hold no dot); its length is twice their number less one, or 0 when the text has at most 7 characters |
| `ActionTypes.Init` | src/utils/actionTypes.ts:19 | `ActionTypes.INIT` starts with `@@redux/INIT`, and the digits from index 7 on of the random text are recovered from what follows |
| `ActionTypes.Replace` | src/utils/actionTypes.ts:21 | `ActionTypes.REPLACE` starts with `@@redux/REPLACE`, and the digits from index 7 on of the random text are recovered from what follows |
| `ActionTypes.ProbeUnknownAction` | src/utils/actionTypes.ts:23 | each `PROBE_UNKNOWN_ACTION()` result starts with `@@redux/PROBE_UNKNOWN_ACTION`, and the digits from index 7 on of that call's random text are recovered from what follows |
| `ActionTypes.JoinWithDotsLayout` | src/utils/actionTypes.ts:7-14 | even positions of the joined string hold d's characters in order and odd positions hold dots (the `7.u.a.7.n.p` shape) |
| `ActionTypes.SplitJoin` | src/utils/actionTypes.ts:13-14 | splitting the joined string again gives back the digits, for digits that hold no dot (base-36 digits never do); `RemoveDotsJoin` states the same round trip by removing the dots |
| `ActionTypes.RemoveDotsJoin` | src/utils/actionTypes.ts:13-14 | removing the dots from the joined string gives back digits that hold no dot |
| `ActionTypes.ShortTextGivesBarePrefix` | src/utils/actionTypes.ts:11-23 | a base-36 text of at most 7 characters leaves each reserved type as its bare prefix |
| `ActionTypes.MakeActionTypes` | src/utils/actionTypes.ts:17-24 | INIT and REPLACE are their prefix followed by a random string; PROBE_UNKNOWN_ACTION is a function whose every result is its prefix followed by the random string made from that call's digits |
| `ActionTypes.ReservedTypesDistinct` | src/utils/actionTypes.ts:19-23 | INIT, REPLACE and PROBE_UNKNOWN_ACTION values never coincide, whatever digits they were made from |
| `ActionTypes.DifferentDigitsGiveDifferentTypes` | src/utils/actionTypes.ts:8-23 | different digits from index 7 on give different sentinels of each kind |

## Left out

- `src/utils/warning.ts`: it only logs to the console and throws and catches an error for debuggers, so it has no result or state to model.
- `Math.random()` and `Number.prototype.toString(36)`: floating point and randomness. Their text is a parameter. The sentinels' uniqueness across random draws is probabilistic and is not claimed.
- `src/compose.ts` is not part of this model. `compose` is specified by the right-to-left fold `Wrap`, so that zero links give the identity. That identity is an assumption about `compose`.
- The TypeScript overload signatures: they are type-level only.
- `createStore`, reducers and the base store's own behaviour: `createStore` is a function parameter. `getState` and the store's other fields are opaque values.
- The curried shape `applyMiddleware(...)(createStore)(reducer, ...args)`: it is one method taking all of them. The extra `...args` of a dispatch call are folded into the action.
- ApplyMiddleware.DroppedActionHidesStore: dispatch functions have no effects, so this lemma and `ForwardingChainReachesStore` speak only of the result. Whether the store's dispatch runs, and with it the reducer and the state change, is not modelled. A link that calls `next` and discards the answer counts here as one that drops the action.
- ApplyMiddleware.DispatchWhileConstructing: middleware and links are total functions, which cannot read the API's variable. A call of `middlewareAPI.dispatch` from inside a middleware body is therefore stated at the API object, with the slot still unbound after every middleware has been called, rather than from inside the middleware.
- Re-entrant dispatch from inside a link, as in the thunk example, is left out for the same reason. Such a dispatch can recurse without bound.
- Exceptions thrown by user-supplied middleware, action creators or the store's dispatch are passed through unchanged by the source. They are not modelled.
- BindActionCreators.BindActionCreator: the `this` binding forwarded by `apply` is not modelled. The arguments are one opaque value.
- BindActionCreators.BindActionCreators: the input object's `for...in` keys are given as a map from key to value, own and inherited. The visiting order shows only in the key order of the result object, which a `map` does not keep, so it is not modelled. Values are immutable, so the input cannot change, and the result is a new map.
- PlainObject.IsPlainObject: the heap is passed by value, so no object or prototype link can change. That the prototype chain is finite and acyclic is a precondition. It holds for ordinary objects. A Proxy whose `getPrototypeOf` trap returns a cycle or an endless chain makes the source loop forever, and the precondition excludes exactly those inputs.
