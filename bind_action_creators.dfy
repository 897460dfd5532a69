/** `bindActionCreators` (`src/bindActionCreators.ts`): wraps an action creator,
    or every action creator held by an object, so that calling the wrapper
    dispatches the action the creator makes. An action creator is modelled as a
    function from its argument list (X) to its action (A), and `dispatch` as a
    function from an action to what dispatching it returns (R). */
module BindActionCreators {
  import opened Js

  /** What `bindActionCreators` returns: one bound function, or an object of
      them keyed by property name. */
  datatype Bound<!X, R> = BoundFunction(f: X -> R) | BoundMap(creators: map<string, X -> R>)

  const ImportHint := "Did you write \"import ActionCreators from\" instead of \"import * as ActionCreators from\"?"
  const ExpectedLead := "bindActionCreators expected an object or a function, instead received "

  /** `bindActionCreator`: calling the wrapper with some arguments dispatches
      what the creator makes of the same arguments. */
  function BindActionCreator<X(!new), A, R>(creator: X -> A, dispatch: A -> R): (bound: X -> R)
    ensures forall args :: bound(args) == dispatch(creator(args))
  {
    args => dispatch(creator(args))
  }

  /** The message of the error thrown for an input that is neither a function
      nor a non-null object. */
  function InvalidInputMessage(received: string): (msg: string)
    ensures ExpectedLead <= msg
    ensures |msg| == |ExpectedLead| + |received| + 2 + |ImportHint|
    ensures msg[|ExpectedLead|..|ExpectedLead| + |received|] == received
    ensures msg[|msg| - |ImportHint|..] == ImportHint
  {
    var msg := ExpectedLead + received + ". " + ImportHint;
    assert msg[|ExpectedLead|..|ExpectedLead| + |received|] == received;
    msg
  }

  /** `bindActionCreators(actionCreators, dispatch)`. An object's properties
      are those a `for...in` loop over it visits, read from `heap`. */
  method BindActionCreators<X(!new), A, R>(actionCreators: Value<X, A>, heap: Heap<X, A>, dispatch: A -> R)
    returns (r: Outcome<Bound<X, R>>)
    requires actionCreators.Object? ==> actionCreators.ref in heap.enumerable
    ensures actionCreators.Function? ==>
      r == Returned(BoundFunction(BindActionCreator(actionCreators.call, dispatch)))
    ensures actionCreators.Null? ==> r == Threw(InvalidInputMessage("null"))
    ensures !actionCreators.Function? && !actionCreators.Object? && !actionCreators.Null? ==>
      r == Threw(InvalidInputMessage(TypeOf(actionCreators)))
    ensures actionCreators.Object? ==> r.Returned? && r.value.BoundMap?
    ensures actionCreators.Object? ==>
      var props := heap.enumerable[actionCreators.ref];
      forall key :: key in r.value.creators <==> key in props && props[key].Function?
    ensures actionCreators.Object? ==>
      var props := heap.enumerable[actionCreators.ref];
      forall key :: key in r.value.creators ==>
        r.value.creators[key] == BindActionCreator(props[key].call, dispatch)
  {
    if TypeOf(actionCreators) == "function" {
      return Returned(BoundFunction(BindActionCreator(actionCreators.call, dispatch)));
    }
    if TypeOf(actionCreators) != "object" || actionCreators.Null? {
      var received := if actionCreators.Null? then "null" else TypeOf(actionCreators);
      return Threw(InvalidInputMessage(received));
    }
    var props := heap.enumerable[actionCreators.ref];
    var boundActionCreators: map<string, X -> R> := map[];
    var unvisited := props.Keys;
    while unvisited != {}
      invariant unvisited <= props.Keys
      invariant forall key :: key in boundActionCreators <==>
        key in props && key !in unvisited && props[key].Function?
      invariant forall key :: key in boundActionCreators ==>
        boundActionCreators[key] == BindActionCreator(props[key].call, dispatch)
      decreases unvisited
    {
      var key :| key in unvisited;
      var actionCreator := props[key];
      if TypeOf(actionCreator) == "function" {
        boundActionCreators := boundActionCreators[key := BindActionCreator(actionCreator.call, dispatch)];
      }
      unvisited := unvisited - {key};
    }
    return Returned(BoundMap(boundActionCreators));
  }

  /** The error names what it received: two different received kinds give
      two different messages, so `null` and `number` are told apart. */
  lemma InvalidInputMessageNamesReceived(a: string, b: string)
    requires a != b
    ensures InvalidInputMessage(a) != InvalidInputMessage(b)
  {
  }
}
