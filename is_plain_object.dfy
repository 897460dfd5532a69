/** `isPlainObject` (`src/utils/isPlainObject.ts`): is a value an object whose
    immediate prototype is the top of its own prototype chain, as it is for an
    object literal or `new Object()`? */
module PlainObject {
  import opened Js

  type Protos = map<ObjId, Option<ObjId>>

  /** Following prototype links from `o` reaches, within `n` links, an object
      whose prototype is `null`; every object passed on the way exists. */
  ghost predicate ReachesTopWithin(protos: Protos, o: ObjId, n: nat)
    decreases n
  {
    o in protos &&
    match protos[o]
    case None => true
    case Some(p) => n > 0 && ReachesTopWithin(protos, p, n - 1)
  }

  /** `o`'s prototype chain is finite and acyclic. Chains of ordinary objects
      always are; a Proxy whose `getPrototypeOf` trap returns a cycle or an
      endless chain is not, and on it the loop of `isPlainObject` never ends. */
  ghost predicate ChainEnds(protos: Protos, o: ObjId)
  {
    exists n :: ReachesTopWithin(protos, o, n)
  }

  /** The object at the top of `o`'s prototype chain, found within `n` links. */
  ghost function TopWithin(protos: Protos, o: ObjId, n: nat): (top: ObjId)
    requires ReachesTopWithin(protos, o, n)
    ensures top in protos && protos[top] == None
    decreases n
  {
    match protos[o]
    case None => o
    case Some(p) => TopWithin(protos, p, n - 1)
  }

  /** The top does not depend on how many links were allowed to reach it. */
  lemma {:induction false} TopWithinAnyBound(protos: Protos, o: ObjId, n: nat, m: nat)
    requires ReachesTopWithin(protos, o, n) && ReachesTopWithin(protos, o, m)
    ensures TopWithin(protos, o, n) == TopWithin(protos, o, m)
    decreases n
  {
    match protos[o]
    case None =>
    case Some(p) => TopWithinAnyBound(protos, p, n - 1, m - 1);
  }

  /** The top of `o`'s prototype chain: the first object on it, possibly `o`
      itself, whose prototype is `null`. */
  ghost function Top(protos: Protos, o: ObjId): (top: ObjId)
    requires ChainEnds(protos, o)
    ensures top in protos && protos[top] == None
  {
    var n :| ReachesTopWithin(protos, o, n);
    TopWithin(protos, o, n)
  }

  lemma TopIsTopWithin(protos: Protos, o: ObjId, n: nat)
    requires ReachesTopWithin(protos, o, n)
    ensures ChainEnds(protos, o) && Top(protos, o) == TopWithin(protos, o, n)
  {
    var m :| ReachesTopWithin(protos, o, m) && Top(protos, o) == TopWithin(protos, o, m);
    TopWithinAnyBound(protos, o, n, m);
  }

  /** The top is reached by following prototype links from `o`: an object
      whose prototype is `null` is its own top, and any other object shares
      the top of its prototype. */
  lemma TopFollowsLinks(protos: Protos, o: ObjId)
    requires ChainEnds(protos, o)
    ensures protos[o] == None ==> Top(protos, o) == o
    ensures protos[o].Some? ==>
      ChainEnds(protos, protos[o].value) && Top(protos, o) == Top(protos, protos[o].value)
  {
    var n: nat :| ReachesTopWithin(protos, o, n);
    TopIsTopWithin(protos, o, n);
    if protos[o].Some? {
      TopIsTopWithin(protos, protos[o].value, n - 1);
    }
  }

  /** What `isPlainObject` decides: `v` is a non-null object whose immediate
      prototype is the top of its prototype chain. */
  ghost predicate Plain<X, Y>(protos: Protos, v: Value<X, Y>)
  {
    v.Object? && PlainRef(protos, v.ref)
  }

  /** The object `o`'s immediate prototype is the top of its prototype chain. */
  ghost predicate PlainRef(protos: Protos, o: ObjId)
  {
    ChainEnds(protos, o) && protos[o] == Some(Top(protos, o))
  }

  /** `isPlainObject(obj)`. The heap is passed by value: the check changes no
      object and no prototype link. */
  method IsPlainObject<X, Y>(heap: Heap<X, Y>, obj: Value<X, Y>) returns (b: bool)
    requires obj.Object? ==> ChainEnds(heap.protos, obj.ref)
    ensures b == Plain(heap.protos, obj)
  {
    if TypeOf(obj) != "object" || obj.Null? {
      return false;
    }
    var protos := heap.protos;
    var proto: ObjId := obj.ref;
    ghost var fuel: nat :| ReachesTopWithin(protos, proto, fuel);
    TopIsTopWithin(protos, proto, fuel);
    // `proto` climbs the chain to its top
    while protos[proto] != None
      invariant ReachesTopWithin(protos, proto, fuel)
      invariant TopWithin(protos, proto, fuel) == Top(protos, obj.ref)
      decreases fuel
    {
      proto := protos[proto].value;
      fuel := fuel - 1;
    }
    return protos[obj.ref] == Some(proto);
  }

  /** The whole decision in local terms: an object is plain exactly when it has
      a prototype and that prototype's own prototype is `null`. */
  lemma PlainIffParentIsRoot(protos: Protos, o: ObjId)
    requires ChainEnds(protos, o)
    ensures PlainRef(protos, o) <==>
      protos[o].Some? && protos[o].value in protos && protos[protos[o].value] == None
  {
    var n :| ReachesTopWithin(protos, o, n);
    TopIsTopWithin(protos, o, n);
    match protos[o]
    case None =>
    case Some(p) =>
      TopIsTopWithin(protos, p, n - 1);
      if protos[p] == None {
        assert Top(protos, p) == p;
      }
  }

  /** An object literal, whose prototype is the root of the chain, is plain. */
  lemma LiteralIsPlain(protos: Protos, o: ObjId, root: ObjId)
    requires o in protos && protos[o] == Some(root)
    requires root in protos && protos[root] == None
    ensures PlainRef(protos, o)
  {
    assert ReachesTopWithin(protos, o, 1);
    PlainIffParentIsRoot(protos, o);
  }

  /** An object with two or more ancestors above it (an instance of a class,
      an array) is not plain. */
  lemma DeepInstanceIsNotPlain(protos: Protos, o: ObjId, parent: ObjId, grandparent: ObjId)
    requires ChainEnds(protos, o)
    requires o in protos && protos[o] == Some(parent)
    requires parent in protos && protos[parent] == Some(grandparent)
    ensures !PlainRef(protos, o)
  {
  }

  /** An object made with `Object.create(null)` is its own top, and its
      prototype `null` is not that top, so it is not plain. */
  lemma NullPrototypeIsNotPlain(protos: Protos, o: ObjId)
    requires o in protos && protos[o] == None
    ensures !PlainRef(protos, o)
  {
  }

  /** Values other than objects, and `null`, are never plain. */
  lemma NonObjectIsNotPlain<X, Y>(protos: Protos, v: Value<X, Y>)
    requires TypeOf(v) != "object" || v.Null?
    ensures !Plain(protos, v)
  {
  }
}
