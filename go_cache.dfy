/**
 * The in-process backend: GoCache over a go-cache store. The store itself (an external
 * library) is modelled by GoStore, a map from key to item with go-cache's primitives.
 */
module GoCacheBackend {
  import opened Wrappers
  import opened Values

  /** A stored datum with the TTL it was set with; expiry timing is not modelled. */
  datatype Item = Item(datum: Any, ttl: int)

  type Items = map<string, Item>

  /** go-cache's "never expires" TTL sentinel. */
  const NoExpiration: int := -1

  /** The errors go-cache's Increment, Decrement and Add report. */
  datatype GcError = ItemNotFound | NotAnInteger | ItemExists

  /** The data go-cache can increment or decrement: integer kinds and floats, not pointers. */
  predicate IsNumeric(x: Any) {
    x.V? && (x.v.Integer? || x.v.Float?)
  }

  /** `x` changed by `delta` in its own kind: integers wrap at their width. */
  function Stepped(x: Any, delta: int): (r: Any)
    requires IsNumeric(x)
    ensures IsNumeric(r) && StaticType(r) == StaticType(x)
    ensures x.v.Integer? ==>
      && InRange(x.v.kind, r.v.n)
      && (x.v.n + delta - r.v.n) % Modulus(x.v.kind) == 0
    ensures x.v.Integer? && InRange(x.v.kind, x.v.n + delta) ==> r.v.n == x.v.n + delta
    ensures x.v.Float? ==> r.v.f == x.v.f + delta as real
  {
    match x.v
    case Integer(k, n) => V(Integer(k, Wrap(k, n + delta)))
    case Float(f) => V(Float(f + delta as real))
  }

  /** go-cache's Increment(k, delta) (Decrement is delta negated) on a map of items. */
  function Bump(items: Items, k: string, delta: int): Result<Items, GcError> {
    if k !in items then Failure(ItemNotFound)
    else if !IsNumeric(items[k].datum) then Failure(NotAnInteger)
    else Success(items[k := Item(Stepped(items[k].datum, delta), items[k].ttl)])
  }

  /** The go-cache store (`*gc.Cache`), an external collaborator. */
  class GoStore {
    var items: Items

    constructor ()
      ensures items == map[]
    {
      items := map[];
    }

    method Set(k: string, x: Any, d: int)
      modifies this
      ensures items == old(items)[k := Item(x, d)]
    {
      items := items[k := Item(x, d)];
    }

    method Get(k: string) returns (x: Any, found: bool)
      ensures found == (k in items)
      ensures x == if found then items[k].datum else NilAny
    {
      found := k in items;
      x := if found then items[k].datum else NilAny;
    }

    method Delete(k: string)
      modifies this
      ensures items == old(items) - {k}
    {
      items := items - {k};
    }

    method Increment(k: string, n: int) returns (err: Option<GcError>)
      modifies this
      ensures match Bump(old(items), k, n)
              case Success(next) => err == None && items == next
              case Failure(e) => err == Some(e) && items == old(items)
    {
      match Bump(items, k, n)
      case Success(next) =>
        items := next;
        err := None;
      case Failure(e) =>
        err := Some(e);
    }

    method Decrement(k: string, n: int) returns (err: Option<GcError>)
      modifies this
      ensures match Bump(old(items), k, -n)
              case Success(next) => err == None && items == next
              case Failure(e) => err == Some(e) && items == old(items)
    {
      match Bump(items, k, -n)
      case Success(next) =>
        items := next;
        err := None;
      case Failure(e) =>
        err := Some(e);
    }

    method Add(k: string, x: Any, d: int) returns (err: Option<GcError>)
      modifies this
      ensures k in old(items) ==> err == Some(ItemExists) && items == old(items)
      ensures k !in old(items) ==> err == None && items == old(items)[k := Item(x, d)]
    {
      if k in items {
        err := Some(ItemExists);
      } else {
        items := items[k := Item(x, d)];
        err := None;
      }
    }
  }

  /** The prefix NewGoCache takes from its variadic argument. */
  function PrefixArg(prefix: seq<string>): (p: string)
    ensures |prefix| == 0 ==> p == ""
    ensures |prefix| > 0 ==> p == prefix[0]
  {
    if |prefix| > 0 then prefix[0] else ""
  }

  /** The key GoCache hands to the store for a caller's key. */
  function ResolveKey(prefix: string, key: string): (r: string)
    ensures |r| == |prefix| + |key|
    ensures r[..|prefix|] == prefix && r[|prefix|..] == key
  {
    prefix + key
  }

  /** Distinct prefixes keep the same caller key apart. */
  lemma PrefixesSeparate(p1: string, p2: string, key: string)
    requires p1 != p2
    ensures ResolveKey(p1, key) != ResolveKey(p2, key)
  {
  }

  // ---- The GoCache operations on the items of its store ----

  datatype Outcome = Outcome(items: Items, result: bool)

  /** Get's store lookup: the datum and whether it existed. */
  function Lookup(prefix: string, items: Items, key: string): (r: (Any, bool))
    ensures r.1 <==> ResolveKey(prefix, key) in items
    ensures r.1 ==> r.0 == items[ResolveKey(prefix, key)].datum
    ensures !r.1 ==> r.0 == NilAny
  {
    var k := ResolveKey(prefix, key);
    if k in items then (items[k].datum, true) else (NilAny, false)
  }

  /** Put and Forever: overwrite whatever was at the resolved key. */
  function Stored(prefix: string, items: Items, key: string, data: Any, d: int): (r: Items)
    ensures r.Keys == items.Keys + {ResolveKey(prefix, key)}
    ensures r[ResolveKey(prefix, key)] == Item(data, d)
    ensures forall k :: k in items && k != ResolveKey(prefix, key) ==> r[k] == items[k]
  {
    items[ResolveKey(prefix, key) := Item(data, d)]
  }

  /**
   * Remove deletes the resolved key and then asks Has about the resolved key again,
   * which resolves it a second time.
   */
  function Removed(prefix: string, items: Items, key: string): (r: Outcome)
    ensures r.items == items - {ResolveKey(prefix, key)}
    ensures r.result <==> prefix == "" || ResolveKey(prefix, ResolveKey(prefix, key)) !in items
  {
    var rest := items - {ResolveKey(prefix, key)};
    var again := ResolveKey(prefix, ResolveKey(prefix, key));
    assert prefix != "" ==> |again| > |ResolveKey(prefix, key)|;
    Outcome(rest, again !in rest)
  }

  /** Increment returns `err != nil`: true exactly when nothing was incremented. */
  function Incremented(prefix: string, items: Items, key: string): (r: Outcome)
    ensures var k := ResolveKey(prefix, key);
      && (r.result <==> k !in items || !IsNumeric(items[k].datum))
      && (r.result ==> r.items == items)
      && (!r.result ==> r.items == items[k := Item(Stepped(items[k].datum, 1), items[k].ttl)])
  {
    match Bump(items, ResolveKey(prefix, key), 1)
    case Success(next) => Outcome(next, false)
    case Failure(_) => Outcome(items, true)
  }

  /** Decrement returns `err != nil`: true exactly when nothing was decremented. */
  function Decremented(prefix: string, items: Items, key: string): (r: Outcome)
    ensures var k := ResolveKey(prefix, key);
      && (r.result <==> k !in items || !IsNumeric(items[k].datum))
      && (r.result ==> r.items == items)
      && (!r.result ==> r.items == items[k := Item(Stepped(items[k].datum, -1), items[k].ttl)])
  {
    match Bump(items, ResolveKey(prefix, key), -1)
    case Success(next) => Outcome(next, false)
    case Failure(_) => Outcome(items, true)
  }

  /** Add returns `err != nil`: true exactly when the key was present and nothing was stored. */
  function Added(prefix: string, items: Items, key: string, data: Any, d: int): (r: Outcome)
    ensures r.result <==> ResolveKey(prefix, key) in items
    ensures r.result ==> r.items == items
    ensures !r.result ==> r.items == Stored(prefix, items, key, data, d)
  {
    var k := ResolveKey(prefix, key);
    if k in items then Outcome(items, true) else Outcome(items[k := Item(data, d)], false)
  }

  /** unmarshal does not panic: the source is not nil, and a non-zero source fits the target's pointee. */
  predicate UnmarshalSafe(from: Any, to: Any)
    reads if from.Ptr? then {from.cell} else {}
  {
    from != NilAny
    && (IsZeroAs(StaticType(from), Indirect(from)) || (to.Ptr? && AssignableTo(StaticType(from), to.cell.elem)))
  }

  /**
   * unmarshal: refuse a zero source, otherwise copy the source's (indirected) value into
   * the target's pointee. Zero is judged at the source's static type, so a `*interface{}`
   * source is refused only when it holds nil.
   */
  method Unmarshal(from: Any, to: Any) returns (ok: bool)
    requires UnmarshalSafe(from, to)
    modifies Pointee(to)
    ensures ok <==> !IsZeroAs(StaticType(from), old(Indirect(from)))
    ensures ok ==> to.cell.val == old(Indirect(from))
    ensures !ok && to.Ptr? ==> to.cell.val == old(to.cell.val)
  {
    var val := Indirect(from);
    if IsZeroAs(StaticType(from), val) {
      return false;
    }
    to.cell.val := val;
    return true;
  }

  /** The value GoCache.Get writes into its target, if any: `pointee` is the indirected datum. */
  function GetWrite(datum: Any, pointee: Val, target: Any): (w: Option<Val>)
    ensures w.Some? <==> target != NilAny && datum != NilAny && !IsZeroAs(StaticType(datum), pointee)
    ensures w.Some? ==> w.value == pointee
  {
    if target != NilAny && datum != NilAny && !IsZeroAs(StaticType(datum), pointee) then Some(pointee) else None
  }

  predicate GetSafe(prefix: string, items: Items, key: string, target: Any)
    reads var datum := Lookup(prefix, items, key).0; if datum.Ptr? then {datum.cell} else {}
  {
    var datum := Lookup(prefix, items, key).0;
    target == NilAny || datum == NilAny || UnmarshalSafe(datum, target)
  }

  /**
   * A condition on types alone under which Get does not panic, whatever the target's and
   * the datum's pointees hold: the datum's type fits the target's pointee.
   */
  predicate GetTypeSafe(prefix: string, items: Items, key: string, target: Any) {
    var datum := Lookup(prefix, items, key).0;
    target == NilAny || datum == NilAny || (target.Ptr? && AssignableTo(StaticType(datum), target.cell.elem))
  }

  /** A GoCache instance: the store it wraps and its fixed prefix. */
  class GoCache {
    const gc: GoStore
    const prefix: string

    /** NewGoCache: the prefix is the first optional argument, or "" without one. */
    constructor (gc: GoStore, prefix: seq<string>)
      ensures this.gc == gc && this.prefix == PrefixArg(prefix)
    {
      this.gc := gc;
      this.prefix := PrefixArg(prefix);
    }

    method Has(key: string) returns (b: bool)
      ensures b <==> ResolveKey(prefix, key) in gc.items
    {
      var _, found := gc.Get(ResolveKey(prefix, key));
      return found;
    }

    method Get(key: string, target: Any) returns (v: Value, found: bool)
      requires GetSafe(prefix, gc.items, key, target)
      modifies Pointee(target)
      ensures (v.d, found) == Lookup(prefix, gc.items, key)
      ensures var w := GetWrite(v.d, old(Indirect(v.d)), target);
        target.Ptr? ==> target.cell.val == if w.Some? then w.value else old(target.cell.val)
    {
      var data;
      data, found := gc.Get(ResolveKey(prefix, key));
      if target != NilAny && data != NilAny {
        var _ := Unmarshal(data, target);
      }
      return Value(data), found;
    }

    method Put(key: string, data: Any, d: int) returns (err: Option<string>)
      modifies gc
      ensures err == None
      ensures gc.items == Stored(prefix, old(gc.items), key, data, d)
    {
      gc.Set(ResolveKey(prefix, key), data, d);
      return None;
    }

    method Forever(key: string, data: Any) returns (err: Option<string>)
      modifies gc
      ensures err == None
      ensures gc.items == Stored(prefix, old(gc.items), key, data, NoExpiration)
    {
      gc.Set(ResolveKey(prefix, key), data, NoExpiration);
      return None;
    }

    method Remove(key: string) returns (b: bool)
      modifies gc
      ensures Outcome(gc.items, b) == Removed(prefix, old(gc.items), key)
    {
      gc.Delete(ResolveKey(prefix, key));
      var present := Has(ResolveKey(prefix, key));
      return !present;
    }

    method Increment(key: string) returns (b: bool)
      modifies gc
      ensures Outcome(gc.items, b) == Incremented(prefix, old(gc.items), key)
    {
      var err := gc.Increment(ResolveKey(prefix, key), 1);
      return err != None;
    }

    method Decrement(key: string) returns (b: bool)
      modifies gc
      ensures Outcome(gc.items, b) == Decremented(prefix, old(gc.items), key)
    {
      var err := gc.Decrement(ResolveKey(prefix, key), 1);
      return err != None;
    }

    method Add(key: string, data: Any, d: int) returns (b: bool)
      modifies gc
      ensures Outcome(gc.items, b) == Added(prefix, old(gc.items), key, data, d)
    {
      var err := gc.Add(ResolveKey(prefix, key), data, d);
      return err != None;
    }
  }

  // ---- Properties of the operations ----

  /** What Put stores, Get finds. */
  lemma PutThenLookup(prefix: string, items: Items, key: string, data: Any, d: int)
    ensures Lookup(prefix, Stored(prefix, items, key, data, d), key) == (data, true)
  {
  }

  /** Two GoCaches with different prefixes over one store do not see each other's writes. */
  lemma PrefixIsolation(p1: string, p2: string, items: Items, key: string, data: Any, d: int)
    requires p1 != p2
    ensures Lookup(p2, Stored(p1, items, key, data, d), key) == Lookup(p2, items, key)
  {
    PrefixesSeparate(p1, p2, key);
  }

  /** With the empty prefix Remove reports success, and a second Remove changes nothing. */
  lemma RemoveUnprefixedIdempotent(items: Items, key: string)
    ensures Removed("", items, key).result
    ensures var once := Removed("", items, key).items;
      Removed("", once, key) == Removed("", items, key)
  {
  }

  /** With a non-empty prefix, Remove reports failure whenever the twice-prefixed key is present. */
  lemma RemoveChecksTwicePrefixedKey(prefix: string, items: Items, key: string)
    requires prefix != ""
    requires ResolveKey(prefix, ResolveKey(prefix, key)) in items
    ensures !Removed(prefix, items, key).result
    ensures ResolveKey(prefix, key) !in Removed(prefix, items, key).items
  {
  }

  /** A successful increment of an integer below its kind's maximum adds exactly one. */
  lemma IncrementAddsOne(prefix: string, items: Items, key: string, k: IntKind, n: int)
    requires ResolveKey(prefix, key) in items
    requires items[ResolveKey(prefix, key)].datum == V(Integer(k, n))
    requires InRange(k, n) && n < MaxOf(k)
    ensures !Incremented(prefix, items, key).result
    ensures Lookup(prefix, Incremented(prefix, items, key).items, key).0 == V(Integer(k, n + 1))
  {
  }

  /** Incrementing a kind's maximum wraps around to its minimum, as Go's arithmetic does. */
  lemma IncrementWrapsAtMax(prefix: string, items: Items, key: string, k: IntKind)
    requires ResolveKey(prefix, key) in items
    requires items[ResolveKey(prefix, key)].datum == V(Integer(k, MaxOf(k)))
    ensures Lookup(prefix, Incremented(prefix, items, key).items, key).0 == V(Integer(k, MinOf(k)))
  {
    assert Wrap(k, MaxOf(k) + 1) == MinOf(k) + Modulus(k) % Modulus(k);
  }

  /** A successful decrement of an integer above its kind's minimum subtracts exactly one. */
  lemma DecrementSubtractsOne(prefix: string, items: Items, key: string, k: IntKind, n: int)
    requires ResolveKey(prefix, key) in items
    requires items[ResolveKey(prefix, key)].datum == V(Integer(k, n))
    requires InRange(k, n) && n > MinOf(k)
    ensures !Decremented(prefix, items, key).result
    ensures Lookup(prefix, Decremented(prefix, items, key).items, key).0 == V(Integer(k, n - 1))
  {
  }

  /** Decrementing a kind's minimum wraps around to its maximum, as Go's arithmetic does. */
  lemma DecrementWrapsAtMin(prefix: string, items: Items, key: string, k: IntKind)
    requires ResolveKey(prefix, key) in items
    requires items[ResolveKey(prefix, key)].datum == V(Integer(k, MinOf(k)))
    ensures Lookup(prefix, Decremented(prefix, items, key).items, key).0 == V(Integer(k, MaxOf(k)))
  {
    assert Wrap(k, MinOf(k) - 1) == MinOf(k) + (Modulus(k) - 1) % Modulus(k);
  }

  /** A float is stepped exactly: Increment adds 1.0 and Decrement subtracts 1.0. */
  lemma StepFloat(prefix: string, items: Items, key: string, f: real)
    requires ResolveKey(prefix, key) in items
    requires items[ResolveKey(prefix, key)].datum == V(Float(f))
    ensures Lookup(prefix, Incremented(prefix, items, key).items, key).0 == V(Float(f + 1.0))
    ensures Lookup(prefix, Decremented(prefix, items, key).items, key).0 == V(Float(f - 1.0))
  {
  }

  /** On an absent key, Increment returns true and creates nothing. */
  lemma IncrementAbsent(prefix: string, items: Items, key: string)
    requires ResolveKey(prefix, key) !in items
    ensures Incremented(prefix, items, key) == Outcome(items, true)
  {
  }

  /**
   * A `*interface{}` datum holding 0 is not zero: Get copies it into a `*interface{}`
   * target, and the only targets it may go to without a panic are `*interface{}` ones.
   */
  lemma InterfacePointerHoldingZero(src: Cell, dst: Cell)
    requires src.elem == InterfaceType && src.val == Integer(Int, 0)
    ensures IsZero(src.val)
    ensures GetWrite(Ptr(src), src.val, Ptr(dst)) == Some(Integer(Int, 0))
    ensures UnmarshalSafe(Ptr(src), Ptr(dst)) <==> dst.elem == InterfaceType
  {
  }

  /** Add then Add: the first reports false and stores, the second reports true and keeps the first datum. */
  lemma AddTwice(prefix: string, items: Items, key: string, x: Any, y: Any, d: int)
    requires ResolveKey(prefix, key) !in items
    ensures var first := Added(prefix, items, key, x, d);
      && !first.result
      && Added(prefix, first.items, key, y, d) == Outcome(first.items, true)
      && Lookup(prefix, first.items, key) == (x, true)
  {
  }
}
