/**
 * The remote backend: RedisCache over a Redis server. Integer values take the native
 * path (plain SET/GET/INCR/DECR through the client); every other value takes the codec
 * path (an encoder that stores a snapshot of the value). The server is a map from key
 * to entry, the entry recording which path wrote it.
 */
module RedisBackend {
  import opened Wrappers
  import opened Values

  /** A server entry: a decimal integer written natively, or a codec-encoded snapshot. */
  datatype Entry = Native(n: int, ttl: int) | Encoded(v: Val, ttl: int)

  type Store = map<string, Entry>

  /** The TTL of a key that INCR or DECR creates: none. */
  const NoTTL: int := 0

  datatype RedisError =
    | NoRedisClient   // the client lacks the RedisClient capability
    | RedisNil        // GET of an absent key
    | NotAnInteger    // INCR/DECR of a value that is not a 64-bit integer
    | Overflow        // INCR/DECR past the 64-bit range
    | ScanFailed      // the reply does not parse as the target's integer kind
    | CacheMiss       // codec Get of an absent key
    | DecodeFailed    // codec Get that cannot decode into the target

  /** The callbacks RedisCache hands to NativeCall. */
  datatype Command =
    | SetCmd(key: string, n: int, ttl: int)
    | GetCmd(key: string, kind: IntKind)
    | IncrCmd(key: string)
    | DecrCmd(key: string)

  datatype Reply = Done | Scanned(n: int)

  datatype Write = Write(store: Store, err: Option<RedisError>)

  datatype Outcome = Outcome(store: Store, result: bool)

  /** The result of a Get: the Value, the success flag, and what is written into the target. */
  datatype Fetch = Fetch(value: Value, ok: bool, write: Option<Val>)

  /** shouldNative: the value is of one of the ten integer types. */
  function ShouldNative(data: Any): (b: bool)
    ensures b <==> data.V? && TypeOf(data.v) in IntegerTypes
  {
    if data.V? then IntegerTypesExactly(TypeOf(data.v)); data.v.Integer? else false
  }

  /** shouldGetNative: the target is a pointer to one of the ten integer types. */
  function ShouldGetNative(target: Any): (b: bool)
    ensures b <==> target.Ptr? && target.cell.elem in IntegerTypes
  {
    match target
    case Ptr(c) => IntegerTypesExactly(c.elem); c.elem.IntType?
    case _ => false
  }

  /** INCR/DECR by `delta` on the server: absent keys start at 0, values must stay 64-bit. */
  function IncrBy(store: Store, key: string, delta: int): (r: (Store, Result<Reply, RedisError>))
  {
    if key !in store then
      (store[key := Native(delta, NoTTL)], Success(Done))
    else match store[key]
      case Encoded(_, _) => (store, Failure(NotAnInteger))
      case Native(n, ttl) =>
        if !InRange(Int64, n) then (store, Failure(NotAnInteger))
        else if !InRange(Int64, n + delta) then (store, Failure(Overflow))
        else (store[key := Native(n + delta, ttl)], Success(Done))
  }

  /** A native command run by a client that has the RedisClient capability. */
  function Execute(store: Store, cmd: Command): (r: (Store, Result<Reply, RedisError>))
  {
    match cmd
    case SetCmd(key, n, d) => (store[key := Native(n, d)], Success(Done))
    case GetCmd(key, kind) =>
      if key !in store then (store, Failure(RedisNil))
      else if store[key].Native? && InRange(kind, store[key].n) then (store, Success(Scanned(store[key].n)))
      else (store, Failure(ScanFailed))
    case IncrCmd(key) => IncrBy(store, key, 1)
    case DecrCmd(key) => IncrBy(store, key, -1)
  }

  /** NativeCall: without the capability the callback is never run and the server is untouched. */
  function Call(capable: bool, store: Store, cmd: Command): (r: (Store, Result<Reply, RedisError>))
    ensures !capable ==> r == (store, Failure(NoRedisClient))
    ensures r.1.Failure? ==> r.0 == store
  {
    if capable then Execute(store, cmd) else (store, Failure(NoRedisClient))
  }

  /** The codec's Get: what it writes into the target, or why it fails. */
  function CodecGet(store: Store, key: string, target: Any): Result<Option<Val>, RedisError> {
    if key !in store then Failure(CacheMiss)
    else if target == NilAny then Success(None)
    else match store[key]
      case Native(_, _) => Failure(DecodeFailed)
      case Encoded(v, _) =>
        if v == Nil then Success(None)
        else if target.Ptr? && AssignableTo(TypeOf(v), target.cell.elem) then Success(Some(v))
        else Failure(DecodeFailed)
  }

  // ---- The RedisCache operations on the server's store ----

  /**
   * Put: integers go through NativeCall's SET, everything else is stored by the codec
   * as `snapshot` (the value, dereferenced when it is a pointer).
   */
  function Stored(capable: bool, store: Store, key: string, data: Any, snapshot: Val, d: int): (r: Write)
    ensures ShouldNative(data) ==> (r.err == None <==> capable)
    ensures ShouldNative(data) && capable ==> r.store == store[key := Native(data.v.n, d)]
    ensures !ShouldNative(data) ==> r.err == None && r.store == store[key := Encoded(snapshot, d)]
    ensures r.err != None ==> r.err == Some(NoRedisClient) && r.store == store
  {
    if ShouldNative(data) then
      var (next, res) := Call(capable, store, SetCmd(key, data.v.n, d));
      Write(next, if res.Success? then None else Some(res.error))
    else
      Write(store[key := Encoded(snapshot, d)], None)
  }

  /** Get: the native path scans an integer, the codec path decodes; neither changes the server. */
  function Fetched(capable: bool, store: Store, key: string, target: Any): (r: Fetch)
    ensures ShouldGetNative(target) ==> r.value == Value(target)
    ensures ShouldGetNative(target) ==>
      (r.ok <==> capable && key in store && store[key].Native? && InRange(target.cell.elem.kind, store[key].n))
    ensures ShouldGetNative(target) && r.ok ==> r.write == Some(Integer(target.cell.elem.kind, store[key].n))
    ensures !ShouldGetNative(target) && r.ok ==> r.value == Value(target) && key in store
    ensures !ShouldGetNative(target) && !r.ok ==> r.value == EmptyValue
    ensures !r.ok ==> r.write == None
    ensures r.write.Some? ==> target.Ptr?
  {
    if ShouldGetNative(target) then
      var kind := target.cell.elem.kind;
      var (_, res) := Call(capable, store, GetCmd(key, kind));
      match res
      case Success(reply) => Fetch(Value(target), true, Some(Integer(kind, reply.n)))
      case Failure(_) => Fetch(Value(target), false, None)
    else
      match CodecGet(store, key, target)
      case Success(w) => Fetch(Value(target), true, w)
      case Failure(_) => Fetch(EmptyValue, false, None)
  }

  /** Increment: Has, then a native INCR; true iff both succeeded. */
  function Incremented(capable: bool, store: Store, key: string): (r: Outcome)
    ensures r.result <==>
      capable && key in store && store[key].Native? && InRange(Int64, store[key].n) && InRange(Int64, store[key].n + 1)
    ensures r.result ==> r.store == store[key := Native(store[key].n + 1, store[key].ttl)]
    ensures !r.result ==> r.store == store
  {
    if key in store then
      var (next, res) := Call(capable, store, IncrCmd(key));
      Outcome(next, res.Success?)
    else
      Outcome(store, false)
  }

  /** Decrement: Has, then a native DECR; true iff both succeeded. */
  function Decremented(capable: bool, store: Store, key: string): (r: Outcome)
    ensures r.result <==>
      capable && key in store && store[key].Native? && InRange(Int64, store[key].n) && InRange(Int64, store[key].n - 1)
    ensures r.result ==> r.store == store[key := Native(store[key].n - 1, store[key].ttl)]
    ensures !r.result ==> r.store == store
  {
    if key in store then
      var (next, res) := Call(capable, store, DecrCmd(key));
      Outcome(next, res.Success?)
    else
      Outcome(store, false)
  }

  /** Add: a Put guarded by Has; true iff the key was absent and the Put reported no error. */
  function Added(capable: bool, store: Store, key: string, data: Any, snapshot: Val, d: int): (r: Outcome)
    ensures key in store ==> r == Outcome(store, false)
    ensures key !in store ==> (r.result <==> capable || !ShouldNative(data))
    ensures r.result ==> r.store == store[key := if ShouldNative(data) then Native(data.v.n, d) else Encoded(snapshot, d)]
    ensures !r.result ==> r.store == store
  {
    if key !in store then
      var w := Stored(capable, store, key, data, snapshot, d);
      Outcome(w.store, w.err == None)
    else
      Outcome(store, false)
  }

  /** The Redis server, an external collaborator shared by every client connected to it. */
  class RedisServer {
    var data: Store

    constructor ()
      ensures data == map[]
    {
      data := map[];
    }
  }

  /** A RedisCache: a connection to a server, and whether its client offers the native commands. */
  class RedisCache {
    const server: RedisServer
    const capable: bool

    /** NewRedisCache. */
    constructor (server: RedisServer, capable: bool)
      ensures this.server == server && this.capable == capable
    {
      this.server := server;
      this.capable := capable;
    }

    method NativeCall(cmd: Command) returns (res: Result<Reply, RedisError>)
      modifies server`data
      ensures (server.data, res) == Call(capable, old(server.data), cmd)
    {
      if !capable {
        return Failure(NoRedisClient);
      }
      var next;
      next, res := Execute(server.data, cmd).0, Execute(server.data, cmd).1;
      server.data := next;
    }

    /** Has asks the codec whether the key exists. */
    method Has(key: string) returns (b: bool)
      ensures b <==> key in server.data
    {
      b := CodecGet(server.data, key, NilAny).Success?;
    }

    method Get(key: string, target: Any) returns (v: Value, ok: bool)
      modifies server`data, Pointee(target)
      ensures unchanged(server)
      ensures var r := Fetched(capable, old(server.data), key, target);
        && v == r.value && ok == r.ok
        && (target.Ptr? ==> target.cell.val == if r.write.Some? then r.write.value else old(target.cell.val))
    {
      if ShouldGetNative(target) {
        var kind := target.cell.elem.kind;
        var res := NativeCall(GetCmd(key, kind));
        if res.Success? {
          target.cell.val := Integer(kind, res.value.n);
        }
        return Value(target), res.Success?;
      } else {
        match CodecGet(server.data, key, target)
        case Failure(_) =>
          return EmptyValue, false;
        case Success(w) =>
          if w.Some? {
            target.cell.val := w.value;
          }
          return Value(target), true;
      }
    }

    method Put(key: string, data: Any, d: int) returns (err: Option<RedisError>)
      modifies server`data
      ensures Write(server.data, err) == Stored(capable, old(server.data), key, data, Indirect(data), d)
    {
      if ShouldNative(data) {
        err := NativePut(key, data, d);
      } else {
        server.data := server.data[key := Encoded(Indirect(data), d)];
        err := None;
      }
    }

    method NativePut(key: string, data: Any, d: int) returns (err: Option<RedisError>)
      requires ShouldNative(data)
      modifies server`data
      ensures Write(server.data, err) == Stored(capable, old(server.data), key, data, Indirect(data), d)
    {
      var res := NativeCall(SetCmd(key, data.v.n, d));
      err := if res.Success? then None else Some(res.error);
    }

    /** Forever is Put with a TTL of -1. */
    method Forever(key: string, data: Any) returns (err: Option<RedisError>)
      modifies server`data
      ensures Write(server.data, err) == Stored(capable, old(server.data), key, data, Indirect(data), -1)
    {
      err := Put(key, data, -1);
    }

    /** Remove deletes through the codec, which reports no error for an absent key. */
    method Remove(key: string) returns (b: bool)
      modifies server`data
      ensures server.data == old(server.data) - {key}
      ensures b
    {
      server.data := server.data - {key};
      return true;
    }

    method Increment(key: string) returns (b: bool)
      modifies server`data
      ensures Outcome(server.data, b) == Incremented(capable, old(server.data), key)
    {
      var present := Has(key);
      if present {
        var res := NativeCall(IncrCmd(key));
        return res.Success?;
      }
      return false;
    }

    method Decrement(key: string) returns (b: bool)
      modifies server`data
      ensures Outcome(server.data, b) == Decremented(capable, old(server.data), key)
    {
      var present := Has(key);
      if present {
        var res := NativeCall(DecrCmd(key));
        return res.Success?;
      }
      return false;
    }

    method Add(key: string, data: Any, d: int) returns (b: bool)
      modifies server`data
      ensures Outcome(server.data, b) == Added(capable, old(server.data), key, data, Indirect(data), d)
    {
      var present := Has(key);
      if !present {
        var e := Put(key, data, d);
        if e != None {
          return false;
        }
        return true;
      }
      return false;
    }
  }

  // ---- Properties of the operations ----

  /** Has, which asks the codec for the key with a nil target, holds exactly for stored keys. */
  lemma ExistsIsMembership(store: Store, key: string)
    ensures CodecGet(store, key, NilAny).Success? <==> key in store
  {
  }

  /** An integer Put natively, read back through a pointer to its kind, is written into the target. */
  lemma PutThenGetNative(store: Store, key: string, k: IntKind, n: int, d: int, c: Cell)
    requires InRange(k, n) && c.elem == IntType(k)
    ensures var w := Stored(true, store, key, V(Integer(k, n)), Integer(k, n), d);
      && w.err == None
      && Fetched(true, w.store, key, Ptr(c)) == Fetch(Value(Ptr(c)), true, Some(Integer(k, n)))
  {
  }

  /** Put, Increment, Get: the integer read back is one more than the one stored. */
  lemma PutIncrementGet(store: Store, key: string, k: IntKind, n: int, d: int, c: Cell)
    requires InRange(k, n + 1) && InRange(Int64, n) && InRange(Int64, n + 1) && c.elem == IntType(k)
    ensures var put := Stored(true, store, key, V(Integer(k, n)), Integer(k, n), d);
      var inc := Incremented(true, put.store, key);
      && inc.result
      && Fetched(true, inc.store, key, Ptr(c)).write == Some(Integer(k, n + 1))
  {
  }

  /** A non-integer value Put through the codec decodes back into a pointer of its own type. */
  lemma PutThenGetCodec(capable: bool, store: Store, key: string, v: Val, d: int, c: Cell)
    requires v != Nil && !v.Integer? && c.elem == TypeOf(v)
    ensures var w := Stored(capable, store, key, V(v), v, d);
      && w.err == None
      && Fetched(capable, w.store, key, Ptr(c)) == Fetch(Value(Ptr(c)), true, Some(v))
  {
  }

  /** An integer written by the codec (through a pointer) is not readable on the native path. */
  lemma CodecIntegerNotNative(capable: bool, store: Store, key: string, c: Cell, d: int, t: Cell)
    requires c.elem.IntType? && t.elem.IntType?
    ensures var w := Stored(capable, store, key, Ptr(c), c.val, d);
      !Fetched(capable, w.store, key, Ptr(t)).ok
  {
  }

  /** Without the RedisClient capability, native Puts fail and counters never move. */
  lemma WithoutClient(store: Store, key: string, k: IntKind, n: int, d: int)
    ensures Stored(false, store, key, V(Integer(k, n)), Integer(k, n), d) == Write(store, Some(NoRedisClient))
    ensures Incremented(false, store, key) == Outcome(store, false)
    ensures Decremented(false, store, key) == Outcome(store, false)
  {
  }

  /** Add on a present key keeps the entry; on an absent key a later Add fails. */
  lemma AddTwice(capable: bool, store: Store, key: string, x: Any, sx: Val, y: Any, sy: Val, d: int)
    requires key !in store && !ShouldNative(x)
    ensures var first := Added(capable, store, key, x, sx, d);
      && first.result
      && Added(capable, first.store, key, y, sy, d) == Outcome(first.store, false)
      && first.store[key] == Encoded(sx, d)
  {
  }
}
