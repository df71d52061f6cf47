/**
 * The cache facade: the process-wide driver registry and key prefix (Package), and the
 * Manager that switches between registered drivers and forwards every operation to the
 * active one under the prefixed key, substituting CacheAble representations on Put and Get.
 */
module Cache {
  import opened Wrappers
  import opened Values
  import GoCacheBackend
  import RedisBackend

  /** A registered constructor (DriverRegister); calling it builds a new backend over `store`/`server`. */
  datatype DriverRegister =
    | GoCacheDriver(store: GoCacheBackend.GoStore, prefix: seq<string>)
    | RedisCacheDriver(server: RedisBackend.RedisServer, capable: bool)

  /** The Repository interface, closed over the two backends; NoDriver is the nil interface. */
  datatype Repository = NoDriver | GoRepo(go: GoCacheBackend.GoCache) | RedisRepo(redis: RedisBackend.RedisCache) {
    /** The backend object. */
    function Instance(): set<object> {
      match this
      case NoDriver => {}
      case GoRepo(g) => {g}
      case RedisRepo(r) => {r}
    }

    /** The store object the backend reads and writes. */
    function Store(): set<object> {
      match this
      case NoDriver => {}
      case GoRepo(g) => {g.gc}
      case RedisRepo(r) => {r.server}
    }
  }

  /** `repo` is what calling `register` builds. */
  predicate Builds(register: DriverRegister, repo: Repository) {
    match register
    case GoCacheDriver(store, prefix) =>
      repo.GoRepo? && repo.go.gc == store && repo.go.prefix == GoCacheBackend.PrefixArg(prefix)
    case RedisCacheDriver(server, capable) =>
      repo.RedisRepo? && repo.redis.server == server && repo.redis.capable == capable
  }

  /**
   * The errors a Manager passes back: Use's unregistered name, and the one error a Redis
   * Put can report, a client without the RedisClient commands.
   */
  datatype Error =
    | DriverNotRegistered(name: string)
    | NoRedisClient
  {
    function Message(): (msg: string)
      ensures DriverNotRegistered? ==> |msg| == |name| + 30 && msg[15..15 + |name|] == name
      ensures NoRedisClient? ==> msg == "can not convert codec.Redis to RedisClient"
    {
      match this
      case DriverNotRegistered(name) => "cache: driver [" + name + "] not registerd"
      case NoRedisClient => "can not convert codec.Redis to RedisClient"
    }
  }

  /** A Redis write's error as the Manager reports it; Redis Puts only fail for want of the client. */
  function LiftRedis(err: Option<RedisBackend.RedisError>): (r: Option<Error>)
    ensures r.None? <==> err.None?
    ensures r.Some? ==> r.value == NoRedisClient
  {
    if err.None? then None else Some(NoRedisClient)
  }

  /** RealKey: the key a Manager hands to its driver. */
  function RealKey(keyPrefix: string, k: string): (r: string)
    ensures |r| == |keyPrefix| + |k|
    ensures r[..|keyPrefix|] == keyPrefix && r[|keyPrefix|..] == k
  {
    keyPrefix + k
  }

  /** Prefixing keeps distinct caller keys distinct. */
  lemma RealKeyInjective(keyPrefix: string, k1: string, k2: string)
    requires k1 != k2
    ensures RealKey(keyPrefix, k1) != RealKey(keyPrefix, k2)
  {
  }

  /** getDriverRegister. */
  function GetDriverRegister(registers: map<string, DriverRegister>, name: string): (r: Option<DriverRegister>)
    ensures r.Some? <==> name in registers
    ensures r.Some? ==> r.value == registers[name]
  {
    if name in registers then Some(registers[name]) else None
  }

  /** After a registration the name yields its constructor; a later one overwrites it; other names keep theirs. */
  lemma RegisterThenLookup(registers: map<string, DriverRegister>, name: string, r1: DriverRegister, r2: DriverRegister, other: string)
    requires other != name
    ensures GetDriverRegister(registers[name := r1], name) == Some(r1)
    ensures GetDriverRegister(registers[name := r1][name := r2], name) == Some(r2)
    ensures GetDriverRegister(registers[name := r1], other) == GetDriverRegister(registers, other)
  {
  }

  /** CacheAble substitution on Put: a CacheAble value is replaced by what MarshalToCache returns. */
  function Substitute(data: Any): Any {
    if data.Custom? then data.hook.marshalled else data
  }

  // ---- The Repository operations, dispatched over the closed set of backends ----

  /** What the active driver's store holds, as a value, with the driver's own settings. */
  datatype Contents =
    | GoItems(prefix: string, items: GoCacheBackend.Items)
    | RedisData(capable: bool, data: RedisBackend.Store)

  function ContentsOf(repo: Repository): Contents
    requires !repo.NoDriver?
    reads repo.Store()
  {
    match repo
    case NoDriver => GoItems("", map[])
    case GoRepo(g) => GoItems(g.prefix, g.gc.items)
    case RedisRepo(r) => RedisData(r.capable, r.server.data)
  }

  function HasIn(c: Contents, k: string): bool {
    match c
    case GoItems(prefix, items) => GoCacheBackend.Lookup(prefix, items, k).1
    case RedisData(_, data) => k in data
  }

  /** The Value and flag the driver's Get returns; neither depends on what any pointer holds. */
  function GetResult(c: Contents, k: string, target: Any): (Value, bool) {
    match c
    case GoItems(prefix, items) =>
      var (datum, found) := GoCacheBackend.Lookup(prefix, items, k);
      (Value(datum), found)
    case RedisData(capable, data) =>
      var f := RedisBackend.Fetched(capable, data, k, target);
      (f.value, f.ok)
  }

  /** The driver's Get results for each decoder target a CacheAble hook passes, in order. */
  function Outcomes(c: Contents, k: string, args: seq<Any>): (r: seq<(Value, bool)>)
    ensures |r| == |args|
  {
    if args == [] then [] else Outcomes(c, k, args[..|args| - 1]) + [GetResult(c, k, args[|args| - 1])]
  }

  /** The flags of a sequence of Get results, which a hook's decoder returns. */
  function Flags(outs: seq<(Value, bool)>): (r: seq<bool>)
    ensures |r| == |outs|
  {
    if outs == [] then [] else Flags(outs[..|outs| - 1]) + [outs[|outs| - 1].1]
  }

  /** The Value of the last of a sequence of Get results, or the empty Value. */
  function LastValue(outs: seq<(Value, bool)>): Value {
    if |outs| == 0 then EmptyValue else outs[|outs| - 1].0
  }

  /** A hooked Get returns the Value of the last decoder call (empty if none) and the hook's own verdict. */
  function HookResult(verdict: Verdict, outs: seq<(Value, bool)>): (Value, bool) {
    (LastValue(outs), verdict.Apply(Flags(outs)))
  }

  /** The stored datum the driver's Get copies from: GoCache's item at `k`; Redis has none. */
  function StoredDatum(c: Contents, k: string): Any {
    match c
    case GoItems(prefix, items) => GoCacheBackend.Lookup(prefix, items, k).0
    case RedisData(_, _) => NilAny
  }

  /** What the driver's Get writes into `target`'s pointee, given the stored datum's pointee. */
  function WriteOf(c: Contents, k: string, target: Any, pointee: Val): Option<Val> {
    match c
    case GoItems(prefix, items) => GoCacheBackend.GetWrite(StoredDatum(c, k), pointee, target)
    case RedisData(capable, data) => RedisBackend.Fetched(capable, data, k, target).write
  }

  /** A pointee after a possible write. */
  function Written(w: Option<Val>, before: Val): Val {
    if w.Some? then w.value else before
  }

  /** The driver's Get does not panic on this target. */
  predicate GetAllowed(repo: Repository, k: string, target: Any)
    requires !repo.NoDriver?
    reads repo.Store()
    reads if repo.GoRepo? then
        var datum := GoCacheBackend.Lookup(repo.go.prefix, repo.go.gc.items, k).0;
        Pointee(datum)
      else {}
  {
    repo.GoRepo? ==> GoCacheBackend.GetSafe(repo.go.prefix, repo.go.gc.items, k, target)
  }

  /**
   * A hook's decoder targets are safe for the driver's Get on types alone, since earlier
   * decoder calls may write through pointers that later ones read.
   */
  predicate DecodeArgsAllowed(c: Contents, k: string, args: seq<Any>) {
    c.GoItems? ==> forall i :: 0 <= i < |args| ==> GoCacheBackend.GetTypeSafe(c.prefix, c.items, k, args[i])
  }

  /**
   * No two of the first `n` decoder targets share a cell, and none is the stored datum's
   * cell, so that no decoder call sees or undoes another's write.
   */
  predicate Separate(args: seq<Any>, n: nat, datum: Any)
    requires n <= |args|
  {
    && (forall i, j :: 0 <= i < j < n && args[i].Ptr? && args[j].Ptr? ==> args[i].cell != args[j].cell)
    && (forall i :: 0 <= i < n && args[i].Ptr? && datum.Ptr? ==> args[i].cell != datum.cell)
  }

  /**
   * The interface call `repo.Get(k, target)` on a store holding `c`, where `p` is what the
   * stored datum points to.
   */
  method RepoGet(repo: Repository, k: string, target: Any, ghost c: Contents, ghost p: Val) returns (v: Value, ok: bool)
    requires !repo.NoDriver? && c == ContentsOf(repo) && p == Indirect(StoredDatum(c, k))
    requires GetAllowed(repo, k, target)
    modifies repo.Store(), Pointee(target)
    ensures unchanged(repo.Store())
    ensures (v, ok) == GetResult(c, k, target)
    ensures target.Ptr? ==> target.cell.val == Written(WriteOf(c, k, target, p), old(target.cell.val))
  {
    match repo
    case GoRepo(g) => v, ok := g.Get(k, target);
    case RedisRepo(r) => v, ok := r.Get(k, target);
  }

  /** What the targets among `args` point to, Nil for the others. */
  function Pointees(args: seq<Any>): (r: seq<Val>)
    reads Cells(args)
    ensures |r| == |args|
    ensures forall i :: 0 <= i < |args| && args[i].Ptr? ==> r[i] == args[i].cell.val
  {
    seq(|args|, i reads Cells(args) requires 0 <= i < |args| => if args[i].Ptr? then args[i].cell.val else Nil)
  }

  /** UnmarshalFromCache with a decoder that forwards each target to the driver's Get. */
  method RunHook(repo: Repository, k: string, h: Hook) returns (v: Value, ok: bool)
    requires !repo.NoDriver?
    requires DecodeArgsAllowed(ContentsOf(repo), k, h.decodeArgs)
    modifies repo.Store(), Targets(Custom(h))
    ensures unchanged(repo.Store())
    ensures (v, ok) == HookResult(h.verdict, Outcomes(ContentsOf(repo), k, h.decodeArgs))
    ensures var c := ContentsOf(repo); var datum := StoredDatum(c, k);
      Separate(h.decodeArgs, |h.decodeArgs|, datum) ==>
        forall i :: 0 <= i < |h.decodeArgs| && h.decodeArgs[i].Ptr? ==>
          h.decodeArgs[i].cell.val == Written(WriteOf(c, k, h.decodeArgs[i], old(Indirect(datum))), old(h.decodeArgs[i].cell.val))
  {
    var results;
    ghost var c := ContentsOf(repo);
    ghost var datum := StoredDatum(c, k);
    ghost var before := Pointees(h.decodeArgs);
    v, results := Decode(repo, k, h.decodeArgs, |h.decodeArgs|, c, datum, Indirect(datum), before);
    assert h.decodeArgs[..|h.decodeArgs|] == h.decodeArgs;
    ok := h.verdict.Apply(results);
  }

  /**
   * The first `n` decoder calls on `args`, in order, over a store holding `c`, where `p` is
   * what the stored datum points to and `before` what the targets point to.
   */
  method Decode(repo: Repository, k: string, args: seq<Any>, n: nat, ghost c: Contents, ghost datum: Any,
                ghost p: Val, ghost before: seq<Val>) returns (v: Value, results: seq<bool>)
    requires n <= |args| == |before|
    requires !repo.NoDriver? && c == ContentsOf(repo) && datum == StoredDatum(c, k)
    requires DecodeArgsAllowed(c, k, args)
    requires Indirect(datum) == p
    requires forall i :: 0 <= i < n && args[i].Ptr? ==> args[i].cell.val == before[i]
    modifies repo.Store(), Cells(args[..n])
    decreases n
    ensures unchanged(repo.Store())
    ensures results == Flags(Outcomes(c, k, args[..n]))
    ensures v == LastValue(Outcomes(c, k, args[..n]))
    ensures Separate(args, n, datum) ==>
      && Indirect(datum) == p
      && forall i :: 0 <= i < n && args[i].Ptr? ==> args[i].cell.val == Written(WriteOf(c, k, args[i], p), before[i])
  {
    if n == 0 {
      return EmptyValue, [];
    }
    var m := n - 1;
    SeparateLast(args, m, datum);
    CellsLast(args, m);
    var _, rs := Decode(repo, k, args, m, c, datum, p, before);
    var okk;
    v, okk := RepoGet(repo, k, args[m], c, Indirect(datum));
    DecodeStep(c, k, args, m);
    results := rs + [okk];
  }

  /** The cells of the first `m` targets, and the next one's, are among those of the first `m + 1`. */
  lemma CellsLast(args: seq<Any>, m: nat)
    requires m < |args|
    ensures Cells(args[..m]) <= Cells(args[..m + 1])
    ensures Pointee(args[m]) <= Cells(args[..m + 1])
  {
    forall o | o in Cells(args[..m])
      ensures o in Cells(args[..m + 1])
    {
      var i :| 0 <= i < m && args[..m][i].Ptr? && args[..m][i].cell == o;
      assert args[..m + 1][i] == args[..m][i];
    }
    if args[m].Ptr? {
      assert args[..m + 1][m] == args[m];
    }
  }

  /** Separation of the first `m + 1` targets: of the first `m`, and of the next one from them and the datum. */
  lemma SeparateLast(args: seq<Any>, m: nat, datum: Any)
    requires m < |args|
    ensures Separate(args, m + 1, datum) ==>
      && Separate(args, m, datum)
      && (args[m].Ptr? ==> args[m].cell !in Cells(args[..m]) && (datum.Ptr? ==> args[m].cell != datum.cell))
      && (datum.Ptr? ==> datum.cell !in Cells(args[..m]))
      && (forall i :: 0 <= i < m && args[i].Ptr? && args[m].Ptr? ==> args[i].cell != args[m].cell)
  {
  }

  /** One more decoder call appends its flag and makes its Value the last one. */
  lemma DecodeStep(c: Contents, k: string, args: seq<Any>, i: nat)
    requires i < |args|
    ensures Flags(Outcomes(c, k, args[..i + 1])) == Flags(Outcomes(c, k, args[..i])) + [GetResult(c, k, args[i]).1]
    ensures LastValue(Outcomes(c, k, args[..i + 1])) == GetResult(c, k, args[i]).0
  {
    OutcomesSnoc(c, k, args, i);
    FlagsSnoc(Outcomes(c, k, args[..i]), GetResult(c, k, args[i]));
  }

  /** Appending a decoder target appends its Get result. */
  lemma OutcomesSnoc(c: Contents, k: string, args: seq<Any>, i: nat)
    requires i < |args|
    ensures Outcomes(c, k, args[..i + 1]) == Outcomes(c, k, args[..i]) + [GetResult(c, k, args[i])]
  {
    assert args[..i + 1][..i] == args[..i];
  }

  /** Appending a Get result appends its flag. */
  lemma FlagsSnoc(outs: seq<(Value, bool)>, x: (Value, bool))
    ensures Flags(outs + [x]) == Flags(outs) + [x.1]
  {
    assert (outs + [x])[..|outs|] == outs;
  }

  /** The process-wide state of the package: the key prefix and the registered drivers. */
  class Package {
    var KeyPrefix: string
    var DriverRegisters: map<string, DriverRegister>
    /** How many times a registered constructor has been called. */
    ghost var calls: nat

    constructor ()
      ensures KeyPrefix == "" && DriverRegisters == map[] && calls == 0
    {
      KeyPrefix := "";
      DriverRegisters := map[];
      calls := 0;
    }

    /** RegisterDriver: insert, or overwrite the constructor registered under the same name. */
    method RegisterDriver(name: string, register: DriverRegister)
      modifies this`DriverRegisters
      ensures DriverRegisters == old(DriverRegisters)[name := register]
    {
      DriverRegisters := DriverRegisters[name := register];
    }

    /** Calls a constructor: each call builds a new backend instance. */
    method Invoke(register: DriverRegister) returns (repo: Repository)
      modifies this`calls
      ensures calls == old(calls) + 1
      ensures Builds(register, repo) && fresh(repo.Instance())
    {
      calls := calls + 1;
      match register
      case GoCacheDriver(store, prefix) =>
        var g := new GoCacheBackend.GoCache(store, prefix);
        repo := GoRepo(g);
      case RedisCacheDriver(server, capable) =>
        var r := new RedisBackend.RedisCache(server, capable);
        repo := RedisRepo(r);
    }
  }

  class Manager {
    const pkg: Package
    var driver: Repository
    var driverName: string

    ghost predicate Valid()
      reads this
    {
      driver.NoDriver? ==> driverName == ""
    }

    /** NewManager: a fresh Manager, then Use of the first optional name with its error discarded. */
    constructor (pkg: Package, defaultDriver: seq<string>)
      modifies pkg`calls
      ensures Valid() && this.pkg == pkg
      ensures |defaultDriver| == 0 ==> driver == NoDriver && driverName == "" && pkg.calls == old(pkg.calls)
      ensures |defaultDriver| > 0 ==>
        var name := defaultDriver[0];
        if name in pkg.DriverRegisters && name != "" then
          && driverName == name && pkg.calls == old(pkg.calls) + 1
          && Builds(pkg.DriverRegisters[name], driver) && fresh(driver.Instance())
        else
          driver == NoDriver && driverName == "" && pkg.calls == old(pkg.calls)
    {
      this.pkg := pkg;
      driver := NoDriver;
      driverName := "";
      new;
      if |defaultDriver| > 0 {
        var _ := Use(defaultDriver[0]);
      }
    }

    /** Use: switch to a registered driver, calling its constructor only when the name changes. */
    method Use(name: string) returns (err: Option<Error>)
      requires Valid()
      modifies this`driver, this`driverName, pkg`calls
      ensures Valid()
      ensures name !in pkg.DriverRegisters ==>
        && err == Some(DriverNotRegistered(name))
        && driver == old(driver) && driverName == old(driverName) && pkg.calls == old(pkg.calls)
      ensures name in pkg.DriverRegisters && name == old(driverName) ==>
        && err == None
        && driver == old(driver) && driverName == old(driverName) && pkg.calls == old(pkg.calls)
      ensures name in pkg.DriverRegisters && name != old(driverName) ==>
        && err == None
        && driverName == name && pkg.calls == old(pkg.calls) + 1
        && Builds(pkg.DriverRegisters[name], driver) && fresh(driver.Instance())
    {
      match GetDriverRegister(pkg.DriverRegisters, name)
      case Some(register) =>
        if name != driverName {
          driver := pkg.Invoke(register);
          driverName := name;
        }
        return None;
      case None =>
        return Some(DriverNotRegistered(name));
    }

    method Has(key: string) returns (b: bool)
      requires !driver.NoDriver?
      ensures b == HasIn(ContentsOf(driver), RealKey(pkg.KeyPrefix, key))
    {
      var k := RealKey(pkg.KeyPrefix, key);
      match driver
      case GoRepo(g) => b := g.Has(k);
      case RedisRepo(r) => b := r.Has(k);
    }

    /**
     * Get: a CacheAble target's hook drives the decoding, calling the driver's Get on
     * each of its decoder targets; any other target goes to the driver directly.
     */
    method Get(key: string, target: Any) returns (v: Value, ok: bool)
      requires !driver.NoDriver?
      requires !target.Custom? ==> GetAllowed(driver, RealKey(pkg.KeyPrefix, key), target)
      requires target.Custom? ==> DecodeArgsAllowed(ContentsOf(driver), RealKey(pkg.KeyPrefix, key), target.hook.decodeArgs)
      modifies driver.Store(), Targets(target)
      ensures unchanged(driver.Store())
      ensures !target.Custom? ==> (v, ok) == GetResult(ContentsOf(driver), RealKey(pkg.KeyPrefix, key), target)
      ensures target.Custom? ==>
        (v, ok) == HookResult(target.hook.verdict, Outcomes(ContentsOf(driver), RealKey(pkg.KeyPrefix, key), target.hook.decodeArgs))
      ensures var c := ContentsOf(driver); var k := RealKey(pkg.KeyPrefix, key); var datum := StoredDatum(c, k);
        target.Ptr? ==>
          target.cell.val == Written(WriteOf(c, k, target, old(Indirect(datum))), old(target.cell.val))
      ensures var c := ContentsOf(driver); var k := RealKey(pkg.KeyPrefix, key); var datum := StoredDatum(c, k);
        target.Custom? && Separate(target.hook.decodeArgs, |target.hook.decodeArgs|, datum) ==>
          forall i :: 0 <= i < |target.hook.decodeArgs| && target.hook.decodeArgs[i].Ptr? ==>
            var arg := target.hook.decodeArgs[i];
            arg.cell.val == Written(WriteOf(c, k, arg, old(Indirect(datum))), old(arg.cell.val))
    {
      var k := RealKey(pkg.KeyPrefix, key);
      if target.Custom? {
        v, ok := RunHook(driver, k, target.hook);
      } else {
        v, ok := RepoGet(driver, k, target, ContentsOf(driver), Indirect(StoredDatum(ContentsOf(driver), k)));
      }
    }

    /** Put: a CacheAble value is stored as what its MarshalToCache returns. */
    method Put(key: string, data: Any, d: int) returns (err: Option<Error>)
      requires !driver.NoDriver?
      modifies driver.Store()
      ensures var k := RealKey(pkg.KeyPrefix, key); var sent := Substitute(data);
        match driver
        case NoDriver => true
        case GoRepo(g) =>
          err == None && g.gc.items == GoCacheBackend.Stored(g.prefix, old(g.gc.items), k, sent, d)
        case RedisRepo(r) =>
          var w := RedisBackend.Stored(r.capable, old(r.server.data), k, sent, Indirect(sent), d);
          r.server.data == w.store && err == LiftRedis(w.err)
    {
      var k := RealKey(pkg.KeyPrefix, key);
      var sent := if data.Custom? then data.hook.marshalled else data;
      match driver
      case GoRepo(g) =>
        var _ := g.Put(k, sent, d);
        err := None;
      case RedisRepo(r) =>
        var e := r.Put(k, sent, d);
        err := LiftRedis(e);
    }

    /** Forever: forwarded as it is, without CacheAble substitution. */
    method Forever(key: string, data: Any) returns (err: Option<Error>)
      requires !driver.NoDriver?
      modifies driver.Store()
      ensures var k := RealKey(pkg.KeyPrefix, key);
        match driver
        case NoDriver => true
        case GoRepo(g) =>
          err == None && g.gc.items == GoCacheBackend.Stored(g.prefix, old(g.gc.items), k, data, GoCacheBackend.NoExpiration)
        case RedisRepo(r) =>
          var w := RedisBackend.Stored(r.capable, old(r.server.data), k, data, Indirect(data), -1);
          r.server.data == w.store && err == LiftRedis(w.err)
    {
      var k := RealKey(pkg.KeyPrefix, key);
      match driver
      case GoRepo(g) =>
        var _ := g.Forever(k, data);
        err := None;
      case RedisRepo(r) =>
        var e := r.Forever(k, data);
        err := LiftRedis(e);
    }

    method Remove(key: string) returns (b: bool)
      requires !driver.NoDriver?
      modifies driver.Store()
      ensures var k := RealKey(pkg.KeyPrefix, key);
        match driver
        case NoDriver => true
        case GoRepo(g) =>
          GoCacheBackend.Outcome(g.gc.items, b) == GoCacheBackend.Removed(g.prefix, old(g.gc.items), k)
        case RedisRepo(r) =>
          r.server.data == old(r.server.data) - {k} && b
    {
      var k := RealKey(pkg.KeyPrefix, key);
      match driver
      case GoRepo(g) => b := g.Remove(k);
      case RedisRepo(r) => b := r.Remove(k);
    }

    method Increment(key: string) returns (b: bool)
      requires !driver.NoDriver?
      modifies driver.Store()
      ensures var k := RealKey(pkg.KeyPrefix, key);
        match driver
        case NoDriver => true
        case GoRepo(g) =>
          GoCacheBackend.Outcome(g.gc.items, b) == GoCacheBackend.Incremented(g.prefix, old(g.gc.items), k)
        case RedisRepo(r) =>
          RedisBackend.Outcome(r.server.data, b) == RedisBackend.Incremented(r.capable, old(r.server.data), k)
    {
      var k := RealKey(pkg.KeyPrefix, key);
      match driver
      case GoRepo(g) => b := g.Increment(k);
      case RedisRepo(r) => b := r.Increment(k);
    }

    method Decrement(key: string) returns (b: bool)
      requires !driver.NoDriver?
      modifies driver.Store()
      ensures var k := RealKey(pkg.KeyPrefix, key);
        match driver
        case NoDriver => true
        case GoRepo(g) =>
          GoCacheBackend.Outcome(g.gc.items, b) == GoCacheBackend.Decremented(g.prefix, old(g.gc.items), k)
        case RedisRepo(r) =>
          RedisBackend.Outcome(r.server.data, b) == RedisBackend.Decremented(r.capable, old(r.server.data), k)
    {
      var k := RealKey(pkg.KeyPrefix, key);
      match driver
      case GoRepo(g) => b := g.Decrement(k);
      case RedisRepo(r) => b := r.Decrement(k);
    }

    /** Add: forwarded as it is, without CacheAble substitution. */
    method Add(key: string, data: Any, d: int) returns (b: bool)
      requires !driver.NoDriver?
      modifies driver.Store()
      ensures var k := RealKey(pkg.KeyPrefix, key);
        match driver
        case NoDriver => true
        case GoRepo(g) =>
          GoCacheBackend.Outcome(g.gc.items, b) == GoCacheBackend.Added(g.prefix, old(g.gc.items), k, data, d)
        case RedisRepo(r) =>
          RedisBackend.Outcome(r.server.data, b) == RedisBackend.Added(r.capable, old(r.server.data), k, data, Indirect(data), d)
    {
      var k := RealKey(pkg.KeyPrefix, key);
      match driver
      case GoRepo(g) => b := g.Add(k, data, d);
      case RedisRepo(r) => b := r.Add(k, data, d);
    }
  }

  // ---- Properties relating several calls ----

  /** A hook that never calls its decoder makes Get return the empty Value. */
  lemma HookWithoutDecoding(c: Contents, k: string, verdict: Verdict)
    ensures HookResult(verdict, Outcomes(c, k, [])) == (EmptyValue, verdict.Apply([]))
  {
  }

  /** The i-th outcome is the driver's Get result for the i-th decoder target. */
  lemma {:induction false} OutcomesAt(c: Contents, k: string, args: seq<Any>, i: nat)
    requires i < |args|
    ensures Outcomes(c, k, args)[i] == GetResult(c, k, args[i])
    decreases |args|
  {
    if i < |args| - 1 {
      assert args[..|args| - 1][i] == args[i];
      OutcomesAt(c, k, args[..|args| - 1], i);
    }
  }

  /** The i-th flag is the i-th result's flag. */
  lemma {:induction false} FlagsAt(outs: seq<(Value, bool)>, i: nat)
    requires i < |outs|
    ensures Flags(outs)[i] == outs[i].1
    decreases |outs|
  {
    if i < |outs| - 1 {
      FlagsAt(outs[..|outs| - 1], i);
    }
  }

  /** A hooked Get returns the Value of the driver's Get on the hook's last decoder target. */
  lemma HookReturnsLastDecoded(c: Contents, k: string, h: Hook)
    requires |h.decodeArgs| > 0
    ensures HookResult(h.verdict, Outcomes(c, k, h.decodeArgs)).0 == GetResult(c, k, h.decodeArgs[|h.decodeArgs| - 1]).0
  {
    OutcomesAt(c, k, h.decodeArgs, |h.decodeArgs| - 1);
  }

  /** The hooked Get's flag is the hook's verdict on the driver's Get flags for its decoder targets. */
  lemma HookVerdict(c: Contents, k: string, h: Hook)
    ensures h.verdict.AllDecoded? ==>
      (HookResult(h.verdict, Outcomes(c, k, h.decodeArgs)).1 <==>
       forall i :: 0 <= i < |h.decodeArgs| ==> GetResult(c, k, h.decodeArgs[i]).1)
    ensures h.verdict.AnyDecoded? ==>
      (HookResult(h.verdict, Outcomes(c, k, h.decodeArgs)).1 <==>
       exists i :: 0 <= i < |h.decodeArgs| && GetResult(c, k, h.decodeArgs[i]).1)
    ensures h.verdict.Always? ==> HookResult(h.verdict, Outcomes(c, k, h.decodeArgs)).1 == h.verdict.b
  {
    var outs := Outcomes(c, k, h.decodeArgs);
    forall i | 0 <= i < |h.decodeArgs|
      ensures Flags(outs)[i] == GetResult(c, k, h.decodeArgs[i]).1
    {
      OutcomesAt(c, k, h.decodeArgs, i);
      FlagsAt(outs, i);
    }
  }

  /** Using one name twice calls its constructor once; the second Use changes nothing. */
  method UseTwice(m: Manager, name: string) returns (e1: Option<Error>, e2: Option<Error>)
    requires m.Valid() && name in m.pkg.DriverRegisters && name != m.driverName
    modifies m, m.pkg`calls
    ensures e1 == None && e2 == None
    ensures m.driverName == name && m.pkg.calls == old(m.pkg.calls) + 1
  {
    e1 := m.Use(name);
    ghost var built := m.driver;
    e2 := m.Use(name);
    assert m.driver == built;
  }

  /** An unregistered name leaves the active driver in place and names itself in the error. */
  method UseUnregistered(m: Manager, name: string) returns (e: Option<Error>)
    requires m.Valid() && name !in m.pkg.DriverRegisters
    modifies m, m.pkg`calls
    ensures e == Some(DriverNotRegistered(name))
    ensures e.value.Message()[15..15 + |name|] == name
    ensures m.driver == old(m.driver) && m.driverName == old(m.driverName)
  {
    e := m.Use(name);
  }

  /** On a Redis driver with the native client, an integer Put through the Manager is read back by a Get into an `*int`. */
  method PutThenGetRedis(m: Manager, key: string, n: int, c: Cell) returns (v: Value, ok: bool)
    requires m.driver.RedisRepo? && m.driver.redis.capable
    requires InRange(Int, n) && c.elem == IntType(Int)
    modifies m.driver.Store(), c
    ensures ok && v == Value(Ptr(c)) && c.val == Integer(Int, n)
  {
    var _ := m.Put(key, V(Integer(Int, n)), 0);
    v, ok := m.Get(key, Ptr(c));
  }

  /** On a GoCache driver, a non-zero integer Put through the Manager is copied by a Get into an `*int`. */
  method PutThenGetGo(m: Manager, key: string, n: int, c: Cell) returns (v: Value, ok: bool)
    requires m.driver.GoRepo?
    requires n != 0 && c.elem == IntType(Int)
    modifies m.driver.Store(), c
    ensures ok && v == Value(V(Integer(Int, n))) && c.val == Integer(Int, n)
  {
    var _ := m.Put(key, V(Integer(Int, n)), 0);
    v, ok := m.Get(key, Ptr(c));
  }
}
