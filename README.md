# enorith/cache in Dafny

This project models a small Go cache facade and proves properties of the model. The facade has three parts:

- a process-wide registry of driver constructors;
- a `Manager` that switches between drivers and forwards every call to the active one under a globally prefixed key;
- two `Repository` backends:
  - `GoCache`, over an in-process go-cache store;
  - `RedisCache`, over a Redis server. It stores integers natively and everything else through an encoding codec.

Modules, in dependency order:

- `Wrappers`: `Option` and `Result`.
- `Values`: Go's `interface{}` as a closed union `Any`. It is one of:
  - a plain value `V(Val)`: nil, one of the ten fixed-width integer kinds, a string, a float, or a struct;
  - a pointer `Ptr(Cell)`, where `Cell` is a heap object whose `elem` is the pointee's static type;
  - a value whose type implements `CacheAble`: `Custom(Hook)`.

  `Values` also holds the read-only `Value` box that every Get returns. `Value.Data` returns the boxed datum.
- `GoCacheBackend`: `go_cache.go`.
  - The go-cache store is a class `GoStore` holding a map of items. Its primitives are small methods: `Set`, `Get`, `Delete`, `Increment`, `Decrement` and `Add`.
  - `GoCache` holds the store and the prefix.
- `RedisBackend`: `redis_cache.go`.
  - The server is a class `RedisServer` holding a map from key to `Entry`.
  - An entry is `Native(n)` when written by a plain SET, INCR or DECR, and `Encoded(v)` when written by the codec.
  - `RedisCache` holds the server and a flag. The flag says whether the client offers the native `RedisClient` commands.
- `Cache`: `cache.go`.
  - `Package` holds the globals `KeyPrefix` and `DriverRegisters`, plus a ghost count of constructor calls.
  - `Manager` holds `driver` and `driverName`.
  - The `Repository` interface is a closed datatype over the two backends, with `NoDriver` for the nil interface.
  - A `DriverRegister` closure is a datatype that names the store or server the constructor connects to. `Package.Invoke` stands for calling it: each call builds a fresh backend object.

Each backend operation has two parts:

- a pure function of the store's contents, e.g. `GoCacheBackend.Incremented` or `RedisBackend.Fetched`, whose contract states what the operation means;
- a method on the class, whose contract ties the new store and the result to that function.

The Manager's methods are tied to the same functions, applied at `RealKey(KeyPrefix, key)`.

Behaviours of the code that the model keeps:

- The Manager keeps no memo of built instances. `Use` calls the constructor each time the name changes, including on a switch back to an earlier driver (`cache.go:98-99`).
- Driver constructors cannot fail.
- `GoCache`'s `Increment`, `Decrement` and `Add` return `err != nil`: true when the go-cache call failed (`go_cache.go:48,54,60`).
- `RedisCache`'s `Increment` and `Decrement` return `err == nil`, and its `Add` returns true after a Put that reported no error: true on success (`redis_cache.go:102,121,132`).
- `GoCache.Remove`, `go_cache.go:40-43`, checks presence of the key prefixed twice.
- The native Redis `Get` returns the target in its `Value` even when it fails.
- A nil Get target never takes the native Redis path; it goes to the codec.

Assumptions about the external libraries:

- Go's `int` and `uint` are taken as 64 bits wide.
- go-cache's `Increment` on an integer wraps around in the value's own kind. On a float it adds exactly. It fails on an absent key or a non-numeric value.
- Redis INCR and DECR:
  - create an absent key at the step's value;
  - fail on an encoded value or a value outside the 64-bit range;
  - fail on overflow.
- The codec:
  - decodes an `Encoded(v)` entry into a pointer whose pointee type is `v`'s type, or `interface{}`;
  - treats a nil target, or an encoded nil, as a successful read that writes nothing;
  - fails on a missing key, a native entry or a type mismatch.
- The native `Get`/`Scan` succeeds only on a native entry whose integer fits the target's kind.

## Model

| member | source | states |
|---|---|---|
| Values.Wrap | go_cache.go:45-55 | the stepped integer lies in its kind's range, equals the exact result when that is in range, and differs from it by a multiple of 2^width |
| Values.IntegerTypesExactly | redis_cache.go:69-85 | the ten integer types are exactly the integer kinds |
| GoCacheBackend.Stepped | go_cache.go:45-55 | a numeric datum stays numeric and of the same type; an integer moves by exactly the step when the result fits its kind, and in any case lands in range at a multiple of 2^width from the exact result; a float moves by exactly the step |
| GoCacheBackend.PrefixArg | go_cache.go:81-88 | the prefix is "" without an argument and the first argument otherwise |
| GoCacheBackend.ResolveKey | go_cache.go:77-79 | the store key is the prefix followed by the caller's key, and splits back into both |
| GoCacheBackend.PrefixesSeparate | go_cache.go:77-79 | different prefixes give different store keys for the same caller key |
| GoCacheBackend.Lookup | go_cache.go:15-28 | found exactly when the resolved key is stored; the stored datum when found, nil when not |
| GoCacheBackend.Stored | go_cache.go:30-38 | the resolved key now holds the new datum and TTL, whatever it held before; every other key is untouched |
| GoCacheBackend.Removed | go_cache.go:40-43 | the resolved key is deleted; the result is true exactly when the prefix is empty or the twice-prefixed key is absent |
| GoCacheBackend.Incremented | go_cache.go:45-49 | true exactly when the key is absent or not numeric, and then the store is unchanged; false after a +1 update of that one item, TTL kept |
| GoCacheBackend.Decremented | go_cache.go:51-55 | true exactly when the key is absent or not numeric, and then the store is unchanged; false after a -1 update of that one item, TTL kept |
| GoCacheBackend.Added | go_cache.go:57-61 | true exactly when the key was present, and then the store is unchanged; false after storing the datum as Put would |
| GoCacheBackend.GetWrite | go_cache.go:20-28 | the target is written exactly when it is non-nil, the datum is non-nil and the datum's pointee is not zero at the datum's static type (for `interface{}`: not nil); what is written is that pointee |
| GoCacheBackend.Unmarshal | go_cache.go:63-75 | false and target untouched for a source that is zero at its static type (a `*interface{}` source only when it holds nil); otherwise true and the target's pointee becomes the dereferenced source |
| GoCacheBackend.GoCache.constructor | go_cache.go:81-88 | the instance wraps the given store with the prefix chosen by PrefixArg |
| GoCacheBackend.GoCache.Has | go_cache.go:15-18 | true exactly when the store holds prefix + key |
| GoCacheBackend.GoCache.Get | go_cache.go:20-28 | returns the stored datum (nil when absent) and the exists flag; writes the target exactly as GetWrite says |
| GoCacheBackend.GoCache.Put | go_cache.go:30-33 | returns nil; the store becomes Stored with the given TTL |
| GoCacheBackend.GoCache.Forever | go_cache.go:35-38 | returns nil; the store becomes Stored with the no-expiration TTL |
| GoCacheBackend.GoCache.Remove | go_cache.go:40-43 | new store and result are those of Removed |
| GoCacheBackend.GoCache.Increment | go_cache.go:45-49 | new store and result are those of Incremented |
| GoCacheBackend.GoCache.Decrement | go_cache.go:51-55 | new store and result are those of Decremented |
| GoCacheBackend.GoCache.Add | go_cache.go:57-61 | new store and result are those of Added |
| GoCacheBackend.PutThenLookup | go_cache.go:20-33 | a Get after a Put finds the datum put |
| GoCacheBackend.PrefixIsolation | go_cache.go:77-88 | a Put through one prefix is invisible to a GoCache with another prefix over the same store |
| GoCacheBackend.RemoveUnprefixedIdempotent | go_cache.go:40-43 | with the empty prefix Remove returns true, and a second Remove changes nothing |
| GoCacheBackend.RemoveChecksTwicePrefixedKey | go_cache.go:40-43 | with a non-empty prefix, Remove returns false whenever prefix+prefix+key is stored, even though prefix+key was deleted |
| GoCacheBackend.IncrementAddsOne | go_cache.go:45-49 | an integer below its kind's maximum is incremented by exactly one and Increment returns false |
| GoCacheBackend.IncrementWrapsAtMax | go_cache.go:45-49 | incrementing a kind's maximum gives its minimum |
| GoCacheBackend.DecrementSubtractsOne | go_cache.go:51-55 | an integer above its kind's minimum is decremented by exactly one and Decrement returns false |
| GoCacheBackend.DecrementWrapsAtMin | go_cache.go:51-55 | decrementing a kind's minimum gives its maximum |
| GoCacheBackend.StepFloat | go_cache.go:45-55 | a float is incremented by exactly 1.0 and decremented by exactly 1.0 |
| GoCacheBackend.InterfacePointerHoldingZero | go_cache.go:63-75 | a `*interface{}` datum holding 0 is not zero: Get copies 0 into the target, and the only targets that do not panic are `*interface{}` ones |
| GoCacheBackend.IncrementAbsent | go_cache.go:45-49 | on an absent key Increment returns true and creates nothing |
| GoCacheBackend.AddTwice | go_cache.go:57-61 | the first Add stores and returns false; a second Add returns true and keeps the first datum |
| RedisBackend.ShouldNative | redis_cache.go:69-76 | true exactly for plain values of the ten integer types |
| RedisBackend.ShouldGetNative | redis_cache.go:78-85 | true exactly for pointers to the ten integer types |
| RedisBackend.Call | redis_cache.go:108-114 | without the capability the callback is not run: the error is returned and the server is unchanged; no failing call changes the server |
| RedisBackend.Stored | redis_cache.go:50-67 | an integer is SET natively, which fails only without the capability and then changes nothing; any other value is encoded as its dereferenced snapshot and never fails |
| RedisBackend.Fetched | redis_cache.go:29-48 | native path: returns Value{target} whatever happens, succeeds exactly when the capability is there and the key holds a native integer that fits the kind, and then that integer is written; codec path: on success returns Value{target} for a stored key, on failure the empty Value; nothing is written on failure |
| RedisBackend.Incremented | redis_cache.go:97-106 | true exactly when the key exists, the capability is there and the entry is a native 64-bit integer whose successor is 64-bit; then that entry is one more with its TTL kept, otherwise the server is unchanged |
| RedisBackend.Decremented | redis_cache.go:116-125 | as Incremented, for one less |
| RedisBackend.Added | redis_cache.go:127-136 | false with the entry unchanged on a present key; on an absent key true exactly when the inner Put reports no error, storing what Put stores |
| RedisBackend.RedisCache.constructor | redis_cache.go:138-142 | the instance talks to the given server through a client with the given capability |
| RedisBackend.RedisCache.NativeCall | redis_cache.go:108-114 | new server contents and result are those of Call |
| RedisBackend.RedisCache.Has | redis_cache.go:25-27 | true exactly when the server holds the key |
| RedisBackend.RedisCache.Get | redis_cache.go:29-48 | the server is unchanged; the Value, the flag and the write into the target are those of Fetched |
| RedisBackend.RedisCache.Put | redis_cache.go:50-61 | new server contents and error are those of Stored for the value's snapshot |
| RedisBackend.RedisCache.NativePut | redis_cache.go:63-67 | for an integer, new server contents and error are those of Stored |
| RedisBackend.RedisCache.Forever | redis_cache.go:87-89 | the same as Put with a TTL of -1 |
| RedisBackend.RedisCache.Remove | redis_cache.go:91-95 | the key is deleted and the result is true |
| RedisBackend.RedisCache.Increment | redis_cache.go:97-106 | new server contents and result are those of Incremented |
| RedisBackend.RedisCache.Decrement | redis_cache.go:116-125 | new server contents and result are those of Decremented |
| RedisBackend.RedisCache.Add | redis_cache.go:127-136 | new server contents and result are those of Added |
| RedisBackend.ExistsIsMembership | redis_cache.go:25-27 | the codec's existence check holds exactly for stored keys |
| RedisBackend.PutThenGetNative | redis_cache.go:29-67 | an in-range integer Put natively is read back into a pointer to its kind, and Get returns true |
| RedisBackend.PutIncrementGet | redis_cache.go:97-106 | Put n, Increment, Get through a pointer yields n + 1 |
| RedisBackend.PutThenGetCodec | redis_cache.go:40-61 | a non-nil, non-integer value Put through the codec decodes back into a pointer of its own type |
| RedisBackend.CodecIntegerNotNative | redis_cache.go:29-61 | an integer stored through a pointer goes through the codec and then cannot be read on the native path |
| RedisBackend.WithoutClient | redis_cache.go:108-125 | without the capability a native Put fails and changes nothing, and Increment and Decrement return false and change nothing |
| RedisBackend.AddTwice | redis_cache.go:127-136 | the first Add of a codec value stores its snapshot and returns true; a second Add returns false and keeps it |
| Values.Value.Data | cache.go:129-131 | the returned datum is the one the Value boxes: boxing it again gives the same Value |
| Cache.Error.Message | cache.go:105 | the message of an unregistered-driver error contains the driver's name at a fixed position; the missing-client error reads "can not convert codec.Redis to RedisClient", the text of `redis_cache.go:113` |
| Cache.LiftRedis | redis_cache.go:50-67 | the Manager reports an error exactly when the Redis Put did, and it is the missing-client error |
| Cache.RealKey | cache.go:142-144 | the real key is KeyPrefix followed by the caller's key, and splits back into both |
| Cache.RealKeyInjective | cache.go:142-144 | distinct caller keys give distinct real keys |
| Cache.GetDriverRegister | cache.go:108-113 | found exactly when the name is registered, and then it is the registered constructor |
| Cache.RegisterThenLookup | cache.go:108-119 | after registering a name, looking it up yields that constructor; a second registration overwrites the first; other names keep theirs |
| Cache.Outcomes | cache.go:49-62 | one driver Get result per decoder target |
| Cache.OutcomesAt | cache.go:53-57 | the i-th result is the driver's Get of the key with the i-th decoder target |
| Cache.Package.constructor | cache.go:11-27 | empty key prefix, no registered drivers, no constructor calls |
| Cache.Package.RegisterDriver | cache.go:115-119 | the registry gains or overwrites exactly that one name |
| Cache.Package.Invoke | cache.go:17 | one more constructor call, building a new backend over the registered store or server |
| Cache.Manager.constructor | cache.go:133-140 | with no name there is no driver and the name is ""; with a name, the state is the one Use reaches from a fresh Manager: a registered non-empty name builds its driver with one constructor call, anything else leaves no driver |
| Cache.Manager.Use | cache.go:96-106 | unregistered: an error naming the driver, nothing changed; registered and current: nil, no constructor call, nothing changed; registered and different: nil, exactly one constructor call, its result and the name installed |
| Cache.Manager.Has | cache.go:45-47 | the active driver's Has of KeyPrefix + key |
| Cache.RepoGet | cache.go:54 | the driver's Get of the key: its Value, its flag and its write into the target; the store is unchanged |
| Cache.Manager.Get | cache.go:49-62 | a CacheAble target returns the Value of the last decoder call (the empty Value without one) and the hook's own verdict on the driver's results, and with separate cells each decoder target holds what the driver's Get writes into it; any other target returns the driver's Get of KeyPrefix + key and holds what that Get writes |
| Cache.RunHook | cache.go:51-58 | the hook's decoder calls the driver's Get on each decoder target, in order; the result is the hook's verdict on their flags and the last Value; the store is unchanged; when no two targets and not the stored datum share a cell, each target holds what the driver's Get writes into it |
| Cache.Decode | cache.go:51-58 | the first n decoder calls, in order: the flags and the last Value of the driver's Gets, the store unchanged, and with separate cells each target written by its own Get |
| Cache.PutThenGetRedis | cache.go:49-74 | on a Redis driver with the native client, Put of an int through the Manager and a Get into an `*int` returns true and writes the int |
| Cache.PutThenGetGo | cache.go:49-74 | on a GoCache driver, Put of a non-zero int through the Manager and a Get into an `*int` returns true and copies the int |
| Cache.Manager.Put | cache.go:65-74 | the driver's Put at KeyPrefix + key, of MarshalToCache's result for a CacheAble value and of the value itself otherwise; the driver's error is returned |
| Cache.Manager.Forever | cache.go:76-78 | the driver's Forever at KeyPrefix + key, with no CacheAble substitution |
| Cache.Manager.Remove | cache.go:80-82 | the driver's Remove at KeyPrefix + key: new store and result |
| Cache.Manager.Increment | cache.go:84-86 | the driver's Increment at KeyPrefix + key: new store and result |
| Cache.Manager.Decrement | cache.go:88-90 | the driver's Decrement at KeyPrefix + key: new store and result |
| Cache.Manager.Add | cache.go:92-94 | the driver's Add at KeyPrefix + key, with no CacheAble substitution: new store and result |
| Cache.HookWithoutDecoding | cache.go:49-62 | a hook that never calls its decoder makes Get return the empty Value |
| Cache.HookReturnsLastDecoded | cache.go:49-62 | a hooked Get returns the driver's Value for the last decoder target |
| Cache.HookVerdict | cache.go:49-62 | a hooked Get's flag is the hook's own: true exactly when every decoder call succeeded, when some did, or a constant, as the hook decides |
| Cache.UseTwice | cache.go:96-106 | two Uses of the same new name make exactly one constructor call |
| Cache.UseUnregistered | cache.go:96-106 | Use of an unregistered name returns an error carrying the name and keeps the active driver |

## Left out

- TTLs are kept as an integer on each entry. Expiry in time, go-cache's cleanup sweep and its default-expiration resolution are not modelled, because they depend on the clock.
- Redis TTL semantics are not modelled. That covers what a TTL of 0 or -1 means to the server, and which TTL a key created by INCR gets.
- The `sync.RWMutex` around the registry is not modelled, and neither are check-then-act races in `Increment`, `Decrement` and `Add`. The model is sequential.
- `Value.MarshalJSON` is not modelled; it is a foreign JSON encoder.
- The go-redis client and the codec are not modelled: no msgpack encoding, no TinyLFU local cache, no transport errors, no `context`. Entries are an abstract tagged map.
- Floats are modelled as exact reals. Float rounding, -0.0, NaN and `float32` are not modelled.
- Pointers to pointers and pointers inside structs are not modelled. `Val` holds no pointers.
- A `CacheAble` value used directly as a Get target of a backend is not modelled. Only through the Manager does the hook apply.
- The user code of a `CacheAble` type is abstracted as a `Hook`:
  - MarshalToCache is a fixed result;
  - UnmarshalFromCache is a fixed list of decoder targets and a verdict: all decoded, any decoded, or a constant.
- GoCacheBackend.GoCache.Get: reflection panics inside `unmarshal` are excluded by a precondition, `GetSafe`. The excluded cases are a non-pointer target, or a datum whose type does not fit the target.
- Cache.Manager.Get: for a CacheAble target over GoCache, the precondition asks that every decoder target fit the datum's type, even where the datum is a zero value and would write nothing. It asks this because an earlier decoder call may change what a later one reads through a shared pointer.
- Cache.Manager.Get: the hook's decoder is called on a fixed list of targets. A hook that chooses its next target from earlier results is not modelled.
- Cache.RunHook: the pointees of the decoder targets are stated only when no two targets share a cell and no target shares the stored datum's cell. With shared cells a later call sees or overwrites an earlier call's write, and the model says nothing about the resulting pointees.
- Cache.Manager.Get: for a CacheAble target the same holds: the decoder targets' pointees are stated only when their cells are separate from each other and from the stored datum's.
- Values.IsZero: struct fields carry no static types. A struct whose `interface{}` field holds a zero value counts as zero here, while Go's `IsZero` calls it non-zero. Only a top-level `*interface{}` datum is judged by its static type.
- Cache.DriverRegister: a constructor is a datatype naming an existing store or server. A closure that builds a new store on each call cannot be written, so the model cannot show that switching back to a driver, which calls its constructor again (`cache.go:98-99`), starts from an empty store.
- Cache.Manager.Has: requires an active driver. On a nil `Repository`, after `NewManager()` without a name or a `Use` of only unregistered names, the Go call panics; the panic is not modelled.
- Cache.Manager.Get: requires an active driver; the nil-`Repository` panic is not modelled.
- Cache.Manager.Put: requires an active driver; the nil-`Repository` panic is not modelled.
- Cache.Manager.Forever: requires an active driver; the nil-`Repository` panic is not modelled.
- Cache.Manager.Remove: requires an active driver; the nil-`Repository` panic is not modelled.
- Cache.Manager.Increment: requires an active driver; the nil-`Repository` panic is not modelled.
- Cache.Manager.Decrement: requires an active driver; the nil-`Repository` panic is not modelled.
- Cache.Manager.Add: requires an active driver; the nil-`Repository` panic is not modelled.
- Cache.Error: only the errors a Manager can pass back are modelled. They are `Use`'s unregistered-name error and the missing-client error of a native Redis Put. The go-redis library's own error texts are not modelled.
