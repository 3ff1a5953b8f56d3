# Native script functions and their registration (Icinga 2, `lib/base/function.hpp`)

This project models how Icinga 2 exposes C++ functions to its configuration and scripting language. It covers two things:

- **`Function`**: an immutable record holding a display name, a wrapped callback, and the `side_effect_free` and `deprecated` flags. Both flags default to `false`.
- **The six `REGISTER_*SCRIPTFUNCTION*` macros.** Each expands to a `RegisterFunction` routine that stores one or two `Function` records in the global script table:
  - the plain and `SAFE_` forms store a single canonical record under `name`;
  - the namespaced forms store a canonical record under `ns.name` with display name `ns#name`;
  - the namespaced forms then store a deprecated alias, under `__name` for `_NS` and under the bare `name` for `_NS_DEPRECATED`.

The `SAFE_` forms mark every record they create as side-effect free.

Files and modules:

- `wrappers.dfy` (`Wrappers`): `Option` and `Result`.
- `function.dfy` (`ScriptFunction`): the `Function` datatype. Its constructor parameters have the same defaults as the C++ constructor's. The callback is an opaque `Callback` token. What a token does when it is invoked is a parameter, `Behaviour`, which stands in for the invocation adapter.
- `script_global.dfy` (`ScriptGlobals`): the class `ScriptGlobal`, which holds the global table as a `map`, and its `Set` method. It also holds the pure fold `SetAll` over a sequence of `Set` calls, with a last-write-wins lemma.
- `registration.dfy` (`ScriptRegistration`). It contains:
  - the naming scheme (`CanonicalKey`, `CanonicalName`, `AliasKey`, `AliasName`);
  - `Records`, the writes one routine performs;
  - `Register`, the table after the routine has run;
  - one method per macro, doing the same `Set` calls in the same order as the macro;
  - lemmas about what a registration does.
- Helpers with no row of their own: `Lookup`, a map lookup that returns an `Option`, used to state the other contracts; `ScriptGlobal.Get`, the same lookup on the class, used by the example client; `WrittenKeys`; `Qualify`; `Keys`; and `IsToken`. The macros stringify identifier tokens, and `IsToken` states the one fact about them the lemmas need: a token contains neither `.` nor `#`.
- `SquareClient` is an example client. It registers `math.square` with the `_NS` macro, looks the function up under `math.square` and under `__square`, and invokes both. It uses only the contracts above, so it shows that they are enough for a caller.
- `Split` in `registration.dfy` is the inverse of the key and name construction. It is used to prove that canonical keys are injective and that the key (using `.`) and the display name (using `#`) describe the same (namespace, name) pair.

Assumptions:

- `ScriptGlobal::Set` is defined in `base/scriptglobal.cpp`, which is not part of this model. It is modelled as a plain map update where the last write to a key wins, with no collision diagnostic.
- The global table is modelled as `map<string, Function>`. The real table holds arbitrary script values; only functions are stored by this core.
- The dynamic `Value` type is a small stand-in datatype (`Number` holds an `int`, where the runtime uses a double).
- `WrapFunction` is deterministic: wrapping the same callback twice gives the same behaviour. Each namespaced routine wraps its callback twice, once for each record, and the model therefore gives both records of one routine the same `Callback` token.

Notes:

- Display names differ from registry keys. A namespaced record is stored under `ns.name` but named `ns#name`. An alias is named `<alias key> (deprecated)`.
- Registrations of different functions can write the same key, and then the later one wins. Among the cases:
  - two `_NS` registrations of the same name in different namespaces share the alias key `__name` (`AliasOfLaterNamespaceWins`);
  - the `_NS_DEPRECATED` alias of `name` replaces a plain registration of `name` (`DeprecatedAliasReplacesGlobal`);
  - a plain registration of `__name` replaces the alias of a `_NS` registration of `name` (`GlobalReplacesNamespacedAlias`).
  - two `_NS_DEPRECATED` registrations of one name in different namespaces share the bare alias `name` (`DeprecatedAliasesCollide`);
  - any two namespaced registrations of the same (ns, name), for instance `_NS` and `SAFE_..._NS`, share `ns.name` (`CanonicalKeyInjective`).

## Model

| member | source | states |
|---|---|---|
| ScriptFunction.ConstructorFlags | lib/base/function.hpp:46-59 | Both constructor flags default to false; `IsSideEffectFree` and `IsDeprecated` return exactly the values given at construction |
| ScriptFunction.InvokeDefaults | lib/base/function.hpp:48-49 | Both `Invoke` overloads default to the empty argument list; the unbound form passes no receiver |
| ScriptFunction.Function | lib/base/function.hpp:46 | The constructor: a display name, a callback, and `side_effect_free` and `deprecated`, both defaulting to false (see `ConstructorFlags`) |
| ScriptFunction.Function.IsSideEffectFree | lib/base/function.hpp:51-54 | Returns the `side_effect_free` flag given at construction, and has no effect (see `ConstructorFlags`) |
| ScriptFunction.Function.IsDeprecated | lib/base/function.hpp:56-59 | Returns the `deprecated` flag given at construction, and has no effect (see `ConstructorFlags`) |
| ScriptFunction.Function.Invoke | lib/base/function.hpp:48 | Calls the callback with no receiver; the arguments default to empty (see `InvokeDefaults`); the result depends only on the callback (see `InvokeDependsOnlyOnCallback`) |
| ScriptFunction.Function.InvokeBound | lib/base/function.hpp:49 | Calls the callback with `otherThis` as receiver; the arguments default to empty (see `InvokeDefaults`, `InvokeDependsOnlyOnCallback`) |
| ScriptFunction.InvokeDependsOnlyOnCallback | lib/base/function.hpp:66 | Two records with the same callback give the same result or error on the same receiver and arguments, whatever their names and flags |
| ScriptGlobals.LastWrite | lib/base/function.hpp:82-84 | The last write to a key in a series of `Set` calls: present iff some write targets the key, and no later write targets it |
| ScriptGlobals.SetAllLookup | lib/base/function.hpp:82-84 | After a series of `Set` calls a key holds its last written record; an unwritten key keeps its old binding (last write wins) |
| ScriptGlobals.SetAll | lib/base/function.hpp:82-84 | A series of `Set` calls: the keys afterwards are the old keys plus every written key; values follow `SetAllLookup` |
| ScriptGlobals.ScriptGlobal.Set | lib/base/function.hpp:73 | `Set(name, value)` rebinds `name` to `value` and changes no other key |
| ScriptRegistration.IndexOf | lib/base/function.hpp:82 | Position of the first occurrence of a separator, or the length if absent |
| ScriptRegistration.Split | lib/base/function.hpp:81-82 | Splitting at the first separator is defined iff the separator occurs, and rejoining the parts gives back the string |
| ScriptRegistration.SplitQualify | lib/base/function.hpp:81-82 | `ns` + separator + `name` splits back into (`ns`, `name`) when `ns` has no separator |
| ScriptRegistration.CanonicalKey | lib/base/function.hpp:69-129 | The canonical registry key, `name` for plain macros and `ns.name` for namespaced ones (see `KeyShapes`, `KeysDiffer`, `CanonicalKeyInjective`, `RegisterBindsCanonical`) |
| ScriptRegistration.CanonicalName | lib/base/function.hpp:69-129 | The canonical display name, `name` for plain macros and `ns#name` for namespaced ones (see `KeyShapes`, `CanonicalNameMatchesKey`, `RegisterBindsCanonical`) |
| ScriptRegistration.AliasKey | lib/base/function.hpp:78-129 | The alias key: `__name` for `_NS`, the bare `name` for `_NS_DEPRECATED` (see `KeyShapes`, `KeysDiffer`, `RegisterBindsAlias`) |
| ScriptRegistration.AliasName | lib/base/function.hpp:78-129 | The alias display name, the alias key followed by ` (deprecated)` (see `RegisterBindsAlias`) |
| ScriptRegistration.Records | lib/base/function.hpp:69-129 | One routine issues one write (plain) or two (namespaced), canonical first; every record has the directive's callback and `side_effect_free` = the `SAFE_` choice; only the alias is deprecated |
| ScriptRegistration.Register | lib/base/function.hpp:69-129 | The table after one whole `RegisterFunction` routine: the `Set` calls of `Records` in order (see `RegisterUpdates`) |
| ScriptRegistration.RegisterUpdates | lib/base/function.hpp:69-129 | A registration equals updating the canonical key, then the alias key, and nothing else |
| ScriptRegistration.KeysDiffer | lib/base/function.hpp:78-129 | The canonical key and the alias key of one namespaced registration are never equal |
| ScriptRegistration.KeyShapes | lib/base/function.hpp:69-129 | For token arguments (no `.` and no `#`), the canonical key contains `.` iff namespaced; alias keys contain no `.`; keys never contain `#`; display names contain `#` iff namespaced |
| ScriptRegistration.RegisterBindsCanonical | lib/base/function.hpp:69-129 | After registration the canonical key holds (`name` or `ns#name`, callback, `SAFE_` flag, not deprecated) |
| ScriptRegistration.RegisterBindsAlias | lib/base/function.hpp:78-129 | After a namespaced registration the alias key holds (alias key + ` (deprecated)`, same callback, same `SAFE_` flag, deprecated) |
| ScriptRegistration.RegisterFrame | lib/base/function.hpp:69-129 | A registration leaves every key it does not write unchanged |
| ScriptRegistration.RegisterDomain | lib/base/function.hpp:69-129 | The keys present afterwards are the old keys plus the one or two keys written |
| ScriptRegistration.AliasBehavesLikeCanonical | lib/base/function.hpp:78-129 | Both entries of a namespaced registration are present and invoke identically, bound or unbound; they share `side_effect_free`; only the alias is deprecated |
| ScriptRegistration.CanonicalNameMatchesKey | lib/base/function.hpp:81-82 | The `ns.name` key and the `ns#name` display name split into the same (ns, name), and they differ |
| ScriptRegistration.CanonicalKeyInjective | lib/base/function.hpp:82 | Two namespaced canonical keys are equal iff namespace and name are equal |
| ScriptRegistration.GlobalNeverHitsNamespaced | lib/base/function.hpp:73 | A plain registration's key, which has no `.`, never equals a namespaced canonical key |
| ScriptRegistration.AliasOfLaterNamespaceWins | lib/base/function.hpp:83-84 | Two `_NS` registrations of one name in different namespaces keep both canonical entries; the shared `__name` alias holds the later one's record |
| ScriptRegistration.SameNameKeysDiffer | lib/base/function.hpp:81-82 | One name in two different namespaces gives two different canonical keys, whatever the namespaces contain |
| ScriptRegistration.DeprecatedAliasesCollide | lib/base/function.hpp:94-95 | Two `_NS_DEPRECATED` registrations of one name share the bare alias, which holds the later one's record |
| ScriptRegistration.DeprecatedAliasReplacesGlobal | lib/base/function.hpp:94-95 | A `_NS_DEPRECATED` registration of `name` after a plain one of `name` leaves the alias record under `name` |
| ScriptRegistration.GlobalReplacesNamespacedAlias | lib/base/function.hpp:73 | A plain registration of `__name` after a `_NS` one of `name` replaces the alias and keeps the canonical entry |
| ScriptRegistration.WrittenValueIgnoresTable | lib/base/function.hpp:69-129 | What a registration stores under its own keys does not depend on the table it writes into |
| ScriptRegistration.DisjointRegistrationsCommute | lib/base/function.hpp:75 | Registrations with disjoint key sets give the same table in either order |
| ScriptRegistration.RegisterScriptFunction | lib/base/function.hpp:69-76 | Binds `name` to (`name`, callback, not side-effect free, not deprecated); nothing else changes |
| ScriptRegistration.RegisterScriptFunctionNs | lib/base/function.hpp:78-87 | Binds `ns.name` to (`ns#name`, callback, false, false), then `__name` to (`__name (deprecated)`, callback, false, true); nothing else changes |
| ScriptRegistration.RegisterScriptFunctionNsDeprecated | lib/base/function.hpp:89-98 | Binds `ns.name` to (`ns#name`, callback, false, false), then bare `name` to (`name (deprecated)`, callback, false, true); nothing else changes |
| ScriptRegistration.RegisterSafeScriptFunction | lib/base/function.hpp:100-107 | Binds `name` to (`name`, callback, side-effect free, not deprecated); nothing else changes |
| ScriptRegistration.RegisterSafeScriptFunctionNs | lib/base/function.hpp:109-118 | As `_NS`, with `side_effect_free` = true on both records |
| ScriptRegistration.RegisterSafeScriptFunctionNsDeprecated | lib/base/function.hpp:120-129 | As `_NS_DEPRECATED`, with `side_effect_free` = true on both records |

## Left out

- `Invoke`, `GetPrototype`, `Clone` are only declared in function.hpp. Their definitions are in `lib/base/function.cpp`, which is not part of this model. `Invoke` is modelled as passing the receiver (if any) and the arguments to the callback's behaviour and returning its result or error unchanged. `GetPrototype` and `Clone` are not modelled.
- `WrapFunction`, with its argument marshalling and arity and type checks (`base/functionwrapper.hpp`), is not part of this model. A callback is an opaque token, and its behaviour is a parameter.
- The generated attribute code `ObjectImpl<Function>` (`base/function.thpp`), `DECLARE_OBJECT`, and generic attribute reflection are generated or foreign code and are left out. The accessors read the record's fields directly.
- `boost::function` and reference counting (`Function::Ptr`) are left out: records are values.
- `INITIALIZE_ONCE_WITH_PRIORITY`, `UNIQUE_NAME` and the order of static initialisation are load-time plumbing. Each registration is a single method call. Running a routine exactly once is not modelled.
- Thread safety of later lookups in the global table is left out: concurrency is outside the model.
- Collision diagnostics are left out: function.hpp does no collision check around its `Set` calls, and `ScriptGlobal::Set` is modelled as a last-write-wins update.
- Callback effects and state: `Behaviour` is a pure function, so the model does not capture what a callback changes or reads, and the `side_effect_free` flag is recorded but has no effect on behaviour. "Same result" in `AliasBehavesLikeCanonical` and `InvokeDependsOnlyOnCallback` means the same result from the same state.
