# SteamFactory and Malyshev in Dafny

SteamFactory is a small JavaScript factory helper for test data. A registry
keeps named attribute bags (`factories`) and named counter-backed generators
(`sequences`). `define` stores a bag, or folds an array of states (objects,
names of other factories, functions) into a new one. `build` makes a fresh
object from the stored bag and/or the given states. It then replaces every
value that is a sequence generator with one call of that generator. `alias`
makes other names share a stored bag, and `attributesFor` returns the stored
bag itself. Malyshev is the older variant: one table (`objs`), no sequences,
function states called with no arguments, and an array of states that
ignores the stored bag.

The project has these modules:

- `Objects` (objects.dfy) holds what both libraries share:
  - JavaScript values, as `Operand` (undefined, null, a string, an object) and `Value` (an attribute value).
  - Objects as `Bag`, a class whose `attrs` map is updated in place. A table can hold one bag under several names.
  - The sequence closure as `Generator`, a class with a mutable `counter`.
  - `extend`, as a method over bags that is proved against the last-wins merge `MergeAll`.
- `SteamFactory` (steam_factory.dfy) is lib/steam-factory.js.
  - `Registry` is a class with the two tables.
  - `executeSequences` is proved against the pure function `Run`, which gives the result for any order of visiting the keys. The predicate `Resolved` states what every order has in common.
- `Malyshev` (malyshev.dfy) is lib/malyshev.js.
  - Its `extend` (lib/malyshev.js:39-53) is the same code as SteamFactory's, and `Objects.Extend` models both.
- `SteamFactoryScenarios` and `MalyshevScenarios` replay the repository's own usage examples. Each outcome is proved from the contracts above.

## Model

| member | source | states |
|---|---|---|
| `Objects.Bag.constructor` | lib/steam-factory.js:100 | a new object literal holds exactly the given properties |
| `Objects.Generator.constructor` | lib/steam-factory.js:145-146 | the closure captures `fn` and starts its counter at the given value |
| `Objects.Generator.Call` | lib/steam-factory.js:146 | one call returns `fn(memo)` for the current counter, then increments the counter by one |
| `Objects.MergeAllLastWins` | lib/steam-factory.js:41-49 | after merging sources in order, a key takes the value of the last source that has it |
| `Objects.MergeAllUntouched` | lib/steam-factory.js:41-49 | a key that no source has keeps its old value, or stays absent |
| `Objects.Enumerable` | lib/steam-factory.js:45-47 | what `for (key in x)` copies: nothing from undefined or null, an object's own properties, and for a string the key `i` (in decimal) holding the character at index `i`, for every index |
| `Objects.IndexObjectAt` | lib/steam-factory.js:45-47 | the keys visited on a string are exactly its indices written in decimal (no other key), each holding its one-character string |
| `Objects.CopyProperties` | lib/steam-factory.js:45-47 | the inner `for (key in obj)` loop leaves `dst` as its old properties overwritten by `obj`'s, in any key order |
| `Objects.Extend` | lib/steam-factory.js:38-52 | `dst` becomes the last-wins merge of its old properties with the enumerable properties of every argument, where an argument that is `dst` itself contributes nothing |
| `Objects.ExtendOne` | lib/steam-factory.js:38-52 | `extend(dst, x)` with `x` not `dst` is `dst`'s properties overwritten by `x`'s; undefined and null add nothing, and a string adds one property per character of the model's string (see Left out for UTF-16) |
| `Objects.ExtendLastWins` | lib/steam-factory.js:41-49 | per key: a key that some non-`dst` source has ends up with the value of the last such source |
| `Objects.ExtendUntouched` | lib/steam-factory.js:41-49 | per key: a key that no non-`dst` source has keeps `dst`'s old value, or stays absent |
| `SteamFactory.IsBlank` | lib/steam-factory.js:82-86 | blank means undefined, null, the empty string or the empty array; a blank value has no properties, and an object is never blank |
| `SteamFactory.Seed` | lib/steam-factory.js:145 | `initial \|\| 1`: a nonzero initial value is kept, while a missing or zero one becomes 1 |
| `SteamFactory.VisitKey` | lib/steam-factory.js:57-61 | one pass of the loop: a flagged value is replaced by one call of its generator, and only that generator's counter moves, by one |
| `SteamFactory.ExecuteSequences` | lib/steam-factory.js:54-64 | every flagged value is replaced by one call of its generator (`Resolved`); other values are unchanged; each counter advances by the number of keys that hold the generator |
| `SteamFactory.RunInvariant` | lib/steam-factory.js:57-61 | for every visiting order, the object so far, the calls handed out and the counters agree with the keys visited |
| `SteamFactory.RunComplete` | lib/steam-factory.js:54-64 | once every key has been visited exactly once, the object is resolved and every counter has advanced by its generator's number of keys |
| `SteamFactory.ResolvedCallsAll` | lib/steam-factory.js:54-64 | the keys that hold one generator received its calls 0 to n-1, each call going to exactly one key, where n is the number of such keys |
| `SteamFactory.ResolvedSingleUse` | lib/steam-factory.js:57-61 | a generator held under a single key puts `fn(counter)` there, for the counter as it was before `build` |
| `SteamFactory.ResolvedOneSequence` | lib/steam-factory.js:54-64 | an object with one flagged key builds to that object with only that key replaced by the generator's current value |
| `SteamFactory.ResolvedNoSequences` | lib/steam-factory.js:54-64 | an object without flagged values comes out of `executeSequences` unchanged |
| `SteamFactory.ApplyState` | lib/steam-factory.js:106-110 | one pass of the `build` array loop: an object element is merged in, a string is skipped, and a function is called with the accumulator, which it may update, and its result is merged in |
| `SteamFactory.ApplyDefineState` | lib/steam-factory.js:125-131 | one pass of the `define` array loop: as in `build`, except that a string merges in the bag the table holds under that name |
| `SteamFactory.BuildNext` | lib/steam-factory.js:105-111 | pass `i` of the `build` array loop turns the fold of the first `i` elements into the fold of the first `i + 1`, leaving the element objects unchanged |
| `SteamFactory.DefineNext` | lib/steam-factory.js:124-132 | pass `i` of the `define` array loop turns the fold of the first `i` elements into the fold of the first `i + 1`, leaving the table's bags and the element objects unchanged |
| `SteamFactory.FoldStates` | lib/steam-factory.js:104-111 | the `build` array loop yields a fresh object equal to `BuildFold` of the elements in order, and leaves the element objects unchanged |
| `SteamFactory.FoldDefineStates` | lib/steam-factory.js:123-132 | the `define` array loop yields a fresh object equal to `DefineFold` of the elements, and leaves the table's bags and the elements unchanged |
| `SteamFactory.MergeOver` | lib/steam-factory.js:113 | `extend({}, factories[name], x)` gives a fresh object: the stored bag's properties overwritten by those of `x`, with the stored bag and `x` unchanged (the blank branch at line 103 is the case `x` undefined) |
| `SteamFactory.Assemble` | lib/steam-factory.js:100-114 | the three `build` branches: blank states copy the stored bag, an array is folded without the stored bag, and any other value is merged over the stored bag |
| `SteamFactory.BuildFoldIgnoresRefs` | lib/steam-factory.js:104-111 | `build` gives the same object with or without the string elements of its array |
| `SteamFactory.BuildFoldObjects` | lib/steam-factory.js:104-111 | `build` over an array of objects is their last-wins merge from `{}`, so the stored bag plays no part |
| `SteamFactory.DefineFoldWithoutRefs` | lib/steam-factory.js:123-132 | with no string elements, `define` folds an array exactly as `build` does |
| `SteamFactory.MergedOverride` | lib/steam-factory.js:112-113 | `build(name, obj)`: the keys of `obj` win, and other keys come from the stored bag |
| `SteamFactory.MergedBlank` | lib/steam-factory.js:102-103 | `build` with blank states copies the stored bag, and an unknown name gives `{}` |
| `SteamFactory.Registry.constructor` | lib/steam-factory.js:89-90 | both tables start empty |
| `SteamFactory.Registry.AttributesFor` | lib/steam-factory.js:140-142 | returns the stored entry itself (no copy), or undefined for a name the table does not hold (names of `Object.prototype` members are outside the model, see Left out) |
| `SteamFactory.Registry.Build` | lib/steam-factory.js:99-118 | the result is the merged object with every sequence resolved by one call; counters advance by their number of keys (function states have no effects, see Left out); the tables are unchanged, and only generators may change, so no stored bag does |
| `SteamFactory.Registry.Define` | lib/steam-factory.js:120-138 | any earlier entry is replaced; a non-array is stored as it is; an array is folded into a fresh bag; only the registry changes, so no sequence is called (function states have no effects, see Left out) |
| `SteamFactory.Registry.Sequence` | lib/steam-factory.js:144-150 | installs a fresh flagged generator under the name, with counter `initial \|\| 1`, replacing any earlier one |
| `SteamFactory.Registry.Alias` | lib/steam-factory.js:152-161 | the table becomes `Aliased`: each alias name is set to the entry of the old name, in order |
| `SteamFactory.AliasedAt` | lib/steam-factory.js:155-159 | after aliasing, every alias name holds the old name's entry, and every other name keeps its entry |
| `SteamFactory.AliasShares` | lib/steam-factory.js:152-161 | an alias and its original hold the same entry (the same bag, or undefined for a name the table does not hold; `Object.prototype` member names are outside the model) |
| `SteamFactoryScenarios.BuildUser` | test/steam-factory-spec.js:238-256 | `build("user")` over a stored user with a sequence under "email" calls it once and copies "name" |
| `SteamFactoryScenarios.EmailSequence` | test/steam-factory-spec.js:258-264 | two builds give `email1@gmail.com` and then `email2@gmail.com` |
| `SteamFactoryScenarios.BuildOverride` | test/steam-factory-spec.js:145-155 | `build("user", {lastName: "andersen"})` keeps "name" and overrides "lastName" |
| `SteamFactoryScenarios.DefineFoldTwoRefs` | lib/steam-factory.js:127-128 | an array of two names merges the two stored bags, and the second one wins |
| `SteamFactoryScenarios.ValidUser` | test/steam-factory-spec.js:189-198 | `define("validUser", ["user", "confirmedUser"])` followed by `attributesFor` has both properties |
| `SteamFactoryScenarios.AliasList` | test/steam-factory-spec.js:126-130 | after `alias("user", ["author", "commenter"])`, the three names hold the same bag |
| `SteamFactoryScenarios.SequenceRestart` | test/steam-factory-spec.js:216-224 | calls give `email1`, then `email2`; re-registering with 100 gives `email100` |
| `Malyshev.ApplyState` | lib/malyshev.js:84-88 | one pass of the `build` array loop: an object is merged in, a string is skipped, and a function is called with no arguments and its result merged in |
| `Malyshev.ApplyDefineState` | lib/malyshev.js:101-107 | one pass of the `define` array loop: as in `build`, and a string merges in the stored bag under that name |
| `Malyshev.BuildNext` | lib/malyshev.js:83-89 | pass `i` of the `build` array loop turns the fold of the first `i` elements into the fold of the first `i + 1`, leaving the element objects unchanged |
| `Malyshev.DefineNext` | lib/malyshev.js:100-108 | pass `i` of the `define` array loop turns the fold of the first `i` elements into the fold of the first `i + 1`, leaving the table's bags and the element objects unchanged |
| `Malyshev.FoldStates` | lib/malyshev.js:82-90 | the `build` array loop yields a fresh object equal to `BuildFold` of the elements |
| `Malyshev.FoldDefineStates` | lib/malyshev.js:99-109 | the `define` array loop yields a fresh object equal to `DefineFold` of the elements |
| `Malyshev.Registry.constructor` | lib/malyshev.js:56 | the table starts empty |
| `Malyshev.Registry.AttributesFor` | lib/malyshev.js:114-116 | returns the stored entry itself, or undefined for a name the table does not hold (names of `Object.prototype` members are outside the model, see Left out) |
| `Malyshev.Registry.Build` | lib/malyshev.js:75-92 | the result is `Built`: an array is folded from `{}`, and anything else is merged over the stored bag; the first branch is unreachable; nothing that exists is changed, and values are copied as they are |
| `Malyshev.Registry.Define` | lib/malyshev.js:94-112 | any earlier entry is replaced; a non-array is stored as it is; an array is folded into a fresh bag |
| `Malyshev.BuiltNoStates` | lib/malyshev.js:78-81 | `build(name)` with undefined or null states copies the stored bag, which is what the unreachable first branch would give; an unknown name gives `{}` |
| `Malyshev.BuiltOverride` | lib/malyshev.js:80-81 | `build(name, obj)`: the keys of `obj` win, and other keys come from the stored bag |
| `Malyshev.BuiltArrayIgnoresTable` | lib/malyshev.js:82-90 | `build` with an array does not depend on the table or the name, and an empty array gives `{}` |
| `Malyshev.BuildFoldIgnoresRefs` | lib/malyshev.js:83-89 | `build` gives the same object with or without the string elements of its array |
| `Malyshev.BuildFoldObjects` | lib/malyshev.js:83-89 | `build` over an array of objects is their last-wins merge from `{}` |
| `Malyshev.DefineFoldWithoutRefs` | lib/malyshev.js:99-109 | with no string elements, `define` folds an array exactly as `build` does |
| `MalyshevScenarios.FoldFnThenObj` | lib/malyshev.js:83-89 | a function state then an object state gives the function's result overwritten by the object |
| `MalyshevScenarios.BuildFromArray` | test/malyshev-spec.js:128-134 | `build("user", [fn, {name: "pedro"}])` has both properties and none of the stored bag's |

## Left out

- The UMD module wrappers (lib/steam-factory.js:10-25, lib/malyshev.js:10-25) are module-loader plumbing.
- `factoryDsl.withArg` (lib/steam-factory.js:91-96, lib/malyshev.js:57-62) is never called.
- src/malyshev.js is not part of this model. It wraps Underscore's `_.extend` and browser globals.
- Numbers, booleans and functions passed directly as `states`, or stored directly in a table, are not modelled. The same goes for `null` and nested arrays as array elements. Values are modelled as undefined, null, strings, objects, and arrays of states.
- `for-in` key order is not modelled.
  - `extend` and `executeSequences` visit keys in an unspecified order, chosen freely by the model.
  - For a generator held under several keys, the model fixes which calls those keys receive (calls 0 to n-1, each call to exactly one key). It does not fix which key receives which call.
  - Array states are visited in index order.
- Inherited enumerable properties (objects built with `new` from a constructor whose prototype has properties) are not modelled. A bag holds own properties only.
- SteamFactory.Registry.Build requires that no merged value is null or undefined. On such a value the source throws a TypeError, because `dst[i].isSteamFactorySequence` reads a property of null or undefined. The model states that case as the precondition `NoNullish` instead of modelling the exception.
- A function that a caller flags as a sequence by hand is modelled as a generator. The source calls it with no argument, while a generator passes its counter. Sinon spies around sequences are not modelled.
- The transform of a sequence and the function states are opaque parameters.
  - A SteamFactory function state is modelled by the accumulator it leaves behind and the object it returns. A function state that returns the accumulator itself fits this form.
  - A Malyshev function state is modelled by the object it returns.
- Counters are unbounded integers. JavaScript's `memo++` works on doubles, and `initial` may be any value. The model takes an optional integer and treats 0 like a missing value.
- JavaScript strings are sequences of UTF-16 code units, and `for (key in s)` (lib/steam-factory.js:45, lib/malyshev.js:46) visits one index per code unit. The model's strings are sequences of Unicode characters, one index per character. So a character outside the Basic Multilingual Plane, which JavaScript splits into two surrogate properties, is one property in the model.
- In lib/steam-factory.js:145-146 the `var` statement ends after `memo`, so `sequence = function…` assigns an undeclared variable. Outside strict mode, every `sequence` call therefore writes a global variable named `sequence` in the host environment. The library reads that variable back at once (lines 148-149), so its own behaviour is unaffected. The model keeps the generator local and does not model the global.
- Tables are modelled as maps from names to entries, but in the source they are plain JavaScript objects (`factories = {}` at lib/steam-factory.js:89, `objs = {}` at lib/malyshev.js:56). A lookup there also finds inherited members of `Object.prototype`, and `__proto__` is not an ordinary key. Names such as `toString` or `constructor` and the name `__proto__` are not modelled.
  - In the source, `attributesFor("toString")` returns the inherited function.
  - In the source, `alias("constructor", "x")` stores the `Object` function under "x".
  - In the source, `define("__proto__", bag)` replaces the table's prototype instead of adding an entry.
- SteamFactory.Registry.AttributesFor, Malyshev.Registry.AttributesFor, SteamFactory.AliasShares and SteamFactory.AliasedAt: "undefined for a name the table does not hold" holds only for names that are not `Object.prototype` members and not `__proto__`, for the reason in the line above.
- Function states are modelled as pure values: a SteamFactory `Transformer` (the updated accumulator and a returned object) and a Malyshev `() -> Attrs`. In the source they are arbitrary JavaScript functions called during the fold (lib/steam-factory.js:108-109 and 129-130, lib/malyshev.js:86-87 and 105-106). Such a function may call a sequence, write a table or change a stored bag; the model assumes it does none of these.
- A sequence generator given directly as an array element is not modelled either. `build` and `define` would call it with the accumulator and merge the characters of the string it returns, advancing its counter during the fold.
- SteamFactory.Registry.Build: "counters advance by their number of keys" holds only under the pure function states above; a function state that calls a sequence advances it further.
- SteamFactory.Registry.Define: "no sequence is called" holds only under the pure function states above; a function state (or a generator as an array element) that calls a sequence advances its counter inside `define`.
- The tables exposed as `api.factories`, `api.sequences` and `factories` can be changed by outside code. That is not modelled.
