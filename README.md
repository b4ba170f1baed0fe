# Lenses

A model in Dafny of a small TypeScript library of immutable lenses. A lens
pairs a getter `S -> A`, which reads a focused part of a state, with a setter
`(A, S) -> S`, which builds a new state with that part replaced. The library
has three operations: the factory `lens(getter, setter)`, `view`, which
applies the getter, and `set`, which applies the setter. The test file builds
concrete lenses over plain records (`nameLens`, `cityLens`, `userLens`), a
lens `deepCityLens` composed by hand from two of them, and uses an `over`
operation (read, transform, write back).

- `lenses.dfy`, module `Lenses`: the `Lens` datatype, `MakeLens` (the
  factory), `View`, `Set`, and the three lens laws as predicates (`GetPut`,
  `PutGet`, `PutPut`, together `Lawful`). The setter field is named `put`,
  because `set` is a Dafny keyword.
- `user_lenses.dfy`, module `UserLenses`: the records `Address`, `User`,
  `Meta` and `DeepState`; the concrete lenses; `Compose`, the general form of
  the hand-built `deepCityLens`; `Over`; the test fixtures and what the tests
  expect of them.

Every concrete lens states in its contract what it focuses, that it obeys all
three laws, and which sibling fields a write leaves unchanged. `Compose`
states which laws of the parts give each law of the composite.

`over` is imported by the tests (src/lenses.spec.ts:1) but src/lenses.ts
does not define or export it. `UserLenses.Over` is therefore the behaviour
the tests expect, `over(l, f, s) = set(l, f(view(l, s)), s)`, and not a
model of library code.

## Model

| member | source | states |
|---|---|---|
| `Lenses.MakeLens` | src/lenses.ts:9-15 | the lens built has exactly the given getter and setter; there is no precondition, so construction never fails |
| `Lenses.View` | src/lenses.ts:17 | reads the focus through the getter; on a put-get lens, writing the value read back into the same state returns that state |
| `Lenses.Set` | src/lenses.ts:19-20 | writes the new value through the setter; on a get-put lens the result's focus is the new value, and on a put-put lens any later write on the result gives what it gives on the old state |
| `Lenses.ViewOfMakeLens` | src/lenses.ts:9-17 | viewing through `lens(g, s)` is `g` applied to the state |
| `Lenses.SetOfMakeLens` | src/lenses.ts:9-20 | setting through `lens(g, s)` is `s` applied to the new value, passed on unchanged, and the state |
| `Lenses.SetIsIdentityIff` | src/lenses.ts:17-20 | for a lens obeying get-put and put-get, a write returns a state equal to the old one exactly when it writes the value already in focus |
| `Lenses.IgnoringSetterBreaksGetPut` | src/lenses.ts:9-15 | the factory checks no law: a lens whose setter ignores the value is accepted and breaks get-put |
| `UserLenses.NameLens` | src/lenses.spec.ts:16-19 | views the user's name; a write keeps the address; obeys get-put, put-get and put-put |
| `UserLenses.CityLens` | src/lenses.spec.ts:20-26 | views the user's city; a write keeps the name and the zip code; obeys all three laws |
| `UserLenses.UserLens` | src/lenses.spec.ts:70-73 | views the state's user; a write keeps `meta`; obeys all three laws |
| `UserLenses.DeepCityLens` | src/lenses.spec.ts:83-87 | views `user.address.city`; a write keeps `meta`, the user's name and the zip code; obeys all three laws |
| `UserLenses.Compose` | src/lenses.spec.ts:83-87 | the pattern of the hand-built composition: get-put of both parts gives get-put, put-get of both gives put-get, and get-put and put-put of the outer lens with put-put of the inner give put-put |
| `UserLenses.DeepCityIsComposition` | src/lenses.spec.ts:83-87 | the hand-built deep city lens views and writes exactly as the composition of the user lens and the city lens |
| `UserLenses.RebuiltCityLensLawfulIff` | src/lenses.spec.ts:22-25 | for a hypothetical city setter, not in the tests, that rebuilds the address with a zip code computed by any function: it obeys put-get, and is lawful, exactly when that function returns the user's own zip code; this is what the copy of the address in the city lens preserves |
| `UserLenses.Over` | src/lenses.spec.ts:43-52 | behaviour the tests expect of `over`, which the library does not define: on a get-put lens the focus afterwards is `f` of the focus before; on a put-get lens, when `f` fixes the current focus, the state is returned unchanged |
| `UserLenses.OverIdentity` | src/lenses.spec.ts:43-52 | a law of the test-derived `over`, promised neither by the tests nor by the library: on a put-get lens, `over` with the identity returns an equal state |
| `UserLenses.OverFusion` | src/lenses.spec.ts:43-52 | a law of the test-derived `over`, promised neither by the tests nor by the library: on a get-put, put-put lens, `over` with `f` then `over` with `g` equals one `over` with `g` after `f` |
| `UserLenses.OverNameLens` | src/lenses.spec.ts:43-52 | `over` through the name lens gives `f` of the old name and the same address |
| `UserLenses.OverDeepCityLens` | src/lenses.spec.ts:107-135 | `over` through the deep city lens transforms the city and keeps `meta`, the name and the zip code |
| `UserLenses.Alice` | src/lenses.spec.ts:3 | the fixture user, a constant with no contract of its own; what the tests expect of it is stated by the fixture lemmas |
| `UserLenses.AliceState` | src/lenses.spec.ts:62-68 | the fixture deep state, whose user is `Alice`; a constant with no contract of its own |
| `UserLenses.ViewAlice` | src/lenses.spec.ts:27-32 | the fixture user's name views as "Alice" and city as "Wonderland" |
| `UserLenses.RenameAlice` | src/lenses.spec.ts:33-42 | renaming the fixture user to "Gerald" gives Gerald with the address unchanged |
| `UserLenses.OverAlice` | src/lenses.spec.ts:43-52 | `over` with upper-casing on the name lens gives "ALICE" with the address unchanged |
| `UserLenses.OverAliceCity` | src/lenses.spec.ts:107-122 | `over` with upper-casing on the deep city lens gives city "WONDERLAND" with everything else unchanged |
| `UserLenses.MoveAliceToOz` | src/lenses.spec.ts:88-105 | setting the deep city of the fixture state to "Oz" gives the expected state, whose city differs from the old one |

## Left out

- MakeLens, View, Set, Over: the getter, the setter and the transform passed by the caller are total, pure Dafny functions. In TypeScript they may throw or have side effects, and `view`, `set` and `over` pass such errors on unchanged; the model has no errors and no side effects.
- Reference identity. The tests check with `toBe` and `not.toBe` that a write allocates new objects on the path to the changed field and shares the rest. Dafny datatypes are values, so the model states sharing only as value equality of the sibling fields; "a new object" has no counterpart.
- Upper-casing (`String.prototype.toUpperCase`). It is a host-library call; `Over` takes any function `A -> A`, and the fixture lemmas take an `upper` function with only the one result each uses.
- The `any` type of `set`'s new value (src/lenses.ts:19). The model types it as the lens's focus type `A`.
- Types without references. `View`, `Set`, `Over` and the law predicates take only type arguments that hold no references (`!new`), so that their contracts can quantify over states and values. Every type the tests use is a plain record of strings.
- `cityLens` is defined twice in the test file (src/lenses.spec.ts:20-26 and 75-81) with the same body; the model has one `CityLens`.
- The test harness (`describe`, `it`, `expect`) and the module's import and export lines.
- `UserLenses.Compose` and the lens-law predicates: the library defines neither. `Compose` is the general form of how the tests build `deepCityLens`, and the laws are the well-behavedness a caller is expected to ensure.
