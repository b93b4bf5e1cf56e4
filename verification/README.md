# Dotted-path completion for a home-listing schema

This project models the completion source of `sample-js-autocomplete`: the
function `createCompletions` in `src/components/CodeEditor.tsx`, its helper
`getDetailString`, and the static schema `HOME_TYPE_STRUCTURE` of
`src/components/jsTypes.ts` that it walks.

When the user types a word such as `home.price.` the source does five things:

1. It takes the text CodeMirror matched before the cursor. It gives no result
   unless that text ends with a dot.
2. It drops the final dot and splits the rest at every dot.
3. It asks that the first part, lower-cased, be `home`.
4. It walks the remaining parts through the schema. It enters a field only
   when that field lists `properties`.
5. It returns one option per entry of the literal it reached, in declaration
   order. Each option carries a label, a type tag and a detail line.

The files:

- `wrappers.dfy` (`Wrappers`): the `Option` type. `None` stands for the
  source's `null` and for an absent optional member.
- `strings.dfy` (`Strings`): the JavaScript string operations the resolver
  uses: `endsWith`, `slice(0, -1)`, `split`, `join` and ASCII `toLowerCase`.
  It also proves that `split` and `join` are inverse to each other.
- `js_types.dfy` (`JsTypes`): the `TypeStructure` record as an ordered
  association list, and `HOME_TYPE_STRUCTURE` as a concrete value. It also
  defines lookup by name, the field a path addresses, per-class field counts
  and nesting depth.
- `js_types_facts.dfy` (`JsTypesFacts`): counts and depths of the concrete
  schema, proved bottom-up, one nested object at a time.
- `code_editor.dfy` (`CodeEditor`): the resolver. `Complete` is the pure
  model. `CreateCompletions` and `Walk` are its loop-based counterparts.
  The general lemmas about navigation, the root check and the options list
  are here too.
- `completion_facts.dfy` (`CompletionFacts`): what the resolver yields on
  `HOME_TYPE_STRUCTURE`. This covers the schema-wide guarantees and the
  results for the words `home.`, `home.bedrooms.`, `home.area.`,
  `home.price.` and `home.price.history.`. It also covers the words that
  give no result.

A word is written `Dotted([root, name, ...])`, the names joined by dots and
followed by the final dot. Option fields are named `name`, `tag` and `detail`
(the source's `label`, `type` and `detail`). A descriptor's `type` is called
`kind` and its `enum` `enumValues`.

## Model

| member | source | states |
|---|---|---|
| Strings.EndsWithChar | src/components/CodeEditor.tsx:12 | a word ends with `.` exactly when it is non-empty and its last character is a dot |
| Strings.DropLast | src/components/CodeEditor.tsx:14 | `slice(0, -1)` keeps everything but the last character: putting that character back gives the word again |
| Strings.Split | src/components/CodeEditor.tsx:14 | `split('.')` yields at least one part, no part contains a dot, and joining the parts with dots gives back the input |
| Strings.SplitWithoutSeparator | src/components/CodeEditor.tsx:14 | a dot-free string splits into itself alone |
| Strings.SplitAfterHead | src/components/CodeEditor.tsx:14 | a dot-free head before the first dot comes off as the first part |
| Strings.SplitOfJoin | src/components/CodeEditor.tsx:14 | splitting the dot-join of dot-free parts gives the parts back, so `split` and `join` are inverse |
| Strings.LowerIsHome | src/components/CodeEditor.tsx:15-17 | `toLowerCase() === 'home'` holds exactly for the sixteen case-spellings of `home` |
| JsTypes.Keys | src/components/jsTypes.ts:2-11 | the keys follow the entries one to one and in order |
| JsTypes.HasKeyIsKeyOf | src/components/jsTypes.ts:2-11 | having an entry of a name is that name being among the keys |
| JsTypes.DistinctKeysPairwise | src/components/jsTypes.ts:2-11 | a literal declares each key once exactly when its key list has no two equal positions |
| JsTypes.LookupFindsEntry | src/components/CodeEditor.tsx:23 | `currentStructure[part]` is absent exactly when no key is `part`, and what it finds is declared under `part` |
| JsTypes.LookupDeclared | src/components/CodeEditor.tsx:23-24 | with distinct keys, looking up the key of any entry finds that entry's field |
| JsTypes.CountOneIsUnique | src/components/jsTypes.ts:14-120 | if exactly one field of a literal is in a class, any two paths to fields of that class are the same path |
| JsTypes.LookupWithinDepth | src/components/jsTypes.ts:14-120 | a field found by name nests no deeper than the literal holding it |
| JsTypesFacts.HomeIsRegular | src/components/jsTypes.ts:14-120 | no field breaks the schema's shape: each array has `arrayType`, each object has `properties`, keys are distinct, `isOptional` and `isArray` are never set |
| JsTypesFacts.HomeHasOneArrayWithProperties | src/components/jsTypes.ts:58-65 | exactly one field is an array that also lists `properties` |
| JsTypesFacts.HomeHasOneEnum | src/components/jsTypes.ts:50 | exactly one field carries an `enum` |
| JsTypesFacts.HomeDepth | src/components/jsTypes.ts:15-29 | `properties` literals nest three deep below the root, as in bedrooms, master, dimensions |
| CodeEditor.Complete | src/components/CodeEditor.tsx:10-38 | a result is given only for a word that ends with a dot, and it replaces from the end of the matched word |
| CodeEditor.CreateCompletions | src/components/CodeEditor.tsx:10-38 | the method returns exactly what `Complete` defines |
| CodeEditor.Walk | src/components/CodeEditor.tsx:20-28 | the navigation loop reaches exactly the literal `Navigate` defines, or fails exactly when it fails |
| CodeEditor.OptionsFollowEntries | src/components/CodeEditor.tsx:30-36 | one option per entry, in order: the label is the key, the type tag is `interface` exactly for `object` fields and the entry's type otherwise, and the detail is that entry's detail line |
| CodeEditor.NavigateAppend | src/components/CodeEditor.tsx:21-27 | walking `p + q` is walking `p`, then `q` from where `p` ended |
| CodeEditor.NavigateByAt | src/components/CodeEditor.tsx:23-24 | a walk succeeds exactly when the addressed field exists and lists `properties`, whatever its type, and it ends in those `properties` |
| CodeEditor.NavigateWithinDepth | src/components/CodeEditor.tsx:21-27 | each name walked enters one more literal, so a walk is no longer than the depth of the literal it starts from |
| CodeEditor.ResolveOfPath | src/components/CodeEditor.tsx:12-31 | a dotted word whose first part lower-cases to `home` gives the options of wherever the remaining parts lead, or nothing if the walk fails |
| CodeEditor.SegmentsAfterRoot | src/components/CodeEditor.tsx:12-14 | a word `root.rest` ends with a dot exactly when the rest is empty or does, and its parts are the root followed by the parts of the rest |
| CodeEditor.CompleteByRoot | src/components/CodeEditor.tsx:12-31 | completion of `root.rest` agrees with the reference `ByRoot`, which checks the rest's final dot, then the root, then walks the rest |
| CodeEditor.ResolveAfterRoot | src/components/CodeEditor.tsx:15-27 | the root is read off the front of the parts, and only the names after it are walked |
| CodeEditor.ByRootIgnoresCase | src/components/CodeEditor.tsx:15-17 | the reference result depends on the root only through its lower-case form |
| CodeEditor.RootIgnoresCase | src/components/CodeEditor.tsx:14-17 | two roots that lower-case alike give the same result for any rest, so `home.`, `Home.` and `HOME.` agree |
| CodeEditor.OtherRootIsRejected | src/components/CodeEditor.tsx:14-17 | a first part that does not lower-case to `home` gives no result, whatever follows |
| CompletionFacts.HomeTopLevelKeys | src/components/jsTypes.ts:14-120 | the top-level keys, in order, are bedrooms, bathrooms, area, price, location, amenities, yearBuilt, utilities |
| CompletionFacts.HomeTopLevelDistinct | src/components/jsTypes.ts:14-120 | no top-level key is declared twice |
| CompletionFacts.EveryFieldRegular | src/components/jsTypes.ts:14-120 | every field addressed by any path is regular: arrays name an element type, objects list `properties`, every `properties` literal has distinct keys, and the optional flags are unset |
| CompletionFacts.OnlyHistoryIsArrayWithProperties | src/components/jsTypes.ts:58-65 | a field is an array with `properties` exactly when its path is `price.history` |
| CompletionFacts.OnlyUnitsHasEnum | src/components/jsTypes.ts:50 | a field has an `enum` exactly when its path is `area.units`; that enum is `['sqft', 'sqm']` and the field has no `properties` |
| CompletionFacts.DetailOverSchema | src/components/CodeEditor.tsx:40-49 | on every field of the schema an array shows its declared element type plus `[]` (never `undefined[]`), only `area.units` shows `enum: sqft \| sqm`, a field with `properties` shows `object`, and any other field shows its type |
| CompletionFacts.DeepestWalk | src/components/jsTypes.ts:15-29 | `bedrooms.master.dimensions` is a successful walk of three names |
| CompletionFacts.WalksAreShort | src/components/CodeEditor.tsx:21-27 | no successful walk from the root is longer than three names |
| CompletionFacts.LongWordsAreRejected | src/components/CodeEditor.tsx:21-27 | a word naming more than three fields after the root gives no result |
| CompletionFacts.CompleteHome | src/components/CodeEditor.tsx:20-36 | `home.`, in any case, offers the options of every top-level entry, replacing from the end of the word |
| CompletionFacts.HomeOptions | src/components/CodeEditor.tsx:32-36 | `home.` offers eight options, the first `bedrooms` as an interface with detail `object`, the seventh `yearBuilt` as a number |
| CompletionFacts.BedroomsLevel | src/components/jsTypes.ts:15-36 | walking `bedrooms` reaches count, master and additional, shown as number, interface/object and array/`Room[]` |
| CompletionFacts.CompleteBedrooms | src/components/CodeEditor.tsx:10-38 | `home.bedrooms.` offers count, master and additional with their tags and details |
| CompletionFacts.AreaLevel | src/components/jsTypes.ts:45-52 | walking `area` reaches interior, exterior and units, the last shown as `enum: sqft \| sqm` |
| CompletionFacts.CompleteArea | src/components/CodeEditor.tsx:40-44 | `home.area.` offers the enum detail `enum: sqft \| sqm` for units, ahead of its `string` type |
| CompletionFacts.PriceLevel | src/components/jsTypes.ts:53-67 | walking `price` reaches amount, currency and history, the last shown as `object[]` |
| CompletionFacts.CompletePrice | src/components/CodeEditor.tsx:40-42 | `home.price.` shows the history as `object[]` with tag `array`: the array rule wins over `properties` |
| CompletionFacts.HistoryLevel | src/components/CodeEditor.tsx:23-24 | `price.history` is entered although it is an array, and offers date and value |
| CompletionFacts.CompletePriceHistory | src/components/CodeEditor.tsx:21-36 | `home.price.history.` offers date and value, replacing from the end of the word |
| CompletionFacts.LeafWalks | src/components/CodeEditor.tsx:23-26 | walks into `area.units` and `yearBuilt` fail: neither lists `properties` |
| CompletionFacts.UnknownWalks | src/components/CodeEditor.tsx:23-26 | walks into `nope` and the empty name fail: no entry has those names |
| CompletionFacts.LeavesGiveNothing | src/components/CodeEditor.tsx:21-27 | `home.area.units.` and `home.yearBuilt.` give no result |
| CompletionFacts.UnknownNamesGiveNothing | src/components/CodeEditor.tsx:21-27 | `home.nope.` and `home..` give no result |
| CompletionFacts.UnfinishedWordsGiveNothing | src/components/CodeEditor.tsx:11-12 | no match, the empty word, `home` and `home.bed` give no result |
| CompletionFacts.OtherRootsGiveNothing | src/components/CodeEditor.tsx:14-17 | `foo.` and `.` followed by anything give no result, including the empty first part of `.x.` |

## Left out

- The `CodeEditor` React component (src/components/CodeEditor.tsx:52-81) is left out. It only creates and destroys the editor view and holds no completion logic.
- CodeMirror's `context.matchBefore` scan for `[\w.]+\.[\w]*` is left out. The matched word is an input, `None` when nothing matched. The model accepts any text in that input, not only the characters the pattern admits.
- src/components/types.ts is not part of this model. It declares interfaces only.
- Strings.Lower: lower-cases the ASCII letters only, not the full Unicode mapping of `toLowerCase`. The pattern admits only word characters, and all of those are ASCII.
- Word lengths are counted in characters. JavaScript counts UTF-16 code units, which is the same count for the ASCII text the pattern matches.
- Lookup by name is modelled on the literal's own entries. In JavaScript, `currentStructure[part]` also finds inherited names such as `constructor` or `__proto__`. None of those has a `properties` member, so the walk fails on them in both.
- An object literal that declares a key twice keeps its last value, while `JsTypes.Lookup` finds the first. Every literal of `HOME_TYPE_STRUCTURE` declares each key once (`CompletionFacts.HomeTopLevelDistinct`, `CompletionFacts.EveryFieldRegular`), so the two agree on the schema.
- `Complete`, `CreateCompletions` and `Walk` take the schema as a parameter; the source always walks `HOME_TYPE_STRUCTURE`. The lemmas in `CompletionFacts` instantiate it with that constant.
- The source promises that repeated calls on the same input agree, because it reads no mutable state. The model states this by being a pure function; it has no lemma of its own.
- The `CompletionContext` object and the `CompletionResult` fields other than `from` and `options` are left out. The source uses nothing else.
