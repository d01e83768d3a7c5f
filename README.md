# json-schema-to-jsdoc, modelled in Dafny

`generate(schema, options)` turns a JSON Schema object into the text of a
JSDoc comment:

- an opening `/**` line;
- a description block: the schema's `description` (or "Represents a <id>
  object"), an optional `@description` line with the `title`, and an
  `@name` line with the capitalised `id`;
- when the schema has `properties`, one `@property {type} field - description`
  line per property, with optional fields (those not in `required`) in
  brackets; properties named in `options.ignore` are skipped;
- one `@typedef` block per property that is itself an object with
  properties, each holding that object's own property lines, recursively;
- a closing `*/` line, written only when the schema has `properties`.

Property schemas are normalised first. A `$ref` is followed through a JSON
Pointer into the root schema. `enum` turns the type into `enum`. A type
array becomes `?first` when it holds `"null"`, and otherwise the types
joined by `|`. An object without a description gets a default one.

The project consists of these modules:

- `Wrappers`: `Option` and `Result`.
- `Strings`: the JavaScript string operations used.
- `Json`: a JSON value with JavaScript's reads and coercions: truthiness,
  `ToString`, template interpolation, default parameters, `for...in`
  entries and `Object.keys`.
- `Pointer`: the `json-pointer` package's `get`/`has`, following section 4
  of RFC 6901.
- `Resolver`: `getProp`.
- `Formatters`: `upperFirst`, `writeDescription`, `writeParam` and
  `writeTypeDef`.
- `Properties`: `processProperties`.
- `Generator`: `generate`.
- `Scenario`: one worked example, checked end to end.

`generate` and `processProperties` change local state step by step. They are
modelled as methods with loops (`Generator.Generate`,
`Properties.ProcessProperties`, `Properties.EmitEntries`,
`Properties.AppendAll`). Each method is proved equal to a specification
function: `Generator.Document` and `Properties.PropertiesText`. Lemmas then
state what the source promises about those functions.

`getProp` rewrites the schema node in place. Here it is the pure function
`Resolver.Resolve`, which returns the rewritten node as a new value.

The formatters are pure functions. Each tag line they write is also parsed
back, which shows that the line carries exactly the parts it was built from.

JavaScript exceptions are values of `Json.Thrown`, returned in a `Result`:

- `TypeError`: a read of `null`, a non-string `$ref` or `id`, or a
  `required` value without `includes`.
- `PointerError`: a pointer that `json-pointer` cannot resolve.
- `StackExhausted`: running out of a `fuel` bound. The fuel stands in for
  the unbounded recursion of a cyclic `$ref` graph or typedef nesting.

Three behaviours of the code, which the model keeps:

- The ignore list applies only to the top-level properties. `writeTypeDef`
  calls `processProperties(obj, false)` without options, so a nested
  object's properties are never filtered (index.js:79).
- Whether a property gets a typedef is decided on the resolved schema, after
  any `$ref` has been followed (index.js:45-46).
- The `nested` prefix `.` is never written in practice: the only nested call
  passes `false` (index.js:79). The model keeps the flag as the source does.

## Model

| member | source | states |
|---|---|---|
| Generator.Document | index.js:8-28 | the text `generate` returns or the exception it throws: "" for a falsy or key-less schema, and otherwise a text that opens with the `/**` line |
| Generator.Generate | index.js:8-28 | appending `/**`, the description block, the property text and `*/` step by step gives exactly `Document`: "" for an empty schema, the thrown exception otherwise, or the comment |
| Generator.EmptyExactlyForEmptySchema | index.js:11-13 | the output is "" exactly when the schema is falsy or has no keys |
| Generator.DocumentShape | index.js:15-27 | a non-empty schema's output is `/**` plus the description block, followed by exactly `processProperties`'s text and `*/` when the schema has `properties`, and by nothing when it has none |
| Generator.DocumentFrame | index.js:15-27 | the output starts with `/**` and the description block, whose first line is the summary; it ends in `*/` exactly when `json.has(schema, "/properties")`; without properties it ends right after the `@name` line and an empty comment line (the comment is left open) |
| Generator.ThrowsExactly | index.js:15-23 | `generate` throws exactly when the schema is non-empty and either the `@name` line cannot be written or the property text throws; no partial output is returned |
| Generator.DocumentFuel | index.js:8-28 | more recursion depth never changes an output that did not exhaust it |
| Properties.Includes | index.js:44 | `required.includes(name)` is membership for an array, substring search for a string, and a TypeError for anything else |
| Properties.PropertiesText | index.js:30-61 | the text `processProperties` returns: a schema without `properties` makes `json.get` throw a pointer error for `/properties`; otherwise every kept property's line, then every queued typedef block |
| Properties.EmitAll | index.js:38-53 | the `for...in` loop over the first n entries: the emitted properties in order, at most one per entry, or the first exception |
| Properties.EmitProperty | index.js:43-51 | the loop body for one kept property: its `required` lookup, its resolved schema, and an emitted property carrying its own name and the field `prefix + property` |
| Properties.EmitResolved | index.js:45-51 | the rest of the loop body once the schema is resolved: the emitted property keeps its name and optional flag; a nested object also gets its typedef block |
| Properties.ProcessProperties | index.js:30-61 | the text is every kept property's line in declaration order, then every queued typedef block in the same order; the first exception ends the call |
| Properties.EmitEntries | index.js:38-53 | the loop leaves the text of the emitted lines and the queue of their typedef blocks, or the first exception |
| Properties.EmitNext | index.js:38-52 | one pass skips an ignored name, otherwise appends one line and queues at most one block; an exception is the result of the whole loop |
| Properties.EmitOne | index.js:39-51 | the loop body for a kept property agrees with `EmitProperty` |
| Properties.EmitResolvedProperty | index.js:46-51 | a nested object gets its capitalised name as type and a typedef built from its own property text, without options |
| Properties.Append | index.js:48-51 | appending a property's line and queueing its block keeps the text and queue equal to those of the emitted properties |
| Properties.AppendAll | index.js:54-58 | draining the queue appends the blocks in order |
| Properties.IgnoredStep | index.js:40-41 | an ignored name leaves the emitted properties unchanged |
| Properties.KeptStep | index.js:42-51 | a kept name adds exactly its own emitted property at the end |
| Properties.ThrowStep | index.js:44-50 | an exception thrown for one property is the result of the whole loop |
| Properties.EmittedNext | index.js:48-51 | one more property adds one line to the text and its block, if any, to the end of the queue |
| Properties.EmitAllStops | index.js:38-53 | after an exception, later entries change nothing |
| Properties.EmitAllPrefix | index.js:38-53 | the loop over the first n entries depends only on those entries |
| Properties.EmitPropertyShape | index.js:43-51 | an emitted property has its own name, field `prefix + name`, optional exactly when `required` does not include it, and the resolved schema's type and description; it has a typedef exactly when the resolved schema is an object with properties, and then its type is the capitalised name and the block holds that object's property text |
| Properties.EmitAllKept | index.js:38-53 | the loop emits exactly the names the ignore list keeps, in order, each with its prefix and optional flag |
| Properties.KeptNamesMembers | index.js:40-41 | a name is kept exactly when some entry has it and the ignore list does not name it |
| Properties.IgnoredNotEmitted | index.js:40-41 | an ignored name yields no line and no typedef; every kept name that occurs yields one |
| Properties.IgnoreIsRemoval | index.js:40-41 | looping with the ignore list is looping without it over the kept entries |
| Properties.NoRequiredAllOptional | index.js:33-35 | without `required`, every property is optional and so bracketed |
| Properties.PropertiesTextFuel | index.js:30-61 | more recursion depth never changes a property text that did not exhaust it |
| Properties.EmitAllFuel | index.js:38-53 | the same for the loop |
| Properties.EmitPropertyFuel | index.js:43-51 | the same for one property |
| Properties.EmitResolvedFuel | index.js:46-51 | the same for one resolved property |
| Resolver.Normalize | index.js:83-105 | the default description only for an object without one; `enum` wins over any type; a type array becomes `?first` when it holds "null" and the types joined by a vertical bar otherwise; every other key is kept |
| Resolver.Resolve | index.js:82-108 | null throws; a `$ref` is followed through the root (the result never holds a `$ref`); the resolved type is never an array |
| Resolver.NormalizeTypeStable | index.js:92-105 | normalising a node twice gives it the same type as normalising once, as for a node rewritten in place and visited again |
| Resolver.UnionAlternatives | index.js:101-103 | splitting a union type at its vertical bars gives back the type names |
| Resolver.ReferenceOnly | index.js:87-90 | a reference is resolved from the root and the pointer alone: the node's other keys and the property name do not matter |
| Resolver.ResolvePlain | index.js:82-108 | a node without a `$ref` resolves to its normalisation under the property's own name, so every rule proved of `Normalize` holds of the resolved schema |
| Resolver.FollowReference | index.js:87-90 | a dangling pointer throws; otherwise the target is resolved with the empty property name |
| Resolver.ResolveFuel | index.js:87-90 | more hops never change a resolution that did not exhaust them |
| Formatters.Summary | index.js:64 | the first line of the block: the `description` when it is truthy, and otherwise "Represents a <id> object" with the id interpolated as a template does (`undefined` when missing) |
| Formatters.Title | index.js:65 | a title line is written exactly when `title` is truthy, and it holds that title |
| Formatters.WriteParam | index.js:70-73 | the `@property {type} field - description` line, with the field in brackets when optional; `Formatters.ParamRoundTrip` reads it back |
| Formatters.WriteTypeDef | index.js:75-80 | the typedef block: an empty comment line, the `@typedef` line with the capitalised field, an empty comment line, then the nested property text; `Formatters.TypeDefShape` states its lines |
| Formatters.UpperChar | index.js:111 | lower-case ASCII letters become upper case; every other character is kept |
| Formatters.UpperFirst | index.js:110-112 | same length; the first character upper-cased, the rest unchanged |
| Formatters.UpperFirstIdempotent | index.js:110-112 | capitalising twice is capitalising once |
| Formatters.UpperFirstKeeps | index.js:110-112 | capitalising introduces no character other than an upper-case letter |
| Formatters.IdName | index.js:66 | the `@name` is "" for a missing id, exactly the capitalised id for a string id, and a TypeError otherwise |
| Formatters.WriteDescription | index.js:63-68 | the block fails exactly when the `@name` cannot be written |
| Formatters.DescriptionFrame | index.js:63-68 | the block starts with the summary line and ends with the `@name` line and an empty comment line; for a string id that line names the capitalised id, and without a description the first line is "Represents a <id> object" |
| Formatters.BlockFrame | index.js:64-67 | the same, for any summary, title and name |
| Formatters.HeaderLinesJoin | index.js:64-67 | the block is its lines (summary, title if present, name, empty comment line) joined by line breaks |
| Formatters.DescriptionLines | index.js:63-68 | split at line breaks, the block gives back exactly those lines when no part holds a line break |
| Formatters.AnnotationRoundTrip | index.js:72 | a tag line parses back to its type, name and description |
| Formatters.ParamRoundTrip | index.js:70-73 | a `@property` line parses back to its type, field, description and optional flag; brackets mark exactly the optional fields |
| Formatters.FieldTemplateShape | index.js:71 | an optional field is written in brackets around the field |
| Formatters.TypeDefShape | index.js:75-80 | a typedef block is an empty comment line, a `@typedef` line naming the capitalised field, another empty comment line, then the nested property text |
| Json.FindFirst | index.js:32-34 | a member read yields nothing exactly when no member has the key, and otherwise the first such member's value |
| Json.FindIndex | index.js:32-34 | the member at an index is read when no earlier member has its key |
| Json.SetMember | index.js:84 | after an assignment the key reads the new value, and every other key is unchanged |
| Json.Set | index.js:93 | the same for an object value; other values are unchanged |
| Json.NatToString | index.js:38 | an index is written as a decimal numeral without leading zeros |
| Json.ArrayIndexOfNat | index.js:88 | every index's numeral names that array element in a pointer |
| Pointer.UnescapeEscape | index.js:88 | decoding an escaped key gives the key back |
| Pointer.ParseFormat | index.js:88 | every key path is named by exactly the pointer written for it |
| Pointer.Evaluate | index.js:88 | `json.get`: the empty pointer selects the whole document, and a pointer not starting with `/` selects nothing |
| Pointer.EvaluateFormat | index.js:88 | a formatted pointer selects what walking its keys selects |
| Pointer.MemberPointer | index.js:19 | `/key` selects the member `key` when the key needs no escaping |
| Pointer.EntryReadBack | index.js:38-45 | every key `for...in` visits reads its own value back as `props[property]`, for an object or an array |
| Scenario.UserDescription | index.js:63-68 | for a schema with only an `id` of "user", the block is the default summary and `@name User` |
| Scenario.NameEmitted | index.js:43-48 | a required `string` property is emitted without brackets and with type `string` |
| Scenario.AgeEmitted | index.js:43-48 | an optional `["number", "null"]` property is emitted in brackets with type `?number` |
| Scenario.UserPropertyBlock | index.js:30-61 | the user schema's property text is the `name` line then the `[age]` line, and no typedef |
| Scenario.UserDocument | index.js:8-28 | the whole comment for the user schema, character for character |

## Left out

- The unused `fs` import (index.js:1) has no counterpart.
- `json-pointer` is modelled from section 4 of RFC 6901 rather than from
  its code. Members inherited from `Object.prototype` (such as
  `constructor`) are not found. Walking into `null` is a pointer error
  here, where the library throws a TypeError.
- `rootSchema` is a module-level variable set by each `generate` call. It
  is passed as a parameter instead, so one call cannot affect another. The
  shallow copy `{ ...schema }` is the schema itself here.
- In-place mutation by `getProp` (index.js:84, 93, 99, 102) is not
  modelled. Each visit normalises the node as it was given, and the
  caller's schema is never changed. The source differs wherever a node is
  visited a second time after being rewritten: within one call, when a
  node is reached through a `$ref` or as both a property and a reference
  target; and across calls, when `generate` is called again on the same
  schema object, whose nodes the earlier call rewrote. The type comes out
  the same (`Resolver.NormalizeTypeStable`). The description can differ in
  two ways. A node of type "object" first reached as a `$ref` target keeps
  the default description written then, "Represents a  object" with an
  empty name, because index.js:83 sees a description on every later
  visit; the model's later visit as property `foo` writes "Represents a
  Foo object" instead. And a node typed `["object"]` without a
  description gets none on its first visit, since index.js:83 sees an
  array, but index.js:102 turns its type into "object", so a later visit
  adds "Represents a <name> object". The model normalises every visit as
  if it were the first; the source keeps what the first visit wrote.
- Resolver.Resolve: unbounded recursion on a cyclic `$ref` graph is
  modelled as running out of fuel (`StackExhausted`), not as an endless
  recursion.
- Properties.PropertiesText: nesting of typedef blocks deeper than the fuel
  is modelled as `StackExhausted`. The same fuel also bounds `$ref` hops.
- JavaScript's `for...in` visits integer-like keys first, in ascending
  order, and then the other keys in insertion order. Here an object's
  members are visited in declaration order. Duplicate keys, which a parsed
  JSON object cannot keep, are read first-match.
- Formatters.UpperChar: only ASCII letters are upper-cased. The Unicode case
  mapping of `toUpperCase` is not modelled.
- Numbers are integers. Fractions and exponents are not modelled, nor is
  the JavaScript text of such numbers.
- `undefined` as the schema argument is modelled as `null`. Both give "".
- The options object is modelled by its `ignore` member, the only one read.
  `generate(schema, null)` is not modelled: `Properties.Options` cannot be
  `null`. In the source, `null` replaces the default `{}`, and
  `options.ignore` at index.js:40 throws a TypeError once the schema has a
  property.
- The fallback `|| upperFirst(property)` (index.js:45) is not modelled
  separately. It applies only when `getProp` returns a falsy primitive, and
  reading `type` or `description` of that string gives `undefined` just as
  reading them from the primitive does, so the line is the same.
