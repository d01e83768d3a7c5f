/** `processProperties(schema, nested, options)`: one `@property` line per
    property of `schema.properties` that the ignore list keeps, in
    declaration order, then one `@typedef` block for each of those that
    resolves to an object with properties of its own, in the same order.
    The functions below say what the text is; the method builds it the way
    the source does, appending to a string and queueing typedef blocks. */
module Properties {
  import opened Wrappers
  import opened Strings
  import opened Json
  import opened Formatters
  import opened Resolver

  /** The options record; `ignore` is its only recognised key. */
  datatype Options = Options(ignore: Option<Json>)

  /** `Array.isArray(options.ignore) && options.ignore.includes(name)`. */
  predicate Ignored(opts: Options, name: string) {
    opts.ignore.Some? && opts.ignore.value.JArr? && JStr(name) in opts.ignore.value.items
  }

  /** `required`, or an empty array when the schema has none. */
  function RequiredOf(schema: Json): Json {
    if Get(schema, "required").Some? then Get(schema, "required").value else JArr([])
  }

  /** `required.includes(name)`: membership in an array, a substring test on a
      string, and a TypeError for any other value. */
  function Includes(required: Json, name: string): (r: Result<bool, Thrown>)
    ensures required.JArr? ==> r == Ok(JStr(name) in required.items)
    ensures required.JStr? ==> r == Ok(Contains(required.s, name))
    ensures r.Err? <==> !(required.JArr? || required.JStr?)
  {
    match required
    case JArr(items) => Ok(JStr(name) in items)
    case JStr(s) => Ok(Contains(s, name))
    case _ => Err(TypeError("required.includes is not a function"))
  }

  /** A resolved property that is documented by a typedef block of its own. */
  predicate IsNestedObject(prop: Json) {
    Get(prop, "type") == Some(JStr("object")) && Present(Get(prop, "properties"))
  }

  /** What one kept property contributes: the parts of its `@property` line
      and, for a nested object, its typedef block. */
  datatype Emitted = Emitted(
    name: string, ty: string, field: string, description: string, optional: bool,
    typedef: Option<TypeDef>)

  /** The arguments of one `writeTypeDef` call: the nested object's type, the
      property name, the description and the object's own property text. */
  datatype TypeDef = TypeDef(ty: string, field: string, description: string, body: string)

  function Block(t: TypeDef): string {
    WriteTypeDef(t.ty, t.field, t.description, t.body)
  }

  function Line(e: Emitted): string {
    WriteParam(e.ty, e.field, e.description, e.optional)
  }

  function Lines(es: seq<Emitted>): (lines: seq<string>)
    ensures |lines| == |es| && forall i :: 0 <= i < |es| ==> lines[i] == Line(es[i])
  {
    seq(|es|, i requires 0 <= i < |es| => Line(es[i]))
  }

  /** The typedef blocks, in the order of their properties. */
  function Typedefs(es: seq<Emitted>): seq<string> {
    if es == [] then []
    else Typedefs(es[..|es| - 1]) + (if es[|es| - 1].typedef.Some? then [Block(es[|es| - 1].typedef.value)] else [])
  }

  function Names(es: seq<Emitted>): (names: seq<string>)
    ensures |names| == |es| && forall i :: 0 <= i < |es| ==> names[i] == es[i].name
  {
    seq(|es|, i requires 0 <= i < |es| => es[i].name)
  }

  /** The names of the entries the ignore list keeps, in order. */
  function KeptNames(entries: seq<(string, Json)>, opts: Options): seq<string> {
    if entries == [] then []
    else
      var name := entries[|entries| - 1].0;
      KeptNames(entries[..|entries| - 1], opts) + (if Ignored(opts, name) then [] else [name])
  }

  /** The entries the ignore list keeps, in order. */
  function Kept(entries: seq<(string, Json)>, opts: Options): seq<(string, Json)> {
    if entries == [] then []
    else
      var last := entries[|entries| - 1];
      Kept(entries[..|entries| - 1], opts) + (if Ignored(opts, last.0) then [] else [last])
  }

  const NoOptions := Options(None)

  /** What one call of `processProperties` reads besides its options: the
      root document, the `properties` map, the `required` value and the
      `nested` flag. */
  datatype Level = Level(root: Json, props: Json, required: Json, nested: bool)

  /** The level of `schema`'s own properties. */
  function LevelOf(root: Json, schema: Json, props: Json, nested: bool): Level {
    Level(root, props, RequiredOf(schema), nested)
  }

  /** The body of the loop for one kept property. */
  function EmitProperty(lv: Level, name: string, value: Json, fuel: nat): (r: Result<Emitted, Thrown>)
    ensures r.Ok? ==> r.value.name == name && r.value.field == Field(lv, name)
    decreases fuel, 0, 1
  {
    var inRequired :- Includes(lv.required, name);
    var prop :- Resolve(lv.root, value, UpperFirst(name), fuel);
    EmitResolved(lv, name, prop, !inRequired, fuel)
  }

  /** The rest of the loop body once the property schema is resolved. */
  function EmitResolved(lv: Level, name: string, prop: Json, optional: bool, fuel: nat): (r: Result<Emitted, Thrown>)
    ensures r.Ok? ==> r.value.name == name && r.value.optional == optional
    decreases fuel, 0, 0
  {
    if !IsNestedObject(prop) then
      Ok(Emitted(name, OrEmpty(Get(prop, "type")), Field(lv, name), OrEmpty(Get(prop, "description")), optional, None))
    else if fuel == 0 then Err(StackExhausted)
    else WithTypeDef(lv, name, prop, optional, PropertiesText(lv.root, prop, false, NoOptions, fuel - 1))
  }

  /** `prefix + property`. */
  function Field(lv: Level, name: string): string {
    (if lv.nested then "." else "") + name
  }

  /** A nested object's contribution, once its own property text is known. */
  function WithTypeDef(lv: Level, name: string, prop: Json, optional: bool, body: Result<string, Thrown>)
    : Result<Emitted, Thrown>
  {
    var text :- body;
    var typedef := TypeDef(Interp(Get(prop, "type")), name, OrEmpty(Get(lv.props, "description")), text);
    Ok(Emitted(name, UpperFirst(name), Field(lv, name), OrEmpty(Get(prop, "description")), optional, Some(typedef)))
  }

  /** The loop over the first `n` entries, stopping at the first exception. */
  function EmitAll(lv: Level, opts: Options, entries: seq<(string, Json)>, n: nat, fuel: nat)
    : (r: Result<seq<Emitted>, Thrown>)
    requires n <= |entries|
    ensures r.Ok? ==> |r.value| <= n
    decreases fuel, 1, n
  {
    if n == 0 then Ok([])
    else
      var done :- EmitAll(lv, opts, entries, n - 1, fuel);
      var name := entries[n - 1].0;
      if Ignored(opts, name) then Ok(done)
      else
        var e :- EmitProperty(lv, name, entries[n - 1].1, fuel);
        Ok(done + [e])
  }

  /** The property lines and the typedef queue of the emitted properties. */
  function Rendered(es: seq<Emitted>): (string, seq<string>) {
    (Concat(Lines(es)), Typedefs(es))
  }

  /** The text `processProperties` returns: every property line, then every
      typedef block. */
  function PropertiesText(root: Json, schema: Json, nested: bool, opts: Options, fuel: nat): (r: Result<string, Thrown>)
    ensures Get(schema, "properties").None? ==> r == Err(PointerError("/properties"))
    decreases fuel, 2, 0
  {
    match Get(schema, "properties")
    case None => Err(PointerError("/properties"))
    case Some(props) =>
      var entries := Entries(props);
      var es :- EmitAll(LevelOf(root, schema, props, nested), opts, entries, |entries|, fuel);
      Ok(Concat(Lines(es)) + Concat(Typedefs(es)))
  }

  /** Once the loop has thrown, the later entries change nothing. */
  lemma {:induction false} EmitAllStops(lv: Level, opts: Options, entries: seq<(string, Json)>, k: nat, n: nat, fuel: nat)
    requires k <= n <= |entries|
    requires EmitAll(lv, opts, entries, k, fuel).Err?
    ensures EmitAll(lv, opts, entries, n, fuel) == EmitAll(lv, opts, entries, k, fuel)
    decreases n
  {
    if k < n {
      EmitAllStops(lv, opts, entries, k, n - 1, fuel);
      assert EmitAll(lv, opts, entries, n - 1, fuel).Err?;
    }
  }

  /** The loop over `n` entries reads only those entries. */
  lemma {:induction false} EmitAllPrefix(lv: Level, opts: Options, xs: seq<(string, Json)>, ys: seq<(string, Json)>, n: nat, fuel: nat)
    requires n <= |xs| && n <= |ys| && xs[..n] == ys[..n]
    ensures EmitAll(lv, opts, xs, n, fuel) == EmitAll(lv, opts, ys, n, fuel)
    decreases n
  {
    if n > 0 {
      assert xs[..n - 1] == xs[..n][..n - 1] && ys[..n - 1] == ys[..n][..n - 1];
      assert xs[n - 1] == xs[..n][n - 1] && ys[n - 1] == ys[..n][n - 1];
      EmitAllPrefix(lv, opts, xs, ys, n - 1, fuel);
    }
  }

  lemma ConcatSnoc(parts: seq<string>, x: string)
    ensures Concat(parts + [x]) == Concat(parts) + x
  {
    assert (parts + [x])[..|parts|] == parts;
  }

  /** One more entry of the loop, skipped by the ignore list. */
  lemma IgnoredStep(lv: Level, opts: Options, entries: seq<(string, Json)>, i: nat, fuel: nat, done: seq<Emitted>)
    requires i < |entries| && Ignored(opts, entries[i].0)
    requires EmitAll(lv, opts, entries, i, fuel) == Ok(done)
    ensures EmitAll(lv, opts, entries, i + 1, fuel) == Ok(done)
  {
  }

  /** One more entry of the loop, kept and emitted. */
  lemma KeptStep(lv: Level, opts: Options, entries: seq<(string, Json)>, i: nat, fuel: nat, done: seq<Emitted>, e: Emitted)
    requires i < |entries| && !Ignored(opts, entries[i].0)
    requires EmitAll(lv, opts, entries, i, fuel) == Ok(done)
    requires EmitProperty(lv, entries[i].0, entries[i].1, fuel) == Ok(e)
    ensures EmitAll(lv, opts, entries, i + 1, fuel) == Ok(done + [e])
  {
  }

  /** One more entry of the loop, kept but throwing: the loop's result. */
  lemma ThrowStep(lv: Level, opts: Options, entries: seq<(string, Json)>, i: nat, fuel: nat, done: seq<Emitted>, x: Thrown)
    requires i < |entries| && !Ignored(opts, entries[i].0)
    requires EmitAll(lv, opts, entries, i, fuel) == Ok(done)
    requires EmitProperty(lv, entries[i].0, entries[i].1, fuel) == Err(x)
    ensures EmitAll(lv, opts, entries, |entries|, fuel) == Err(x)
  {
    assert EmitAll(lv, opts, entries, i + 1, fuel) == Err(x);
    EmitAllStops(lv, opts, entries, i + 1, |entries|, fuel);
  }

  /** The text and the queue after one more emitted property. */
  lemma EmittedNext(done: seq<Emitted>, e: Emitted)
    ensures Concat(Lines(done + [e])) == Concat(Lines(done)) + Line(e)
    ensures Typedefs(done + [e]) == Typedefs(done) + (if e.typedef.Some? then [Block(e.typedef.value)] else [])
  {
    assert Lines(done + [e]) == Lines(done) + [Line(e)];
    ConcatSnoc(Lines(done), Line(e));
    assert (done + [e])[..|done|] == done;
  }

  /** What one kept property contributes: its name, its field (with the `.`
      prefix exactly when nested), optional exactly when `required` does not
      include the name, and, read off the resolved schema, its type and
      description; a nested object gets its capitalised name as type and a
      typedef block whose body is the object's own property text, rendered
      without the ignore list. */
  lemma EmitPropertyShape(lv: Level, name: string, value: Json, fuel: nat, e: Emitted)
    requires EmitProperty(lv, name, value, fuel) == Ok(e)
    ensures e.name == name && e.field == (if lv.nested then "." else "") + name
    ensures Includes(lv.required, name) == Ok(!e.optional)
    ensures var prop := Resolve(lv.root, value, UpperFirst(name), fuel);
      prop.Ok? && e.description == OrEmpty(Get(prop.value, "description"))
      && (e.typedef.Some? <==> IsNestedObject(prop.value))
      && (!IsNestedObject(prop.value) ==> e.ty == OrEmpty(Get(prop.value, "type")))
      && (IsNestedObject(prop.value) ==>
            e.ty == UpperFirst(name) && fuel > 0
            && PropertiesText(lv.root, prop.value, false, NoOptions, fuel - 1).Ok?
            && e.typedef.value == TypeDef("object", name, OrEmpty(Get(lv.props, "description")),
                                          PropertiesText(lv.root, prop.value, false, NoOptions, fuel - 1).value))
  {
  }

  /** The loop emits exactly the properties the ignore list keeps, in order,
      each with its field prefix and its optional flag as above. */
  lemma {:induction false} EmitAllKept(lv: Level, opts: Options, entries: seq<(string, Json)>, n: nat, fuel: nat, es: seq<Emitted>)
    requires n <= |entries|
    requires EmitAll(lv, opts, entries, n, fuel) == Ok(es)
    ensures Names(es) == KeptNames(entries[..n], opts)
    ensures forall j :: 0 <= j < |es| ==>
      es[j].field == (if lv.nested then "." else "") + es[j].name && Includes(lv.required, es[j].name) == Ok(!es[j].optional)
    decreases n
  {
    if n > 0 {
      var prev := EmitAll(lv, opts, entries, n - 1, fuel);
      assert prev.Ok?;
      EmitAllKept(lv, opts, entries, n - 1, fuel, prev.value);
      assert entries[..n][..n - 1] == entries[..n - 1];
      if !Ignored(opts, entries[n - 1].0) {
        var e := EmitProperty(lv, entries[n - 1].0, entries[n - 1].1, fuel);
        assert e.Ok? && es == prev.value + [e.value];
        EmitPropertyShape(lv, entries[n - 1].0, entries[n - 1].1, fuel, e.value);
        assert Names(es) == Names(prev.value) + [e.value.name];
      }
    }
  }

  /** A name is kept exactly when some entry has it and the ignore list does
      not name it. */
  lemma {:induction false} KeptNamesMembers(entries: seq<(string, Json)>, opts: Options, name: string)
    ensures name in KeptNames(entries, opts) <==>
      !Ignored(opts, name) && exists k :: 0 <= k < |entries| && entries[k].0 == name
    decreases |entries|
  {
    if entries != [] {
      var init := entries[..|entries| - 1];
      KeptNamesMembers(init, opts, name);
      if exists k :: 0 <= k < |init| && init[k].0 == name {
        var k :| 0 <= k < |init| && init[k].0 == name;
        assert entries[k].0 == name;
      }
      if exists k :: 0 <= k < |entries| && entries[k].0 == name {
        var k :| 0 <= k < |entries| && entries[k].0 == name;
        if k < |init| {
          assert init[k].0 == name;
        }
      }
    }
  }

  /** An ignored name gives neither a property line nor a typedef block, and
      every kept name does. */
  lemma IgnoredNotEmitted(lv: Level, opts: Options, entries: seq<(string, Json)>, fuel: nat, es: seq<Emitted>, name: string)
    requires EmitAll(lv, opts, entries, |entries|, fuel) == Ok(es)
    ensures Ignored(opts, name) ==> forall j :: 0 <= j < |es| ==> es[j].name != name
    ensures !Ignored(opts, name) && (exists k :: 0 <= k < |entries| && entries[k].0 == name) ==>
      exists j :: 0 <= j < |es| && es[j].name == name
  {
    EmitAllKept(lv, opts, entries, |entries|, fuel, es);
    assert entries[..|entries|] == entries;
    KeptNamesMembers(entries, opts, name);
    if Ignored(opts, name) {
      forall j | 0 <= j < |es|
        ensures es[j].name != name
      {
        assert Names(es)[j] == es[j].name;
      }
    }
    if name in KeptNames(entries, opts) {
      var j :| 0 <= j < |Names(es)| && Names(es)[j] == name;
      assert es[j].name == name;
    }
  }

  /** The ignore list acts as removal: looping with it is looping without it
      over the kept entries. */
  lemma {:induction false} IgnoreIsRemoval(lv: Level, opts: Options, entries: seq<(string, Json)>, fuel: nat)
    ensures EmitAll(lv, opts, entries, |entries|, fuel)
         == EmitAll(lv, NoOptions, Kept(entries, opts), |Kept(entries, opts)|, fuel)
    decreases |entries|
  {
    if entries != [] {
      var n := |entries| - 1;
      var init := entries[..n];
      var kept := Kept(init, opts);
      IgnoreIsRemoval(lv, opts, init, fuel);
      assert init[..n] == entries[..n];
      EmitAllPrefix(lv, opts, entries, init, n, fuel);
      if Ignored(opts, entries[n].0) {
        assert Kept(entries, opts) == kept;
      } else {
        var kept' := kept + [entries[n]];
        assert Kept(entries, opts) == kept';
        assert kept'[..|kept|] == kept[..|kept|] && kept'[|kept|] == entries[n];
        EmitAllPrefix(lv, NoOptions, kept', kept, |kept|, fuel);
      }
    }
  }

  /** Without a `required` key every property is optional, so every field is
      written in brackets. */
  lemma NoRequiredAllOptional(root: Json, schema: Json, props: Json, nested: bool, opts: Options, fuel: nat,
                              es: seq<Emitted>)
    requires Get(schema, "required").None?
    requires EmitAll(LevelOf(root, schema, props, nested), opts, Entries(props), |Entries(props)|, fuel) == Ok(es)
    ensures forall j :: 0 <= j < |es| ==> es[j].optional
  {
    EmitAllKept(LevelOf(root, schema, props, nested), opts, Entries(props), |Entries(props)|, fuel, es);
  }

  /** More fuel changes nothing unless the text ran out of it. */
  lemma {:induction false} PropertiesTextFuel(root: Json, schema: Json, nested: bool, opts: Options, fuel: nat, more: nat)
    requires fuel <= more
    requires PropertiesText(root, schema, nested, opts, fuel) != Err(StackExhausted)
    ensures PropertiesText(root, schema, nested, opts, more) == PropertiesText(root, schema, nested, opts, fuel)
    decreases fuel, 2, 0
  {
    var found := Get(schema, "properties");
    if found.Some? {
      var entries := Entries(found.value);
      EmitAllFuel(LevelOf(root, schema, found.value, nested), opts, entries, |entries|, fuel, more);
    }
  }

  lemma {:induction false} EmitAllFuel(lv: Level, opts: Options, entries: seq<(string, Json)>, n: nat, fuel: nat, more: nat)
    requires n <= |entries| && fuel <= more
    requires EmitAll(lv, opts, entries, n, fuel) != Err(StackExhausted)
    ensures EmitAll(lv, opts, entries, n, more) == EmitAll(lv, opts, entries, n, fuel)
    decreases fuel, 1, n
  {
    if n > 0 {
      var prefix := EmitAll(lv, opts, entries, n - 1, fuel);
      EmitAllFuel(lv, opts, entries, n - 1, fuel, more);
      if prefix.Ok? && !Ignored(opts, entries[n - 1].0) {
        EmitPropertyFuel(lv, entries[n - 1].0, entries[n - 1].1, fuel, more);
      }
    }
  }

  lemma {:induction false} EmitPropertyFuel(lv: Level, name: string, value: Json, fuel: nat, more: nat)
    requires fuel <= more
    requires EmitProperty(lv, name, value, fuel) != Err(StackExhausted)
    ensures EmitProperty(lv, name, value, more) == EmitProperty(lv, name, value, fuel)
    decreases fuel, 0, 1
  {
    var inRequired := Includes(lv.required, name);
    if inRequired.Ok? {
      var resolved := Resolve(lv.root, value, UpperFirst(name), fuel);
      ResolveFuel(lv.root, value, UpperFirst(name), fuel, more);
      if resolved.Ok? {
        EmitResolvedFuel(lv, name, resolved.value, !inRequired.value, fuel, more);
      }
    }
  }

  lemma {:induction false} EmitResolvedFuel(lv: Level, name: string, prop: Json, optional: bool, fuel: nat, more: nat)
    requires fuel <= more
    requires EmitResolved(lv, name, prop, optional, fuel) != Err(StackExhausted)
    ensures EmitResolved(lv, name, prop, optional, more) == EmitResolved(lv, name, prop, optional, fuel)
    decreases fuel, 0, 0
  {
    if IsNestedObject(prop) {
      NestedFuel(lv, name, prop, optional, fuel, more);
    }
  }

  /** The nested-object case of `EmitResolvedFuel`. */
  lemma {:induction false} NestedFuel(lv: Level, name: string, prop: Json, optional: bool, fuel: nat, more: nat)
    requires fuel <= more && IsNestedObject(prop)
    requires EmitResolved(lv, name, prop, optional, fuel) != Err(StackExhausted)
    ensures EmitResolved(lv, name, prop, optional, more) == EmitResolved(lv, name, prop, optional, fuel)
    decreases fuel, 0, 0, 0
  {
    NestedUnfold(lv, name, prop, optional, fuel);
    NestedUnfold(lv, name, prop, optional, more);
    var body := PropertiesText(lv.root, prop, false, NoOptions, fuel - 1);
    ThrowsThrough(lv, name, prop, optional, body);
    PropertiesTextFuel(lv.root, prop, false, NoOptions, fuel - 1, more - 1);
  }

  /** An exception in a nested object's property text is the property's. */
  lemma ThrowsThrough(lv: Level, name: string, prop: Json, optional: bool, body: Result<string, Thrown>)
    ensures body.Err? ==> WithTypeDef(lv, name, prop, optional, body) == Err(body.error)
  {
  }

  /** A nested object: out of fuel it throws, otherwise it is a typedef over
      its own property text. */
  lemma NestedUnfold(lv: Level, name: string, prop: Json, optional: bool, fuel: nat)
    requires IsNestedObject(prop)
    ensures fuel == 0 ==> EmitResolved(lv, name, prop, optional, fuel) == Err(StackExhausted)
    ensures fuel > 0 ==>
      EmitResolved(lv, name, prop, optional, fuel) == WithTypeDef(lv, name, prop, optional, PropertiesText(lv.root, prop, false, NoOptions, fuel - 1))
  {
  }

  /** One pass of the loop body for a property the ignore list keeps: look
      the name up in `required`, then resolve the property schema. */
  method EmitOne(lv: Level, property: string, value: Json, fuel: nat) returns (r: Result<Emitted, Thrown>)
    ensures r == EmitProperty(lv, property, value, fuel)
    decreases fuel, 0, 1
  {
    var inRequired := Includes(lv.required, property);
    if inRequired.Err? {
      return Err(inRequired.error);
    }
    var optional := !inRequired.value;
    var resolved := Resolve(lv.root, value, UpperFirst(property), fuel);
    if resolved.Err? {
      return Err(resolved.error);
    }
    r := EmitResolvedProperty(lv, property, resolved.value, optional, fuel);
  }

  /** The rest of the loop body: the line's parts and, for a nested object,
      its typedef block (recursing into its own properties, without options). */
  method EmitResolvedProperty(lv: Level, property: string, prop: Json, optional: bool, fuel: nat)
    returns (r: Result<Emitted, Thrown>)
    ensures r == EmitResolved(lv, property, prop, optional, fuel)
    decreases fuel, 0, 0
  {
    var prefix := if lv.nested then "." else "";
    var objType := IsNestedObject(prop);
    var ty := if objType then UpperFirst(property) else OrEmpty(Get(prop, "type"));
    var e := Emitted(property, ty, prefix + property, OrEmpty(Get(prop, "description")), optional, None);
    if objType {
      if fuel == 0 {
        return Err(StackExhausted);
      }
      var body := ProcessProperties(lv.root, prop, false, NoOptions, fuel - 1);
      if body.Err? {
        return Err(body.error);
      }
      e := e.(typedef := Some(TypeDef(Interp(Get(prop, "type")), property, OrEmpty(Get(lv.props, "description")), body.value)));
    }
    return Ok(e);
  }

  /** `objDefs.forEach(objDef => { text += objDef; })`. */
  method AppendAll(text: string, objDefs: seq<string>) returns (t: string)
    ensures t == text + Concat(objDefs)
  {
    t := text;
    var j := 0;
    while j < |objDefs|
      invariant 0 <= j <= |objDefs|
      invariant t == text + Concat(objDefs[..j])
    {
      t := t + objDefs[j];
      assert objDefs[..j + 1][..j] == objDefs[..j];
      j := j + 1;
    }
    assert objDefs[..j] == objDefs;
  }

  /** The loop of `processProperties`: walks the entries in order, appends
      each kept property's line to the text and queues each nested object's
      typedef block; the first exception ends the loop. */
  method EmitEntries(lv: Level, opts: Options, entries: seq<(string, Json)>, fuel: nat)
    returns (r: Result<(string, seq<string>), Thrown>)
    ensures r == match EmitAll(lv, opts, entries, |entries|, fuel)
                 case Ok(es) => Ok(Rendered(es))
                 case Err(x) => Err(x)
    decreases fuel, 1, 1
  {
    var state := ("", []);
    ghost var done: seq<Emitted> := [];
    var i := 0;
    while i < |entries|
      invariant 0 <= i <= |entries|
      invariant EmitAll(lv, opts, entries, i, fuel) == Ok(done)
      invariant state == Rendered(done)
    {
      var next;
      next, done := EmitNext(lv, opts, entries, i, fuel, state, done);
      if next.Err? {
        return Err(next.error);
      }
      state := next.value;
      i := i + 1;
    }
    return Ok(state);
  }

  /** One pass of the loop: skip an ignored name, otherwise append the
      property's line and queue its typedef block, if any. */
  method EmitNext(lv: Level, opts: Options, entries: seq<(string, Json)>, i: nat, fuel: nat,
                  state: (string, seq<string>), ghost done: seq<Emitted>)
    returns (r: Result<(string, seq<string>), Thrown>, ghost done': seq<Emitted>)
    requires i < |entries|
    requires EmitAll(lv, opts, entries, i, fuel) == Ok(done)
    requires state == Rendered(done)
    ensures r.Ok? ==> EmitAll(lv, opts, entries, i + 1, fuel) == Ok(done') && r.value == Rendered(done')
    ensures r.Err? ==> EmitAll(lv, opts, entries, |entries|, fuel) == Err(r.error)
    decreases fuel, 1, 0
  {
    if Ignored(opts, entries[i].0) {
      IgnoredStep(lv, opts, entries, i, fuel, done);
      return Ok(state), done;
    }
    var emitted := EmitOne(lv, entries[i].0, entries[i].1, fuel);
    if emitted.Err? {
      ThrowStep(lv, opts, entries, i, fuel, done, emitted.error);
      return Err(emitted.error), done;
    }
    KeptStep(lv, opts, entries, i, fuel, done, emitted.value);
    var next := Append(state, done, emitted.value);
    return Ok(next), done + [emitted.value];
  }

  /** Appends the line of an emitted property to the text and queues its
      typedef block, if any. */
  method Append(state: (string, seq<string>), ghost done: seq<Emitted>, e: Emitted)
    returns (next: (string, seq<string>))
    requires state == Rendered(done)
    ensures next == Rendered(done + [e])
  {
    var text := state.0 + Line(e);
    var objDefs := state.1;
    if e.typedef.Some? {
      objDefs := objDefs + [Block(e.typedef.value)];
    }
    EmittedNext(done, e);
    assert state.0 == Concat(Lines(done)) && state.1 == Typedefs(done);
    assert text == Concat(Lines(done + [e]));
    assert objDefs == Typedefs(done + [e]);
    next := (text, objDefs);
  }

  /** The method behind `generate`'s property block: the property lines in
      order, then the queued typedef blocks. */
  method ProcessProperties(root: Json, schema: Json, nested: bool, opts: Options, fuel: nat)
    returns (r: Result<string, Thrown>)
    ensures r == PropertiesText(root, schema, nested, opts, fuel)
    decreases fuel, 2, 0
  {
    var found := Get(schema, "properties");
    if found.None? {
      return Err(PointerError("/properties"));
    }
    var props := found.value;
    var emitted := EmitEntries(LevelOf(root, schema, props, nested), opts, Entries(props), fuel);
    if emitted.Err? {
      return Err(emitted.error);
    }
    var text := AppendAll(emitted.value.0, emitted.value.1);
    return Ok(text);
  }
}
