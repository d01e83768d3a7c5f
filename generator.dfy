// `generate(schema, options)`: the whole JSDoc comment for a schema. An
// empty schema gives the empty string; otherwise the comment opens with the
// `Open` line, carries the schema's description block and, when the schema
// has a `properties` key, its property text and the `Close` line. The
// schema itself is the root document every `$ref` is resolved in.
module Generator {
  import opened Wrappers
  import opened Strings
  import opened Json
  import opened Formatters
  import opened Properties
  import Pointer

  /** `!schema || Object.keys(schema).length === 0`. */
  predicate IsEmptySchema(schema: Json) {
    !Truthy(schema) || KeyCount(schema) == 0
  }

  /** `json.has(schema, "/properties")`. */
  predicate HasProperties(schema: Json) {
    Pointer.Evaluate(schema, "/properties").Some?
  }

  // The opening and closing lines of the comment.
  const Open := ['/', '*', '*', '\n']
  const Close := [' ', ' ', '*', '/', '\n']

  /** The text `generate` returns, or the exception it throws. */
  function Document(schema: Json, opts: Options, fuel: nat): (r: Result<string, Thrown>)
    ensures IsEmptySchema(schema) ==> r == Ok("")
    ensures r.Ok? && !IsEmptySchema(schema) ==> StartsWith(r.value, Open)
  {
    if IsEmptySchema(schema) then Ok("")
    else
      var header :- WriteDescription(schema);
      PrefixBefore(Open, header, Open);
      if !HasProperties(schema) then Ok(Open + header)
      else
        var body :- PropertiesText(schema, schema, false, opts, fuel);
        PrefixBefore(Open + header, body, Open);
        PrefixBefore(Open + header + body, Close, Open);
        Ok(Open + header + body + Close)
  }

  /** `generate` as the source writes it: appending to `jsdoc` step by step. */
  method Generate(schema: Json, opts: Options, fuel: nat) returns (r: Result<string, Thrown>)
    ensures r == Document(schema, opts, fuel)
  {
    var jsdoc := "";
    if !Truthy(schema) || KeyCount(schema) == 0 {
      return Ok(jsdoc);
    }
    var root := schema;
    jsdoc := jsdoc + Open;
    var header := WriteDescription(schema);
    if header.Err? {
      return Err(header.error);
    }
    jsdoc := jsdoc + header.value;
    assert jsdoc == Open + header.value;
    if Pointer.Evaluate(schema, "/properties").None? {
      return Ok(jsdoc);
    }
    var body := ProcessProperties(root, schema, false, opts, fuel);
    if body.Err? {
      return Err(body.error);
    }
    jsdoc := jsdoc + body.value;
    jsdoc := jsdoc + Close;
    return Ok(jsdoc);
  }

  /** The output is empty exactly for an empty schema. */
  lemma EmptyExactlyForEmptySchema(schema: Json, opts: Options, fuel: nat)
    ensures Document(schema, opts, fuel) == Ok("") <==> IsEmptySchema(schema)
  {
    var d := Document(schema, opts, fuel);
    if !IsEmptySchema(schema) && d.Ok? {
      assert StartsWith(d.value, Open);
    }
  }

  /** A non-empty schema's output opens with `Open` and the description
      block, whose first line is the summary; the closing line is there
      exactly when the schema has `properties`, and without them the output
      stops right after the `@name` line and its empty comment line. */
  lemma DocumentFrame(schema: Json, opts: Options, fuel: nat, t: string)
    requires Document(schema, opts, fuel) == Ok(t) && !IsEmptySchema(schema)
    ensures WriteDescription(schema).Ok? && StartsWith(t, Open + WriteDescription(schema).value)
    ensures StartsWith(t, Open + "  * " + Summary(schema))
    ensures EndsWith(t, Close) <==> HasProperties(schema)
    ensures !HasProperties(schema) ==> EndsWith(t, NameLines(IdName(schema).value))
  {
    var header := WriteDescription(schema).value;
    var body := DocumentShape(schema, opts, fuel, t);
    DescriptionFrame(schema, header);
    NameLinesTail(IdName(schema).value);
    FrameText(header, "  * ", Summary(schema), NameLines(IdName(schema).value), body, t);
  }

  /** The output of a non-empty schema, piece by piece. */
  lemma DocumentShape(schema: Json, opts: Options, fuel: nat, t: string) returns (body: Option<string>)
    requires Document(schema, opts, fuel) == Ok(t) && !IsEmptySchema(schema)
    ensures WriteDescription(schema).Ok?
    ensures body.Some? <==> HasProperties(schema)
    ensures body.Some? ==> PropertiesText(schema, schema, false, opts, fuel) == Ok(body.value)
    ensures t == if body.Some? then Open + WriteDescription(schema).value + body.value + Close
                 else Open + WriteDescription(schema).value
  {
    body := if HasProperties(schema) then Some(PropertiesText(schema, schema, false, opts, fuel).value) else None;
  }

  /** The `@name` lines end in an empty comment line. */
  lemma NameLinesTail(name: string)
    ensures |NameLines(name)| >= 2 && NameLines(name)[|NameLines(name)| - 2] == '*'
  {
    assert NameLines(name) == "\n  * @name " + name + ['\n', ' ', ' ', '*', '\n'];
  }

  /** The frame of the output, on the strings alone. */
  lemma FrameText(header: string, lead: string, first: string, name: string, body: Option<string>, t: string)
    requires StartsWith(header, lead + first) && EndsWith(header, name)
    requires |name| >= 2 && name[|name| - 2] == '*'
    requires t == if body.Some? then Open + header + body.value + Close else Open + header
    ensures StartsWith(t, Open + header) && StartsWith(t, Open + lead + first)
    ensures EndsWith(t, Close) <==> body.Some?
    ensures body.None? ==> EndsWith(t, name)
  {
    PrefixAfter(Open, header, lead + first);
    assert Open + (lead + first) == Open + lead + first;
    if body.Some? {
      assert t == (Open + header) + (body.value + Close);
      PrefixBefore(Open + header, body.value + Close, Open + header);
      PrefixBefore(Open + header, body.value + Close, Open + lead + first);
      assert t == (Open + header + body.value) + Close;
    } else {
      SuffixAfter(Open, header, name);
      assert t[|t| - 2] == name[|name| - 2];
    }
  }

  /** The call throws exactly when the `@name` line cannot be written or the
      property text throws: a dangling `$ref` anywhere fails the whole call
      and no partial output is returned. */
  lemma ThrowsExactly(schema: Json, opts: Options, fuel: nat)
    ensures Document(schema, opts, fuel).Err? <==>
      !IsEmptySchema(schema)
      && (IdName(schema).Err?
          || (HasProperties(schema) && PropertiesText(schema, schema, false, opts, fuel).Err?))
  {
  }

  /** More fuel changes nothing unless the output ran out of it. */
  lemma DocumentFuel(schema: Json, opts: Options, fuel: nat, more: nat)
    requires fuel <= more && Document(schema, opts, fuel) != Err(StackExhausted)
    ensures Document(schema, opts, more) == Document(schema, opts, fuel)
  {
    if !IsEmptySchema(schema) && WriteDescription(schema).Ok? && HasProperties(schema) {
      PropertiesTextFuel(schema, schema, false, opts, fuel, more);
    }
  }
}
