// A worked instance of `generate`: a "user" schema with one required string
// property and one optional nullable number.
module Scenario {
  import opened Wrappers
  import opened Strings
  import opened Json
  import opened Formatters
  import opened Resolver
  import opened Properties
  import opened Generator
  import Pointer

  const NameSchema := JObj([("type", JStr("string"))])
  const AgeSchema := JObj([("type", JArr([JStr("number"), JStr("null")]))])
  const UserProperties := JObj([("name", NameSchema), ("age", AgeSchema)])
  const User := JObj([
    ("id", JStr("user")),
    ("properties", UserProperties),
    ("required", JArr([JStr("name")]))])

  const NameLine := "  * @property {string} name -  \n"
  const AgeLine := "  * @property {?number} [age] -  \n"
  const UserHeader := "  * Represents a user object\n  * @name User\n  *\n"

  /** The user schema has an id and neither a description nor a title. */
  lemma UserKeys()
    ensures Get(User, "id") == Some(JStr("user"))
    ensures Get(User, "description") == None && Get(User, "title") == None
  {
    FindFirst(User.members, "description");
    FindFirst(User.members, "title");
  }

  lemma UserNameLines()
    ensures TitleLine(None) + NameLines("User") == "\n  * @name User\n  *\n"
  {
    assert NameLines("User") == "\n  * @name User\n  *\n";
  }

  lemma UserSummaryLine()
    ensures "  * " + "Represents a user object" == "  * Represents a user object"
  {
  }

  lemma HeaderText()
    ensures DescriptionBlock("Represents a user object", None, "User") == UserHeader
  {
    UserNameLines();
    UserSummaryLine();
  }

  /** The description block: the default summary and the capitalised id. */
  lemma UserDescription()
    ensures WriteDescription(User) == Ok(UserHeader)
  {
    UserKeys();
    assert UpperFirst("user") == "User";
    assert Summary(User) == "Represents a user object";
    assert Title(User) == None;
    HeaderText();
  }

  lemma UserRequired()
    ensures RequiredOf(User) == JArr([JStr("name")])
  {
    FindIndex(User.members, 2, "required");
  }

  /** `name` is required and stays a plain string. */
  lemma NameEmitted(lv: Level, fuel: nat)
    requires lv == LevelOf(User, User, UserProperties, false)
    ensures EmitProperty(lv, "name", NameSchema, fuel)
      == Ok(Emitted("name", "string", "name", "", false, None))
  {
    UserRequired();
    assert Get(NameSchema, "$ref") == None && Get(NameSchema, "enum") == None;
    assert Get(NameSchema, "type") == Some(JStr("string"));
    var prop := Normalize(NameSchema, UpperFirst("name"));
    ResolvePlain(User, NameSchema, UpperFirst("name"), fuel);
    assert Get(prop, "type") == Some(JStr("string")) && Get(prop, "description") == None;
    assert !IsNestedObject(prop);
    assert Field(lv, "name") == "name";
    assert EmitResolved(lv, "name", prop, false, fuel) == Ok(Emitted("name", "string", "name", "", false, None));
  }

  /** `age` is optional and its type array with "null" becomes `?number`. */
  lemma AgeEmitted(lv: Level, fuel: nat)
    requires lv == LevelOf(User, User, UserProperties, false)
    ensures EmitProperty(lv, "age", AgeSchema, fuel)
      == Ok(Emitted("age", "?number", "age", "", true, None))
  {
    UserRequired();
    assert Get(AgeSchema, "$ref") == None && Get(AgeSchema, "enum") == None;
    assert Get(AgeSchema, "type") == Some(JArr([JStr("number"), JStr("null")]));
    var prop := Normalize(AgeSchema, UpperFirst("age"));
    ResolvePlain(User, AgeSchema, UpperFirst("age"), fuel);
    assert Nullable([JStr("number"), JStr("null")]) == "?number";
    assert Get(prop, "type") == Some(JStr("?number")) && Get(prop, "description") == None;
    assert !IsNestedObject(prop);
    assert Field(lv, "age") == "age";
    assert EmitResolved(lv, "age", prop, true, fuel) == Ok(Emitted("age", "?number", "age", "", true, None));
  }

  /** A two-entry loop where both entries are kept. */
  lemma EmitAllPair(lv: Level, opts: Options, entries: seq<(string, Json)>, fuel: nat, first: Emitted, second: Emitted)
    requires |entries| == 2 && !Ignored(opts, entries[0].0) && !Ignored(opts, entries[1].0)
    requires EmitProperty(lv, entries[0].0, entries[0].1, fuel) == Ok(first)
    requires EmitProperty(lv, entries[1].0, entries[1].1, fuel) == Ok(second)
    ensures EmitAll(lv, opts, entries, 2, fuel) == Ok([first, second])
  {
    assert EmitAll(lv, opts, entries, 0, fuel) == Ok([]);
    assert [] + [first] == [first] && [first] + [second] == [first, second];
    assert EmitAll(lv, opts, entries, 1, fuel) == Ok([first]);
  }

  /** Two plain properties give their two lines and no typedef. */
  lemma PairText(first: Emitted, second: Emitted)
    requires first.typedef.None? && second.typedef.None?
    ensures Concat(Lines([first, second])) + Concat(Typedefs([first, second])) == Line(first) + Line(second)
  {
    assert [first, second][..1] == [first] && [first][..0] == [];
    assert Lines([first, second]) == [Line(first), Line(second)];
    assert [Line(first), Line(second)][..1] == [Line(first)] && [Line(first)][..0] == [];
    assert Typedefs([first][..0]) == [] && Typedefs([first]) == [];
    assert Typedefs([first, second]) == [];
    assert Concat([Line(first)]) == Line(first);
  }

  lemma NameLineText()
    ensures Line(Emitted("name", "string", "name", "", false, None)) == NameLine
  {
    assert TagTail("") == " -  ";
    assert TagHead("property") == "  * @property {";
    assert " " + "name" + " -  " == " name -  ";
    assert "string" + "}" + " name -  " == "string} name -  ";
    assert "  * @property {" + "string} name -  " + "\n" == NameLine;
  }

  lemma AgeLineText()
    ensures Line(Emitted("age", "?number", "age", "", true, None)) == AgeLine
  {
    assert TagTail("") == " -  ";
    assert TagHead("property") == "  * @property {";
    assert FieldTemplate("age", true) == "[age]";
    assert " " + "[age]" + " -  " == " [age] -  ";
    assert "?number" + "}" + " [age] -  " == "?number} [age] -  ";
    assert "  * @property {" + "?number} [age] -  " + "\n" == AgeLine;
  }

  /** The property block: `name` without brackets, `[age]` with them, and no
      typedef. */
  lemma UserPropertyBlock(fuel: nat)
    ensures PropertiesText(User, User, false, NoOptions, fuel) == Ok(NameLine + AgeLine)
  {
    var lv := LevelOf(User, User, UserProperties, false);
    FindIndex(User.members, 1, "properties");
    var n := Emitted("name", "string", "name", "", false, None);
    var a := Emitted("age", "?number", "age", "", true, None);
    NameEmitted(lv, fuel);
    AgeEmitted(lv, fuel);
    EmitAllPair(lv, NoOptions, Entries(UserProperties), fuel, n, a);
    PairText(n, a);
    NameLineText();
    AgeLineText();
  }

  /** The whole comment for a schema whose pieces are known. */
  lemma DocumentOf(schema: Json, opts: Options, fuel: nat, header: string, body: string)
    requires !IsEmptySchema(schema) && HasProperties(schema)
    requires WriteDescription(schema) == Ok(header)
    requires PropertiesText(schema, schema, false, opts, fuel) == Ok(body)
    ensures Document(schema, opts, fuel) == Ok(Open + header + body + Close)
  {
  }

  /** The user schema is not empty, and `json.has(schema, "/properties")`
      holds for it. */
  lemma UserHasProperties()
    ensures !IsEmptySchema(User) && HasProperties(User)
  {
    assert KeyCount(User) == 3;
    Pointer.MemberPointer(User, "properties");
    FindIndex(User.members, 1, "properties");
  }

  /** The whole comment for the user schema: the opening line, the default
      summary, the `@name` line, `name` as a required string and `[age]` as
      an optional nullable number, then the closing line. */
  lemma UserDocument(fuel: nat)
    ensures Document(User, NoOptions, fuel) == Ok(Open + UserHeader + (NameLine + AgeLine) + Close)
  {
    UserDescription();
    UserHasProperties();
    UserPropertyBlock(fuel);
    DocumentOf(User, NoOptions, fuel, UserHeader, NameLine + AgeLine);
  }
}
