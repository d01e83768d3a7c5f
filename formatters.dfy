/** The string builders of the generator: the capitalised name
    (`upperFirst`), the description block at the top of the comment
    (`writeDescription`), one `@property` line (`writeParam`) and a nested
    `@typedef` block (`writeTypeDef`). Each tag line is also parsed back,
    which shows the line carries exactly the parts it was built from. */
module Formatters {
  import opened Wrappers
  import opened Strings
  import opened Json

  /** `toUpperCase` of one character, for ASCII letters. */
  function UpperChar(c: char): (u: char)
    ensures !('a' <= u <= 'z')
    ensures u == c || ('a' <= c <= 'z' && u as int == c as int - 32)
  {
    if 'a' <= c <= 'z' then (c as int - 32) as char else c
  }

  /** `upperFirst(s)`: the first character upper-cased, the rest unchanged. */
  function UpperFirst(s: string): (r: string)
    ensures |r| == |s|
    ensures forall i :: 1 <= i < |s| ==> r[i] == s[i]
    ensures s != [] ==> r[0] == UpperChar(s[0])
  {
    if s == [] then "" else [UpperChar(s[0])] + s[1..]
  }

  /** Capitalising twice is capitalising once. */
  lemma UpperFirstIdempotent(s: string)
    ensures UpperFirst(UpperFirst(s)) == UpperFirst(s)
  {
  }

  /** Capitalising introduces no character that is not already a letter's
      upper case: a character other than an upper-case letter is present
      afterwards only if it was present before. */
  lemma UpperFirstKeeps(s: string, c: char)
    requires !('A' <= c <= 'Z')
    requires c !in s
    ensures c !in UpperFirst(s)
  {
    if s != [] {
      assert UpperFirst(s) == [UpperChar(s[0])] + s[1..];
      assert s[0] in s;
      assert forall x :: x in s[1..] ==> x in s;
    }
  }

  /** `upperFirst(schema.id)`: "" for a missing id, a TypeError for an id
      that is not a string (it has no `substr`). */
  function IdName(schema: Json): (r: Result<string, Thrown>)
    ensures r.Ok? <==> (Get(schema, "id").None? || Get(schema, "id").value.JStr?)
    ensures Get(schema, "id").None? ==> r == Ok("")
    ensures Get(schema, "id").Some? && Get(schema, "id").value.JStr? ==> r == Ok(UpperFirst(Get(schema, "id").value.s))
  {
    match Get(schema, "id")
    case None => Ok("")
    case Some(JStr(s)) => Ok(UpperFirst(s))
    case Some(_) => Err(TypeError("str.substr is not a function"))
  }

  /** The first line's text: the description, or a default naming the id. */
  function Summary(schema: Json): (r: string)
    ensures Present(Get(schema, "description")) ==> r == Text(Get(schema, "description").value)
    ensures !Present(Get(schema, "description")) ==> StartsWith(r, "Represents a ") && EndsWith(r, " object")
    ensures !Present(Get(schema, "description")) ==> r == "Represents a " + Interp(Get(schema, "id")) + " object"
  {
    if Present(Get(schema, "description")) then Text(Get(schema, "description").value)
    else "Represents a " + Interp(Get(schema, "id")) + " object"
  }

  /** The title's text, when the schema has a (truthy) title. */
  function Title(schema: Json): (r: Option<string>)
    ensures r.Some? <==> Present(Get(schema, "title"))
    ensures r.Some? ==> r.value == Text(Get(schema, "title").value)
  {
    if Present(Get(schema, "title")) then Some(Text(Get(schema, "title").value)) else None
  }

  /** `writeDescription(schema)`: the summary, the title, the `@name` line and
      an empty comment line. */
  function WriteDescription(schema: Json): (r: Result<string, Thrown>)
    ensures r.Ok? <==> IdName(schema).Ok?
  {
    var name :- IdName(schema);
    Ok(DescriptionBlock(Summary(schema), Title(schema), name))
  }

  function DescriptionBlock(summary: string, title: Option<string>, name: string): string
  {
    ("  * " + summary) + (TitleLine(title) + NameLines(name))
  }

  function TitleLine(title: Option<string>): string
  {
    if title.Some? then "\n * @description " + title.value else ""
  }

  /** The `@name` line and the empty comment line that close the block. */
  function NameLines(name: string): string
  {
    "\n  * @name " + name + "\n  *\n"
  }

  /** The description block opens with the summary line and closes with the
      capitalised id's `@name` line and an empty comment line. */
  lemma DescriptionFrame(schema: Json, h: string)
    requires WriteDescription(schema) == Ok(h)
    ensures StartsWith(h, "  * " + Summary(schema))
    ensures EndsWith(h, NameLines(IdName(schema).value))
    // the `@name` line holds the capitalised id
    ensures Get(schema, "id").Some? && Get(schema, "id").value.JStr?
      ==> EndsWith(h, NameLines(UpperFirst(Get(schema, "id").value.s)))
    // without a description, the first line names the id
    ensures !Present(Get(schema, "description"))
      ==> StartsWith(h, "  * " + ("Represents a " + Interp(Get(schema, "id")) + " object"))
  {
    BlockFrame(Summary(schema), Title(schema), IdName(schema).value);
  }

  lemma BlockFrame(summary: string, title: Option<string>, name: string)
    ensures StartsWith(DescriptionBlock(summary, title, name), "  * " + summary)
    ensures EndsWith(DescriptionBlock(summary, title, name), NameLines(name))
  {
    var first := "  * " + summary;
    var last := NameLines(name);
    var middle := TitleLine(title);
    var h := first + (middle + last);
    assert h[..|first|] == first;
    assert h == (first + middle) + last;
    assert h[|h| - |last|..] == last;
  }

  /** The lines of the description block: the summary, the title when there
      is one, the name, an empty comment line. */
  function HeaderLines(summary: string, title: Option<string>, name: string): seq<string>
  {
    ["  * " + summary]
    + (if title.Some? then [" * @description " + title.value] else [])
    + ["  * @name " + name, "  *", ""]
  }

  lemma NameLinesJoin(name: string)
    ensures "\n" + JoinWith(["  * @name " + name, "  *", ""], "\n") == NameLines(name)
  {
    var n := "  * @name " + name;
    JoinCons("  *", [""], "\n");
    JoinCons(n, ["  *", ""], "\n");
    assert [n] + ["  *", ""] == [n, "  *", ""];
  }

  lemma HeaderLinesJoin(summary: string, title: Option<string>, name: string)
    ensures JoinWith(HeaderLines(summary, title, name), "\n") == DescriptionBlock(summary, title, name)
  {
    var tail := ["  * @name " + name, "  *", ""];
    var first := "  * " + summary;
    NameLinesJoin(name);
    var rest: seq<string>;
    if title.Some? {
      var t := " * @description " + title.value;
      rest := [t] + tail;
      JoinCons(t, tail, "\n");
    } else {
      rest := tail;
    }
    assert HeaderLines(summary, title, name) == [first] + rest;
    JoinCons(first, rest, "\n");
  }

  lemma HeaderLinesUnbroken(summary: string, title: Option<string>, name: string)
    requires '\n' !in summary && '\n' !in name
    requires title.Some? ==> '\n' !in title.value
    ensures forall i :: 0 <= i < |HeaderLines(summary, title, name)| ==> '\n' !in HeaderLines(summary, title, name)[i]
  {
  }

  /** When none of its parts holds a line break, the description block is
      exactly the summary line, the title line if any, the name line and an
      empty comment line, each ended by a line break. */
  lemma DescriptionLines(schema: Json, h: string)
    requires WriteDescription(schema) == Ok(h)
    requires '\n' !in Summary(schema)
    requires Title(schema).Some? ==> '\n' !in Title(schema).value
    requires '\n' !in IdName(schema).value
    ensures Split(h, '\n') == HeaderLines(Summary(schema), Title(schema), IdName(schema).value)
  {
    var summary, title, name := Summary(schema), Title(schema), IdName(schema).value;
    HeaderLinesJoin(summary, title, name);
    HeaderLinesUnbroken(summary, title, name);
    SplitJoin(HeaderLines(summary, title, name), '\n');
  }

  /** One tag line without its line break: `  * @<tag> {<type>} <name> - <description> `. */
  function Annotation(tag: string, ty: string, name: string, description: string): string
  {
    TagHead(tag) + (ty + "}" + (" " + name + TagTail(description)))
  }

  function TagHead(tag: string): string
  {
    "  * @" + tag + " {"
  }

  function TagTail(description: string): string
  {
    " - " + description + " "
  }

  datatype Tag = Tag(ty: string, name: string, description: string)

  /** Read a tag line back: the type runs to the first `}`, the name to the
      next space, and the description to the final space. */
  function ParseAnnotation(tag: string, line: string): Option<Tag>
  {
    var head := TagHead(tag);
    if !StartsWith(line, head) then None else ParseTyped(line[|head|..])
  }

  function ParseTyped(rest: string): Option<Tag>
  {
    match IndexOf(rest, '}')
    case None => None
    case Some(j) =>
      var after := rest[j + 1..];
      if after == [] || after[0] != ' ' then None else ParseNamed(rest[..j], after[1..])
  }

  function ParseNamed(ty: string, named: string): Option<Tag>
  {
    match IndexOf(named, ' ')
    case None => None
    case Some(k) =>
      var tail := named[k..];
      if |tail| >= 4 && tail[..3] == " - " && tail[|tail| - 1] == ' '
      then Some(Tag(ty, named[..k], tail[3..|tail| - 1]))
      else None
  }

  lemma TagTailShape(description: string)
    ensures var tail := TagTail(description);
      |tail| >= 4 && tail[..3] == " - " && tail[|tail| - 1] == ' ' && tail[3..|tail| - 1] == description
  {
  }

  lemma NamedRoundTrip(ty: string, name: string, description: string)
    requires ' ' !in name
    ensures ParseNamed(ty, name + TagTail(description)) == Some(Tag(ty, name, description))
  {
    var tail := TagTail(description);
    var named := name + tail;
    var rest := "- " + description + " ";
    assert tail == [' '] + rest;
    assert named == name + [' '] + rest;
    IndexOfAfter(name, ' ', rest);
    assert named[|name|..] == tail;
    assert named[..|name|] == name;
    TagTailShape(description);
  }

  lemma TypedRoundTrip(ty: string, name: string, description: string)
    requires '}' !in ty && ' ' !in name
    ensures ParseTyped(ty + "}" + (" " + name + TagTail(description))) == Some(Tag(ty, name, description))
  {
    var named := name + TagTail(description);
    var rest := ty + "}" + (" " + name + TagTail(description));
    assert rest == ty + ['}'] + (" " + named);
    IndexOfAfter(ty, '}', " " + named);
    assert rest[|ty| + 1..] == " " + named && rest[..|ty|] == ty;
    assert (" " + named)[1..] == named;
    NamedRoundTrip(ty, name, description);
  }

  /** A tag line gives back its type, name and description, provided the type
      has no `}` and the name no space. */
  lemma AnnotationRoundTrip(tag: string, ty: string, name: string, description: string)
    requires '}' !in ty && ' ' !in name
    ensures ParseAnnotation(tag, Annotation(tag, ty, name, description)) == Some(Tag(ty, name, description))
  {
    var head := TagHead(tag);
    var body := ty + "}" + (" " + name + TagTail(description));
    assert (head + body)[..|head|] == head && (head + body)[|head|..] == body;
    TypedRoundTrip(ty, name, description);
  }

  /** The field as written: in brackets when the property is optional. */
  function FieldTemplate(field: string, optional: bool): string
  {
    if optional then "[" + field + "]" else field
  }

  /** `writeParam(type, field, description, optional)`. */
  function WriteParam(ty: string, field: string, description: string, optional: bool): (r: string)
  {
    Annotation("property", ty, FieldTemplate(field, optional), description) + "\n"
  }

  datatype Param = Param(ty: string, field: string, description: string, optional: bool)

  predicate Bracketed(name: string) {
    |name| >= 2 && name[0] == '[' && name[|name| - 1] == ']'
  }

  /** Read a `@property` line back; a bracketed name is an optional field. */
  function ParseParam(line: string): Option<Param>
  {
    if line == [] || line[|line| - 1] != '\n' then None
    else match ParseAnnotation("property", line[..|line| - 1])
      case None => None
      case Some(t) =>
        if Bracketed(t.name) then Some(Param(t.ty, t.name[1..|t.name| - 1], t.description, true))
        else Some(Param(t.ty, t.name, t.description, false))
  }

  /** A property line gives back its type, field, description and whether the
      field is optional, provided the type has no `}`, the field no space, and
      a required field is not itself written in brackets. */
  lemma ParamRoundTrip(ty: string, field: string, description: string, optional: bool)
    requires '}' !in ty && ' ' !in field
    requires !optional ==> !Bracketed(field)
    ensures ParseParam(WriteParam(ty, field, description, optional)) == Some(Param(ty, field, description, optional))
  {
    var name := FieldTemplate(field, optional);
    FieldTemplateShape(field, optional);
    var a := Annotation("property", ty, name, description);
    var line := a + "\n";
    assert line[..|line| - 1] == a;
    AnnotationRoundTrip("property", ty, name, description);
  }

  lemma FieldTemplateShape(field: string, optional: bool)
    requires ' ' !in field
    ensures ' ' !in FieldTemplate(field, optional)
    ensures optional ==> Bracketed(FieldTemplate(field, optional))
    ensures optional ==> FieldTemplate(field, optional)[1..|field| + 1] == field
  {
    if optional {
      var name := "[" + field + "]";
      assert name == ['['] + field + [']'];
      assert name[1..|field| + 1] == field;
    }
  }

  /** `writeTypeDef(obj, field, description)` once the nested properties have
      been rendered as `body`: `@typedef {<type>} <Field> - <description>`
      between two empty comment lines, then the body. */
  function WriteTypeDef(ty: string, field: string, description: string, body: string): (r: string)
  {
    " *\n" + Annotation("typedef", ty, UpperFirst(field), description) + "\n *\n " + body
  }

  /** A typedef block opens with an empty comment line and a `@typedef` line
      naming the capitalised field, followed by another empty comment line,
      and it ends with the nested properties' text. */
  lemma {:induction false} TypeDefShape(ty: string, field: string, description: string, body: string)
    requires '}' !in ty && ' ' !in field
    requires '\n' !in ty && '\n' !in field && '\n' !in description
    ensures var lines := Split(WriteTypeDef(ty, field, description, body), '\n');
      |lines| >= 3 && lines[0] == " *" && lines[2] == " *"
      && ParseAnnotation("typedef", lines[1]) == Some(Tag(ty, UpperFirst(field), description))
    ensures EndsWith(WriteTypeDef(ty, field, description, body), body)
  {
    var name := UpperFirst(field);
    UpperFirstKeeps(field, ' ');
    UpperFirstKeeps(field, '\n');
    var a := Annotation("typedef", ty, name, description);
    assert '\n' !in a;
    var block := WriteTypeDef(ty, field, description, body);
    assert block == " *" + ['\n'] + (a + ['\n'] + (" *" + ['\n'] + (" " + body)));
    SplitAtFirst(" *", '\n', a + ['\n'] + (" *" + ['\n'] + (" " + body)));
    SplitAtFirst(a, '\n', " *" + ['\n'] + (" " + body));
    SplitAtFirst(" *", '\n', " " + body);
    AnnotationRoundTrip("typedef", ty, name, description);
    assert block[|block| - |body|..] == body;
  }
}
