/** `getProp(schema, propName)`: the normalised form of one property schema.
    A `$ref` is followed into the root document (the schema `generate` was
    called with) and its target is normalised instead; otherwise an object
    type without a description gets a default one, `enum` turns the type
    into the token "enum", and a type array is flattened to one string. The
    source rewrites the node in place; here the normalised node is returned
    as a new value. */
module Resolver {
  import opened Wrappers
  import opened Strings
  import opened Json
  import Pointer

  /** Does this read of `type` hold an array? */
  predicate IsArrayType(t: Option<Json>) {
    t.Some? && t.value.JArr?
  }

  /** The description a property schema of type "object" receives when it
      has none. */
  function DefaultDescription(propName: string): string {
    "Represents a " + propName + " object"
  }

  /** `schema.type.join("|")`. */
  function Union(items: seq<Json>): string {
    JoinWith(ElementTexts(items), "|")
  }

  /** `?` followed by the first type: the nullable notation. */
  function Nullable(items: seq<Json>): string
    requires items != []
  {
    "?" + Text(items[0])
  }

  /** The normalisation `getProp` applies to a node without `$ref`. */
  function Normalize(node: Json, propName: string): (r: Json)
    ensures forall k :: k != "type" && k != "description" ==> Get(r, k) == Get(node, k)
    ensures node.JObj? ==> r.JObj?
    // default description, decided on the type as it was on entry
    ensures Get(node, "type") == Some(JStr("object")) && !Present(Get(node, "description"))
      ==> Get(r, "description") == Some(JStr(DefaultDescription(propName)))
    ensures !(Get(node, "type") == Some(JStr("object")) && !Present(Get(node, "description")))
      ==> Get(r, "description") == Get(node, "description")
    // enum wins over any type
    ensures Present(Get(node, "enum")) ==> Get(r, "type") == Some(JStr("enum"))
    // a type array holding "null" becomes "?" and its first entry
    ensures !Present(Get(node, "enum")) && IsArrayType(Get(node, "type")) && JStr("null") in Get(node, "type").value.items
      ==> Get(r, "type") == Some(JStr(Nullable(Get(node, "type").value.items)))
    // any other type array becomes its entries joined by "|"
    ensures !Present(Get(node, "enum")) && IsArrayType(Get(node, "type")) && JStr("null") !in Get(node, "type").value.items
      ==> Get(r, "type") == Some(JStr(Union(Get(node, "type").value.items)))
    // a type that is not an array is kept as it is
    ensures !Present(Get(node, "enum")) && !IsArrayType(Get(node, "type")) ==> Get(r, "type") == Get(node, "type")
  {
    var described :=
      if Get(node, "type") == Some(JStr("object")) && !Present(Get(node, "description"))
      then Set(node, "description", JStr(DefaultDescription(propName)))
      else node;
    if Present(Get(described, "enum")) then Set(described, "type", JStr("enum"))
    else match Get(described, "type")
      case Some(JArr(items)) =>
        if JStr("null") in items then Set(described, "type", JStr(Nullable(items)))
        else Set(described, "type", JStr(Union(items)))
      case _ => described
  }

  /** `getProp(node, propName)` with the root threaded through. Each `$ref`
      hop spends one unit of fuel; running out stands for the unbounded
      recursion of a cyclic reference. */
  function Resolve(root: Json, node: Json, propName: string, fuel: nat): (r: Result<Json, Thrown>)
    // the result is never itself a reference, and its type is never an array
    ensures r.Ok? ==> !Present(Get(r.value, "$ref"))
    ensures r.Ok? ==> !IsArrayType(Get(r.value, "type"))
    // reading `type` of null throws
    ensures node.JNull? ==> r.Err?
    decreases fuel
  {
    if node.JNull? then Err(TypeError("Cannot read properties of null"))
    else if Present(Get(node, "$ref")) then
      match Get(node, "$ref")
      case Some(JStr(s)) =>
        if fuel == 0 then Err(StackExhausted)
        else (match Pointer.Evaluate(root, s[1..])
          case None => Err(PointerError(s[1..]))
          case Some(target) => Resolve(root, target, "", fuel - 1))
      case _ => Err(TypeError("$ref.substr is not a function"))
    else Ok(Normalize(node, propName))
  }

  /** Normalising a node twice gives it the type normalising once gave it:
      a node the source reaches a second time (after rewriting it in place)
      gets the same type token. */
  lemma NormalizeTypeStable(node: Json, first: string, second: string)
    ensures Get(Normalize(Normalize(node, first), second), "type") == Get(Normalize(node, first), "type")
  {
  }

  /** A union type lists every alternative in order: splitting it at "|"
      gives back the type names, when they are strings without "|". */
  lemma UnionAlternatives(items: seq<Json>, names: seq<string>)
    requires |items| == |names| >= 1
    requires forall i :: 0 <= i < |items| ==> items[i] == JStr(names[i]) && '|' !in names[i]
    ensures Split(Union(items), '|') == names
  {
    assert ElementTexts(items) == names;
    SplitJoin(names, '|');
  }

  /** A reference is resolved in the root document alone: the other keys of
      the referring node and the name of the property are ignored. */
  lemma ReferenceOnly(root: Json, a: Json, b: Json, nameA: string, nameB: string, fuel: nat)
    requires Present(Get(a, "$ref")) && Get(a, "$ref") == Get(b, "$ref")
    ensures Resolve(root, a, nameA, fuel) == Resolve(root, b, nameB, fuel)
  {
  }

  /** Following a reference: a pointer that does not resolve fails the whole
      resolution, and one that does resolves its target under the empty
      property name. */
  lemma FollowReference(root: Json, node: Json, propName: string, fuel: nat, s: string)
    requires Get(node, "$ref") == Some(JStr(s)) && s != ""
    ensures Pointer.Evaluate(root, s[1..]).None? ==> Resolve(root, node, propName, fuel + 1) == Err(PointerError(s[1..]))
    ensures Pointer.Evaluate(root, s[1..]).Some?
      ==> Resolve(root, node, propName, fuel + 1) == Resolve(root, Pointer.Evaluate(root, s[1..]).value, "", fuel)
  {
  }

  /** A node without a reference resolves to its normalisation under the
      property's own name, whatever the fuel. */
  lemma ResolvePlain(root: Json, node: Json, propName: string, fuel: nat)
    requires !node.JNull? && !Present(Get(node, "$ref"))
    ensures Resolve(root, node, propName, fuel) == Ok(Normalize(node, propName))
  {
  }

  /** More fuel never changes a resolution that did not run out of it. */
  lemma {:induction false} ResolveFuel(root: Json, node: Json, propName: string, fuel: nat, more: nat)
    requires fuel <= more
    requires Resolve(root, node, propName, fuel) != Err(StackExhausted)
    ensures Resolve(root, node, propName, more) == Resolve(root, node, propName, fuel)
    decreases fuel
  {
    if !node.JNull? && Present(Get(node, "$ref")) && Get(node, "$ref").value.JStr? {
      var s := Get(node, "$ref").value.s;
      var target := Pointer.Evaluate(root, s[1..]);
      assert fuel > 0;
      if target.Some? {
        assert Resolve(root, node, propName, fuel) == Resolve(root, target.value, "", fuel - 1);
        ResolveFuel(root, target.value, "", fuel - 1, more - 1);
        assert Resolve(root, node, propName, more) == Resolve(root, target.value, "", more - 1);
      }
    }
  }
}
