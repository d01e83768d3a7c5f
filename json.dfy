/** Parsed JSON values as the generator sees them, and the pieces of
    JavaScript semantics it applies to them: property reads (`v.key`),
    assignment of a property, truthiness, `for...in` enumeration,
    `Object.keys(v).length`, and conversion to a string (`${v}`, `+`,
    `Array.prototype.join`). Numbers are integers. */
module Json {
  import opened Wrappers
  import opened Strings

  /** Objects keep their members in declaration order. */
  datatype Json =
    | JNull
    | JBool(b: bool)
    | JNum(n: int)
    | JStr(s: string)
    | JArr(items: seq<Json>)
    | JObj(members: seq<(string, Json)>)

  /** The exceptions the generator can throw. `StackExhausted` stands for the
      unbounded recursion of a cyclic `$ref` graph (a RangeError in JavaScript). */
  datatype Thrown =
    | TypeError(reason: string)
    | PointerError(pointer: string)
    | StackExhausted

  /** The value of the first member named `key`. */
  function Find(members: seq<(string, Json)>, key: string): Option<Json>
  {
    if members == [] then None
    else if members[0].0 == key then Some(members[0].1)
    else Find(members[1..], key)
  }

  /** `Find` yields nothing exactly when no member has the key, and otherwise
      the value of the first member that has it. */
  lemma {:induction false} FindFirst(members: seq<(string, Json)>, key: string)
    ensures Find(members, key).None? <==> forall i :: 0 <= i < |members| ==> members[i].0 != key
    ensures Find(members, key).Some? ==>
      exists i :: (0 <= i < |members| && members[i] == (key, Find(members, key).value)
                   && forall j :: 0 <= j < i ==> members[j].0 != key)
  {
    if members != [] && members[0].0 != key {
      FindFirst(members[1..], key);
      if Find(members, key).Some? {
        var i :| 0 <= i < |members[1..]| && members[1..][i] == (key, Find(members, key).value)
          && forall j :: 0 <= j < i ==> members[1..][j].0 != key;
        assert members[i + 1] == (key, Find(members, key).value);
        forall j | 0 <= j < i + 1
          ensures members[j].0 != key
        {
          if j > 0 {
            assert members[j] == members[1..][j - 1];
          }
        }
      }
      forall i | 0 <= i < |members| && Find(members, key).None?
        ensures members[i].0 != key
      {
        if i > 0 {
          assert members[i] == members[1..][i - 1];
        }
      }
    }
  }

  /** The member at `i` is the one `Find` returns when no earlier member has
      its key. */
  lemma FindIndex(members: seq<(string, Json)>, i: nat, key: string)
    requires i < |members| && members[i].0 == key
    requires forall j :: 0 <= j < i ==> members[j].0 != key
    ensures Find(members, key) == Some(members[i].1)
  {
    FindFirst(members, key);
    var k :| 0 <= k < |members| && members[k] == (key, Find(members, key).value)
      && forall j :: 0 <= j < k ==> members[j].0 != key;
    assert !(k < i) && !(i < k);
  }

  /** `v.key`, where `None` is `undefined`. Arrays, strings and other
      primitives have none of the keywords a schema uses. */
  function Get(v: Json, key: string): Option<Json>
  {
    if v.JObj? then Find(v.members, key) else None
  }

  /** `members[key] = x`: overwrite the member in place, or append it. */
  function SetMember(members: seq<(string, Json)>, key: string, x: Json): (r: seq<(string, Json)>)
    ensures Find(r, key) == Some(x)
    ensures forall k :: k != key ==> Find(r, k) == Find(members, k)
  {
    if members == [] then [(key, x)]
    else if members[0].0 == key then [(key, x)] + members[1..]
    else [members[0]] + SetMember(members[1..], key, x)
  }

  /** `v.key = x` on an object; primitives are left as they are. */
  function Set(v: Json, key: string, x: Json): (r: Json)
    ensures v.JObj? ==> r.JObj? && Get(r, key) == Some(x)
    ensures forall k :: k != key ==> Get(r, k) == Get(v, k)
  {
    if v.JObj? then JObj(SetMember(v.members, key, x)) else v
  }

  predicate Truthy(v: Json) {
    match v
    case JNull => false
    case JBool(b) => b
    case JNum(n) => n != 0
    case JStr(s) => s != ""
    case _ => true
  }

  /** A property read that yields a truthy value (`if (v.key)`). */
  predicate Present(o: Option<Json>) {
    o.Some? && Truthy(o.value)
  }

  /** `Object.keys(v).length`. */
  function KeyCount(v: Json): nat {
    match v
    case JObj(members) => |members|
    case JArr(items) => |items|
    case JStr(s) => |s|
    case _ => 0
  }

  function DigitChar(d: nat): (c: char)
    requires d < 10
    ensures '0' <= c <= '9'
  {
    (('0' as int) + d) as char
  }

  predicate IsDigit(c: char) {
    '0' <= c <= '9'
  }

  /** The decimal form of a natural number, as `String(n)` writes it. */
  function NatToString(n: nat): (r: string)
    ensures |r| >= 1 && forall i :: 0 <= i < |r| ==> IsDigit(r[i])
    ensures (r[0] == '0') <==> n == 0
    ensures n == 0 ==> r == "0"
    decreases n
  {
    if n < 10 then [DigitChar(n)] else NatToString(n / 10) + [DigitChar(n % 10)]
  }

  function IntToString(i: int): string {
    if i < 0 then "-" + NatToString(-i) else NatToString(i)
  }

  /** The number a string of decimal digits denotes. */
  function DigitsValue(t: string): nat
    requires forall i :: 0 <= i < |t| ==> IsDigit(t[i])
  {
    if t == [] then 0
    else
      assert IsDigit(t[|t| - 1]);
      DigitsValue(t[..|t| - 1]) * 10 + (t[|t| - 1] as int - '0' as int)
  }

  /** The array index a property key names: a canonical decimal numeral
      (no sign, no leading zero unless it is "0"). */
  function ArrayIndex(t: string): Option<nat>
  {
    if t != [] && (forall i :: 0 <= i < |t| ==> IsDigit(t[i])) && (t[0] != '0' || |t| == 1)
    then Some(DigitsValue(t))
    else None
  }

  lemma {:induction false} DigitsValueOfNat(n: nat)
    ensures DigitsValue(NatToString(n)) == n
    decreases n
  {
    if n >= 10 {
      var t := NatToString(n);
      DigitsValueOfNat(n / 10);
      assert t[..|t| - 1] == NatToString(n / 10);
    }
  }

  /** Every natural number's decimal form is an array key naming it. */
  lemma ArrayIndexOfNat(n: nat)
    ensures ArrayIndex(NatToString(n)) == Some(n)
  {
    DigitsValueOfNat(n);
  }

  /** The members `for...in` visits, with their values: an object's members
      in declaration order, an array's or a string's positions; nothing for
      the other primitives (and none for `null`). */
  function Entries(v: Json): seq<(string, Json)>
  {
    match v
    case JObj(members) => members
    case JArr(items) => seq(|items|, i requires 0 <= i < |items| => (NatToString(i), items[i]))
    case JStr(s) => seq(|s|, i requires 0 <= i < |s| => (NatToString(i), JStr([s[i]])))
    case _ => []
  }

  /** JavaScript's ToString of a value; arrays join their elements with ",". */
  function Text(v: Json): string
    decreases v, 1
  {
    match v
    case JNull => "null"
    case JBool(b) => if b then "true" else "false"
    case JNum(n) => IntToString(n)
    case JStr(s) => s
    case JArr(items) => JoinWith(ElementTexts(items), ",")
    case JObj(_) => "[object Object]"
  }

  /** The element strings `Array.prototype.join` uses: `null` becomes "". */
  function ElementTexts(items: seq<Json>): (r: seq<string>)
    ensures |r| == |items|
    decreases JArr(items), 0
  {
    seq(|items|, i requires 0 <= i < |items| => if items[i].JNull? then "" else Text(items[i]))
  }

  /** A value in a template literal: `undefined` reads "undefined". */
  function Interp(o: Option<Json>): string {
    if o.Some? then Text(o.value) else "undefined"
  }

  /** A value passed for a parameter that defaults to "": `undefined` reads "". */
  function OrEmpty(o: Option<Json>): string {
    if o.Some? then Text(o.value) else ""
  }
}
