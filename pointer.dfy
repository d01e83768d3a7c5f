/** Evaluation of a JSON Pointer against a document (section 4 of RFC 6901),
    as `json.get(root, pointer)` performs it: the pointer is "" or starts with
    "/", its reference tokens are separated by "/", "~1" stands for "/" and
    "~0" for "~", and each token selects an object member or an array
    element. */
module Pointer {
  import opened Wrappers
  import opened Strings
  import opened Json

  /** Decode one reference token: "~1" is "/" and "~0" is "~". */
  function Unescape(t: string): string
    decreases |t|
  {
    if |t| >= 2 && t[0] == '~' && t[1] == '1' then "/" + Unescape(t[2..])
    else if |t| >= 2 && t[0] == '~' && t[1] == '0' then "~" + Unescape(t[2..])
    else if t == [] then ""
    else [t[0]] + Unescape(t[1..])
  }

  /** Encode a key as a reference token. */
  function Escape(key: string): (t: string)
    ensures '/' !in t
  {
    if key == [] then ""
    else (if key[0] == '~' then "~0" else if key[0] == '/' then "~1" else [key[0]]) + Escape(key[1..])
  }

  lemma {:induction false} UnescapeEscape(key: string)
    ensures Unescape(Escape(key)) == key
  {
    if key != [] {
      var rest := Escape(key[1..]);
      UnescapeEscape(key[1..]);
      if key[0] == '~' {
        assert ("~0" + rest)[2..] == rest;
      } else if key[0] == '/' {
        assert ("~1" + rest)[2..] == rest;
      } else {
        assert ([key[0]] + rest)[1..] == rest;
      }
      assert key == [key[0]] + key[1..];
    }
  }

  function UnescapeAll(ts: seq<string>): (keys: seq<string>)
    ensures |keys| == |ts| && forall i :: 0 <= i < |ts| ==> keys[i] == Unescape(ts[i])
  {
    seq(|ts|, i requires 0 <= i < |ts| => Unescape(ts[i]))
  }

  function EscapeAll(keys: seq<string>): (ts: seq<string>)
    ensures |ts| == |keys| && forall i :: 0 <= i < |keys| ==> ts[i] == Escape(keys[i])
  {
    seq(|keys|, i requires 0 <= i < |keys| => Escape(keys[i]))
  }

  /** The keys a pointer names, or `None` for a malformed pointer. */
  function Parse(pointer: string): Option<seq<string>>
  {
    if pointer == "" then Some([])
    else if pointer[0] != '/' then None
    else Some(UnescapeAll(Split(pointer[1..], '/')))
  }

  /** The pointer naming the given keys. */
  function Format(keys: seq<string>): string
  {
    if keys == [] then "" else "/" + JoinWith(EscapeAll(keys), "/")
  }

  /** Every sequence of keys is named by exactly the pointer `Format` writes. */
  lemma ParseFormat(keys: seq<string>)
    ensures Parse(Format(keys)) == Some(keys)
  {
    if keys != [] {
      var ts := EscapeAll(keys);
      var p := Format(keys);
      assert p[0] == '/' && p[1..] == JoinWith(ts, "/");
      SplitJoin(ts, '/');
      forall i | 0 <= i < |keys|
        ensures UnescapeAll(ts)[i] == keys[i]
      {
        UnescapeEscape(keys[i]);
      }
      assert UnescapeAll(Split(p[1..], '/')) == keys;
    }
  }

  /** One reference token applied to a value. Only objects and arrays
      (`typeof v == "object"`) have members; an array also has `length`. */
  function Step(v: Json, key: string): Option<Json>
  {
    match v
    case JObj(members) => Find(members, key)
    case JArr(items) =>
      if key == "length" then Some(JNum(|items|))
      else (match ArrayIndex(key)
        case Some(i) => if i < |items| then Some(items[i]) else None
        case None => None)
    case _ => None
  }

  function Walk(v: Json, keys: seq<string>): Option<Json>
    decreases |keys|
  {
    if keys == [] then Some(v)
    else match Step(v, keys[0])
      case None => None
      case Some(w) => Walk(w, keys[1..])
  }

  /** `json.get(root, pointer)`; `None` where the library throws. */
  function Evaluate(root: Json, pointer: string): (r: Option<Json>)
    ensures pointer == "" ==> r == Some(root)
    ensures pointer != "" && pointer[0] != '/' ==> r.None?
  {
    match Parse(pointer)
    case None => None
    case Some(keys) => Walk(root, keys)
  }

  /** A formatted pointer selects what walking its keys selects; the empty
      pointer selects the whole document. */
  lemma EvaluateFormat(root: Json, keys: seq<string>)
    ensures Evaluate(root, Format(keys)) == Walk(root, keys)
    ensures Evaluate(root, "") == Some(root)
  {
    ParseFormat(keys);
  }

  /** A key without "~" or "/" is its own reference token. */
  lemma {:induction false} EscapePlain(key: string)
    requires '~' !in key && '/' !in key
    ensures Escape(key) == key
  {
    if key != [] {
      assert forall c :: c in key[1..] ==> c in key;
      EscapePlain(key[1..]);
      assert key == [key[0]] + key[1..];
    }
  }

  /** The one-token pointer "/key" selects the member `key`, when the key
      needs no escaping. */
  lemma MemberPointer(root: Json, key: string)
    requires '~' !in key && '/' !in key
    ensures Evaluate(root, "/" + key) == Step(root, key)
  {
    EscapePlain(key);
    EvaluateFormat(root, [key]);
    assert Format([key]) == "/" + key;
  }

  /** The keys `for...in` visits read their own values back: an array's
      numerals its elements, an object's keys their members (the first
      member with a key is the one read). */
  lemma EntryReadBack(v: Json, i: nat)
    requires (v.JObj? || v.JArr?) && i < |Entries(v)|
    requires v.JObj? ==> forall j :: 0 <= j < i ==> Entries(v)[j].0 != Entries(v)[i].0
    ensures Step(v, Entries(v)[i].0) == Some(Entries(v)[i].1)
  {
    if v.JObj? {
      FindIndex(v.members, i, v.members[i].0);
    } else {
      ArrayIndexOfNat(i);
    }
  }
}
