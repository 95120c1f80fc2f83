/** JavaScript value semantics that the handlers and pages rely on:
    `undefined`, truthiness (`!x`, `!!x`), string rendering in `+`,
    `toLowerCase` and `includes`. */
module Js {

  datatype Option<+T> = None | Some(value: T)

  /** The dynamically typed JSON values a request body field may hold.
      Numbers are modelled as integers (the source uses floating point). */
  datatype JsValue = Undefined | Null | Bool(b: bool) | Num(n: int) | Str(s: string)

  /** JavaScript truthiness: `false`, `0`, `""`, `null` and `undefined` are falsy. */
  predicate Truthy(v: JsValue)
  {
    match v
    case Undefined => false
    case Null => false
    case Bool(b) => b
    case Num(n) => n != 0
    case Str(s) => s != ""
  }

  /** `!!v`: the boolean coercion of a value. */
  function ToBoolean(v: JsValue): (b: bool)
    ensures b <==> !(v.Undefined? || v.Null? || v == Bool(false) || v == Num(0) || v == Str(""))
  {
    Truthy(v)
  }

  /** `!field` for an optional text field of a JSON body (None is `undefined`). */
  predicate FalsyText(field: Option<string>)
  {
    field.None? || field.value == ""
  }

  /** `!field` for an optional numeric field of a JSON body. */
  predicate FalsyNumber(field: Option<int>)
  {
    field.None? || field.value == 0
  }

  /** How `+` renders an optional string operand: `undefined` becomes the text "undefined". */
  function Render(field: Option<string>): (r: string)
    ensures field.Some? ==> r == field.value
    ensures field.None? ==> r == "undefined"
  {
    match field
    case Some(s) => s
    case None => "undefined"
  }

  /** `toLowerCase` on one character, restricted to ASCII letters. */
  function LowerChar(c: char): (d: char)
    ensures 'A' <= c <= 'Z' ==> 'a' <= d <= 'z' && d as int - c as int == 32
    ensures !('A' <= c <= 'Z') ==> d == c
  {
    if 'A' <= c <= 'Z' then (c as int + 32) as char else c
  }

  /** `toLowerCase` on a string. */
  function Lower(s: string): (r: string)
    ensures |r| == |s|
    ensures forall i :: 0 <= i < |s| ==> r[i] == LowerChar(s[i])
  {
    if s == [] then [] else [LowerChar(s[0])] + Lower(s[1..])
  }

  predicate IsPrefix(p: string, s: string)
  {
    |p| <= |s| && s[..|p|] == p
  }

  /** `s.includes(sub)`: `sub` occurs somewhere in `s`. */
  predicate Includes(s: string, sub: string)
    decreases |s|
  {
    IsPrefix(sub, s) || (s != [] && Includes(s[1..], sub))
  }

  /** `sub` occurs in `s` starting at offset `k`. */
  predicate OccursAt(s: string, sub: string, k: int)
  {
    0 <= k && k + |sub| <= |s| && s[k..k + |sub|] == sub
  }

  /** `includes` agrees with "occurs at some offset". */
  lemma {:induction false} IncludesAt(s: string, sub: string)
    ensures Includes(s, sub) <==> exists k :: OccursAt(s, sub, k)
    decreases |s|
  {
    if Includes(s, sub) {
      if IsPrefix(sub, s) {
        assert OccursAt(s, sub, 0);
      } else {
        IncludesAt(s[1..], sub);
        var k :| OccursAt(s[1..], sub, k);
        assert s[k + 1..k + 1 + |sub|] == s[1..][k..k + |sub|];
        assert OccursAt(s, sub, k + 1);
      }
    }
    if exists k :: OccursAt(s, sub, k) {
      var k :| OccursAt(s, sub, k);
      if k == 0 {
        assert IsPrefix(sub, s);
      } else {
        assert s[1..][k - 1..k - 1 + |sub|] == s[k..k + |sub|];
        assert OccursAt(s[1..], sub, k - 1);
        IncludesAt(s[1..], sub);
      }
    }
  }
}
