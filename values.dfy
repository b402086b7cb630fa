/** Values shared by every module: options, the JavaScript values that travel
    in socket payloads, and the ASCII model of String.prototype.toUpperCase. */
module Values {

  datatype Option<+T> = None | Some(value: T)

  /** The JavaScript values that occur as payload properties: strings and `undefined`.
      Strict equality (===) between such values is Dafny equality. */
  datatype JsValue = Str(s: string) | Undefined

  /** A socket payload: a plain object. A property that is absent reads as `undefined`. */
  type Payload = map<string, JsValue>

  function Prop(p: Payload, key: string): (v: JsValue)
    ensures key !in p ==> v == Undefined
  {
    if key in p then p[key] else Undefined
  }

  /** JavaScript truthiness of a payload value: the empty string and `undefined` are falsy. */
  predicate Truthy(v: JsValue) {
    v.Str? && v.s != ""
  }

  function UpperChar(c: char): (u: char)
    ensures 'a' <= c <= 'z' ==> u as int == c as int - 32
    ensures !('a' <= c <= 'z') ==> u == c
  {
    if 'a' <= c <= 'z' then (c as int - 32) as char else c
  }

  /** toUpperCase, restricted to ASCII letters. */
  function Upper(s: string): (u: string)
    ensures |u| == |s|
    ensures forall i :: 0 <= i < |s| ==> u[i] == UpperChar(s[i])
  {
    seq(|s|, i requires 0 <= i < |s| => UpperChar(s[i]))
  }
}
