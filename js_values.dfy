/** The slice of JavaScript's value semantics that the two controllers rely on:
    the values a parsed JSON request body can hold, truthiness, reading a
    property, the `const { data: { ... } = {} } = req.body` destructuring, and
    how a value is spelled inside a template literal. Numbers are integers:
    fractions, NaN and -0 are not modelled. */
module JsValues {

  datatype Option<T> = None | Some(value: T)

  /** A JavaScript value as it can appear in a JSON request body. */
  datatype Value =
    | Undefined
    | Null
    | Bool(b: bool)
    | Num(n: int)
    | Str(s: string)
    | Arr(items: seq<Value>)
    | Obj(props: map<string, Value>)

  /** `!!v`: the falsy values are undefined, null, false, 0 and "".
      Arrays and objects, even empty ones, are truthy. */
  predicate Truthy(v: Value)
  {
    match v
    case Undefined => false
    case Null => false
    case Bool(b) => b
    case Num(n) => n != 0
    case Str(s) => s != ""
    case Arr(_) => true
    case Obj(_) => true
  }

  /** `v[key]` on a value that is not null or undefined, for the field names
      the controllers read (none of them is a property of a primitive or of
      an array). A key the object lacks reads as undefined. */
  function Prop(v: Value, key: string): (r: Value)
    ensures !v.Obj? ==> r == Undefined
    ensures v.Obj? && key !in v.props ==> r == Undefined
  {
    if v.Obj? && key in v.props then v.props[key] else Undefined
  }

  /** The object whose fields `const { data: { ... } = {} } = body` reads:
      `body.data`, or a fresh empty object when `body.data` is undefined.
      None stands for the TypeError the destructuring throws when `body`
      is null or undefined, or `body.data` is null. */
  function DataOf(body: Value): (r: Option<Value>)
    ensures r.None? <==> body.Undefined? || body.Null? || Prop(body, "data").Null?
    ensures r.Some? ==> !r.value.Undefined? && !r.value.Null?
    ensures r.Some? && Prop(body, "data").Undefined? ==> r.value == Obj(map[])
    ensures r.Some? && !Prop(body, "data").Undefined? ==> r.value == Prop(body, "data")
  {
    if body.Undefined? || body.Null? then None
    else
      var data := Prop(body, "data");
      if data.Undefined? then Some(Obj(map[]))
      else if data.Null? then None
      else Some(data)
  }

  /** The decimal spelling of a natural number, most significant digit first. */
  function NatToString(n: nat): (r: string)
    ensures |r| >= 1
    ensures forall i | 0 <= i < |r| :: '0' <= r[i] <= '9'
  {
    if n < 10 then ["0123456789"[n]]
    else NatToString(n / 10) + ["0123456789"[n % 10]]
  }

  /** `String(n)` for an integer. */
  function IntToString(n: int): string
  {
    if n < 0 then "-" + NatToString(-n) else NatToString(n)
  }

  /** `Array.prototype.join(",")` over already-converted elements. */
  function JoinWithCommas(parts: seq<string>): string
  {
    if parts == [] then ""
    else if |parts| == 1 then parts[0]
    else JoinWithCommas(parts[..|parts| - 1]) + "," + parts[|parts| - 1]
  }

  /** `${v}`: how a value is spelled inside a template literal, or None for
      the TypeError the conversion throws. An array is joined with commas,
      its null and undefined elements spelled as empty strings, and it throws
      when one of its other elements does. An object is "[object Object]"
      unless it has an own `toString` key: a JSON body cannot make that key
      callable, the inherited `valueOf` returns the object itself, so no
      primitive is found and the conversion throws. */
  function Display(v: Value): (r: Option<string>)
    ensures !v.Arr? && !v.Obj? ==> r.Some?
    ensures v.Obj? ==> (r.None? <==> "toString" in v.props)
    ensures v.Arr? ==> (r.None? <==> exists i | 0 <= i < |v.items| :: Display(v.items[i]).None?)
    decreases v
  {
    match v
    case Undefined => Some("undefined")
    case Null => Some("null")
    case Bool(b) => Some(if b then "true" else "false")
    case Num(n) => Some(IntToString(n))
    case Str(s) => Some(s)
    case Arr(items) =>
      var parts := seq(|items|, i requires 0 <= i < |items| =>
        if items[i].Undefined? || items[i].Null? then Some("") else Display(items[i]));
      if forall i | 0 <= i < |parts| :: parts[i].Some? then
        // An element that is null or undefined is spelled, so it never throws.
        assert forall i | 0 <= i < |items| :: Display(items[i]).Some? by {
          forall i | 0 <= i < |items| ensures Display(items[i]).Some? {
            assert parts[i].Some?;
          }
        }
        Some(JoinWithCommas(seq(|parts|, i requires 0 <= i < |parts| && parts[i].Some? => parts[i].value)))
      else
        None
    case Obj(props) => if "toString" in props then None else Some("[object Object]")
  }

  /** `t` occurs in `s` starting at index `i`. */
  predicate OccursAt(s: string, t: string, i: int)
  {
    0 <= i <= |s| - |t| && s[i..i + |t|] == t
  }

  /** `s.includes(t)`. */
  ghost predicate Contains(s: string, t: string)
  {
    exists i :: OccursAt(s, t, i)
  }
}
