/**
 * sys::JsonPrinter: an append-only JSON text emitter. A single flag,
 * "first element", decides whether the next element is preceded by a
 * comma; opening a nested object or array re-arms it.
 *
 * The pure part below describes every call as a value (`Call`) and its
 * effect on the printer's state (`Step`); the class performs the same
 * appends in place and is proved against `Step`.
 */
module Json {
  import opened Wrappers
  import opened Decimal

  /** One call on the printer; `key` is None for the unkeyed overloads. */
  datatype Call =
    | Object(key: Option<string>)
    | Array(key: Option<string>)
    | EndObject
    | EndArray
    | End
    | Str(key: Option<string>, value: string)
    | Number(key: Option<string>, number: int)
    | True(key: Option<string>)
    | False(key: Option<string>)
    | Null(key: Option<string>)

  /** The printer's state: the text so far and the first-element flag. */
  datatype Printer = Printer(text: string, isFirst: bool)

  function Quoted(s: string): string { "\"" + s + "\"" }

  /** `"key": ` as the keyed overloads print it. */
  function KeyText(key: string): string { Quoted(key) + ": " }

  /** The text a call appends after its separator. */
  function Payload(isObject: bool, c: Call): string
  {
    match c
    case Object(Some(k)) => KeyText(k) + "{"
    case Object(None) => "{"
    case Array(Some(k)) => KeyText(k) + "["
    case Array(None) => "["
    case EndObject => "}"
    case EndArray => "]"
    case End => if isObject then "}\n" else "]\n"
    case Str(Some(k), v) => KeyText(k) + Quoted(v)
    case Str(None, v) => Quoted(v)
    case Number(Some(k), n) => KeyText(k) + Quoted(IntText(n))
    case Number(None, n) => Quoted(IntText(n))
    case True(Some(k)) => Quoted(k) + ":true"
    case True(None) => "true"
    case False(Some(k)) => Quoted(k) + ":false"
    case False(None) => ", false"
    case Null(Some(k)) => KeyText(k) + "null"
    case Null(None) => ", null"
  }

  /** Whether the call goes through append_separator. */
  predicate Separated(c: Call)
  {
    !(c.EndObject? || c.EndArray? || c.End?)
  }

  /** Whether the call opens a nested object or array. */
  predicate Opens(c: Call)
  {
    c.Object? || c.Array?
  }

  /** A call that emits one element and nests nothing. */
  predicate Scalar(c: Call)
  {
    Separated(c) && !Opens(c)
  }

  /** The comma append_separator writes: none for the first element. */
  function Separator(isFirst: bool): string
  {
    if isFirst then "" else ","
  }

  function Start(isObject: bool): (p: Printer)
    ensures p.isFirst
  {
    Printer(if isObject then "\n{" else "\n[", true)
  }

  /** The effect of one call on the printer's state. */
  function Step(isObject: bool, p: Printer, c: Call): (q: Printer)
    ensures Opens(c) ==> q.isFirst
    ensures Scalar(c) ==> !q.isFirst
    ensures !Separated(c) ==> q.isFirst == p.isFirst && q.text == p.text + Payload(isObject, c)
    ensures Separated(c) ==> q.text == p.text + Separator(p.isFirst) + Payload(isObject, c)
  {
    var sep := if Separated(c) then Separator(p.isFirst) else "";
    Printer(p.text + sep + Payload(isObject, c),
            if Opens(c) then true else if Separated(c) then false else p.isFirst)
  }

  /** The state after a sequence of calls, from a given state. */
  function RunFrom(isObject: bool, p: Printer, calls: seq<Call>): Printer
    decreases |calls|
  {
    if calls == [] then p
    else RunFrom(isObject, Step(isObject, p, calls[0]), calls[1..])
  }

  /** The state after a sequence of calls on a new printer. */
  function Run(isObject: bool, calls: seq<Call>): Printer
  {
    RunFrom(isObject, Start(isObject), calls)
  }

  /** Output only grows: the text before more calls is a prefix of the text after them. */
  lemma {:induction false} RunFromGrows(isObject: bool, p: Printer, calls: seq<Call>)
    ensures p.text <= RunFrom(isObject, p, calls).text
    decreases |calls|
  {
    if calls != [] {
      var q := Step(isObject, p, calls[0]);
      assert p.text <= q.text;
      RunFromGrows(isObject, q, calls[1..]);
    }
  }

  lemma {:induction false} RunFromAppend(isObject: bool, p: Printer, a: seq<Call>, b: seq<Call>)
    ensures RunFrom(isObject, p, a + b) == RunFrom(isObject, RunFrom(isObject, p, a), b)
    decreases |a|
  {
    if a == [] {
      assert a + b == b;
    } else {
      assert (a + b)[0] == a[0] && (a + b)[1..] == a[1..] + b;
      RunFromAppend(isObject, Step(isObject, p, a[0]), a[1..], b);
    }
  }

  /** The text after some calls is a prefix of the text after any further calls. */
  lemma RunGrows(isObject: bool, a: seq<Call>, b: seq<Call>)
    ensures Run(isObject, a).text <= Run(isObject, a + b).text
  {
    RunFromAppend(isObject, Start(isObject), a, b);
    RunFromGrows(isObject, Run(isObject, a), b);
  }

  /** Each payload preceded by a comma. */
  function CommaEach(isObject: bool, calls: seq<Call>): string
    decreases |calls|
  {
    if calls == [] then "" else "," + Payload(isObject, calls[0]) + CommaEach(isObject, calls[1..])
  }

  /** The payloads separated by commas: `p0,p1,...`. */
  function Joined(isObject: bool, calls: seq<Call>): string
  {
    if calls == [] then "" else Payload(isObject, calls[0]) + CommaEach(isObject, calls[1..])
  }

  /** Every call of `calls` is a scalar one. */
  predicate AllScalar(calls: seq<Call>)
    decreases |calls|
  {
    calls == [] || (Scalar(calls[0]) && AllScalar(calls[1..]))
  }

  /** A scalar call writes its separator and payload and clears the flag. */
  lemma ScalarStep(isObject: bool, p: Printer, c: Call)
    requires Scalar(c)
    ensures Step(isObject, p, c) == Printer(p.text + Separator(p.isFirst) + Payload(isObject, c), false)
  {
  }

  /** Concatenation regrouped; stated on its own so that no payload text is unfolded for it. */
  lemma ConcatAssoc(a: string, b: string, c: string)
    ensures a + b + c == a + (b + c)
  {
  }

  lemma {:induction false} ScalarsAfterFirst(isObject: bool, p: Printer, calls: seq<Call>)
    requires !p.isFirst && AllScalar(calls)
    ensures RunFrom(isObject, p, calls) == Printer(p.text + CommaEach(isObject, calls), false)
    decreases |calls|
  {
    if calls != [] {
      var c, rest := calls[0], calls[1..];
      var pc, tail := Payload(isObject, c), CommaEach(isObject, rest);
      var q := Printer(p.text + "," + pc, false);
      ScalarStep(isObject, p, c);
      ScalarsAfterFirst(isObject, q, rest);
      ConcatAssoc(p.text, ",", pc);
      ConcatAssoc(p.text, "," + pc, tail);
    }
  }

  /**
   * From a state where the first-element flag is set (a new printer, or
   * just after an opening), a run of elements is written with no comma
   * before the first one and exactly one before each later one.
   */
  lemma {:induction false} ScalarsJoined(isObject: bool, p: Printer, calls: seq<Call>)
    requires p.isFirst && AllScalar(calls)
    ensures RunFrom(isObject, p, calls).text == p.text + Joined(isObject, calls)
  {
    if calls == [] {
      assert p.text + Joined(isObject, calls) == p.text + "";
    } else {
      var c, rest := calls[0], calls[1..];
      var pc, tail := Payload(isObject, c), CommaEach(isObject, rest);
      var q := Printer(p.text + pc, false);
      ScalarStep(isObject, p, c);
      assert Separator(p.isFirst) == "";
      assert p.text + "" == p.text;
      ScalarsAfterFirst(isObject, q, rest);
      ConcatAssoc(p.text, pc, tail);
    }
  }

  /** Opening a nested object or array gives its first child no comma. */
  lemma NestedFirstChild(isObject: bool, p: Printer, open: Call, child: Call)
    requires Opens(open) && Separated(child)
    ensures Step(isObject, Step(isObject, p, open), child).text
            == p.text + Separator(p.isFirst) + Payload(isObject, open) + Payload(isObject, child)
  {
  }

  /**
   * The unkeyed false and null carry their own comma on top of the
   * separator's: after one element, append_false() writes ",, false".
   */
  lemma UnkeyedFalseDoubleComma()
    ensures Run(false, [True(None), False(None)]).text == "\n[true,, false"
    ensures Run(false, [Null(None)]).text == "\n[, null"
  {
    assert [True(None), False(None)][1..] == [False(None)];
  }

  class JsonPrinter {
    var text: string
    var isFirst: bool
    const isObject: bool

    function State(): Printer
      reads this
    {
      Printer(text, isFirst)
    }

    /** JsonPrinter(is_object): opens an object or an array. */
    constructor (isObject: bool)
      ensures this.isObject == isObject
      ensures State() == Start(isObject)
    {
      this.isObject := isObject;
      isFirst := true;
      text := if isObject then "\n{" else "\n[";
    }

    method Append(s: string)
      modifies this
      ensures text == old(text) + s && isFirst == old(isFirst)
    {
      text := text + s;
    }

    /** end(): the closing bracket of the kind chosen at construction. */
    method End()
      modifies this
      ensures State() == Step(isObject, old(State()), Call.End)
    {
      if isObject {
        Append("}\n");
      } else {
        Append("]\n");
      }
    }

    /** append_separator(): a comma unless this is the first element; clears the flag. */
    method AppendSeparator()
      modifies this
      ensures text == old(text) + Separator(old(isFirst))
      ensures !isFirst
    {
      if isFirst {
        isFirst := false;
      } else {
        Append(",");
      }
    }

    /** append_object(key). */
    method AppendKeyedObject(key: string)
      modifies this
      ensures State() == Step(isObject, old(State()), Object(Some(key)))
    {
      var str := KeyText(key) + "{";
      AppendSeparator();
      Append(str);
      isFirst := true;
    }

    /** append_array(key). */
    method AppendKeyedArray(key: string)
      modifies this
      ensures State() == Step(isObject, old(State()), Array(Some(key)))
    {
      var str := KeyText(key) + "[";
      AppendSeparator();
      Append(str);
      isFirst := true;
    }

    /** end_object(): the brace alone; the first-element flag is left as it is. */
    method EndObject()
      modifies this
      ensures State() == Step(isObject, old(State()), Call.EndObject)
    {
      Append("}");
    }

    /** end_array(). */
    method EndArray()
      modifies this
      ensures State() == Step(isObject, old(State()), Call.EndArray)
    {
      Append("]");
    }

    /** append_string(key, value). */
    method AppendKeyedString(key: string, value: string)
      modifies this
      ensures State() == Step(isObject, old(State()), Str(Some(key), value))
    {
      var str := KeyText(key) + Quoted(value);
      AppendSeparator();
      Append(str);
    }

    /** append_number(key, number): the number is written in quotes. */
    method AppendKeyedNumber(key: string, number: int)
      modifies this
      ensures State() == Step(isObject, old(State()), Number(Some(key), number))
    {
      var str := KeyText(key) + Quoted(IntText(number));
      AppendSeparator();
      Append(str);
    }

    /** append_true(key). */
    method AppendKeyedTrue(key: string)
      modifies this
      ensures State() == Step(isObject, old(State()), True(Some(key)))
    {
      var str := Quoted(key) + ":true";
      AppendSeparator();
      Append(str);
    }

    /** append_false(key). */
    method AppendKeyedFalse(key: string)
      modifies this
      ensures State() == Step(isObject, old(State()), False(Some(key)))
    {
      var str := Quoted(key) + ":false";
      AppendSeparator();
      Append(str);
    }

    /** append_null(key). */
    method AppendKeyedNull(key: string)
      modifies this
      ensures State() == Step(isObject, old(State()), Null(Some(key)))
    {
      var str := KeyText(key) + "null";
      AppendSeparator();
      Append(str);
    }

    /** append_object(). */
    method AppendObject()
      modifies this
      ensures State() == Step(isObject, old(State()), Object(None))
    {
      AppendSeparator();
      Append("{");
      isFirst := true;
    }

    /** append_array(). */
    method AppendArray()
      modifies this
      ensures State() == Step(isObject, old(State()), Array(None))
    {
      AppendSeparator();
      Append("[");
      isFirst := true;
    }

    /** append_string(value). */
    method AppendString(value: string)
      modifies this
      ensures State() == Step(isObject, old(State()), Str(None, value))
    {
      AppendSeparator();
      Append("\"");
      Append(value);
      Append("\"");
    }

    /** append_number(number). */
    method AppendNumber(number: int)
      modifies this
      ensures State() == Step(isObject, old(State()), Number(None, number))
    {
      var str := Quoted(IntText(number));
      AppendSeparator();
      Append(str);
    }

    /** append_true(). */
    method AppendTrue()
      modifies this
      ensures State() == Step(isObject, old(State()), True(None))
    {
      AppendSeparator();
      Append("true");
    }

    /** append_false(): writes ", false" after the separator. */
    method AppendFalse()
      modifies this
      ensures State() == Step(isObject, old(State()), False(None))
    {
      AppendSeparator();
      Append(", false");
    }

    /** append_null(): writes ", null" after the separator. */
    method AppendNull()
      modifies this
      ensures State() == Step(isObject, old(State()), Null(None))
    {
      AppendSeparator();
      Append(", null");
    }
  }
}
