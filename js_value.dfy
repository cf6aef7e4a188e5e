/**
 * JavaScript values as the data-access layer sees them: JSON documents plus
 * `undefined`, objects that remember the order their own keys were created in,
 * property access, truthiness, spread, template-literal conversion and
 * JSON.stringify.
 */
module JsValue {
  import opened JsString

  /**
   * A JavaScript value. Numbers are integral. An object keeps its own keys in
   * creation order next to the map from key to value; a key may hold
   * `undefined`, which is not the same as the key being absent.
   */
  datatype Value =
    | Undefined
    | Null
    | Bool(b: bool)
    | Num(n: int)
    | Str(s: string)
    | Arr(elems: seq<Value>)
    | Obj(keys: seq<string>, fields: map<string, Value>)

  const EmptyObject: Value := Obj([], map[])

  /** Reading a property of `v` does not throw a TypeError. */
  predicate Readable(v: Value) {
    !v.Undefined? && !v.Null?
  }

  /** `v.k` for a key that is not an array index. */
  function Prop(v: Value, k: string): Value
    requires Readable(v)
  {
    match v
    case Obj(_, f) => if k in f then f[k] else Undefined
    case Arr(e) => if k == "length" then Num(|e|) else Undefined
    case Str(s) => if k == "length" then Num(|s|) else Undefined
    case _ => Undefined
  }

  /** `v[i]`. */
  function At(v: Value, i: nat): Value
    requires Readable(v)
  {
    match v
    case Arr(e) => if i < |e| then e[i] else Undefined
    case Str(s) => if i < |s| then Str([s[i]]) else Undefined
    case Obj(_, f) => var k := IntText(i); if k in f then f[k] else Undefined
    case _ => Undefined
  }

  /** What `if (v)` and `v || w` test. */
  predicate Truthy(v: Value) {
    match v
    case Undefined => false
    case Null => false
    case Bool(b) => b
    case Num(n) => n != 0
    case Str(s) => s != ""
    case _ => true
  }

  /** `{ ...o, [k]: v }`: an existing key keeps its place, a new one goes last. */
  function Put(o: Value, k: string, v: Value): (r: Value)
    requires o.Obj?
    ensures r.Obj? && Prop(r, k) == v
    ensures forall j :: j != k ==> Prop(r, j) == Prop(o, j)
    ensures r.keys == if k in o.keys then o.keys else o.keys + [k]
  {
    Obj(if k in o.keys then o.keys else o.keys + [k], o.fields[k := v])
  }

  /**
   * `{ ...v }`: an object's own properties, in order. Spreading `null`,
   * `undefined` or a primitive yields `{}` (the index keys a string or an array
   * would contribute are not modelled).
   */
  function Spread(v: Value): (r: Value)
    ensures r.Obj?
    ensures v.Obj? ==> r == v
  {
    if v.Obj? then v else EmptyObject
  }

  /** No key occurs twice. */
  predicate Distinct(ks: seq<string>) {
    forall i, j :: 0 <= i < j < |ks| ==> ks[i] != ks[j]
  }

  /**
   * The shape every JavaScript object has: its own keys listed once each,
   * and exactly the keys that hold a value.
   */
  ghost predicate WellFormed(v: Value) {
    v.Obj? ==> Distinct(v.keys) && forall k :: k in v.fields <==> k in v.keys
  }

  /** `{ ...o, [k]: v }` of a well-formed object is well-formed. */
  lemma PutKeepsWellFormed(o: Value, k: string, v: Value)
    requires o.Obj? && WellFormed(o)
    ensures WellFormed(Put(o, k, v))
  {
    var r := Put(o, k, v);
    if k !in o.keys {
      forall i, j | 0 <= i < j < |r.keys| ensures r.keys[i] != r.keys[j] {
        if j == |o.keys| {
          assert r.keys[i] == o.keys[i];
        }
      }
    }
  }

  /** Spreading a well-formed value gives a well-formed object. */
  lemma SpreadKeepsWellFormed(v: Value)
    requires WellFormed(v)
    ensures WellFormed(Spread(v))
  {
  }

  // ---------------------------------------------------------------------------
  // Template-literal conversion: `${v}`
  // ---------------------------------------------------------------------------

  function BoolText(b: bool): string {
    if b then "true" else "false"
  }

  /** `String(v)`, which is what `${v}` inserts. */
  function TemplateText(v: Value): string
    decreases v
  {
    match v
    case Undefined => "undefined"
    case Null => "null"
    case Bool(b) => BoolText(b)
    case Num(n) => IntText(n)
    case Str(s) => s
    case Arr(e) =>
      Join(seq(|e|, i requires 0 <= i < |e| =>
        if e[i].Undefined? || e[i].Null? then "" else TemplateText(e[i])), ",")
    case Obj(_, _) => "[object Object]"
  }

  // ---------------------------------------------------------------------------
  // JSON.stringify
  // ---------------------------------------------------------------------------

  /** The keys of an object that JSON.stringify writes: those not holding `undefined`. */
  function DefinedKeys(ks: seq<string>, f: map<string, Value>): (r: seq<string>)
    ensures forall k :: k in r <==> k in ks && k in f && !f[k].Undefined?
  {
    if ks == [] then []
    else if ks[0] in f && !f[ks[0]].Undefined? then [ks[0]] + DefinedKeys(ks[1..], f)
    else DefinedKeys(ks[1..], f)
  }

  function HexDigit(d: nat): char
    requires d < 16
  {
    "0123456789abcdef"[d]
  }

  /** How JSON.stringify writes one character inside a string literal. */
  function EscapeChar(c: char): string {
    if c == '\"' then "\\\""
    else if c == '\\' then "\\\\"
    else if c == '\U{0008}' then "\\b"
    else if c == '\U{000C}' then "\\f"
    else if c == '\n' then "\\n"
    else if c == '\r' then "\\r"
    else if c == '\t' then "\\t"
    else if c < '\U{0020}' then "\\u00" + [HexDigit(c as int / 16), HexDigit(c as int % 16)]
    else [c]
  }

  function Escape(s: string): string {
    if s == [] then "" else EscapeChar(s[0]) + Escape(s[1..])
  }

  /** A string as a JSON string literal. */
  function Quote(s: string): string {
    "\"" + Escape(s) + "\""
  }

  /**
   * The JSON text of `v`. `undefined` writes as `null`, which is what happens
   * to it as an array element; object properties holding it are skipped.
   */
  function Text(v: Value): string
    decreases v
  {
    match v
    case Undefined => "null"
    case Null => "null"
    case Bool(b) => BoolText(b)
    case Num(n) => IntText(n)
    case Str(s) => Quote(s)
    case Arr(e) =>
      "[" + Join(seq(|e|, i requires 0 <= i < |e| => Text(e[i])), ",") + "]"
    case Obj(ks, f) =>
      var dks := DefinedKeys(ks, f);
      "{" + Join(seq(|dks|, i requires 0 <= i < |dks| => Quote(dks[i]) + ":" + Text(f[dks[i]])), ",") + "}"
  }

  /**
   * `JSON.parse(JSON.stringify(v))`: the document the backend receives when
   * `v` is sent as a request body. Keys holding `undefined` disappear and
   * `undefined` array elements become `null`.
   */
  function Wire(v: Value): (r: Value)
    ensures r.Undefined? <==> v.Undefined?
    decreases v
  {
    match v
    case Arr(e) =>
      Arr(seq(|e|, i requires 0 <= i < |e| => if e[i].Undefined? then Null else Wire(e[i])))
    case Obj(ks, f) =>
      Obj(DefinedKeys(ks, f), map k | k in ks && k in f && !f[k].Undefined? :: Wire(f[k]))
    case _ => v
  }

  /**
   * What the backend reads from property `k` of a sent object: the value
   * itself as sent over the wire, and `undefined` both for a missing key and
   * for a key that held `undefined`.
   */
  lemma WireProp(o: Value, k: string)
    requires o.Obj? && k in o.keys
    ensures Prop(Wire(o), k) == Wire(Prop(o, k))
  {
  }

  /** A sent object keeps no key whose value was `undefined`. */
  lemma WireDropsUndefined(o: Value, k: string)
    requires o.Obj?
    ensures Wire(o).Obj?
    ensures k in Wire(o).fields <==> k in o.keys && k in o.fields && !o.fields[k].Undefined?
  {
  }

  /** Dropping keys from a list without repeats leaves a list without repeats. */
  lemma {:induction false} DefinedKeysDistinct(ks: seq<string>, f: map<string, Value>)
    requires Distinct(ks)
    ensures Distinct(DefinedKeys(ks, f))
  {
    if ks != [] {
      var rest := ks[1..];
      assert Distinct(rest) by {
        forall i, j | 0 <= i < j < |rest| ensures rest[i] != rest[j] {
          assert rest[i] == ks[i + 1] && rest[j] == ks[j + 1];
        }
      }
      DefinedKeysDistinct(rest, f);
      assert ks[0] !in rest by {
        forall i | 0 <= i < |rest| ensures rest[i] != ks[0] {
          assert rest[i] == ks[i + 1];
        }
      }
    }
  }

  /** What the backend parses from a well-formed object is a well-formed object. */
  lemma WireKeepsWellFormed(v: Value)
    requires WellFormed(v)
    ensures WellFormed(Wire(v))
  {
    if v.Obj? {
      DefinedKeysDistinct(v.keys, v.fields);
    }
  }

  /** Wire writes no `undefined` anywhere. */
  predicate NoUndefined(v: Value)
    decreases v
  {
    match v
    case Undefined => false
    case Arr(e) => forall i :: 0 <= i < |e| ==> NoUndefined(e[i])
    case Obj(_, f) => forall k :: k in f ==> NoUndefined(f[k])
    case _ => true
  }

  /** What the backend parses contains no `undefined`, at any depth. */
  lemma {:induction false} WireHasNoUndefined(v: Value)
    requires !v.Undefined?
    ensures NoUndefined(Wire(v))
    decreases v
  {
    match v
    case Arr(e) =>
      var w := Wire(v).elems;
      forall i | 0 <= i < |e| ensures NoUndefined(w[i]) {
        if !e[i].Undefined? {
          WireHasNoUndefined(e[i]);
        }
      }
    case Obj(ks, f) =>
      var g := Wire(v).fields;
      forall k | k in g ensures NoUndefined(g[k]) {
        WireHasNoUndefined(f[k]);
      }
    case _ =>
  }

  /** Filtering keys that all hold defined values keeps every one of them. */
  lemma {:induction false} DefinedKeysKeepsDefined(ks: seq<string>, g: map<string, Value>)
    requires forall k :: k in ks ==> k in g && !g[k].Undefined?
    ensures DefinedKeys(ks, g) == ks
  {
    if ks != [] {
      DefinedKeysKeepsDefined(ks[1..], g);
    }
  }

  /**
   * Serialising what the backend parsed gives the text that was sent:
   * Wire is a faithful reading of JSON.stringify's output.
   */
  lemma {:induction false} WireText(v: Value)
    ensures Text(Wire(v)) == Text(v)
    decreases v, 1
  {
    match v
    case Arr(e) => WireTextArr(v);
    case Obj(_, _) => WireTextObj(v);
    case _ =>
  }

  lemma {:induction false} WireTextArr(v: Value)
    requires v.Arr?
    ensures Text(Wire(v)) == Text(v)
    decreases v, 0
  {
    var e := v.elems;
    var w := Wire(v).elems;
    forall i | 0 <= i < |e| ensures Text(w[i]) == Text(e[i]) {
      if !e[i].Undefined? {
        WireText(e[i]);
      }
    }
    assert seq(|w|, i requires 0 <= i < |w| => Text(w[i]))
        == seq(|e|, i requires 0 <= i < |e| => Text(e[i]));
  }

  lemma {:induction false} WireTextObj(v: Value)
    requires v.Obj?
    ensures Text(Wire(v)) == Text(v)
    decreases v, 0
  {
    var ks, f := v.keys, v.fields;
    var dks := DefinedKeys(ks, f);
    var g := Wire(v).fields;
    DefinedKeysKeepsDefined(dks, g);
    forall i | 0 <= i < |dks| ensures Text(g[dks[i]]) == Text(f[dks[i]]) {
      WireText(f[dks[i]]);
    }
    assert seq(|dks|, i requires 0 <= i < |dks| => Quote(dks[i]) + ":" + Text(g[dks[i]]))
        == seq(|dks|, i requires 0 <= i < |dks| => Quote(dks[i]) + ":" + Text(f[dks[i]]));
  }
}
