/**
 * The JavaScript values that flow through the document pipeline: template
 * trees, data payloads and style packs.  An object is an ordered sequence of
 * fields, because JavaScript enumerates own keys in insertion order and the
 * pipeline rebuilds objects key by key.  Function values that templates put
 * into a document tree (page header and footer generators, table layout
 * callbacks) are represented by the finite set of shapes the templates use
 * (`Fun`); module Generators gives their meaning.
 */
module JsValue {
  import opened Wrappers

  datatype Value =
    | Undef
    | Null
    | Bool(b: bool)
    | Num(n: real)
    | Str(s: string)
    | Arr(items: seq<Value>)
    | Obj(fields: seq<Field>)
    | Fn(f: Fun)

  datatype Field = Field(key: string, value: Value)

  /**
   * The closures that occur in document definitions.  A template's header or
   * footer closure is named with the variables it captures; it reads them
   * only when the layout engine calls it.
   */
  datatype Fun =
    | Const(v: Value)                             // () => v, arguments ignored
    | OuterLines(outer: real, inner: real)        // (i, node) => i === 0 || i === node.table.body.length ? outer : inner
    | FirstLine(first: real, rest: real)          // (i) => i === 0 ? first : rest
    | PageHeader(logoPath: string)                // the shared running header of the PDF service
    | PageFooter                                  // the shared signature and page-count footer
    | StatementHeader(data: Value, logo: Value)   // the statement-of-account header over data and companyLogo
    | QuotationHeader(data: Value, logo: Value)   // the quotation header over data and companyLogo
    | PurchaseOrderHeader(data: Value, logo: Value) // the purchase-order header over data and companyLogo
    | PurchaseOrderFooter                         // the purchase-order signature footer

  /**
   * A thrown JavaScript error: a `TypeError` from reading a property of
   * null (`onNull`) or undefined, a `TypeError` from calling something that
   * is not a function, or any other error with its message and, for system
   * errors, its code.
   */
  datatype Exception =
    | ReadFailure(onNull: bool, key: string)
    | NotCallable(callee: string)
    | Thrown(text: string, errCode: Option<string>)
  {
    /** `err.message` */
    function Message(): string {
      match this
      case ReadFailure(onNull, key) =>
        "Cannot read properties of " + (if onNull then "null" else "undefined") + " (reading '" + key + "')"
      case NotCallable(callee) => callee + " is not a function"
      case Thrown(text, _) => text
    }

    /** `err.code` */
    function Code(): Option<string> {
      if Thrown? then errCode else None
    }
  }

  type Outcome<T> = Result<T, Exception>

  /**
   * The parts of the JavaScript host the model does not define: number
   * formatting, case mapping, floating-point multiplication and the source
   * text of functions.
   */
  datatype Host = Host(
    numStr: real -> string,                  // String(n) for a number n
    fixed: (real, nat) -> string,            // n.toFixed(d)
    productFixed: (Value, real, nat) -> string, // (q * u).toFixed(d), q converted by ToNumber
    upper: string -> string,                 // s.toUpperCase()
    fnText: Fun -> string)                   // String(f) for a function f

  function TypeError(message: string): Exception {
    Thrown(message, None)
  }

  /** The error of reading a property of null or undefined. */
  function ReadError(base: Value, key: string): Exception {
    ReadFailure(base.Null?, key)
  }

  function NotAFunction(callee: string): Exception {
    NotCallable(callee)
  }

  predicate Nullish(v: Value) {
    v.Undef? || v.Null?
  }

  /** JavaScript truthiness. */
  predicate Truthy(v: Value) {
    match v
    case Undef => false
    case Null => false
    case Bool(b) => b
    case Num(n) => n != 0.0
    case Str(s) => s != ""
    case _ => true
  }

  /** `a || b` */
  function Or(a: Value, b: Value): Value {
    if Truthy(a) then a else b
  }

  /** `a ?? b` */
  function Coalesce(a: Value, b: Value): Value {
    if Nullish(a) then b else a
  }

  function Nums(xs: seq<real>): Value {
    Arr(seq(|xs|, i requires 0 <= i < |xs| => Num(xs[i])))
  }

  /** A four-number margin or padding array: left, top, right, bottom. */
  function Margin(left: real, top: real, right: real, bottom: real): Value {
    Arr([Num(left), Num(top), Num(right), Num(bottom)])
  }

  function Keys(fields: seq<Field>): (ks: seq<string>)
    ensures |ks| == |fields|
    ensures forall i :: 0 <= i < |fields| ==> ks[i] == fields[i].key
  {
    seq(|fields|, i requires 0 <= i < |fields| => fields[i].key)
  }

  /** The value of the first field named `key`. */
  function FieldOf(fields: seq<Field>, key: string): Option<Value> {
    if fields == [] then None
    else if fields[0].key == key then Some(fields[0].value)
    else FieldOf(fields[1..], key)
  }

  /** A field no earlier field shadows is what a read of its key finds. */
  lemma {:induction false} FieldOfAt(fields: seq<Field>, i: nat)
    requires i < |fields|
    requires forall j :: 0 <= j < i ==> fields[j].key != fields[i].key
    ensures FieldOf(fields, fields[i].key) == Some(fields[i].value)
    ensures Get(Obj(fields), fields[i].key) == fields[i].value
  {
    if i > 0 {
      FieldOfAt(fields[1..], i - 1);
    }
  }

  lemma {:induction false} FieldOfPresent(fields: seq<Field>, key: string)
    ensures FieldOf(fields, key).Some? <==> key in Keys(fields)
  {
    if fields != [] {
      FieldOfPresent(fields[1..], key);
      assert Keys(fields) == [fields[0].key] + Keys(fields[1..]);
    }
  }

  // ---- array indices ----

  /** JavaScript's largest array length; array indices are below it. */
  const ArrayIndexLimit: nat := 4294967295

  predicate IsDigit(c: char) {
    '0' <= c <= '9'
  }

  predicate AllDigits(s: string) {
    forall i :: 0 <= i < |s| ==> IsDigit(s[i])
  }

  function Digit(d: nat): char
    requires d < 10
  {
    ('0' as int + d) as char
  }

  function DigitValue(c: char): nat
    requires IsDigit(c)
  {
    c as int - '0' as int
  }

  function DigitsValue(s: string): nat
    requires AllDigits(s)
  {
    if s == [] then 0 else DigitsValue(s[..|s| - 1]) * 10 + DigitValue(s[|s| - 1])
  }

  /** The decimal text of a natural number, as `String(n)` writes an integer. */
  function NatStr(n: nat): string {
    if n < 10 then [Digit(n)] else NatStr(n / 10) + [Digit(n % 10)]
  }

  /** A property key that names an array element: canonical decimal digits below the limit. */
  function ParseIndex(key: string): Option<nat> {
    if |key| >= 1 && AllDigits(key) && (key[0] != '0' || |key| == 1)
       && DigitsValue(key) < ArrayIndexLimit
    then Some(DigitsValue(key))
    else None
  }

  lemma {:induction false} NatStrDigits(n: nat)
    ensures |NatStr(n)| >= 1 && AllDigits(NatStr(n))
    ensures DigitsValue(NatStr(n)) == n
    ensures n >= 10 ==> NatStr(n)[0] != '0'
    ensures n < 10 ==> |NatStr(n)| == 1
  {
    if n >= 10 {
      NatStrDigits(n / 10);
      var p := NatStr(n / 10);
      assert NatStr(n) == p + [Digit(n % 10)];
      assert NatStr(n)[..|NatStr(n)| - 1] == p;
    }
  }

  lemma {:induction false} LeadingDigitPositive(s: string)
    requires |s| >= 1 && AllDigits(s) && s[0] != '0'
    ensures DigitsValue(s) >= 1
    ensures |s| >= 2 ==> DigitsValue(s) >= 10
  {
    if |s| >= 2 {
      var p := s[..|s| - 1];
      assert p[0] == s[0];
      LeadingDigitPositive(p);
    }
  }

  /** Every index has a canonical key, and a canonical key names exactly one index. */
  lemma IndexKeyRoundTrip(n: nat)
    requires n < ArrayIndexLimit
    ensures ParseIndex(NatStr(n)) == Some(n)
  {
    NatStrDigits(n);
  }

  lemma {:induction false} IndexKeyCanonical(key: string, n: nat)
    requires ParseIndex(key) == Some(n)
    ensures key == NatStr(n)
  {
    if |key| == 1 {
      assert key == [Digit(n)];
    } else {
      var p := key[..|key| - 1];
      assert p[0] == key[0];
      LeadingDigitPositive(key);
      LeadingDigitPositive(p);
      assert DigitsValue(p) == n / 10;
      IndexKeyCanonical(p, n / 10);
      assert key == p + [key[|key| - 1]];
    }
  }

  // ---- property access ----

  /**
   * `v[key]` for a value that is not null or undefined: own fields of objects,
   * elements and `length` of arrays and strings; every other read is undefined.
   */
  function Get(v: Value, key: string): Value {
    match v
    case Obj(fields) =>
      (match FieldOf(fields, key) case Some(x) => x case None => Undef)
    case Arr(items) =>
      if key == "length" then Num(|items| as real)
      else (match ParseIndex(key)
            case Some(i) => if i < |items| then items[i] else Undef
            case None => Undef)
    case Str(s) =>
      if key == "length" then Num(|s| as real)
      else (match ParseIndex(key)
            case Some(i) => if i < |s| then Str([s[i]]) else Undef
            case None => Undef)
    case _ => Undef
  }

  /** `v.key`, which throws on null and undefined. */
  function Prop(v: Value, key: string): (r: Outcome<Value>)
    ensures r.Err? <==> Nullish(v)
  {
    if Nullish(v) then Err(ReadError(v, key)) else Ok(Get(v, key))
  }

  /** `v?.key` */
  function OptProp(v: Value, key: string): Value {
    if Nullish(v) then Undef else Get(v, key)
  }

  // ---- property assignment and spreading ----

  /** `o[key] = val` on the fields of an object: an existing key keeps its place. */
  function Set(fields: seq<Field>, key: string, val: Value): seq<Field> {
    if fields == [] then [Field(key, val)]
    else if fields[0].key == key then [Field(key, val)] + fields[1..]
    else [fields[0]] + Set(fields[1..], key, val)
  }

  /** The key sequence after noting `key`: unchanged if present, else extended. */
  function NoteKey(keys: seq<string>, key: string): seq<string> {
    if key in keys then keys else keys + [key]
  }

  lemma KeysCons(f: Field, rest: seq<Field>)
    ensures Keys([f] + rest) == [f.key] + Keys(rest)
  {
  }

  lemma {:induction false} SetFacts(fields: seq<Field>, key: string, val: Value)
    ensures Keys(Set(fields, key, val)) == NoteKey(Keys(fields), key)
    ensures FieldOf(Set(fields, key, val), key) == Some(val)
    ensures forall k :: k != key ==> FieldOf(Set(fields, key, val), k) == FieldOf(fields, k)
  {
    if fields != [] {
      var rest := fields[1..];
      SetFacts(rest, key, val);
      KeysCons(fields[0], rest);
      assert fields == [fields[0]] + rest;
      if fields[0].key == key {
        KeysCons(Field(key, val), rest);
        assert key in Keys(fields);
      } else {
        KeysCons(fields[0], Set(rest, key, val));
        assert key in Keys(fields) <==> key in Keys(rest);
      }
    }
  }

  /** `{...base, k1: v1, k2: v2, ...}`: the updates are assigned left to right. */
  function SetAll(base: seq<Field>, updates: seq<Field>): seq<Field>
    decreases |updates|
  {
    if updates == [] then base
    else
      var last := updates[|updates| - 1];
      Set(SetAll(base, updates[..|updates| - 1]), last.key, last.value)
  }

  /** The value of the last update named `key`. */
  function LastOf(updates: seq<Field>, key: string): Option<Value>
    decreases |updates|
  {
    if updates == [] then None
    else if updates[|updates| - 1].key == key then Some(updates[|updates| - 1].value)
    else LastOf(updates[..|updates| - 1], key)
  }

  /** The keys of `base` followed by the keys the updates add, in first-assignment order. */
  function NoteKeys(keys: seq<string>, added: seq<string>): seq<string>
    decreases |added|
  {
    if added == [] then keys else NoteKey(NoteKeys(keys, added[..|added| - 1]), added[|added| - 1])
  }

  /** The later key wins; a key no update names keeps its base value. */
  lemma {:induction false} SpreadLookup(base: seq<Field>, updates: seq<Field>, k: string)
    ensures FieldOf(SetAll(base, updates), k)
            == if LastOf(updates, k).Some? then LastOf(updates, k) else FieldOf(base, k)
    decreases |updates|
  {
    if updates != [] {
      var last := updates[|updates| - 1];
      SpreadLookup(base, updates[..|updates| - 1], k);
      SetFacts(SetAll(base, updates[..|updates| - 1]), last.key, last.value);
    }
  }

  /** Spreading keeps every base key in place and appends the new ones in order. */
  lemma {:induction false} SpreadKeys(base: seq<Field>, updates: seq<Field>)
    ensures Keys(SetAll(base, updates)) == NoteKeys(Keys(base), Keys(updates))
    decreases |updates|
  {
    if updates != [] {
      var init := updates[..|updates| - 1];
      var last := updates[|updates| - 1];
      SpreadKeys(base, init);
      SetFacts(SetAll(base, init), last.key, last.value);
      assert Keys(updates)[..|updates| - 1] == Keys(init);
    }
  }

  lemma {:induction false} NoteKeysPrefix(keys: seq<string>, added: seq<string>)
    ensures |NoteKeys(keys, added)| >= |keys|
    ensures NoteKeys(keys, added)[..|keys|] == keys
    ensures forall k :: k in NoteKeys(keys, added) <==> k in keys || k in added
    decreases |added|
  {
    if added != [] {
      var init := added[..|added| - 1];
      NoteKeysPrefix(keys, init);
      assert added == init + [added[|added| - 1]];
      var r := NoteKeys(keys, init);
      assert NoteKeys(keys, added) == NoteKey(r, added[|added| - 1]);
      if added[|added| - 1] !in r {
        assert (r + [added[|added| - 1]])[..|keys|] == r[..|keys|];
      }
    }
  }

  predicate Distinct(ks: seq<string>) {
    forall i, j :: 0 <= i < j < |ks| ==> ks[i] != ks[j]
  }

  lemma {:induction false} NoteKeysDistinct(keys: seq<string>, added: seq<string>)
    requires Distinct(keys)
    ensures Distinct(NoteKeys(keys, added))
    decreases |added|
  {
    if added != [] {
      NoteKeysDistinct(keys, added[..|added| - 1]);
    }
  }

  /** Assigning a key an object lacks appends it. */
  lemma {:induction false} SetFresh(fields: seq<Field>, key: string, val: Value)
    requires key !in Keys(fields)
    ensures Set(fields, key, val) == fields + [Field(key, val)]
  {
    if fields != [] {
      assert Keys(fields)[1..] == Keys(fields[1..]);
      SetFresh(fields[1..], key, val);
      assert fields == [fields[0]] + fields[1..];
    }
  }

  /** Distinct keys none of which is already present are appended as they are. */
  lemma {:induction false} NoteKeysFresh(keys: seq<string>, added: seq<string>)
    requires Distinct(added)
    requires forall k :: k in added ==> k !in keys
    ensures NoteKeys(keys, added) == keys + added
    decreases |added|
  {
    if added != [] {
      var init := added[..|added| - 1];
      var last := added[|added| - 1];
      assert forall k :: k in init ==> k in added;
      NoteKeysFresh(keys, init);
      assert last !in init;
      assert added == init + [last];
    }
  }

  /** The last update named `k` decides its value. */
  lemma {:induction false} LastOfAt(updates: seq<Field>, j: nat)
    requires j < |updates|
    requires forall i :: j < i < |updates| ==> updates[i].key != updates[j].key
    ensures LastOf(updates, updates[j].key) == Some(updates[j].value)
    decreases |updates|
  {
    if j < |updates| - 1 {
      var init := updates[..|updates| - 1];
      LastOfAt(init, j);
    }
  }

  /** A value a JavaScript engine can hold: no object has the same key twice. */
  predicate WellFormed(v: Value)
    decreases v
  {
    match v
    case Arr(items) => forall i :: 0 <= i < |items| ==> WellFormed(items[i])
    case Obj(fields) => Distinct(Keys(fields)) && forall i :: 0 <= i < |fields| ==> WellFormed(fields[i].value)
    case _ => true
  }

  /** Assignment keeps the keys of an object distinct. */
  lemma SetDistinct(fields: seq<Field>, key: string, val: Value)
    requires Distinct(Keys(fields))
    ensures Distinct(Keys(Set(fields, key, val)))
  {
    SetFacts(fields, key, val);
  }

  // ---- conversion to string ----

  /** `String(v)`: arrays join their elements with commas, null and undefined elements as "". */
  function ToStr(h: Host, v: Value): string
    decreases v
  {
    match v
    case Undef => "undefined"
    case Null => "null"
    case Bool(b) => if b then "true" else "false"
    case Num(n) => h.numStr(n)
    case Str(s) => s
    case Arr(items) => JoinItems(h, items)
    case Obj(_) => "[object Object]"
    case Fn(f) => h.fnText(f)
  }

  function JoinItems(h: Host, items: seq<Value>): string
    decreases items
  {
    if items == [] then ""
    else
      var last := items[|items| - 1];
      JoinItems(h, items[..|items| - 1]) + (if |items| > 1 then "," else "")
      + (if Nullish(last) then "" else ToStr(h, last))
  }

  // ---- method calls the templates make ----

  /** `v.toFixed(d)` where `callee` is the source text of `v`. */
  function ToFixed(h: Host, v: Value, d: nat, callee: string): (r: Outcome<Value>)
    ensures r.Ok? <==> v.Num?
    ensures r.Ok? ==> r.value == Str(h.fixed(v.n, d))
  {
    if Nullish(v) then Err(ReadError(v, "toFixed"))
    else if v.Num? then Ok(Str(h.fixed(v.n, d)))
    else Err(NotAFunction(callee + ".toFixed"))
  }

  /** `base?.key.toFixed(d)`: the whole chain is undefined when `base` is null or undefined. */
  function OptToFixed(h: Host, base: Value, key: string, d: nat, callee: string): (r: Outcome<Value>)
    ensures r.Ok? <==> Nullish(base) || Get(base, key).Num?
    ensures Nullish(base) ==> r == Ok(Undef)
    ensures !Nullish(base) && r.Ok? ==> r.value == Str(h.fixed(Get(base, key).n, d))
  {
    if Nullish(base) then Ok(Undef) else ToFixed(h, Get(base, key), d, callee)
  }

  /** `v.toUpperCase()` */
  function ToUpper(h: Host, v: Value, callee: string): (r: Outcome<Value>)
    ensures r.Ok? <==> v.Str?
    ensures r.Ok? ==> r.value == Str(h.upper(v.s))
  {
    if Nullish(v) then Err(ReadError(v, "toUpperCase"))
    else if v.Str? then Ok(Str(h.upper(v.s)))
    else Err(NotAFunction(callee + ".toUpperCase"))
  }

  /** `v.toString()` */
  function CallToString(h: Host, v: Value): (r: Outcome<Value>)
    ensures r.Ok? <==> !Nullish(v)
    ensures r.Ok? ==> r.value == Str(ToStr(h, v))
  {
    if Nullish(v) then Err(ReadError(v, "toString")) else Ok(Str(ToStr(h, v)))
  }

  /** The receiver of `v.map(...)`: only arrays have a `map` method. */
  function ItemsOf(v: Value, callee: string): (r: Outcome<seq<Value>>)
    ensures r.Ok? <==> v.Arr?
    ensures r.Ok? ==> r.value == v.items
  {
    if v.Arr? then Ok(v.items)
    else if Nullish(v) then Err(ReadError(v, "map"))
    else Err(NotAFunction(callee + ".map"))
  }

  /** `xs.map(f)` for a callback that may throw: the first throw wins. */
  function MapR<T>(xs: seq<Value>, f: (Value, nat) -> Outcome<T>): Outcome<seq<T>>
    decreases |xs|
  {
    if xs == [] then Ok([])
    else
      var init :- MapR(xs[..|xs| - 1], f);
      var last :- f(xs[|xs| - 1], |xs| - 1);
      Ok(init + [last])
  }

  lemma {:induction false} MapROk<T>(xs: seq<Value>, f: (Value, nat) -> Outcome<T>)
    ensures MapR(xs, f).Ok? <==> (forall i :: 0 <= i < |xs| ==> f(xs[i], i).Ok?)
    ensures MapR(xs, f).Ok? ==>
              |MapR(xs, f).value| == |xs|
              && forall i :: 0 <= i < |xs| ==> MapR(xs, f).value[i] == f(xs[i], i).value
    decreases |xs|
  {
    if xs != [] {
      var init := xs[..|xs| - 1];
      MapROk(init, f);
      assert forall i :: 0 <= i < |init| ==> init[i] == xs[i];
    }
  }

  lemma {:induction false} MapRFirstError<T>(xs: seq<Value>, f: (Value, nat) -> Outcome<T>, k: nat)
    requires k < |xs| && f(xs[k], k).Err?
    requires forall i :: 0 <= i < k ==> f(xs[i], i).Ok?
    ensures MapR(xs, f) == Err(f(xs[k], k).error)
    decreases |xs|
  {
    var init := xs[..|xs| - 1];
    assert forall i :: 0 <= i < |init| ==> init[i] == xs[i];
    if k < |xs| - 1 {
      MapRFirstError(init, f, k);
    } else {
      MapROk(init, f);
    }
  }
}
