/**
 * `resolvePlaceholders(obj, data)`: every string leaf of a document tree has
 * each match of the regular expression `/{{\s*([^}]+)\s*}}/g` replaced by
 * the text of a dotted-path lookup of the captured expression.
 */
module Placeholders {
  import opened Wrappers
  import opened JsValue

  // ---- the regular expression ----

  /** The characters `\s` matches in a JavaScript regular expression. */
  predicate IsSpace(c: char) {
    var n := c as int;
    (9 <= n <= 13) || n == 32 || n == 0xA0 || n == 0x1680 || (0x2000 <= n <= 0x200A)
    || n == 0x2028 || n == 0x2029 || n == 0x202F || n == 0x205F || n == 0x3000 || n == 0xFEFF
  }

  /** The number of leading characters of `s` that are not '}'. */
  function RunLength(s: string): (n: nat)
    ensures n <= |s|
    ensures forall i :: 0 <= i < n ==> s[i] != '}'
    ensures n < |s| ==> s[n] == '}'
    decreases |s|
  {
    if s == [] || s[0] == '}' then 0 else 1 + RunLength(s[1..])
  }

  function DropSpaces(s: string): (r: string)
    ensures |r| <= |s| && r == s[|s| - |r|..]
    ensures r == [] || !IsSpace(r[0])
    decreases |s|
  {
    if s != [] && IsSpace(s[0]) then DropSpaces(s[1..]) else s
  }

  /**
   * What the group `([^}]+)` captures from the characters between the braces:
   * `\s*` takes the leading whitespace, but must leave at least one character
   * to the group; the trailing `\s*` takes nothing, because the group is greedy.
   */
  function Capture(run: string): string
    requires run != []
  {
    var t := DropSpaces(run);
    if t == [] then [run[|run| - 1]] else t
  }

  /** A match starting at the beginning of `s`: its length and its capture. */
  function MatchAt(s: string): (m: Option<(nat, string)>)
    ensures m.Some? ==> 5 <= m.value.0 <= |s|
  {
    if |s| < 2 || s[..2] != "{{" then None
    else
      var n := RunLength(s[2..]);
      if n == 0 || n + 4 > |s| || s[n + 3] != '}' then None
      else Some((n + 4, Capture(s[2..n + 2])))
  }

  /**
   * `s.replace(regex, f)` with the global flag: matches are found left to
   * right without overlap, and the replacement text is not scanned again.
   */
  function Replace(s: string, f: string -> string): string
    decreases |s|
  {
    if s == [] then []
    else match MatchAt(s)
      case Some((len, e)) => f(e) + Replace(s[len..], f)
      case None => [s[0]] + Replace(s[1..], f)
  }

  predicate HasMatch(s: string) {
    exists i :: 0 <= i < |s| && MatchAt(s[i..]).Some?
  }

  /** A string in which the expression matches nowhere is returned unchanged. */
  lemma {:induction false} ReplaceNoMatch(s: string, f: string -> string)
    requires !HasMatch(s)
    ensures Replace(s, f) == s
    decreases |s|
  {
    if s != [] {
      assert s[0..] == s;
      assert !HasMatch(s[1..]) by {
        forall i | 0 <= i < |s[1..]| ensures MatchAt(s[1..][i..]).None? {
          assert s[1..][i..] == s[i + 1..];
        }
      }
      ReplaceNoMatch(s[1..], f);
    }
  }

  /** Every match begins with "{{", so a string without '{' has none. */
  lemma NoBraceNoMatch(s: string)
    requires '{' !in s
    ensures !HasMatch(s)
  {
    forall i | 0 <= i < |s| ensures MatchAt(s[i..]).None? {
      if |s[i..]| >= 2 { assert s[i..][..2][0] == s[i]; }
    }
  }

  lemma {:induction false} RunLengthBeforeBrace(x: string, y: string)
    requires '}' !in x && y != [] && y[0] == '}'
    ensures RunLength(x + y) == |x|
    decreases |x|
  {
    if x != [] {
      assert (x + y)[1..] == x[1..] + y;
      RunLengthBeforeBrace(x[1..], y);
    }
  }

  lemma MarkerMatch(run: string, post: string)
    requires run != [] && '}' !in run
    ensures MatchAt("{{" + run + "}}" + post) == Some((|run| + 4, Capture(run)))
  {
    var s := "{{" + run + "}}" + post;
    assert s[..2] == "{{";
    assert s[2..] == run + ("}}" + post);
    RunLengthBeforeBrace(run, "}}" + post);
    assert s[|run| + 3] == '}';
    assert s[2..|run| + 2] == run;
  }

  lemma ReplaceAtMarker(run: string, post: string, f: string -> string)
    requires run != [] && '}' !in run
    ensures Replace("{{" + run + "}}" + post, f) == f(Capture(run)) + Replace(post, f)
  {
    var s := "{{" + run + "}}" + post;
    MarkerMatch(run, post);
    assert s[|run| + 4..] == post;
  }

  /** A character other than '{' cannot start a match, so it is copied. */
  lemma ReplaceCopies(s: string, f: string -> string)
    requires s != [] && s[0] != '{'
    ensures Replace(s, f) == [s[0]] + Replace(s[1..], f)
  {
    if |s| >= 2 { assert s[..2][0] == s[0]; }
  }

  lemma {:induction false} ReplaceAfterPlain(pre: string, x: string, f: string -> string)
    requires '{' !in pre
    ensures Replace(pre + x, f) == pre + Replace(x, f)
    decreases |pre|
  {
    if pre == [] {
      assert pre + x == x;
    } else {
      var s := pre + x;
      HeadTail(pre, x);
      ReplaceCopies(s, f);
      ReplaceAfterPlain(pre[1..], x, f);
      HeadTail(pre, Replace(x, f));
    }
  }

  lemma HeadTail(pre: string, x: string)
    requires pre != []
    ensures (pre + x)[0] == pre[0] && (pre + x)[1..] == pre[1..] + x
    ensures [pre[0]] + (pre[1..] + x) == pre + x
  {
    assert [pre[0]] + pre[1..] == pre;
  }

  /**
   * A marker after text without '{' is replaced by the replacer's text for
   * its capture, and scanning resumes after the closing braces.
   */
  lemma ReplaceMarker(pre: string, run: string, post: string, f: string -> string)
    requires '{' !in pre
    requires run != [] && '}' !in run
    ensures Replace(pre + ("{{" + run + "}}" + post), f) == pre + (f(Capture(run)) + Replace(post, f))
  {
    ReplaceAfterPlain(pre, "{{" + run + "}}" + post, f);
    ReplaceAtMarker(run, post, f);
  }

  /** The capture skips leading whitespace and keeps trailing whitespace. */
  lemma {:induction false} CaptureSkipsLeadingSpace(ws: string, t: string)
    requires forall i :: 0 <= i < |ws| ==> IsSpace(ws[i])
    requires t != [] && !IsSpace(t[0])
    ensures Capture(ws + t) == t
    decreases |ws|
  {
    if ws != [] {
      assert (ws + t)[1..] == ws[1..] + t;
      CaptureSkipsLeadingSpace(ws[1..], t);
    } else {
      assert ws + t == t;
    }
  }

  // ---- the dotted-path lookup ----

  /** `s.split('.')`: empty parts are kept. */
  function Split(s: string): (parts: seq<string>)
    ensures |parts| >= 1
    ensures forall i :: 0 <= i < |parts| ==> '.' !in parts[i]
    decreases |s|
  {
    if s == [] then [""]
    else
      var rest := Split(s[1..]);
      if s[0] == '.' then [""] + rest else [[s[0]] + rest[0]] + rest[1..]
  }

  /** `parts.join('.')` */
  function Join(parts: seq<string>): string
    requires |parts| >= 1
    decreases |parts|
  {
    if |parts| == 1 then parts[0] else parts[0] + "." + Join(parts[1..])
  }

  lemma {:induction false} JoinSplit(s: string)
    ensures Join(Split(s)) == s
    decreases |s|
  {
    if s != [] {
      var rest := Split(s[1..]);
      JoinSplit(s[1..]);
      if s[0] == '.' {
        assert ([""] + rest)[1..] == rest;
      } else if |rest| > 1 {
        assert ([[s[0]] + rest[0]] + rest[1..])[1..] == rest[1..];
      }
    }
  }

  lemma {:induction false} SplitAfterPlain(x: string, y: string)
    requires '.' !in x
    ensures Split(x + y) == [x + Split(y)[0]] + Split(y)[1..]
    decreases |x|
  {
    if x != [] {
      var sy := Split(y);
      assert (x + y)[1..] == x[1..] + y;
      SplitAfterPlain(x[1..], y);
      var rest := Split(x[1..] + y);
      assert rest[0] == x[1..] + sy[0];
      assert rest[1..] == sy[1..];
      assert (x + y)[0] == x[0] && x[0] != '.';
      assert Split(x + y) == [[x[0]] + rest[0]] + rest[1..];
      assert [x[0]] + (x[1..] + sy[0]) == x + sy[0];
    } else {
      assert x + y == y;
      assert x + Split(y)[0] == Split(y)[0];
      assert Split(y) == [Split(y)[0]] + Split(y)[1..];
    }
  }

  /** Splitting undoes joining parts that contain no '.'. */
  lemma {:induction false} SplitJoin(parts: seq<string>)
    requires |parts| >= 1
    requires forall i :: 0 <= i < |parts| ==> '.' !in parts[i]
    ensures Split(Join(parts)) == parts
    decreases |parts|
  {
    if |parts| == 1 {
      SplitAfterPlain(parts[0], "");
      assert parts[0] + "" == parts[0];
    } else {
      var j := Join(parts[1..]);
      SplitJoin(parts[1..]);
      assert ("." + j)[1..] == j;
      assert Split("." + j) == [""] + parts[1..];
      assert Join(parts) == parts[0] + ("." + j);
      SplitAfterPlain(parts[0], "." + j);
      assert Split("." + j)[0] == "" && Split("." + j)[1..] == parts[1..];
      assert parts[0] + "" == parts[0];
      assert parts == [parts[0]] + parts[1..];
    }
  }

  /**
   * The lookup loop: it stops with nothing as soon as the current value is
   * null or undefined before a segment, and otherwise reads the segment.
   */
  function Walk(cur: Value, parts: seq<string>): Option<Value>
    decreases |parts|
  {
    if parts == [] then Some(cur)
    else if Nullish(cur) then None
    else Walk(Get(cur, parts[0]), parts[1..])
  }

  /** The text that replaces a match. */
  function LookupText(h: Host, root: Value, expr: string): (r: string)
    ensures (match Walk(root, Split(expr))
             case None => r == ""
             case Some(v) => if Nullish(v) then r == "" else r == ToStr(h, v))
  {
    match Walk(root, Split(expr))
    case None => ""
    case Some(v) => if Nullish(v) then "" else ToStr(h, v)
  }

  /** The root a template string is resolved against: `{ data }`. */
  function DataRoot(data: Value): Value {
    Obj([Field("data", data)])
  }

  lemma WalkNullish(cur: Value, parts: seq<string>)
    requires Nullish(cur) && parts != []
    ensures Walk(cur, parts) == None
  {
  }

  /** Walking a concatenated path is walking its first half, then its second. */
  lemma {:induction false} WalkAppend(cur: Value, p: seq<string>, q: seq<string>)
    ensures Walk(cur, p + q) == match Walk(cur, p) case None => None case Some(v) => Walk(v, q)
    decreases |p|
  {
    if p == [] {
      assert p + q == q;
    } else if !Nullish(cur) {
      assert (p + q)[1..] == p[1..] + q;
      WalkAppend(Get(cur, p[0]), p[1..], q);
    }
  }

  /**
   * Against the root `{ data }`, a path whose first segment is not `data`
   * gives "", and `data.rest` is `rest` looked up in the payload.
   */
  lemma DataRootLookup(h: Host, data: Value, expr: string)
    ensures Split(expr)[0] != "data" ==> LookupText(h, DataRoot(data), expr) == ""
    ensures Split(expr)[0] == "data" ==>
              LookupText(h, DataRoot(data), expr)
              == match Walk(data, Split(expr)[1..])
                 case None => ""
                 case Some(v) => if Nullish(v) then "" else ToStr(h, v)
  {
    var parts := Split(expr);
    var first := Get(DataRoot(data), parts[0]);
    var fields := [Field("data", data)];
    assert fields[1..] == [];
    assert Walk(DataRoot(data), parts) == Walk(first, parts[1..]);
    if parts[0] != "data" {
      assert FieldOf(fields[1..], parts[0]) == None;
      assert FieldOf(fields, parts[0]) == None;
      assert first == Undef;
      if |parts| > 1 { WalkNullish(first, parts[1..]); }
    } else {
      assert first == data;
    }
  }

  // ---- the tree rewrite ----

  /** The text of one string leaf after substitution. */
  function Substitute(h: Host, root: Value, s: string): string {
    Replace(s, e => LookupText(h, root, e))
  }

  /**
   * `resolvePlaceholders(obj, root)`: strings are rewritten, arrays and
   * objects are rebuilt with the same length, keys and order, and every
   * other value is returned as it is.
   */
  function ResolvePlaceholders(h: Host, root: Value, v: Value): (r: Value)
    ensures v.Str? <==> r.Str?
    ensures v.Arr? <==> r.Arr?
    ensures v.Obj? <==> r.Obj?
    ensures v.Str? ==> r.s == Substitute(h, root, v.s)
    ensures v.Arr? ==> |r.items| == |v.items|
                       && forall i :: 0 <= i < |v.items| ==> r.items[i] == ResolvePlaceholders(h, root, v.items[i])
    ensures v.Obj? ==> Keys(r.fields) == Keys(v.fields)
                       && forall i :: 0 <= i < |v.fields| ==>
                            r.fields[i].value == ResolvePlaceholders(h, root, v.fields[i].value)
    ensures !(v.Str? || v.Arr? || v.Obj?) ==> r == v
    decreases v
  {
    match v
    case Str(s) => Str(Substitute(h, root, s))
    case Arr(items) =>
      Arr(seq(|items|, i requires 0 <= i < |items| => ResolvePlaceholders(h, root, items[i])))
    case Obj(fields) =>
      Obj(seq(|fields|, i requires 0 <= i < |fields| =>
        Field(fields[i].key, ResolvePlaceholders(h, root, fields[i].value))))
    case _ => v
  }

  /** A tree none of whose strings contains a match. */
  predicate MarkerFree(v: Value)
    decreases v
  {
    match v
    case Str(s) => !HasMatch(s)
    case Arr(items) => forall i :: 0 <= i < |items| ==> MarkerFree(items[i])
    case Obj(fields) => forall i :: 0 <= i < |fields| ==> MarkerFree(fields[i].value)
    case _ => true
  }

  /** A tree without markers is a fixed point, whatever the root. */
  lemma {:induction false} ResolveMarkerFree(h: Host, root: Value, v: Value)
    requires MarkerFree(v)
    ensures ResolvePlaceholders(h, root, v) == v
    decreases v
  {
    match v
    case Str(s) =>
      ReplaceNoMatch(s, e => LookupText(h, root, e));
    case Arr(items) =>
      forall i | 0 <= i < |items| ensures ResolvePlaceholders(h, root, items[i]) == items[i] {
        ResolveMarkerFree(h, root, items[i]);
      }
    case Obj(fields) =>
      var r := ResolvePlaceholders(h, root, v);
      forall i | 0 <= i < |fields| ensures r.fields[i] == fields[i] {
        ResolveMarkerFree(h, root, fields[i].value);
      }
    case _ =>
  }

  /** `ReplaceMarker` for the replacer of a string leaf. */
  lemma SubstituteMarker(h: Host, root: Value, pre: string, run: string, post: string)
    requires '{' !in pre
    requires run != [] && '}' !in run
    ensures Substitute(h, root, pre + ("{{" + run + "}}" + post))
            == pre + (LookupText(h, root, Capture(run)) + Substitute(h, root, post))
  {
    ReplaceMarker(pre, run, post, e => LookupText(h, root, e));
  }

  /** A string holding one marker, with no space after "{{", is its prefix and the lookup text. */
  lemma SubstituteSingle(h: Host, root: Value, pre: string, expr: string)
    requires '{' !in pre
    requires expr != [] && '}' !in expr && !IsSpace(expr[0])
    ensures Substitute(h, root, pre + "{{" + expr + "}}") == pre + LookupText(h, root, expr)
  {
    SubstituteMarker(h, root, pre, expr, "");
    assert pre + "{{" + expr + "}}" == pre + ("{{" + expr + "}}" + "");
    assert Capture(expr) == expr;
    assert Substitute(h, root, "") == "";
  }
}
