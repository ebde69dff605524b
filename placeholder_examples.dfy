/**
 * Placeholder substitution of single-marker strings against the root `{ data }`.
 */
module PlaceholderExamples {
  import opened Wrappers
  import opened JsValue
  import opened Placeholders

  lemma SplitDataKey(key: string)
    requires '.' !in key
    ensures Split("data." + key) == ["data", key]
  {
    SplitJoin(["data", key]);
    assert Join(["data", key]) == "data." + key;
  }

  /** `data.key` reads the payload's field `key` exactly as spelt. */
  lemma LookupDataKey(h: Host, k: string, key: string, v: Value)
    requires '.' !in key
    ensures LookupText(h, DataRoot(Obj([Field(k, v)])), "data." + key)
            == if key == k && !Nullish(v) then ToStr(h, v) else ""
  {
    var data := Obj([Field(k, v)]);
    SplitDataKey(key);
    DataRootLookup(h, data, "data." + key);
    assert [Field(k, v)][1..] == [];
    assert FieldOf([Field(k, v)], key) == if key == k then Some(v) else FieldOf([], key);
    assert Walk(data, [key]) == Some(Get(data, key)) by {
      assert [key][1..] == [];
    }
  }

  /** `pre{{data.k}}` becomes `pre` followed by the text of the payload's `k`. */
  lemma DataFieldMarker(h: Host, pre: string, k: string, v: Value)
    requires '{' !in pre && '.' !in k && '}' !in k
    ensures Substitute(h, DataRoot(Obj([Field(k, v)])), pre + "{{data." + k + "}}")
            == pre + if Nullish(v) then "" else ToStr(h, v)
  {
    var root := DataRoot(Obj([Field(k, v)]));
    var expr := "data." + k;
    assert pre + "{{data." + k + "}}" == pre + "{{" + expr + "}}";
    assert '}' !in expr by {
      assert forall i :: 0 <= i < |expr| ==> expr[i] == if i < 5 then "data."[i] else k[i - 5];
    }
    assert expr[0] == 'd';
    SubstituteSingle(h, root, pre, expr);
    LookupDataKey(h, k, k, v);
  }

  /** A marker whose path does not start with the segment `data` becomes "". */
  lemma MissingDataPrefix(h: Host, data: Value, pre: string, e: string)
    requires '{' !in pre
    requires e != [] && '}' !in e && !IsSpace(e[0])
    requires Split(e)[0] != "data"
    ensures Substitute(h, DataRoot(data), pre + "{{" + e + "}}") == pre
  {
    SubstituteSingle(h, DataRoot(data), pre, e);
    DataRootLookup(h, data, e);
  }

  /**
   * `pre{{ data.k }}`: the space after "{{" is skipped but the one before
   * "}}" stays on the last segment, so the key read is `k + " "` and a
   * payload holding only `k` gives "".
   */
  lemma SpacedDataFieldMarker(h: Host, pre: string, k: string, v: Value)
    requires '{' !in pre && '.' !in k && '}' !in k
    ensures Substitute(h, DataRoot(Obj([Field(k, v)])), pre + "{{ data." + k + " }}") == pre
  {
    var root := DataRoot(Obj([Field(k, v)]));
    var run := " data." + k + " ";
    var expr := "data." + (k + " ");
    var marker := "{{" + run + "}}" + "";
    assert "{{ data." + k + " }}" == marker by {
      assert "{{ data." == "{{" + " data." && " }}" == " " + "}}";
      Regroup("{{", " data.", k, " ", "}}");
    }
    assert pre + "{{ data." + k + " }}" == pre + marker;
    assert run == " " + expr;
    assert '}' !in run by {
      assert forall i :: 0 <= i < |run| ==>
        run[i] == if i < 6 then " data."[i] else if i < 6 + |k| then k[i - 6] else ' ';
    }
    SubstituteMarker(h, root, pre, run, "");
    assert expr[0] == 'd';
    CaptureSkipsLeadingSpace(" ", expr);
    assert Substitute(h, root, "") == "";
    assert '.' !in k + " ";
    LookupDataKey(h, k, k + " ", v);
    assert k + " " != k by { assert |k + " "| != |k|; }
  }

  lemma Regroup(a: string, b: string, c: string, d: string, e: string)
    ensures (a + b) + c + (d + e) == a + (b + c + d) + e + ""
  {
  }
}
