/**
 * A JavaScript object that is updated in place: a document definition whose
 * properties the pipeline assigns after the template has built it.
 */
module Documents {
  import opened Wrappers
  import opened JsValue

  class DocumentRecord {
    var fields: seq<Field>

    constructor(fields: seq<Field>)
      ensures this.fields == fields
    {
      this.fields := fields;
    }

    /** `record[key]` */
    function Lookup(key: string): (v: Value)
      reads this
      ensures key !in Keys(fields) ==> v == Undef
      ensures key in Keys(fields) ==> Some(v) == FieldOf(fields, key)
    {
      FieldOfPresent(fields, key);
      Get(Obj(fields), key)
    }

    /** `record[key] = val`: an existing key keeps its position, a new one is appended. */
    method Assign(key: string, val: Value)
      modifies this
      ensures fields == Set(old(fields), key, val)
    {
      fields := Set(fields, key, val);
    }
  }
}
