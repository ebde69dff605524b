/**
 * The style packs handed to templates: `baseStyles` and the three packs that
 * spread it and then add or redefine entries.  A spread copies the base
 * entries first, so an entry the pack writes itself wins.
 */
module Styles {
  import opened Wrappers
  import opened JsValue

  function HeaderStyle(): seq<Field> {
    [Field("fontSize", Num(18.0)), Field("bold", Bool(true)), Field("margin", Nums([0.0, 0.0, 0.0, 10.0]))]
  }

  function SubheaderStyle(): seq<Field> {
    [Field("fontSize", Num(14.0)), Field("bold", Bool(true)), Field("margin", Nums([0.0, 10.0, 0.0, 5.0]))]
  }

  function BaseStyles(): seq<Field> {
    [ Field("header", Obj(HeaderStyle())),
      Field("subheader", Obj(SubheaderStyle())),
      Field("tableHeader", Obj([Field("bold", Bool(true)), Field("fontSize", Num(12.0)),
                                Field("color", Str("black")), Field("fillColor", Str("#f8f9fa"))])),
      Field("tableRow", Obj([Field("fontSize", Num(10.0)), Field("margin", Nums([0.0, 5.0, 0.0, 5.0]))])),
      Field("tableCurrency", Obj([Field("alignment", Str("right"))])),
      Field("footerText", Obj([Field("fontSize", Num(8.0)), Field("margin", Nums([40.0, 0.0, 40.0, 0.0])),
                               Field("alignment", Str("center")), Field("color", Str("#666666"))])),
      Field("pageNumber", Obj([Field("fontSize", Num(9.0)), Field("margin", Nums([0.0, 10.0, 40.0, 0.0])),
                               Field("alignment", Str("right"))])),
      Field("companyDetails", Obj([Field("fontSize", Num(10.0)), Field("color", Str("#333333"))])),
      Field("signatureBox", Obj([Field("margin", Nums([0.0, 50.0, 0.0, 10.0]))])) ]
  }

  /** The entries `invoiceStyles` writes after spreading the base. */
  function InvoiceEntries(): seq<Field> {
    [ Field("invoiceHeader", Obj(SetAll(HeaderStyle(), [Field("color", Str("#2c3e50"))]))),
      Field("invoiceSubheader", Obj(SetAll(SubheaderStyle(), [Field("color", Str("#34495e"))]))),
      Field("customerInfo", Obj([Field("fontSize", Num(11.0)), Field("margin", Nums([0.0, 5.0, 0.0, 5.0]))])),
      Field("totalsTable", Obj([Field("fontSize", Num(11.0)), Field("bold", Bool(true)),
                                Field("alignment", Str("right"))])) ]
  }

  function PurchaseOrderEntries(): seq<Field> {
    [ Field("headerTitle", Obj([Field("fontSize", Num(14.0)), Field("bold", Bool(true)),
                                Field("margin", Nums([0.0, 5.0, 0.0, 0.0]))])),
      Field("infoTitle", Obj([Field("fontSize", Num(10.0)), Field("bold", Bool(true))])),
      Field("infoText", Obj([Field("fontSize", Num(9.0)), Field("margin", Nums([0.0, 1.0, 0.0, 1.0]))])),
      Field("documentTitle", Obj([Field("fontSize", Num(12.0)), Field("bold", Bool(true))])),
      Field("tableHeader", Obj([Field("fontSize", Num(9.0))])),
      Field("footerRole", Obj([Field("fontSize", Num(9.0)), Field("alignment", Str("center")),
                               Field("margin", Nums([0.0, 5.0, 0.0, 0.0]))])) ]
  }

  function StatementEntries(): seq<Field> {
    [ Field("companyName", Obj([Field("fontSize", Num(11.0)), Field("bold", Bool(true)),
                                Field("margin", Nums([0.0, 0.0, 0.0, 2.0]))])),
      Field("companyAddress", Obj([Field("fontSize", Num(9.0))])),
      Field("companySmall", Obj([Field("fontSize", Num(8.0))])),
      Field("documentTitle", Obj([Field("fontSize", Num(12.0)), Field("bold", Bool(true)),
                                  Field("margin", Nums([0.0, 4.0, 0.0, 4.0]))])),
      Field("infoText", Obj([Field("fontSize", Num(9.0)), Field("margin", Nums([0.0, 2.0, 0.0, 2.0]))])),
      Field("tableHeader", Obj([Field("fontSize", Num(9.0)), Field("bold", Bool(true)), Field("fillColor", Null)])),
      Field("totalsLabel", Obj([Field("fontSize", Num(9.0))])),
      Field("totalsLabelBold", Obj([Field("fontSize", Num(9.0)), Field("bold", Bool(true))])),
      Field("totalsValue", Obj([Field("fontSize", Num(9.0))])),
      Field("totalsValueBold", Obj([Field("fontSize", Num(10.0)), Field("bold", Bool(true))])),
      Field("footerTotals", Obj([Field("fontSize", Num(9.0)), Field("margin", Nums([0.0, 2.0, 0.0, 0.0]))])),
      Field("footerTotalsBold", Obj([Field("fontSize", Num(10.0)), Field("bold", Bool(true)),
                                     Field("margin", Nums([0.0, 4.0, 0.0, 0.0]))])) ]
  }

  /** Each template pack is `{ ...base, entries }` over the pack it imports as `baseStyles`. */
  function InvoiceStyles(base: seq<Field>): seq<Field> { SetAll(base, InvoiceEntries()) }
  function PurchaseOrderStyles(base: seq<Field>): seq<Field> { SetAll(base, PurchaseOrderEntries()) }
  function StatementOfAccountStyles(base: seq<Field>): seq<Field> { SetAll(base, StatementEntries()) }

  /**
   * A pack built as `{ ...base, entries }` lists the base keys first, in
   * their order, then the keys it adds; it holds exactly the keys of both,
   * an entry the pack writes wins, and every other key keeps its base value.
   */
  lemma SpreadPack(base: seq<Field>, entries: seq<Field>)
    ensures var pack := SetAll(base, entries);
            Keys(pack) == NoteKeys(Keys(base), Keys(entries))
            && |Keys(pack)| >= |base| && Keys(pack)[..|base|] == Keys(base)
            && (forall k :: k in Keys(pack) <==> k in Keys(base) || k in Keys(entries))
            && (forall k :: FieldOf(pack, k) == if LastOf(entries, k).Some? then LastOf(entries, k) else FieldOf(base, k))
  {
    SpreadKeys(base, entries);
    NoteKeysPrefix(Keys(base), Keys(entries));
    forall k ensures FieldOf(SetAll(base, entries), k)
                     == if LastOf(entries, k).Some? then LastOf(entries, k) else FieldOf(base, k) {
      SpreadLookup(base, entries, k);
    }
  }

  lemma {:induction false} LastOfAbsent(entries: seq<Field>, k: string)
    requires k !in Keys(entries)
    ensures LastOf(entries, k) == None
    decreases |entries|
  {
    if entries != [] {
      var init := entries[..|entries| - 1];
      assert Keys(entries) == Keys(init) + [entries[|entries| - 1].key];
      LastOfAbsent(init, k);
    }
  }

  /** A key the pack does not write keeps the base value exactly. */
  lemma UnwrittenKeyKeepsBase(base: seq<Field>, entries: seq<Field>, k: string)
    requires k !in Keys(entries)
    ensures FieldOf(SetAll(base, entries), k) == FieldOf(base, k)
  {
    SpreadLookup(base, entries, k);
    LastOfAbsent(entries, k);
  }

  lemma BaseKeys()
    ensures Keys(BaseStyles()) == ["header", "subheader", "tableHeader", "tableRow", "tableCurrency",
                                   "footerText", "pageNumber", "companyDetails", "signatureBox"]
  {
  }

  /** Every pack holds every base key, in the base order, ahead of its own. */
  lemma PacksKeepBaseKeys(base: seq<Field>)
    ensures |InvoiceStyles(base)| >= |base| && Keys(InvoiceStyles(base))[..|base|] == Keys(base)
    ensures |PurchaseOrderStyles(base)| >= |base| && Keys(PurchaseOrderStyles(base))[..|base|] == Keys(base)
    ensures |StatementOfAccountStyles(base)| >= |base| && Keys(StatementOfAccountStyles(base))[..|base|] == Keys(base)
  {
    SpreadPack(base, InvoiceEntries());
    SpreadPack(base, PurchaseOrderEntries());
    SpreadPack(base, StatementEntries());
  }

  /** No pack redefines `header` or `subheader`: they keep the base attributes. */
  lemma InvoiceKeepsHeaders(base: seq<Field>)
    ensures FieldOf(InvoiceStyles(base), "header") == FieldOf(base, "header")
    ensures FieldOf(InvoiceStyles(base), "subheader") == FieldOf(base, "subheader")
  {
    UnwrittenKeyKeepsBase(base, InvoiceEntries(), "header");
    UnwrittenKeyKeepsBase(base, InvoiceEntries(), "subheader");
  }

  lemma PurchaseOrderKeepsHeaders(base: seq<Field>)
    ensures FieldOf(PurchaseOrderStyles(base), "header") == FieldOf(base, "header")
    ensures FieldOf(PurchaseOrderStyles(base), "subheader") == FieldOf(base, "subheader")
  {
    UnwrittenKeyKeepsBase(base, PurchaseOrderEntries(), "header");
    UnwrittenKeyKeepsBase(base, PurchaseOrderEntries(), "subheader");
  }

  lemma StatementKeepsHeaders(base: seq<Field>)
    ensures FieldOf(StatementOfAccountStyles(base), "header") == FieldOf(base, "header")
    ensures FieldOf(StatementOfAccountStyles(base), "subheader") == FieldOf(base, "subheader")
  {
    UnwrittenKeyKeepsBase(base, StatementEntries(), "header");
    UnwrittenKeyKeepsBase(base, StatementEntries(), "subheader");
  }

  /** A redefined `tableHeader` replaces the base attributes wholesale; the invoice pack keeps them. */
  lemma PurchaseOrderTableHeader(base: seq<Field>)
    ensures FieldOf(PurchaseOrderStyles(base), "tableHeader") == Some(Obj([Field("fontSize", Num(9.0))]))
  {
    SpreadLookup(base, PurchaseOrderEntries(), "tableHeader");
    LastOfAt(PurchaseOrderEntries(), 4);
  }

  lemma StatementTableHeader(base: seq<Field>)
    ensures FieldOf(StatementOfAccountStyles(base), "tableHeader")
            == Some(Obj([Field("fontSize", Num(9.0)), Field("bold", Bool(true)), Field("fillColor", Null)]))
  {
    SpreadLookup(base, StatementEntries(), "tableHeader");
    LastOfAt(StatementEntries(), 5);
  }

  lemma InvoiceTableHeader(base: seq<Field>)
    ensures FieldOf(InvoiceStyles(base), "tableHeader") == FieldOf(base, "tableHeader")
  {
    UnwrittenKeyKeepsBase(base, InvoiceEntries(), "tableHeader");
  }

  /** `invoiceHeader` and `invoiceSubheader` are the base attributes followed by a colour. */
  lemma InvoiceHeadersExtendBase(base: seq<Field>)
    ensures FieldOf(InvoiceStyles(base), "invoiceHeader")
            == Some(Obj(HeaderStyle() + [Field("color", Str("#2c3e50"))]))
    ensures FieldOf(InvoiceStyles(base), "invoiceSubheader")
            == Some(Obj(SubheaderStyle() + [Field("color", Str("#34495e"))]))
  {
    SpreadLookup(base, InvoiceEntries(), "invoiceHeader");
    LastOfAt(InvoiceEntries(), 0);
    SpreadLookup(base, InvoiceEntries(), "invoiceSubheader");
    LastOfAt(InvoiceEntries(), 1);
    SetFresh(HeaderStyle(), "color", Str("#2c3e50"));
    SetFresh(SubheaderStyle(), "color", Str("#34495e"));
  }

  /** Over a base without them, `invoiceStyles` is the base keys followed by exactly four new keys. */
  lemma InvoiceKeys(base: seq<Field>)
    requires forall k :: k in Keys(InvoiceEntries()) ==> k !in Keys(base)
    ensures Keys(InvoiceStyles(base)) == Keys(base) + ["invoiceHeader", "invoiceSubheader", "customerInfo", "totalsTable"]
  {
    var added := ["invoiceHeader", "invoiceSubheader", "customerInfo", "totalsTable"];
    assert Keys(InvoiceEntries()) == added;
    assert Distinct(added);
    SpreadKeys(base, InvoiceEntries());
    NoteKeysFresh(Keys(base), added);
  }

  /** The base pack defines none of the keys the invoice pack adds. */
  lemma InvoiceKeysFresh()
    ensures forall k :: k in Keys(InvoiceEntries()) ==> k !in Keys(BaseStyles())
  {
    BaseKeys();
  }
}
