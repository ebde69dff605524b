/**
 * The purchase-order template: an asynchronous builder that loads the
 * company logo and returns a definition with a logo header on the first page,
 * a signature footer on every page, the supplier and company details, the
 * title, the order details and conditions, the items table and the totals.
 */
module PurchaseOrder {
  import opened Wrappers
  import opened JsValue
  import opened ImageHelper
  import opened CompanyLogo

  function Styled(text: Value, style: string): Value {
    Obj([Field("text", text), Field("style", Str(style))])
  }

  /** A horizontal canvas line from x = 0 to `x2`. */
  function Line(x2: real, lineWidth: real): Value {
    Obj([Field("type", Str("line")), Field("x1", Num(0.0)), Field("y1", Num(0.0)), Field("x2", Num(x2)),
         Field("y2", Num(0.0)), Field("lineWidth", Num(lineWidth))])
  }

  // ---- header and footer ----

  /** The logo over the company title. */
  function HeaderStack(data: Value, logo: Value): Value {
    Obj([Field("stack", Arr([
      Obj([Field("image", logo), Field("width", Num(80.0)), Field("alignment", Str("center")),
           Field("margin", Margin(0.0, 10.0, 0.0, 10.0))]),
      Obj([Field("text", Or(OptProp(Get(data, "companyInfo"), "title"), Str(""))), Field("alignment", Str("center")),
           Field("style", Str("headerTitle"))])]))])
  }

  /** What the header closure returns for a page: the logo stack on page 1, null on every other page. */
  function HeaderAt(data: Value, logo: Value, page: nat, count: nat): Outcome<Value> {
    if page != 1 then Ok(Null)
    else if Nullish(data) then Err(ReadError(data, "companyInfo"))
    else Ok(HeaderStack(data, logo))
  }

  const Roles: seq<string> := ["Purchasing Manager", "Finance Manager", "General Manager", "Cluster General Manager"]

  /** A signature column: a line of length `x2` over the role. */
  function Signature(x2: real, role: string): Value {
    Obj([Field("stack", Arr([Obj([Field("canvas", Arr([Line(x2, 0.4)]))]),
                             Obj([Field("text", Str(role)), Field("style", Str("footerRole")),
                                  Field("margin", Margin(0.0, 0.0, 0.0, 0.0))])])),
         Field("alignment", Str("center"))])
  }

  /** The footer: four signature columns and a full-width line below them. */
  function FooterNode(): Value {
    Arr([
      Obj([Field("columns", Arr([Signature(100.0, Roles[0]), Signature(100.0, Roles[1]), Signature(100.0, Roles[2]),
                                 Signature(120.0, Roles[3])])),
           Field("margin", Margin(40.0, 0.0, 40.0, 50.0))]),
      Obj([Field("canvas", Arr([Line(515.0, 0.4)])), Field("margin", Margin(40.0, 0.0, 40.0, 0.0))])])
  }

  // ---- supplier and company details ----

  /** The supplier's name and address, with placeholders when missing. */
  function SupplierTop(supplier: Value): Value {
    Obj([Field("stack", Arr([Styled(Or(OptProp(supplier, "name"), Str("Supplier Name")), "infoTitle"),
                             Styled(Or(OptProp(supplier, "address"), Str("Supplier Address")), "infoText")])),
         Field("margin", Margin(0.0, 0.0, 0.0, 20.0))])
  }

  function SupplierColumn(h: Host, supplier: Value): Value {
    Obj([Field("width", Str("35%")), Field("stack", Arr([
      SupplierTop(supplier),
      Obj([Field("stack", Arr([Styled(Str("Tel: " + ToStr(h, Or(OptProp(supplier, "phone"), Str("")))), "infoText")]))])]))])
  }

  /** `${caption}${info?.key || ""}` in the info style. */
  function InfoLine(h: Host, caption: string, info: Value, key: string): Value {
    Styled(Str(caption + ToStr(h, Or(OptProp(info, key), Str("")))), "infoText")
  }

  function CompanyColumn(h: Host, company: Value): Value {
    var website := OptProp(company, "website");
    Obj([Field("width", Str("35%")), Field("stack", Arr([
      Obj([Field("stack", Arr([InfoLine(h, "Company Name: ", company, "name"), InfoLine(h, "TRN: ", company, "trn"),
                               InfoLine(h, "Title: ", company, "title")])),
           Field("margin", Margin(0.0, 0.0, 0.0, 10.0))]),
      Obj([Field("stack", Arr([InfoLine(h, "Deliver To: ", company, "deliveryTo"), InfoLine(h, "Phone: ", company, "phone"),
                               Obj([Field("text", Or(website, Str(""))), Field("link", website)])]))])]))])
  }

  /** The supplier on the left, a blank middle column and the company on the right. */
  function PartiesBlock(h: Host, data: Value): Value {
    Obj([Field("columns", Arr([SupplierColumn(h, Get(data, "supplierInfo")),
                               Obj([Field("width", Str("30%")), Field("stack", Arr([Obj([Field("text", Str(""))])]))]),
                               CompanyColumn(h, Get(data, "companyInfo"))])),
         Field("columnGap", Num(10.0)), Field("margin", Margin(0.0, 20.0, 0.0, 20.0))])
  }

  function TitleBlock(): Value {
    Obj([Field("stack", Arr([
      Obj([Field("text", Str("PURCHASE ORDER")), Field("style", Str("documentTitle")), Field("alignment", Str("center")),
           Field("margin", Margin(0.0, 0.0, 0.0, 0.0))]),
      Obj([Field("canvas", Arr([Obj([Field("type", Str("line")), Field("x1", Num(0.0)), Field("y1", Num(0.0)),
                                     Field("x2", Num(520.0)), Field("y2", Num(0.0)), Field("lineWidth", Num(0.8)),
                                     Field("lineColor", Str("#000"))])]))])]))])
  }

  // ---- order details and conditions ----

  const OrderKeys: seq<string> := ["number", "date", "costCentre", "requestNo", "deliveryDate"]
  const OrderCaptions: seq<string> := ["Order No: ", "Order Date: ", "Cost Centre: ", "Request No: ", "Delivery Date: "]
  const Conditions: seq<string> := [
    "1) Acceptance of this order indicates acceptance of all conditions herein.",
    "2) Invoice must accompany goods.",
    "3) Deliveries accepted subject to count, weight & quality.",
    "4) Receiving Time: 9AM - 4PM",
    "5) Payment Terms:"]

  /** `${caption}${data.orderInfo?.key}`: a missing detail prints as "undefined". */
  function OrderLines(h: Host, order: Value): (lines: seq<Value>)
    ensures |lines| == 5
  {
    seq(5, j requires 0 <= j < 5 => Styled(Str(OrderCaptions[j] + ToStr(h, OptProp(order, OrderKeys[j]))), "infoText"))
  }

  function OrderBlock(h: Host, data: Value): Value {
    Obj([Field("columns", Arr([
           Obj([Field("width", Str("40%")), Field("stack", Arr(OrderLines(h, Get(data, "orderInfo"))))]),
           Obj([Field("width", Str("60%")),
                Field("stack", Arr(seq(5, j requires 0 <= j < 5 => Styled(Str(Conditions[j]), "infoText"))))])])),
         Field("columnGap", Num(10.0)), Field("margin", Margin(0.0, 15.0, 0.0, 25.0))])
  }

  // ---- items table ----

  const HeaderCaptions: seq<string> := ["No", "Article", "Unit", "Qty", "Unit Price", "VAT %", "VAT Value", "Total"]

  function ItemsHeader(): Value {
    Arr(seq(8, j requires 0 <= j < 8 => Styled(Str(HeaderCaptions[j]), "tableHeader")))
  }

  function SmallCell(text: Value): Value {
    Obj([Field("text", text), Field("fontSize", Num(9.0))])
  }

  /** The `map` callback for item `i`: serial number, article, unit, quantity and the four amounts. */
  function ItemRow(h: Host, item: Value, i: nat): Outcome<Value> {
    var article :- Prop(item, "article");
    var unitPrice :- ToFixed(h, Get(item, "unitPrice"), 2, "item.unitPrice");
    var vatPercent :- ToFixed(h, Get(item, "vatPercent"), 1, "item.vatPercent");
    var vatValue :- ToFixed(h, Get(item, "vatValue"), 2, "item.vatValue");
    var total :- ToFixed(h, Get(item, "total"), 2, "item.total");
    Ok(Arr([SmallCell(Num((i + 1) as real)), SmallCell(article), SmallCell(Get(item, "unit")),
            SmallCell(Get(item, "qty")), SmallCell(unitPrice), SmallCell(vatPercent), SmallCell(vatValue),
            SmallCell(total)]))
  }

  function ItemRows(h: Host, items: Value): Outcome<seq<Value>> {
    var xs :- ItemsOf(items, "data.items");
    MapR(xs, (item, i) => ItemRow(h, item, i))
  }

  function ItemsBlock(rows: seq<Value>): Value {
    Obj([Field("stack", Arr([Obj([
      Field("table", Obj([
        Field("headerRows", Num(1.0)),
        Field("widths", Arr([Str("auto"), Str("*"), Str("auto"), Str("auto"), Str("auto"), Str("auto"), Str("auto"),
                             Str("auto")])),
        Field("body", Arr([ItemsHeader()] + rows))])),
      Field("layout", Obj([Field("hLineWidth", Fn(Const(Num(0.5)))), Field("vLineWidth", Fn(Const(Num(0.0)))),
                           Field("hLineColor", Fn(Const(Str("black"))))])),
      Field("margin", Margin(0.0, 0.0, 0.0, 0.0))])]))])
  }

  // ---- totals ----

  /** `data.summary?.<key>.toFixed(2)` */
  function SummaryFixed(h: Host, data: Value, key: string): Outcome<Value> {
    OptToFixed(h, Get(data, "summary"), key, 2, "data.summary?." + key)
  }

  function TotalsLine(caption: string, value: Value): Value {
    Arr([Obj([Field("text", Str(caption)), Field("alignment", Str("center")), Field("fontSize", Num(9.0))]),
         Obj([Field("text", value), Field("alignment", Str("right")), Field("fontSize", Num(9.0))])])
  }

  function TotalsBlock(order: Value, vat: Value, gross: Value): Value {
    Obj([Field("margin", Margin(0.0, 0.0, 0.0, 0.0)),
         Field("table", Obj([Field("widths", Arr([Str("*"), Str("auto")])),
                             Field("body", Arr([TotalsLine("Order Total", order), TotalsLine("VAT Total", vat),
                                                TotalsLine("Gross Total - AED", gross)]))])),
         Field("layout", Obj([Field("hLineWidth", Fn(FirstLine(0.0, 0.5))), Field("vLineWidth", Fn(Const(Num(0.0)))),
                              Field("hLineColor", Fn(Const(Str("black"))))]))])
  }

  // ---- the definition ----

  function PurchaseOrderDoc(data: Value, logo: Value, parties: Value, order: Value, items: Value, totals: Value,
                            styles: Value): Value
  {
    Obj([
      Field("pageSize", Str("A4")),
      Field("pageMargins", Margin(40.0, 60.0, 40.0, 90.0)),
      Field("header", Fn(PurchaseOrderHeader(data, logo))),
      Field("footer", Fn(PurchaseOrderFooter)),
      Field("content", Arr([parties, TitleBlock(), order, items, totals])),
      Field("styles", styles)])
  }

  /**
   * The object literal the template returns over the payload and the
   * loaded logo: reading `supplierInfo` is the first read that can throw,
   * then the item rows and the totals.
   */
  function Definition(h: Host, data: Value, logo: Value, styles: Value): (r: Outcome<Value>)
    ensures r.Ok? ==> r.value.Obj?
  {
    var _ :- Prop(data, "supplierInfo");
    var rows :- ItemRows(h, Get(data, "items"));
    var order :- SummaryFixed(h, data, "orderTotal");
    var vat :- SummaryFixed(h, data, "vatTotal");
    var gross :- SummaryFixed(h, data, "grossTotal");
    Ok(PurchaseOrderDoc(data, logo, PartiesBlock(h, data), OrderBlock(h, data), ItemsBlock(rows),
                        TotalsBlock(order, vat, gross), styles))
  }

  /** The template's default export, once its promise settles: load the logo, then build. */
  function Build(h: Host, io: ImageIo, data: Value, styles: Value): (r: Outcome<Value>)
    ensures r.Ok? ==> r.value.Obj?
  {
    Definition(h, data, Nullable(Logo(io, data)), styles)
  }

  // ---- properties of the header and footer ----

  /**
   * The header closure draws the logo over the company title ('' when
   * missing) on the first page only, and is null on every other page.
   */
  lemma HeaderFirstPageOnly(data: Value, logo: Value, page: nat, count: nat)
    ensures page != 1 ==> HeaderAt(data, logo, page, count) == Ok(Null)
    ensures page == 1 ==> (HeaderAt(data, logo, page, count).Ok? <==> !Nullish(data))
    ensures page == 1 && Nullish(data) ==> HeaderAt(data, logo, page, count) == Err(ReadError(data, "companyInfo"))
    ensures page == 1 && !Nullish(data) ==>
              var stack := Get(HeaderAt(data, logo, page, count).value, "stack");
              stack.Arr? && |stack.items| == 2
              && Get(stack.items[0], "image") == logo
              && Get(stack.items[1], "text") == Or(OptProp(Get(data, "companyInfo"), "title"), Str(""))
  {
  }

  /** A signature column is a line of the given length over the role's name. */
  lemma SignatureParts(x2: real, role: string)
    ensures var stack := Get(Signature(x2, role), "stack");
            stack.Arr? && |stack.items| == 2
            && Get(stack.items[1], "text") == Str(role)
            && Get(stack.items[0], "canvas") == Arr([Line(x2, 0.4)])
            && Get(Line(x2, 0.4), "x2") == Num(x2)
  {
    FieldOfAt(Line(x2, 0.4).fields, 3);
  }

  /**
   * The footer holds one signature column per role, in order, the last line
   * longer, and then a full-width line.
   */
  lemma FooterShape()
    ensures |FooterNode().items| == 2
    ensures Get(FooterNode().items[0], "columns")
            == Arr([Signature(100.0, "Purchasing Manager"), Signature(100.0, "Finance Manager"),
                    Signature(100.0, "General Manager"), Signature(120.0, "Cluster General Manager")])
    ensures Get(FooterNode().items[1], "canvas") == Arr([Line(515.0, 0.4)])
  {
  }

  // ---- properties of the content blocks ----

  /** A missing supplier name or address falls back to a placeholder. */
  lemma SupplierDefaults(supplier: Value)
    ensures var top := Get(SupplierTop(supplier), "stack");
            top.Arr? && |top.items| == 2
            && (!Truthy(OptProp(supplier, "name")) ==> Get(top.items[0], "text") == Str("Supplier Name"))
            && (Truthy(OptProp(supplier, "name")) ==> Get(top.items[0], "text") == OptProp(supplier, "name"))
            && (!Truthy(OptProp(supplier, "address")) ==> Get(top.items[1], "text") == Str("Supplier Address"))
            && (Truthy(OptProp(supplier, "address")) ==> Get(top.items[1], "text") == OptProp(supplier, "address"))
  {
  }

  /** Each order detail is printed after its caption; a missing one reads "undefined". */
  lemma OrderDetails(h: Host, order: Value, j: nat)
    requires j < 5
    ensures Get(OrderLines(h, order)[j], "text") == Str(OrderCaptions[j] + ToStr(h, OptProp(order, OrderKeys[j])))
    ensures Nullish(order) ==> Get(OrderLines(h, order)[j], "text") == Str(OrderCaptions[j] + "undefined")
  {
  }

  /** An item the row callback can read: not null or undefined, with four numeric amounts. */
  predicate ItemReadable(item: Value) {
    !Nullish(item) && Get(item, "unitPrice").Num? && Get(item, "vatPercent").Num?
    && Get(item, "vatValue").Num? && Get(item, "total").Num?
  }

  /** An item row exists exactly for a readable item. */
  lemma ItemRowOk(h: Host, item: Value, i: nat)
    ensures ItemRow(h, item, i).Ok? <==> ItemReadable(item)
  {
  }

  /**
   * An item row has eight cells, numbered from 1, with the VAT percentage to
   * one decimal and the other amounts to two.
   */
  lemma ItemRowCells(h: Host, item: Value, i: nat)
    requires ItemReadable(item)
    ensures ItemRow(h, item, i).Ok?
    ensures var cells := ItemRow(h, item, i).value;
            cells.Arr? && |cells.items| == 8
            && Get(cells.items[0], "text") == Num((i + 1) as real)
            && Get(cells.items[1], "text") == Get(item, "article")
            && Get(cells.items[4], "text") == Str(h.fixed(Get(item, "unitPrice").n, 2))
            && Get(cells.items[5], "text") == Str(h.fixed(Get(item, "vatPercent").n, 1))
            && Get(cells.items[6], "text") == Str(h.fixed(Get(item, "vatValue").n, 2))
            && Get(cells.items[7], "text") == Str(h.fixed(Get(item, "total").n, 2))
  {
    ItemRowValue(h, item, i);
    SmallCellText(Num((i + 1) as real));
    SmallCellText(Get(item, "article"));
    SmallCellText(Str(h.fixed(Get(item, "unitPrice").n, 2)));
    SmallCellText(Str(h.fixed(Get(item, "vatPercent").n, 1)));
    SmallCellText(Str(h.fixed(Get(item, "vatValue").n, 2)));
    SmallCellText(Str(h.fixed(Get(item, "total").n, 2)));
  }

  lemma ItemRowValue(h: Host, item: Value, i: nat)
    requires ItemReadable(item)
    ensures ItemRow(h, item, i)
            == Ok(Arr([SmallCell(Num((i + 1) as real)), SmallCell(Get(item, "article")), SmallCell(Get(item, "unit")),
                       SmallCell(Get(item, "qty")), SmallCell(Str(h.fixed(Get(item, "unitPrice").n, 2))),
                       SmallCell(Str(h.fixed(Get(item, "vatPercent").n, 1))),
                       SmallCell(Str(h.fixed(Get(item, "vatValue").n, 2))),
                       SmallCell(Str(h.fixed(Get(item, "total").n, 2)))]))
  {
  }

  lemma SmallCellText(text: Value)
    ensures Get(SmallCell(text), "text") == text
  {
  }

  /** The body of the items table. */
  function ItemsBody(block: Value): Value {
    var stack := Get(block, "stack");
    if stack.Arr? && |stack.items| > 0 then Get(Get(stack.items[0], "table"), "body") else Undef
  }

  lemma ItemsBlockBody(rows: seq<Value>)
    ensures ItemsBody(ItemsBlock(rows)) == Arr([ItemsHeader()] + rows)
    ensures |ItemsHeader().items| == 8
  {
    FieldOfAt(ItemsBlock(rows).fields[0].value.items[0].fields[0].value.fields, 2);
  }

  /** The rows of an item list, one per item in order. */
  lemma ItemRowsOf(h: Host, items: Value)
    requires ItemRows(h, items).Ok?
    ensures items.Arr? && |ItemRows(h, items).value| == |items.items|
    ensures forall i :: 0 <= i < |items.items| ==>
              ItemRow(h, items.items[i], i).Ok? && ItemRows(h, items).value[i] == ItemRow(h, items.items[i], i).value
  {
    MapROk(items.items, (item, i) => ItemRow(h, item, i));
  }

  /** The items table opens with the header row, then one row per item. */
  lemma ItemsTableRows(h: Host, items: Value)
    requires ItemRows(h, items).Ok?
    ensures items.Arr?
    ensures var body := ItemsBody(ItemsBlock(ItemRows(h, items).value));
            body.Arr? && |body.items| == |items.items| + 1 && body.items[0] == ItemsHeader()
  {
    ItemsBlockBody(ItemRows(h, items).value);
    ItemRowsOf(h, items);
  }

  /** Row `i + 1` of the items table is the row of item `i`. */
  lemma ItemsTableRow(h: Host, items: Value, i: nat)
    requires ItemRows(h, items).Ok? && items.Arr? && i < |items.items|
    ensures var body := ItemsBody(ItemsBlock(ItemRows(h, items).value));
            body.Arr? && i + 1 < |body.items|
            && ItemRow(h, items.items[i], i).Ok? && body.items[i + 1] == ItemRow(h, items.items[i], i).value
  {
    ItemsBlockBody(ItemRows(h, items).value);
    ItemRowsOf(h, items);
  }

  /** The totals table lists the order, VAT and gross totals under their captions. */
  lemma TotalsRows(order: Value, vat: Value, gross: Value)
    ensures var body := Get(Get(TotalsBlock(order, vat, gross), "table"), "body");
            body == Arr([TotalsLine("Order Total", order), TotalsLine("VAT Total", vat),
                         TotalsLine("Gross Total - AED", gross)])
    ensures Get(Get(TotalsBlock(order, vat, gross), "layout"), "hLineWidth") == Fn(FirstLine(0.0, 0.5))
  {
    FieldOfAt(TotalsBlock(order, vat, gross).fields, 1);
    FieldOfAt(TotalsBlock(order, vat, gross).fields[1].value.fields, 1);
    FieldOfAt(TotalsBlock(order, vat, gross).fields, 2);
  }

  // ---- properties of the definition ----

  /** The `k`-th block of a definition's content, undefined past its end. */
  function Block(doc: Value, k: nat): Value {
    var content := Get(doc, "content");
    if content.Arr? && k < |content.items| then content.items[k] else Undef
  }

  lemma DocParts(data: Value, logo: Value, parties: Value, order: Value, items: Value, totals: Value, styles: Value)
    ensures var doc := PurchaseOrderDoc(data, logo, parties, order, items, totals, styles);
            Keys(doc.fields) == ["pageSize", "pageMargins", "header", "footer", "content", "styles"]
            && Get(doc, "pageSize") == Str("A4")
            && Get(doc, "header") == Fn(PurchaseOrderHeader(data, logo))
            && Get(doc, "footer") == Fn(PurchaseOrderFooter)
            && Block(doc, 0) == parties && Block(doc, 1) == TitleBlock() && Block(doc, 2) == order
            && Block(doc, 3) == items && Block(doc, 4) == totals
            && Get(doc, "styles") == styles
  {
    var doc := PurchaseOrderDoc(data, logo, parties, order, items, totals, styles);
    FieldOfAt(doc.fields, 2);
    FieldOfAt(doc.fields, 3);
    FieldOfAt(doc.fields, 4);
    FieldOfAt(doc.fields, 5);
  }

  /** A successful definition is the document over its computed parts. */
  lemma DefinitionValue(h: Host, data: Value, logo: Value, styles: Value)
    requires Definition(h, data, logo, styles).Ok?
    ensures ItemRows(h, Get(data, "items")).Ok?
            && SummaryFixed(h, data, "orderTotal").Ok? && SummaryFixed(h, data, "vatTotal").Ok?
            && SummaryFixed(h, data, "grossTotal").Ok?
            && Definition(h, data, logo, styles).value
               == PurchaseOrderDoc(data, logo, PartiesBlock(h, data), OrderBlock(h, data),
                                   ItemsBlock(ItemRows(h, Get(data, "items")).value),
                                   TotalsBlock(SummaryFixed(h, data, "orderTotal").value,
                                               SummaryFixed(h, data, "vatTotal").value,
                                               SummaryFixed(h, data, "grossTotal").value), styles)
  {
  }

  /** The fourth block of a definition is the items table over its item rows. */
  lemma ItemsBlockOf(h: Host, data: Value, logo: Value, styles: Value)
    requires Definition(h, data, logo, styles).Ok?
    ensures ItemRows(h, Get(data, "items")).Ok?
    ensures Block(Definition(h, data, logo, styles).value, 3) == ItemsBlock(ItemRows(h, Get(data, "items")).value)
  {
    DefinitionValue(h, data, logo, styles);
    DocParts(data, logo, PartiesBlock(h, data), OrderBlock(h, data), ItemsBlock(ItemRows(h, Get(data, "items")).value),
             TotalsBlock(SummaryFixed(h, data, "orderTotal").value, SummaryFixed(h, data, "vatTotal").value,
                         SummaryFixed(h, data, "grossTotal").value), styles);
  }

  /** An item list the table can be built from: an array of readable items. */
  predicate ItemsReadable(items: Value) {
    items.Arr? && forall i :: 0 <= i < |items.items| ==> ItemReadable(items.items[i])
  }

  /** The item rows exist exactly for an array of readable items. */
  lemma ItemRowsOk(h: Host, items: Value)
    ensures ItemRows(h, items).Ok? <==> ItemsReadable(items)
  {
    if items.Arr? {
      MapROk(items.items, (item, i) => ItemRow(h, item, i));
      forall i | 0 <= i < |items.items| ensures ItemRow(h, items.items[i], i).Ok? <==> ItemReadable(items.items[i]) {
        ItemRowOk(h, items.items[i], i);
      }
    }
  }

  /** A summary total that can be printed: no summary at all, or a number. */
  predicate SummaryReadable(data: Value, key: string) {
    Nullish(Get(data, "summary")) || Get(Get(data, "summary"), key).Num?
  }

  /** The reads that must succeed, in the order the definition makes them. */
  predicate Readable(data: Value) {
    !Nullish(data) && ItemsReadable(Get(data, "items"))
    && SummaryReadable(data, "orderTotal") && SummaryReadable(data, "vatTotal") && SummaryReadable(data, "grossTotal")
  }

  lemma DefinitionSucceeds(h: Host, data: Value, logo: Value, styles: Value)
    ensures Definition(h, data, logo, styles).Ok? <==> Readable(data)
  {
    ItemRowsOk(h, Get(data, "items"));
    SummaryOk(h, data, "orderTotal");
    SummaryOk(h, data, "vatTotal");
    SummaryOk(h, data, "grossTotal");
  }

  lemma SummaryOk(h: Host, data: Value, key: string)
    ensures SummaryFixed(h, data, key).Ok? <==> SummaryReadable(data, key)
  {
  }

  /** A build succeeds exactly when the payload can be read throughout; the logo never decides it. */
  lemma BuildSucceeds(h: Host, io: ImageIo, data: Value, styles: Value)
    ensures Build(h, io, data, styles).Ok? <==> Readable(data)
  {
    DefinitionSucceeds(h, data, Nullable(Logo(io, data)), styles);
  }

  /**
   * The first failing read decides the error: reading `supplierInfo` of a
   * null or undefined payload, then calling `map` on items that are not an
   * array.
   */
  lemma BuildFirstErrors(h: Host, io: ImageIo, data: Value, styles: Value)
    ensures Nullish(data) ==> Build(h, io, data, styles) == Err(ReadError(data, "supplierInfo"))
    ensures !Nullish(data) && Nullish(Get(data, "items")) ==>
              Build(h, io, data, styles) == Err(ReadError(Get(data, "items"), "map"))
    ensures !Nullish(data) && !Nullish(Get(data, "items")) && !Get(data, "items").Arr? ==>
              Build(h, io, data, styles) == Err(NotAFunction("data.items.map"))
  {
    assert "data.items" + ".map" == "data.items.map";
  }
}
