/**
 * The invoice template: a synchronous builder from a payload and a style
 * pack to a document definition.  Reads of missing payload fields throw as
 * JavaScript throws them, in evaluation order, so the first failing read
 * decides the error.
 */
module Invoice {
  import opened Wrappers
  import opened JsValue

  const Notice: string := "Thank you for your business!"

  function Text(s: string): Value {
    Str(s)
  }

  function TitleNode(): Value {
    Obj([Field("text", Str("INVOICE")), Field("style", Str("header")), Field("alignment", Str("center"))])
  }

  function Right(text: string): Value {
    Obj([Field("text", Str(text)), Field("alignment", Str("right"))])
  }

  /** The company column and the invoice details column. */
  function CompanyColumns(h: Host, invoiceNumber: Value, date: Value, dueDate: Value): Value {
    Obj([
      Field("columns", Arr([
        Obj([Field("stack", Arr([
          Obj([Field("text", Str("Your Company Name")), Field("style", Str("subheader"))]),
          Text("123 Business Street"),
          Text("City, State 12345"),
          Text("Phone: (555) 555-5555"),
          Text("Email: contact@yourcompany.com")]))]),
        Obj([Field("stack", Arr([
          Right("Invoice #: " + ToStr(h, invoiceNumber)),
          Right("Date: " + ToStr(h, date)),
          Right("Due Date: " + ToStr(h, dueDate))]))])])),
      Field("columnGap", Num(10.0)),
      Field("margin", Margin(0.0, 20.0, 0.0, 20.0))])
  }

  function Heading(text: string): Value {
    Obj([Field("text", Str(text)), Field("style", Str("subheader")), Field("margin", Margin(0.0, 20.0, 0.0, 5.0))])
  }

  function CustomerStack(name: Value, address: Value, city: Value, phone: Value): Value {
    Obj([Field("stack", Arr([name, address, city, phone])), Field("margin", Margin(0.0, 0.0, 0.0, 20.0))])
  }

  function HeaderCell(text: string): Value {
    Obj([Field("text", Str(text)), Field("style", Str("tableHeader"))])
  }

  function HeaderRow(): Value {
    Arr([HeaderCell("Description"), HeaderCell("Quantity"), HeaderCell("Unit Price"), HeaderCell("Amount")])
  }

  /** `[item.description, item.quantity.toString(), unit price, amount]` */
  function ItemRow(h: Host, item: Value): (r: Outcome<Value>)
    ensures r.Ok? <==> !Nullish(item) && !Nullish(Get(item, "quantity")) && Get(item, "unitPrice").Num?
    ensures r.Ok? ==>
              r.value == Arr([Get(item, "description"), Str(ToStr(h, Get(item, "quantity"))),
                              Right("$" + h.fixed(Get(item, "unitPrice").n, 2)),
                              Right("$" + h.productFixed(Get(item, "quantity"), Get(item, "unitPrice").n, 2))])
  {
    var description :- Prop(item, "description");
    var quantity :- CallToString(h, Get(item, "quantity"));
    var unitPrice :- ToFixed(h, Get(item, "unitPrice"), 2, "item.unitPrice");
    Ok(Arr([description, quantity, Right("$" + unitPrice.s),
            Right("$" + h.productFixed(Get(item, "quantity"), Get(item, "unitPrice").n, 2))]))
  }

  function ItemRows(h: Host, items: Value): Outcome<seq<Value>> {
    var xs :- ItemsOf(items, "data.items");
    MapR(xs, (item, i) => ItemRow(h, item))
  }

  function ItemsTable(rows: seq<Value>): Value {
    Obj([
      Field("table", Obj([
        Field("headerRows", Num(1.0)),
        Field("widths", Arr([Str("*"), Str("auto"), Str("auto"), Str("auto")])),
        Field("body", Arr([HeaderRow()] + rows))])),
      Field("layout", Str("lightHorizontalLines"))])
  }

  function Totals(subtotal: string, tax: string, total: string): Value {
    Obj([
      Field("columns", Arr([
        Obj([Field("width", Str("*")), Field("text", Str(""))]),
        Obj([Field("width", Str("auto")), Field("stack", Arr([
          Obj([Field("text", Str("Subtotal:")), Field("alignment", Str("right")), Field("margin", Margin(0.0, 10.0, 0.0, 5.0))]),
          Obj([Field("text", Str("Tax:")), Field("alignment", Str("right")), Field("margin", Margin(0.0, 0.0, 0.0, 5.0))]),
          Obj([Field("text", Str("Total:")), Field("alignment", Str("right")), Field("bold", Bool(true))])]))]),
        Obj([Field("width", Str("auto")), Field("stack", Arr([
          Obj([Field("text", Str("$" + subtotal)), Field("alignment", Str("right")), Field("margin", Margin(20.0, 10.0, 0.0, 5.0))]),
          Obj([Field("text", Str("$" + tax)), Field("alignment", Str("right")), Field("margin", Margin(20.0, 0.0, 0.0, 5.0))]),
          Obj([Field("text", Str("$" + total)), Field("alignment", Str("right")), Field("bold", Bool(true)),
               Field("margin", Margin(20.0, 0.0, 0.0, 0.0))])]))])])),
      Field("margin", Margin(0.0, 20.0, 0.0, 20.0))])
  }

  function NotesNode(notes: Value): Value {
    Obj([Field("text", Or(notes, Str(Notice))), Field("margin", Margin(0.0, 0.0, 0.0, 20.0))])
  }

  /** The document definition once every read has succeeded. */
  function InvoiceDoc(h: Host, data: Value, rows: seq<Value>, subtotal: string, tax: string, total: string,
                      styles: Value): Value
  {
    var customer := Get(data, "customer");
    Obj([
      Field("content", Arr([
        TitleNode(),
        CompanyColumns(h, Get(data, "invoiceNumber"), Get(data, "date"), Get(data, "dueDate")),
        Heading("Bill To:"),
        CustomerStack(Get(customer, "name"), Get(customer, "address"), Get(customer, "city"), Get(customer, "phone")),
        ItemsTable(rows),
        Totals(subtotal, tax, total),
        Heading("Notes:"),
        NotesNode(Get(data, "notes"))])),
      Field("styles", styles)])
  }

  /** The template's default export. */
  function Build(h: Host, data: Value, styles: Value): (r: Outcome<Value>)
    ensures r.Ok? ==> r.value.Obj?
  {
    var _ :- Prop(data, "invoiceNumber");
    var _ :- Prop(Get(data, "customer"), "name");
    var rows :- ItemRows(h, Get(data, "items"));
    var subtotal :- ToFixed(h, Get(data, "subtotal"), 2, "data.subtotal");
    var tax :- ToFixed(h, Get(data, "tax"), 2, "data.tax");
    var total :- ToFixed(h, Get(data, "total"), 2, "data.total");
    Ok(InvoiceDoc(h, data, rows, subtotal.s, tax.s, total.s, styles))
  }

  /** The reads that must succeed, in the order the template makes them. */
  predicate Readable(data: Value) {
    !Nullish(data)
    && !Nullish(Get(data, "customer"))
    && Get(data, "items").Arr?
    && (forall i :: 0 <= i < |Get(data, "items").items| ==>
          var item := Get(data, "items").items[i];
          !Nullish(item) && !Nullish(Get(item, "quantity")) && Get(item, "unitPrice").Num?)
    && Get(data, "subtotal").Num? && Get(data, "tax").Num? && Get(data, "total").Num?
  }

  /** The builder succeeds exactly on readable payloads. */
  lemma BuildSucceeds(h: Host, data: Value, styles: Value)
    ensures Build(h, data, styles).Ok? <==> Readable(data)
  {
    var items := Get(data, "items");
    if items.Arr? {
      MapROk(items.items, (item, i) => ItemRow(h, item));
    }
  }

  /** A missing payload fails on its first read, a missing customer on the name read. */
  lemma BuildFirstErrors(h: Host, data: Value, styles: Value)
    ensures Nullish(data) ==> Build(h, data, styles) == Err(ReadError(data, "invoiceNumber"))
    ensures !Nullish(data) && Nullish(Get(data, "customer")) ==>
              Build(h, data, styles) == Err(ReadError(Get(data, "customer"), "name"))
  {
  }

  /** A successful build is the document over the formatted totals and the item rows. */
  lemma BuildValue(h: Host, data: Value, styles: Value)
    requires Build(h, data, styles).Ok?
    ensures ItemRows(h, Get(data, "items")).Ok?
    ensures Get(data, "subtotal").Num? && Get(data, "tax").Num? && Get(data, "total").Num?
    ensures Build(h, data, styles).value
            == InvoiceDoc(h, data, ItemRows(h, Get(data, "items")).value, h.fixed(Get(data, "subtotal").n, 2),
                          h.fixed(Get(data, "tax").n, 2), h.fixed(Get(data, "total").n, 2), styles)
  {
  }

  /** The definition has exactly `content` and `styles`, and the styles argument is passed through. */
  lemma StylesPassedThrough(h: Host, data: Value, styles: Value)
    requires Build(h, data, styles).Ok?
    ensures Keys(Build(h, data, styles).value.fields) == ["content", "styles"]
    ensures Get(Build(h, data, styles).value, "styles") == styles
  {
    BuildValue(h, data, styles);
    FieldOfAt(Build(h, data, styles).value.fields, 1);
  }

  function Content(doc: Value): seq<Value> {
    var c := Get(doc, "content");
    if c.Arr? then c.items else []
  }

  lemma ContentOf(h: Host, data: Value, styles: Value)
    requires Build(h, data, styles).Ok?
    ensures Content(Build(h, data, styles).value) == Build(h, data, styles).value.fields[0].value.items
    ensures |Content(Build(h, data, styles).value)| == 8
  {
    BuildValue(h, data, styles);
    FieldOfAt(Build(h, data, styles).value.fields, 0);
  }

  /** The content opens with the INVOICE title in style `header`, centred. */
  lemma OpensWithTitle(h: Host, data: Value, styles: Value)
    requires Build(h, data, styles).Ok?
    ensures |Content(Build(h, data, styles).value)| == 8
    ensures Content(Build(h, data, styles).value)[0]
            == Obj([Field("text", Str("INVOICE")), Field("style", Str("header")), Field("alignment", Str("center"))])
  {
    ContentOf(h, data, styles);
  }

  /** The customer stack holds name, address, city and phone, in this order. */
  lemma CustomerOrder(h: Host, data: Value, styles: Value)
    requires Build(h, data, styles).Ok?
    ensures |Content(Build(h, data, styles).value)| == 8
    ensures var customer := Get(data, "customer");
            Get(Content(Build(h, data, styles).value)[3], "stack")
            == Arr([Get(customer, "name"), Get(customer, "address"), Get(customer, "city"), Get(customer, "phone")])
  {
    BuildValue(h, data, styles);
    var customer := Get(data, "customer");
    FieldOfAt(CustomerStack(Get(customer, "name"), Get(customer, "address"), Get(customer, "city"), Get(customer, "phone")).fields, 0);
    ContentOf(h, data, styles);
  }

  /** The notes are the payload's when truthy, else the thank-you line. */
  lemma NotesDefault(h: Host, data: Value, styles: Value)
    requires Build(h, data, styles).Ok?
    ensures |Content(Build(h, data, styles).value)| == 8
    ensures Get(Content(Build(h, data, styles).value)[7], "text")
            == (if Truthy(Get(data, "notes")) then Get(data, "notes") else Str("Thank you for your business!"))
  {
    BuildValue(h, data, styles);
    FieldOfAt(NotesNode(Get(data, "notes")).fields, 0);
    ContentOf(h, data, styles);
  }

  function TableBody(tableNode: Value): Value {
    Get(Get(tableNode, "table"), "body")
  }

  lemma TableBodyOf(rows: seq<Value>)
    ensures TableBody(ItemsTable(rows)) == Arr([HeaderRow()] + rows)
  {
    FieldOfAt(ItemsTable(rows).fields, 0);
    FieldOfAt(ItemsTable(rows).fields[0].value.fields, 2);
  }

  lemma DocTable(h: Host, data: Value, rows: seq<Value>, subtotal: string, tax: string, total: string, styles: Value)
    ensures |Content(InvoiceDoc(h, data, rows, subtotal, tax, total, styles))| == 8
    ensures TableBody(Content(InvoiceDoc(h, data, rows, subtotal, tax, total, styles))[4]) == Arr([HeaderRow()] + rows)
  {
    FieldOfAt(InvoiceDoc(h, data, rows, subtotal, tax, total, styles).fields, 0);
    TableBodyOf(rows);
  }

  /** One row per item, in item order, as `ItemRow` builds it. */
  lemma RowsFacts(h: Host, items: Value)
    requires ItemRows(h, items).Ok?
    ensures items.Arr? && |ItemRows(h, items).value| == |items.items|
    ensures forall i :: 0 <= i < |items.items| ==>
              ItemRow(h, items.items[i]).Ok? && ItemRows(h, items).value[i] == ItemRow(h, items.items[i]).value
  {
    MapROk(items.items, (item, i) => ItemRow(h, item));
  }

  /** An item row: the description, the quantity as a string, the unit price, then the amount. */
  predicate ItemCells(h: Host, item: Value, row: Value) {
    row.Arr? && |row.items| == 4
    && row.items[0] == Get(item, "description")
    && row.items[1] == Str(ToStr(h, Get(item, "quantity")))
    && Get(item, "unitPrice").Num?
    && row.items[2] == Right("$" + h.fixed(Get(item, "unitPrice").n, 2))
    && row.items[3] == Right("$" + h.productFixed(Get(item, "quantity"), Get(item, "unitPrice").n, 2))
  }

  lemma RowCells(h: Host, item: Value)
    requires ItemRow(h, item).Ok?
    ensures ItemCells(h, item, ItemRow(h, item).value)
  {
  }

  lemma BodyRows(h: Host, items: seq<Value>, rows: seq<Value>)
    requires |rows| == |items|
    requires forall i :: 0 <= i < |items| ==> ItemRow(h, items[i]).Ok? && rows[i] == ItemRow(h, items[i]).value
    ensures var body := [HeaderRow()] + rows;
            |body| == |items| + 1 && body[0] == HeaderRow()
            && forall i :: 0 <= i < |items| ==> ItemCells(h, items[i], body[i + 1])
  {
    forall i | 0 <= i < |items|
      ensures ItemCells(h, items[i], ([HeaderRow()] + rows)[i + 1])
    {
      assert ([HeaderRow()] + rows)[i + 1] == rows[i];
      RowCells(h, items[i]);
    }
  }

  /**
   * The items table: one header row of four cells, then one row per item in
   * item order, each starting with the description, then the quantity as a
   * string, then unit price and amount.
   */
  lemma ItemsTableBody(h: Host, data: Value, styles: Value)
    requires Build(h, data, styles).Ok?
    ensures |Content(Build(h, data, styles).value)| == 8 && Get(data, "items").Arr?
    ensures var body := TableBody(Content(Build(h, data, styles).value)[4]);
            var items := Get(data, "items").items;
            body.Arr? && |body.items| == |items| + 1
            && body.items[0] == HeaderRow() && |HeaderRow().items| == 4
            && forall i :: 0 <= i < |items| ==> ItemCells(h, items[i], body.items[i + 1])
  {
    BuildValue(h, data, styles);
    var rows := ItemRows(h, Get(data, "items")).value;
    DocTable(h, data, rows, h.fixed(Get(data, "subtotal").n, 2), h.fixed(Get(data, "tax").n, 2),
             h.fixed(Get(data, "total").n, 2), styles);
    RowsFacts(h, Get(data, "items"));
    BodyRows(h, Get(data, "items").items, rows);
  }
}
