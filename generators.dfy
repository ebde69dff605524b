/**
 * What the closures in a document definition return when the layout engine
 * calls them: header and footer generators receive the current page and the
 * page count, table layout callbacks receive a line index and the number of
 * body rows of the table.
 */
module Generators {
  import opened Wrappers
  import opened JsValue
  import StatementOfAccount
  import Quotation
  import PurchaseOrder

  const SignatureLine: string := "Authorized Signature: _________________"

  /** The shared running header: the logo and "Page p", right-aligned. */
  function ServiceHeaderAt(logo: string, page: nat): Value {
    Obj([Field("columns", Arr([
      Obj([Field("image", Str(logo)), Field("width", Num(100.0)),
           Field("margin", Nums([40.0, 20.0, 0.0, 20.0]))]),
      Obj([Field("text", Str("Page " + NatStr(page))), Field("alignment", Str("right")),
           Field("margin", Nums([0.0, 20.0, 40.0, 20.0]))])]))])
  }

  /** The shared footer: the signature line and "Page p of n", right-aligned. */
  function ServiceFooterAt(page: nat, count: nat): Value {
    Obj([Field("columns", Arr([
      Obj([Field("text", Str(SignatureLine)), Field("alignment", Str("left")),
           Field("margin", Nums([40.0, 20.0]))]),
      Obj([Field("text", Str("Page " + NatStr(page) + " of " + NatStr(count))),
           Field("alignment", Str("right")), Field("margin", Nums([0.0, 20.0, 40.0, 20.0]))])]))])
  }

  /**
   * Calling a closure with its two numeric arguments.  Only the template
   * headers read the payload they captured, and so only they can throw.
   */
  function Call(h: Host, f: Fun, a: nat, b: nat): (r: Outcome<Value>)
    ensures f.Const? ==> r == Ok(f.v)
    ensures f.OuterLines? && (a == 0 || a == b) ==> r == Ok(Num(f.outer))
    ensures f.OuterLines? && a != 0 && a != b ==> r == Ok(Num(f.inner))
    ensures f.FirstLine? ==> r == Ok(Num(if a == 0 then f.first else f.rest))
    ensures (f.QuotationHeader? || f.PurchaseOrderHeader?) && a != 1 ==> r == Ok(Null)
    ensures r.Err? ==> f.StatementHeader? || f.QuotationHeader? || f.PurchaseOrderHeader?
  {
    match f
    case Const(v) => Ok(v)
    case OuterLines(outer, inner) => Ok(Num(if a == 0 || a == b then outer else inner))
    case FirstLine(first, rest) => Ok(Num(if a == 0 then first else rest))
    case PageHeader(logoPath) => Ok(ServiceHeaderAt(logoPath, a))
    case PageFooter => Ok(ServiceFooterAt(a, b))
    case StatementHeader(data, logo) => StatementOfAccount.HeaderAt(h, data, logo, a, b)
    case QuotationHeader(data, logo) => Quotation.HeaderAt(h, data, logo, a, b)
    case PurchaseOrderHeader(data, logo) => PurchaseOrder.HeaderAt(data, logo, a, b)
    case PurchaseOrderFooter => Ok(PurchaseOrder.FooterNode())
  }
}
