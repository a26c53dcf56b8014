/** The IVA (value-added tax) computation: per-class cleaning of the four
    views and the rate-tier totals (iva.py). */
module Iva {
  import opened Wrappers
  import opened Frames
  import Seqs
  import Ruc
  import Classify
  import IrpRsp

  /** The document type of outflows funded by credit purchases. */
  const TIPO_COMPROBANTE_EGRESO_CREDITO := "COMPROBANTE DE EGRESOS POR COMPRAS A CRÉDITO"

  /** The columns a cleaned purchase keeps. "No Imputar" is not among them. */
  const COMPRAS_COLUMNS: set<Column> := {TipoRegistro, ImputaIrp, Ruc, Monto10, Monto5, Monto0}

  /** A cleaned purchase: type, IRP flag, normalised RUC and the three rate-tier amounts. */
  datatype Compra = Compra(
    tipoRegistro: Option<string>, imputaIrp: Option<string>, ruc: string,
    monto10: int, monto5: int, monto0: int)

  /** A cleaned sale: type, normalised RUC and the three rate-tier amounts. */
  datatype Venta = Venta(tipoRegistro: Option<string>, ruc: string, monto10: int, monto5: int, monto0: int)

  /** A cleaned outflow: type, normalised RUC, document type and total. */
  datatype Egreso = Egreso(tipoRegistro: Option<string>, ruc: string, tipoComprobante: Option<string>, total: int)

  function ToCompra(x: Row): Compra {
    Compra(x.tipoRegistro, x.imputaIrp, Ruc.Normalize(Text(x.ruc)),
           Amount(x.monto10), Amount(x.monto5), Amount(x.monto0))
  }

  function ToVenta(x: Row): Venta {
    Venta(x.tipoRegistro, Ruc.Normalize(Text(x.ruc)), Amount(x.monto10), Amount(x.monto5), Amount(x.monto0))
  }

  function ToEgreso(x: Row): Egreso {
    Egreso(x.tipoRegistro, Ruc.Normalize(Text(x.rucEgresos)), x.tipoComprobante, Amount(x.total))
  }

  /** `clean_compras`: project, drop rows not imputed to IRP, normalise the RUC
      and coerce the amounts. There is no credit filter. */
  function CleanCompras(f: Frame): (docs: seq<Compra>)
    ensures |docs| <= |f.rows|
    ensures forall i :: 0 <= i < |docs| ==> docs[i].imputaIrp != Some(NO)
    ensures forall x :: x in f.rows && !ImputaNo(x) ==> ToCompra(x) in docs
    ensures forall d :: d in docs ==> exists x :: x in f.rows && !ImputaNo(x) && d == ToCompra(x)
  {
    var projected := Frame(COMPRAS_COLUMNS, f.rows);
    Seqs.Map(Seqs.Filter(projected.rows, Imputable), ToCompra)
  }

  /** The purchase filter removes exactly the rows marked "Imputa IRP" = "NO"
      and keeps every other row, credit ones included, where it stood. */
  lemma {:induction false} CleanComprasInPlace(columns: set<Column>, a: seq<Row>, x: Row, b: seq<Row>)
    ensures !ImputaNo(x) ==>
      CleanCompras(Frame(columns, a + [x] + b))
      == CleanCompras(Frame(columns, a)) + [ToCompra(x)] + CleanCompras(Frame(columns, b))
    ensures ImputaNo(x) ==>
      CleanCompras(Frame(columns, a + [x] + b)) == CleanCompras(Frame(columns, a)) + CleanCompras(Frame(columns, b))
  {
    var ka, kb := Seqs.Filter(a, Imputable), Seqs.Filter(b, Imputable);
    if Imputable(x) {
      Seqs.FilterKeepsInPlace(a, x, b, Imputable);
      Seqs.MapConcat(ka + [x], kb, ToCompra);
      Seqs.MapConcat(ka, [x], ToCompra);
      assert Seqs.Map([x], ToCompra) == [ToCompra(x)];
    } else {
      Seqs.FilterDropsInPlace(a, x, b, Imputable);
      Seqs.MapConcat(ka, kb, ToCompra);
    }
  }

  /** The flag-consistency check of `clean_compras` runs on the projected
      frame, which has no "No Imputar" column, so it never fires. */
  lemma {:induction false} ComprasFlagCheckNeverFires(rows: seq<Row>)
    ensures CheckFlags(Frame(COMPRAS_COLUMNS, rows)) == Pass
  {
  }

  /** Any purchase whose two flags both say "SI", among any other rows: on
      cash it makes the IRP-RSP purchase cleaning fail, on credit the IRP-RSP
      cleaning ignores it, and the IVA cleaning keeps it where it stood. */
  lemma {:induction false} ClashingRowKeptByIva(columns: set<Column>, a: seq<Row>, x: Row, b: seq<Row>)
    requires FlagColumnsPresent(columns) && BothSi(x)
    ensures !IsCredit(x) ==> IrpRsp.CleanCompras(Frame(columns, a + [x] + b)).Failure?
    ensures IsCredit(x) ==>
      IrpRsp.CleanCompras(Frame(columns, a + [x] + b)) == IrpRsp.CleanCompras(Frame(columns, a + b))
    ensures CleanCompras(Frame(columns, a + [x] + b))
            == CleanCompras(Frame(columns, a)) + [ToCompra(x)] + CleanCompras(Frame(columns, b))
  {
    assert x in a + [x] + b;
    if IsCredit(x) {
      IrpRsp.CreditRowIgnoredByCleanCompras(columns, a, x, b);
    }
    CleanComprasInPlace(columns, a, x, b);
  }

  /** `clean_ventas`: no row is removed; only projection, RUC clean-up and
      amount coercion. */
  function CleanVentas(rows: seq<Row>): (docs: seq<Venta>)
    ensures |docs| == |rows|
    ensures forall i :: 0 <= i < |rows| ==>
      docs[i].tipoRegistro == rows[i].tipoRegistro && docs[i].ruc == Ruc.Normalize(Text(rows[i].ruc))
      && docs[i].monto10 == Amount(rows[i].monto10)
      && docs[i].monto5 == Amount(rows[i].monto5) && docs[i].monto0 == Amount(rows[i].monto0)
  {
    Seqs.Map(rows, ToVenta)
  }

  predicate IsEgresoCredito(x: Row) {
    x.tipoComprobante == Some(TIPO_COMPROBANTE_EGRESO_CREDITO)
  }

  predicate NotEgresoCredito(x: Row) {
    !IsEgresoCredito(x)
  }

  /** Fills the outflow RUC column when the input has none. */
  function FillRucZero(x: Row): Row {
    x.(rucEgresos := Some("0"))
  }

  /** An outflow row as it reaches the projection: unchanged when the RUC
      column exists, with RUC "0" otherwise. */
  function Filled(columns: set<Column>, x: Row): Row {
    if RucEgresos in columns then x else FillRucZero(x)
  }

  /** Outflow rows after the credit-document filter and the RUC fill-in. */
  function EgresosKept(f: Frame): (kept: seq<Row>)
    ensures |kept| <= |f.rows|
    ensures forall i :: 0 <= i < |kept| ==> !IsEgresoCredito(kept[i])
    ensures RucEgresos !in f.columns ==> forall i :: 0 <= i < |kept| ==> kept[i].rucEgresos == Some("0")
    ensures forall x :: x in f.rows && !IsEgresoCredito(x) ==> Filled(f.columns, x) in kept
    ensures forall y :: y in kept ==> exists x :: x in f.rows && !IsEgresoCredito(x) && y == Filled(f.columns, x)
  {
    var kept := Seqs.Filter(f.rows, NotEgresoCredito);
    assert forall i :: 0 <= i < |kept| ==> kept[i] in kept;
    if RucEgresos in f.columns then kept else Seqs.Map(kept, FillRucZero)
  }

  /** `clean_egresos`: drop outflows funded by credit purchases, fill in a
      missing RUC column with "0", project, normalise and coerce. */
  function CleanEgresos(f: Frame): (docs: seq<Egreso>)
    ensures |docs| <= |f.rows|
    ensures forall i :: 0 <= i < |docs| ==> docs[i].tipoComprobante != Some(TIPO_COMPROBANTE_EGRESO_CREDITO)
    ensures RucEgresos !in f.columns ==> forall i :: 0 <= i < |docs| ==> docs[i].ruc == "0"
    ensures forall x :: x in f.rows && !IsEgresoCredito(x) ==> ToEgreso(Filled(f.columns, x)) in docs
    ensures forall d :: d in docs ==> exists x :: x in f.rows && !IsEgresoCredito(x) && d == ToEgreso(Filled(f.columns, x))
  {
    Seqs.Map(EgresosKept(f), ToEgreso)
  }

  /** The outflow filter removes exactly the credit-funded outflows and keeps
      the others where they stood. */
  lemma {:induction false} CleanEgresosInPlace(columns: set<Column>, a: seq<Row>, x: Row, b: seq<Row>)
    ensures !IsEgresoCredito(x) ==>
      CleanEgresos(Frame(columns, a + [x] + b))
      == CleanEgresos(Frame(columns, a)) + CleanEgresos(Frame(columns, [x])) + CleanEgresos(Frame(columns, b))
    ensures IsEgresoCredito(x) ==>
      CleanEgresos(Frame(columns, a + [x] + b)) == CleanEgresos(Frame(columns, a)) + CleanEgresos(Frame(columns, b))
    ensures |CleanEgresos(Frame(columns, [x]))| == if IsEgresoCredito(x) then 0 else 1
  {
    var p := NotEgresoCredito;
    assert [x][1..] == [];
    if p(x) {
      Seqs.FilterKeepsInPlace(a, x, b, p);
      assert Seqs.Filter([x], p) == [x];
      var ka, kb := Seqs.Filter(a, p), Seqs.Filter(b, p);
      if RucEgresos in columns {
        Seqs.MapConcat(ka + [x], kb, ToEgreso);
        Seqs.MapConcat(ka, [x], ToEgreso);
      } else {
        Seqs.MapConcat(ka + [x], kb, FillRucZero);
        Seqs.MapConcat(ka, [x], FillRucZero);
        var fa, fx, fb := Seqs.Map(ka, FillRucZero), Seqs.Map([x], FillRucZero), Seqs.Map(kb, FillRucZero);
        Seqs.MapConcat(fa + fx, fb, ToEgreso);
        Seqs.MapConcat(fa, fx, ToEgreso);
      }
    } else {
      Seqs.FilterDropsInPlace(a, x, b, p);
      assert Seqs.Filter([x], p) == [];
      var ka, kb := Seqs.Filter(a, p), Seqs.Filter(b, p);
      if RucEgresos in columns {
        Seqs.MapConcat(ka, kb, ToEgreso);
      } else {
        Seqs.MapConcat(ka, kb, FillRucZero);
        Seqs.MapConcat(Seqs.Map(ka, FillRucZero), Seqs.Map(kb, FillRucZero), ToEgreso);
      }
    }
  }

  function CompraMonto10(d: Compra): int { d.monto10 }
  function CompraMonto5(d: Compra): int { d.monto5 }
  function CompraMonto0(d: Compra): int { d.monto0 }
  function VentaMonto10(d: Venta): int { d.monto10 }
  function VentaMonto5(d: Venta): int { d.monto5 }
  function VentaMonto0(d: Venta): int { d.monto0 }
  function EgresoTotal(d: Egreso): int { d.total }

  function RowMonto10(x: Row): int { Amount(x.monto10) }
  function RowMonto5(x: Row): int { Amount(x.monto5) }
  function RowMonto0(x: Row): int { Amount(x.monto0) }

  /** The rate-tier sums of cleaned purchases are the sums of the amounts of
      the imputable raw rows, an empty cell counting 0. */
  lemma {:induction false} ComprasSums(f: Frame)
    ensures Seqs.Sum(CleanCompras(f), CompraMonto10) == Seqs.Sum(Seqs.Filter(f.rows, Imputable), RowMonto10)
    ensures Seqs.Sum(CleanCompras(f), CompraMonto5) == Seqs.Sum(Seqs.Filter(f.rows, Imputable), RowMonto5)
    ensures Seqs.Sum(CleanCompras(f), CompraMonto0) == Seqs.Sum(Seqs.Filter(f.rows, Imputable), RowMonto0)
  {
    var kept := Seqs.Filter(f.rows, Imputable);
    Seqs.SumMap(kept, ToCompra, CompraMonto10, RowMonto10);
    Seqs.SumMap(kept, ToCompra, CompraMonto5, RowMonto5);
    Seqs.SumMap(kept, ToCompra, CompraMonto0, RowMonto0);
  }

  /** The rate-tier sums of cleaned sales are the sums over all raw rows. */
  lemma {:induction false} VentasSums(rows: seq<Row>)
    ensures Seqs.Sum(CleanVentas(rows), VentaMonto10) == Seqs.Sum(rows, RowMonto10)
    ensures Seqs.Sum(CleanVentas(rows), VentaMonto5) == Seqs.Sum(rows, RowMonto5)
    ensures Seqs.Sum(CleanVentas(rows), VentaMonto0) == Seqs.Sum(rows, RowMonto0)
  {
    Seqs.SumMap(rows, ToVenta, VentaMonto10, RowMonto10);
    Seqs.SumMap(rows, ToVenta, VentaMonto5, RowMonto5);
    Seqs.SumMap(rows, ToVenta, VentaMonto0, RowMonto0);
  }

  /** The outflow total is the sum of the totals of the raw rows that are
      not credit-funded; filling in the RUC does not touch amounts. */
  lemma {:induction false} EgresosSum(f: Frame)
    ensures Seqs.Sum(CleanEgresos(f), EgresoTotal) == Seqs.Sum(Seqs.Filter(f.rows, NotEgresoCredito), IrpRsp.RowTotal)
  {
    var kept := Seqs.Filter(f.rows, NotEgresoCredito);
    if RucEgresos in f.columns {
      Seqs.SumMap(kept, ToEgreso, EgresoTotal, IrpRsp.RowTotal);
    } else {
      var filled := Seqs.Map(kept, FillRucZero);
      Seqs.SumMap(filled, ToEgreso, EgresoTotal, IrpRsp.RowTotal);
      Seqs.SumMap(kept, FillRucZero, IrpRsp.RowTotal, IrpRsp.RowTotal);
    }
  }

  /** A row with an empty amount cell adds nothing to the matching tier sum
      of purchases or sales, nor, with an empty total, to outflows. */
  lemma {:induction false} MissingAmountsAddNothing(columns: set<Column>, a: seq<Row>, x: Row, b: seq<Row>)
    ensures x.monto10.None? ==>
      Seqs.Sum(CleanCompras(Frame(columns, a + [x] + b)), CompraMonto10) == Seqs.Sum(CleanCompras(Frame(columns, a + b)), CompraMonto10)
      && Seqs.Sum(CleanVentas(a + [x] + b), VentaMonto10) == Seqs.Sum(CleanVentas(a + b), VentaMonto10)
    ensures x.monto5.None? ==>
      Seqs.Sum(CleanCompras(Frame(columns, a + [x] + b)), CompraMonto5) == Seqs.Sum(CleanCompras(Frame(columns, a + b)), CompraMonto5)
      && Seqs.Sum(CleanVentas(a + [x] + b), VentaMonto5) == Seqs.Sum(CleanVentas(a + b), VentaMonto5)
    ensures x.monto0.None? ==>
      Seqs.Sum(CleanCompras(Frame(columns, a + [x] + b)), CompraMonto0) == Seqs.Sum(CleanCompras(Frame(columns, a + b)), CompraMonto0)
      && Seqs.Sum(CleanVentas(a + [x] + b), VentaMonto0) == Seqs.Sum(CleanVentas(a + b), VentaMonto0)
    ensures x.total.None? ==>
      Seqs.Sum(CleanEgresos(Frame(columns, a + [x] + b)), EgresoTotal) == Seqs.Sum(CleanEgresos(Frame(columns, a + b)), EgresoTotal)
  {
    ComprasSums(Frame(columns, a + [x] + b));
    ComprasSums(Frame(columns, a + b));
    VentasSums(a + [x] + b);
    VentasSums(a + b);
    EgresosSum(Frame(columns, a + [x] + b));
    EgresosSum(Frame(columns, a + b));
    if x.monto10.None? {
      Seqs.SumFilterSkipsZero(a, x, b, Imputable, RowMonto10);
      Seqs.SumSkipsZero(a, x, b, RowMonto10);
    }
    if x.monto5.None? {
      Seqs.SumFilterSkipsZero(a, x, b, Imputable, RowMonto5);
      Seqs.SumSkipsZero(a, x, b, RowMonto5);
    }
    if x.monto0.None? {
      Seqs.SumFilterSkipsZero(a, x, b, Imputable, RowMonto0);
      Seqs.SumSkipsZero(a, x, b, RowMonto0);
    }
    if x.total.None? {
      Seqs.SumFilterSkipsZero(a, x, b, NotEgresoCredito, IrpRsp.RowTotal);
    }
  }

  /** The figures the IVA report prints. */
  datatype IvaTotals = IvaTotals(
    compras10: int, compras5: int, compras0: int,
    ventas10: int, ventas5: int, ventas0: int,
    egresos: int,
    gastos10: int, gastos5: int, gastos0: int)

  /** The totals of the `__main__` block. Outflows carry no rate split and
      all count as exempt (0%) expenses. */
  function IvaReport(compras: seq<Compra>, ventas: seq<Venta>, egresos: seq<Egreso>): (t: IvaTotals)
  {
    var totalCompras10 := Seqs.Sum(compras, CompraMonto10);
    var totalCompras5 := Seqs.Sum(compras, CompraMonto5);
    var totalCompras0 := Seqs.Sum(compras, CompraMonto0);
    var totalEgresos := Seqs.Sum(egresos, EgresoTotal);
    IvaTotals(
      totalCompras10, totalCompras5, totalCompras0,
      Seqs.Sum(ventas, VentaMonto10), Seqs.Sum(ventas, VentaMonto5), Seqs.Sum(ventas, VentaMonto0),
      totalEgresos,
      totalCompras10, totalCompras5, totalCompras0 + totalEgresos)
  }

  /** The whole IVA run: load and classify, clean sales, purchases and
      outflows, then total. Only a missing input aborts it. */
  function IvaPipeline(files: seq<Frame>): (r: Result<IvaTotals, RunError>)
    ensures r.Failure? <==> |files| == 0
  {
    match Classify.LoadViews(files)
    case Failure(e) => Failure(e)
    case Success(views) =>
      var ventas := CleanVentas(views.ventas.rows);
      var compras := CleanCompras(views.compras);
      var egresos := CleanEgresos(views.egresos);
      Success(IvaReport(compras, ventas, egresos))
  }

  /** A purchase row the IVA totals count: purchases view, not "Imputa IRP" = "NO". */
  predicate CountedCompra(x: Row) {
    Classify.InView(Classify.Compras, x) && Imputable(x)
  }

  /** An outflow row the IVA totals count: outflows view, not credit-funded. */
  predicate CountedEgreso(x: Row) {
    Classify.InView(Classify.Egresos, x) && NotEgresoCredito(x)
  }

  /** The figures of a successful run, stated on the raw input rows: the
      purchase tiers over the counted purchases, the sales tiers over the sales
      view, the outflow total over the counted outflows; exempt expenses are
      exempt purchases plus all counted outflows, 5% and 10% expenses are the
      purchases of that tier. */
  lemma {:induction false} IvaPipelineTotals(files: seq<Frame>)
    requires |files| > 0
    ensures var t := IvaPipeline(files).value; var rows := Frames.Concat(files).rows;
      && t.compras10 == Seqs.Sum(Seqs.Filter(rows, CountedCompra), RowMonto10)
      && t.compras5 == Seqs.Sum(Seqs.Filter(rows, CountedCompra), RowMonto5)
      && t.compras0 == Seqs.Sum(Seqs.Filter(rows, CountedCompra), RowMonto0)
      && t.egresos == Seqs.Sum(Seqs.Filter(rows, CountedEgreso), IrpRsp.RowTotal)
      && t.ventas10 == Seqs.Sum(Seqs.Filter(rows, Classify.ViewOf(Classify.Ventas)), RowMonto10)
      && t.ventas5 == Seqs.Sum(Seqs.Filter(rows, Classify.ViewOf(Classify.Ventas)), RowMonto5)
      && t.ventas0 == Seqs.Sum(Seqs.Filter(rows, Classify.ViewOf(Classify.Ventas)), RowMonto0)
      && t.gastos0 == Seqs.Sum(Seqs.Filter(rows, CountedCompra), RowMonto0)
                      + Seqs.Sum(Seqs.Filter(rows, CountedEgreso), IrpRsp.RowTotal)
      && t.gastos5 == Seqs.Sum(Seqs.Filter(rows, CountedCompra), RowMonto5)
      && t.gastos10 == Seqs.Sum(Seqs.Filter(rows, CountedCompra), RowMonto10)
  {
    PipelineComprasSums(files);
    PipelineEgresosSum(files);
    PipelineVentasSums(files);
  }

  lemma {:induction false} PipelineComprasSums(files: seq<Frame>)
    requires |files| > 0
    ensures var t := IvaPipeline(files).value; var rows := Frames.Concat(files).rows;
      && t.compras10 == Seqs.Sum(Seqs.Filter(rows, CountedCompra), RowMonto10)
      && t.compras5 == Seqs.Sum(Seqs.Filter(rows, CountedCompra), RowMonto5)
      && t.compras0 == Seqs.Sum(Seqs.Filter(rows, CountedCompra), RowMonto0)
  {
    var c := Frames.Concat(files);
    var view := Classify.LoadViews(files).value.compras;
    assert view.rows == Seqs.Filter(c.rows, Classify.ViewOf(Classify.Compras));
    Seqs.FilterFuse(c.rows, Classify.ViewOf(Classify.Compras), Imputable, CountedCompra);
    ComprasSums(view);
  }

  lemma {:induction false} PipelineEgresosSum(files: seq<Frame>)
    requires |files| > 0
    ensures IvaPipeline(files).value.egresos
            == Seqs.Sum(Seqs.Filter(Frames.Concat(files).rows, CountedEgreso), IrpRsp.RowTotal)
  {
    var c := Frames.Concat(files);
    var view := Classify.LoadViews(files).value.egresos;
    assert view.rows == Seqs.Filter(c.rows, Classify.ViewOf(Classify.Egresos));
    Seqs.FilterFuse(c.rows, Classify.ViewOf(Classify.Egresos), NotEgresoCredito, CountedEgreso);
    EgresosSum(view);
  }

  lemma {:induction false} PipelineVentasSums(files: seq<Frame>)
    requires |files| > 0
    ensures var t := IvaPipeline(files).value; var rows := Frames.Concat(files).rows;
      && t.ventas10 == Seqs.Sum(Seqs.Filter(rows, Classify.ViewOf(Classify.Ventas)), RowMonto10)
      && t.ventas5 == Seqs.Sum(Seqs.Filter(rows, Classify.ViewOf(Classify.Ventas)), RowMonto5)
      && t.ventas0 == Seqs.Sum(Seqs.Filter(rows, Classify.ViewOf(Classify.Ventas)), RowMonto0)
  {
    VentasSums(Classify.LoadViews(files).value.ventas.rows);
  }
}
