/** The IRP-RSP (personal income tax on professional services) computation:
    per-class cleaning of the four views, the counterpart catalogs, the
    expense buckets and the flat estimate (irp-rsp.py). */
module IrpRsp {
  import opened Wrappers
  import opened Frames
  import Seqs
  import Ruc
  import Classify

  /** A cleaned document: type, normalised RUC, document number and total,
      the four columns every class keeps. */
  datatype Doc = Doc(tipoRegistro: Option<string>, ruc: string, numero: Option<string>, total: int)

  /** Projection of a purchase or sale row. */
  function ToDoc(x: Row): Doc {
    Doc(x.tipoRegistro, Ruc.Normalize(Text(x.ruc)), x.numero, Amount(x.total))
  }

  /** Projection of an outflow row, whose RUC header is spelled with accents. */
  function ToEgresoDoc(x: Row): Doc {
    Doc(x.tipoRegistro, Ruc.Normalize(Text(x.rucEgresos)), x.numero, Amount(x.total))
  }

  /** A row that is paid in cash and not marked "Imputa IRP" = "NO". */
  predicate Deductible(x: Row) {
    NotCredit(x) && Imputable(x)
  }

  /** The rows purchases and sales keep: first credit rows go, then rows not
      imputed to IRP; the survivors keep their order. */
  function CashImputable(rows: seq<Row>): (kept: seq<Row>)
    ensures |kept| <= |rows|
    ensures forall x :: x in kept <==> x in rows && !IsCredit(x) && !ImputaNo(x)
    ensures kept == Seqs.Filter(rows, Deductible)
  {
    Seqs.FilterFuse(rows, NotCredit, Imputable, Deductible);
    Seqs.Filter(Seqs.Filter(rows, NotCredit), Imputable)
  }

  /** A deductible row survives exactly where it stood. */
  lemma {:induction false} CashImputableKeepsInPlace(a: seq<Row>, x: Row, b: seq<Row>)
    requires !IsCredit(x) && !ImputaNo(x)
    ensures CashImputable(a + [x] + b) == CashImputable(a) + [x] + CashImputable(b)
  {
    Seqs.FilterKeepsInPlace(a, x, b, Deductible);
  }

  /** A credit row or a row not imputed to IRP is removed and nothing else changes. */
  lemma {:induction false} CashImputableDropsInPlace(a: seq<Row>, x: Row, b: seq<Row>)
    requires IsCredit(x) || ImputaNo(x)
    ensures CashImputable(a + [x] + b) == CashImputable(a) + CashImputable(b)
  {
    Seqs.FilterDropsInPlace(a, x, b, Deductible);
  }

  /** `clean_compras`: drop credit rows, run the flag-consistency check on
      what is left, drop rows not imputed to IRP, project and normalise. */
  function CleanCompras(f: Frame): (r: Result<seq<Doc>, RunError>)
    ensures r.Failure? <==>
      FlagColumnsPresent(f.columns)
      && exists x :: x in f.rows && !IsCredit(x) && (BothNo(x) || BothSi(x))
    ensures r == Failure(FlagsBothNo) <==>
      FlagColumnsPresent(f.columns) && exists x :: x in f.rows && !IsCredit(x) && BothNo(x)
    ensures r == Failure(FlagsBothSi) <==>
      FlagColumnsPresent(f.columns) && (forall x :: x in f.rows && !IsCredit(x) ==> !BothNo(x))
      && exists x :: x in f.rows && !IsCredit(x) && BothSi(x)
    ensures r.Failure? ==> r.error == FlagsBothNo || r.error == FlagsBothSi
    ensures r.Success? ==> r.value == Seqs.Map(CashImputable(f.rows), ToDoc)
  {
    var cash := Frame(f.columns, Seqs.Filter(f.rows, NotCredit));
    match CheckFlags(cash)
    case Fail(e) => Failure(e)
    case Pass => Success(Seqs.Map(Seqs.Filter(cash.rows, Imputable), ToDoc))
  }

  /** Credit rows take no part in the flag check: removing one changes
      neither the verdict nor the result. */
  lemma {:induction false} CreditRowIgnoredByCleanCompras(columns: set<Column>, a: seq<Row>, x: Row, b: seq<Row>)
    requires IsCredit(x)
    ensures CleanCompras(Frame(columns, a + [x] + b)) == CleanCompras(Frame(columns, a + b))
  {
    Seqs.FilterDropsInPlace(a, x, b, NotCredit);
    Seqs.FilterConcat(a, b, NotCredit);
  }

  /** `clean_ventas`: the same row rules as purchases, without the flag check. */
  function CleanVentas(rows: seq<Row>): (docs: seq<Doc>)
    ensures |docs| <= |rows|
    ensures forall x :: x in rows && !IsCredit(x) && !ImputaNo(x) ==> ToDoc(x) in docs
    ensures forall d :: d in docs ==> exists x :: x in rows && !IsCredit(x) && !ImputaNo(x) && d == ToDoc(x)
  {
    Seqs.Map(CashImputable(rows), ToDoc)
  }

  /** `clean_egresos`: only rows not imputed to IRP go; credit outflows stay. */
  function CleanEgresos(rows: seq<Row>): (docs: seq<Doc>)
    ensures |docs| <= |rows|
    ensures forall x :: x in rows && !ImputaNo(x) ==> ToEgresoDoc(x) in docs
    ensures forall d :: d in docs ==> exists x :: x in rows && !ImputaNo(x) && d == ToEgresoDoc(x)
  {
    Seqs.Map(Seqs.Filter(rows, Imputable), ToEgresoDoc)
  }

  /** A cash, imputable sale yields its document exactly where it stood; any
      other sale is removed and nothing else changes. */
  lemma {:induction false} CleanVentasInPlace(a: seq<Row>, x: Row, b: seq<Row>)
    ensures !IsCredit(x) && !ImputaNo(x) ==>
      CleanVentas(a + [x] + b) == CleanVentas(a) + [ToDoc(x)] + CleanVentas(b)
    ensures IsCredit(x) || ImputaNo(x) ==>
      CleanVentas(a + [x] + b) == CleanVentas(a) + CleanVentas(b)
  {
    var ka, kb := CashImputable(a), CashImputable(b);
    if Deductible(x) {
      CashImputableKeepsInPlace(a, x, b);
      Seqs.MapConcat(ka + [x], kb, ToDoc);
      Seqs.MapConcat(ka, [x], ToDoc);
      assert Seqs.Map([x], ToDoc) == [ToDoc(x)];
    } else {
      CashImputableDropsInPlace(a, x, b);
      Seqs.MapConcat(ka, kb, ToDoc);
    }
  }

  /** An outflow not marked "NO", credit or not, yields its document exactly
      where it stood; one marked "NO" is removed and nothing else changes. */
  lemma {:induction false} CleanEgresosInPlace(a: seq<Row>, x: Row, b: seq<Row>)
    ensures !ImputaNo(x) ==>
      CleanEgresos(a + [x] + b) == CleanEgresos(a) + [ToEgresoDoc(x)] + CleanEgresos(b)
    ensures ImputaNo(x) ==>
      CleanEgresos(a + [x] + b) == CleanEgresos(a) + CleanEgresos(b)
  {
    var ka, kb := Seqs.Filter(a, Imputable), Seqs.Filter(b, Imputable);
    if Imputable(x) {
      Seqs.FilterKeepsInPlace(a, x, b, Imputable);
      Seqs.MapConcat(ka + [x], kb, ToEgresoDoc);
      Seqs.MapConcat(ka, [x], ToEgresoDoc);
      assert Seqs.Map([x], ToEgresoDoc) == [ToEgresoDoc(x)];
    } else {
      Seqs.FilterDropsInPlace(a, x, b, Imputable);
      Seqs.MapConcat(ka, kb, ToEgresoDoc);
    }
  }

  function DocTotal(d: Doc): int {
    d.total
  }

  /** The `.sum()` of the "Total Comprobante" column. */
  function Total(docs: seq<Doc>): int {
    Seqs.Sum(docs, DocTotal)
  }

  function RowTotal(x: Row): int {
    Amount(x.total)
  }

  /** The total of cleaned purchases or sales is the sum of the raw rows'
      totals, an empty cell counting 0. */
  lemma {:induction false} TotalOfDocs(rows: seq<Row>)
    ensures Total(Seqs.Map(rows, ToDoc)) == Seqs.Sum(rows, RowTotal)
    ensures Total(Seqs.Map(rows, ToEgresoDoc)) == Seqs.Sum(rows, RowTotal)
  {
    Seqs.SumMap(rows, ToDoc, DocTotal, RowTotal);
    Seqs.SumMap(rows, ToEgresoDoc, DocTotal, RowTotal);
  }

  /** A row with an empty total adds nothing to the sales or outflow total,
      whether it survives cleaning or not. */
  lemma {:induction false} MissingTotalAddsNothing(a: seq<Row>, x: Row, b: seq<Row>)
    requires x.total.None?
    ensures Total(CleanVentas(a + [x] + b)) == Total(CleanVentas(a + b))
    ensures Total(CleanEgresos(a + [x] + b)) == Total(CleanEgresos(a + b))
  {
    TotalOfDocs(CashImputable(a + [x] + b));
    TotalOfDocs(CashImputable(a + b));
    Seqs.SumFilterSkipsZero(a, x, b, Deductible, RowTotal);
    TotalOfDocs(Seqs.Filter(a + [x] + b, Imputable));
    TotalOfDocs(Seqs.Filter(a + b, Imputable));
    Seqs.SumFilterSkipsZero(a, x, b, Imputable, RowTotal);
  }

  /** Counterparts whose expenses are household expenses. "80100678" is
      listed twice. */
  const FAMILIARES: seq<string> := [
    "80003296", "80100678", "80016096", "80016951", "80006658", "80093649",
    "80106771", "80022202", "80092105", "80089760", "80078953", "80002014",
    "80025405", "80082790", "80025958", "80018381", "80072380", "80107312",
    "3212838", "80000402", "80102209", "80122103", "80095560", "80092500",
    "4932508", "80100678", "80027920", "80077406", "80106641", "8609876",
    "80048348", "80122730", "80001513"]

  /** Counterparts that are the state or associations. */
  const ESTADO_ASOCIACIONES: seq<string> := ["80004239", "80027621", "80029733", "80031086"]

  /** Health and education expenses abroad, a fixed allowance. */
  const GASTOS_EXTERIOR_SALUD_EDUCACION: int := 884_167 + 922_692 + 1_024_807 + 1_155_490 + 140_166

  predicate InFamiliares(d: Doc) {
    d.ruc in FAMILIARES
  }

  predicate InEstadoAsoc(d: Doc) {
    d.ruc in ESTADO_ASOCIACIONES
  }

  predicate InNeitherCatalog(d: Doc) {
    !InFamiliares(d) && !InEstadoAsoc(d)
  }

  /** No counterpart is in both catalogs. */
  lemma CatalogsDisjoint()
    ensures forall s :: s in ESTADO_ASOCIACIONES ==> s !in FAMILIARES
  {
  }

  /** Every document falls into exactly one of: household, state/association,
      neither; so the three catalog sums add up to the class total. */
  lemma {:induction false} CatalogSumsPartition(docs: seq<Doc>)
    ensures Total(Seqs.Filter(docs, InFamiliares)) + Total(Seqs.Filter(docs, InEstadoAsoc))
            + Total(Seqs.Filter(docs, InNeitherCatalog)) == Total(docs)
  {
    CatalogsDisjoint();
    Seqs.SumPartition3(docs, InFamiliares, InEstadoAsoc, InNeitherCatalog, DocTotal);
  }

  /** The household catalog without its repeated entry. */
  const FAMILIARES_DISTINCT: seq<string> := FAMILIARES[..25] + FAMILIARES[26..]

  predicate InFamiliaresDistinct(d: Doc) {
    d.ruc in FAMILIARES_DISTINCT
  }

  /** The repeated catalog entry changes nothing: membership, not
      multiplicity, selects a document, so each one counts once. */
  lemma {:induction false} RepeatedRucCountsOnce(docs: seq<Doc>)
    ensures FAMILIARES[1] == FAMILIARES[25] == "80100678"
    ensures |FAMILIARES_DISTINCT| == |FAMILIARES| - 1
    ensures Total(Seqs.Filter(docs, InFamiliares)) == Total(Seqs.Filter(docs, InFamiliaresDistinct))
  {
    assert FAMILIARES == FAMILIARES[..25] + [FAMILIARES[25]] + FAMILIARES[26..];
    assert FAMILIARES[25] in FAMILIARES[..25] by {
      assert FAMILIARES[..25][1] == FAMILIARES[25];
    }
    assert forall s :: s in FAMILIARES <==> s in FAMILIARES_DISTINCT;
    Seqs.FilterCongruent(docs, InFamiliares, InFamiliaresDistinct);
  }

  /** A document with the repeated RUC contributes its total once. */
  lemma RepeatedRucDocCountsOnce(d: Doc)
    requires d.ruc == "80100678"
    ensures Total(Seqs.Filter([d], InFamiliares)) == d.total
  {
    assert FAMILIARES[1] == d.ruc;
    assert InFamiliares(d);
    assert [d][1..] == [];
    assert Seqs.Filter([d], InFamiliares) == [d];
    assert Total([d]) == DocTotal(d) + Seqs.Sum([d][1..], DocTotal);
  }

  /** `int(total_diff * 0.1)`: a tenth of the difference, truncated toward zero. */
  function EstimatedIrp(diff: int): (tax: int)
    ensures 0 <= diff ==> 0 <= 10 * tax <= diff < 10 * tax + 10
    ensures diff < 0 ==> 10 * tax - 10 < diff <= 10 * tax <= 0
  {
    if diff >= 0 then diff / 10 else -((-diff) / 10)
  }

  lemma EstimatedIrpExamples()
    ensures EstimatedIrp(1_000_000) == 100_000
    ensures EstimatedIrp(19) == 1
    ensures EstimatedIrp(-19) == -1
  {
  }

  /** The figures the IRP-RSP report prints. */
  datatype IrpTotals = IrpTotals(
    compras: int,
    ventas: int,
    egresos: int,
    diff: int,
    egresosFamiliares: int,
    comprasFamiliares: int,
    egresosEstadoAsoc: int,
    comprasEstadoAsoc: int,
    gastos: int,
    gastosFamiliares: int,
    gastosSaludEduc: int,
    gastosEstadoAsoc: int,
    gastosActivGravada: int,
    estimatedIrp: int)

  /** The totals of the `__main__` block from the cleaned classes. The
      taxed-activity bucket is the residual of total expenses. */
  function IrpReport(compras: seq<Doc>, ventas: seq<Doc>, egresos: seq<Doc>): (t: IrpTotals)
    ensures t.compras == Total(compras) && t.ventas == Total(ventas) && t.egresos == Total(egresos)
    ensures t.diff == t.ventas - t.compras - t.egresos
    ensures t.comprasFamiliares == Total(Seqs.Filter(compras, InFamiliares))
    ensures t.egresosFamiliares == Total(Seqs.Filter(egresos, InFamiliares))
    ensures t.comprasEstadoAsoc == Total(Seqs.Filter(compras, InEstadoAsoc))
    ensures t.egresosEstadoAsoc == Total(Seqs.Filter(egresos, InEstadoAsoc))
    ensures t.gastos == t.compras + t.egresos
    ensures t.gastosFamiliares == t.comprasFamiliares + t.egresosFamiliares
    ensures t.gastosEstadoAsoc == t.comprasEstadoAsoc + t.egresosEstadoAsoc
    ensures t.gastosSaludEduc == GASTOS_EXTERIOR_SALUD_EDUCACION
    ensures t.estimatedIrp == EstimatedIrp(t.diff)
    ensures t.gastosActivGravada + t.gastosFamiliares + t.gastosSaludEduc + t.gastosEstadoAsoc
            == t.compras + t.egresos
    ensures t.gastosActivGravada ==
      Total(Seqs.Filter(compras, InNeitherCatalog)) + Total(Seqs.Filter(egresos, InNeitherCatalog))
      - GASTOS_EXTERIOR_SALUD_EDUCACION
    ensures 0 <= t.ventas - t.compras - t.egresos ==> 0 <= 10 * t.estimatedIrp <= t.ventas - t.compras - t.egresos
  {
    CatalogSumsPartition(compras);
    CatalogSumsPartition(egresos);
    var totalCompras := Total(compras);
    var totalVentas := Total(ventas);
    var totalEgresos := Total(egresos);
    var totalDiff := totalVentas - totalCompras - totalEgresos;
    var egresosFamiliares := Total(Seqs.Filter(egresos, InFamiliares));
    var comprasFamiliares := Total(Seqs.Filter(compras, InFamiliares));
    var egresosEstadoAsoc := Total(Seqs.Filter(egresos, InEstadoAsoc));
    var comprasEstadoAsoc := Total(Seqs.Filter(compras, InEstadoAsoc));
    var gastos := totalCompras + totalEgresos;
    var gastosFamiliares := egresosFamiliares + comprasFamiliares;
    var gastosSaludEduc := GASTOS_EXTERIOR_SALUD_EDUCACION;
    var gastosEstadoAsoc := comprasEstadoAsoc + egresosEstadoAsoc;
    var gastosActivGravada := gastos - gastosFamiliares - gastosSaludEduc - gastosEstadoAsoc;
    IrpTotals(
      totalCompras, totalVentas, totalEgresos, totalDiff,
      egresosFamiliares, comprasFamiliares, egresosEstadoAsoc, comprasEstadoAsoc,
      gastos, gastosFamiliares, gastosSaludEduc, gastosEstadoAsoc, gastosActivGravada,
      EstimatedIrp(totalDiff))
  }

  /** The whole IRP-RSP run over the sheets of the input directory: load and
      classify, clean sales, purchases and outflows, then total. */
  function IrpPipeline(files: seq<Frame>): (r: Result<IrpTotals, RunError>)
    ensures r == Failure(NoObjectsToConcatenate) <==> |files| == 0
  {
    match Classify.LoadViews(files)
    case Failure(e) => Failure(e)
    case Success(views) =>
      var ventas := CleanVentas(views.ventas.rows);
      match CleanCompras(views.compras)
      case Failure(e) => assert e == FlagsBothNo || e == FlagsBothSi; Failure(e)
      case Success(compras) =>
        var egresos := CleanEgresos(views.egresos.rows);
        Success(IrpReport(compras, ventas, egresos))
  }

  /** A purchase row the IRP-RSP total counts. */
  predicate CountedCompra(x: Row) {
    Classify.InView(Classify.Compras, x) && NotCredit(x) && Imputable(x)
  }

  /** A sale row the IRP-RSP total counts. */
  predicate CountedVenta(x: Row) {
    Classify.InView(Classify.Ventas, x) && NotCredit(x) && Imputable(x)
  }

  /** An outflow row the IRP-RSP total counts. */
  predicate CountedEgreso(x: Row) {
    Classify.InView(Classify.Egresos, x) && Imputable(x)
  }

  /** A clashing non-credit row of the purchases view, as a property of the
      rows before classification. */
  predicate ClashInComprasView(rows: seq<Row>) {
    exists x :: x in rows && Classify.InView(Classify.Compras, x) && !IsCredit(x) && (BothNo(x) || BothSi(x))
  }

  lemma {:induction false} PipelineFailsWithCleanCompras(files: seq<Frame>)
    requires |files| > 0
    ensures IrpPipeline(files).Failure? <==>
      CleanCompras(Classify.ClassifyFrame(Frames.Concat(files), Classify.Compras)).Failure?
  {
  }

  lemma {:induction false} ComprasViewClash(c: Frame)
    ensures CleanCompras(Classify.ClassifyFrame(c, Classify.Compras)).Failure? <==>
      FlagColumnsPresent(c.columns) && ClashInComprasView(c.rows)
  {
    var v := Classify.ClassifyFrame(c, Classify.Compras);
    if ClashInComprasView(c.rows) {
      var x :| x in c.rows && Classify.InView(Classify.Compras, x) && !IsCredit(x) && (BothNo(x) || BothSi(x));
      assert x in v.rows;
    }
  }

  /** The run aborts exactly when there is no input sheet, or when both flag
      columns exist and a non-credit row of the purchases view has both flags
      "NO" or both "SI". For sheets as pandas reads them such a row already
      implies both columns, so the column test never decides the verdict. */
  lemma {:induction false} IrpPipelineFailsIff(files: seq<Frame>)
    requires forall i :: 0 <= i < |files| ==> WellFormed(files[i])
    ensures IrpPipeline(files).Failure? <==>
      |files| == 0
      || (FlagColumnsPresent(Frames.Concat(files).columns) && ClashInComprasView(Frames.Concat(files).rows))
    ensures IrpPipeline(files).Failure? <==> |files| == 0 || ClashInComprasView(Frames.Concat(files).rows)
  {
    if |files| > 0 {
      PipelineFailsWithCleanCompras(files);
      ComprasViewClash(Frames.Concat(files));
      Frames.ConcatWellFormed(files);
      ClashImpliesFlagColumns(Frames.Concat(files));
    }
  }

  lemma ClashImpliesFlagColumns(c: Frame)
    requires WellFormed(c)
    ensures ClashInComprasView(c.rows) ==> FlagColumnsPresent(c.columns)
  {
    if ClashInComprasView(c.rows) {
      var x :| x in c.rows && Classify.InView(Classify.Compras, x) && !IsCredit(x) && (BothNo(x) || BothSi(x));
      Frames.ClashNeedsFlagColumns(c, x);
    }
  }


  /** The class totals of a successful run, stated on the raw input rows. */
  lemma {:induction false} IrpPipelineTotals(files: seq<Frame>)
    ensures IrpPipeline(files).Success? ==> IrpPipeline(files).value.compras == Seqs.Sum(Seqs.Filter(Frames.Concat(files).rows, CountedCompra), RowTotal)
    ensures IrpPipeline(files).Success? ==> IrpPipeline(files).value.ventas == Seqs.Sum(Seqs.Filter(Frames.Concat(files).rows, CountedVenta), RowTotal)
    ensures IrpPipeline(files).Success? ==> IrpPipeline(files).value.egresos == Seqs.Sum(Seqs.Filter(Frames.Concat(files).rows, CountedEgreso), RowTotal)
  {
    PipelineComprasTotal(files);
    PipelineVentasTotal(files);
    PipelineEgresosTotal(files);
  }

  lemma {:induction false} PipelineComprasTotal(files: seq<Frame>)
    ensures IrpPipeline(files).Success? ==> IrpPipeline(files).value.compras == Seqs.Sum(Seqs.Filter(Frames.Concat(files).rows, CountedCompra), RowTotal)
  {
    if IrpPipeline(files).Success? {
      var rows := Frames.Concat(files).rows;
      var view := Classify.LoadViews(files).value.compras.rows;
      assert view == Seqs.Filter(rows, Classify.ViewOf(Classify.Compras));
      Seqs.FilterFuse(rows, Classify.ViewOf(Classify.Compras), Deductible, CountedCompra);
      TotalOfDocs(CashImputable(view));
    }
  }

  lemma {:induction false} PipelineVentasTotal(files: seq<Frame>)
    ensures IrpPipeline(files).Success? ==> IrpPipeline(files).value.ventas == Seqs.Sum(Seqs.Filter(Frames.Concat(files).rows, CountedVenta), RowTotal)
  {
    if IrpPipeline(files).Success? {
      var rows := Frames.Concat(files).rows;
      var view := Classify.LoadViews(files).value.ventas.rows;
      assert view == Seqs.Filter(rows, Classify.ViewOf(Classify.Ventas));
      Seqs.FilterFuse(rows, Classify.ViewOf(Classify.Ventas), Deductible, CountedVenta);
      TotalOfDocs(CashImputable(view));
    }
  }

  lemma {:induction false} PipelineEgresosTotal(files: seq<Frame>)
    ensures IrpPipeline(files).Success? ==> IrpPipeline(files).value.egresos == Seqs.Sum(Seqs.Filter(Frames.Concat(files).rows, CountedEgreso), RowTotal)
  {
    if IrpPipeline(files).Success? {
      var rows := Frames.Concat(files).rows;
      var view := Classify.LoadViews(files).value.egresos.rows;
      assert view == Seqs.Filter(rows, Classify.ViewOf(Classify.Egresos));
      Seqs.FilterFuse(rows, Classify.ViewOf(Classify.Egresos), Imputable, CountedEgreso);
      TotalOfDocs(Seqs.Filter(view, Imputable));
    }
  }
}
