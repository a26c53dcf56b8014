# set-forms-calculator, document pipeline in Dafny

This project models the two Paraguayan tax scripts of set-forms-calculator:
`irp-rsp.py` (IRP-RSP, personal income tax on professional services) and
`iva.py` (IVA, value-added tax). Both scripts run the same pipeline over the
rows of the "Datos" sheets of a directory of spreadsheet exports:

1. every sheet is split into four record classes by "Tipo de Registro":
   COMPRAS (purchases), VENTAS (sales), EGRESOS (outflows) and INGRESOS (inflows);
   the per-file views are then concatenated;
2. each class is cleaned by class-specific rules (credit rows, "Imputa IRP" = "NO",
   credit-funded outflows), with a flag-consistency self-check on IRP-RSP purchases;
3. the cleaned classes are totalled: IRP-RSP splits expenses into household,
   state/association, health/education-abroad and taxed-activity buckets and
   estimates the tax at a flat 10%; IVA sums each rate tier (10%, 5%, exempt).

Modules, one per component:

- `Wrappers` (wrappers.dfy): `Option` for empty cells, `Result` for aborted runs, `Outcome` for self-checks.
- `Seqs` (seqs.dfy): `Filter` (a boolean-mask selection), `Map` (a projection), `Sum` (a column sum), and lemmas relating them.
- `Frames` (frames.dfy): the `Row` record, the `Frame` (column set plus rows), cell rendering, the flag predicates, the flag check `CheckFlags`, and `Concat` (`pd.concat`).
- `Ruc` (ruc.dfy): `Normalize`, which models `str.replace(".0", "")`.
- `Classify` (classify.dfy): the four-way split and `LoadViews` (`load_data` without the file reading).
- `IrpRsp` (irp_rsp.dfy): `clean_compras`, `clean_ventas`, `clean_egresos`, the RUC catalogs, the buckets and the estimate. `IrpPipeline` models the whole `__main__` block.
- `Iva` (iva.dfy): the IVA variants of the three cleaning functions and the rate-tier totals. `IvaPipeline` models the whole `__main__` block.

How the data are represented:

- A text cell holds what pandas `astype(str)` renders. An empty cell is `None`, and renders as "nan".
  So an empty cell never equals a label, "NO", "SI" or "CREDITO".
- An amount is a whole number of guaraníes. An empty amount is coerced to 0 (`Frames.Amount`).
- A `Frame` records its column set. This is needed only for the two column tests the code makes:
  the flag check runs only when both "Imputa IRP" and "No Imputar" exist,
  and IVA outflows get the RUC "0" when their RUC column is missing.
- `Frames.WellFormed` says a frame is as pandas builds it: no row has a value in a column the frame lacks.
  `pd.concat` keeps this (`Frames.ConcatWellFormed`), because it fills a missing column with NaN.
  The totals lemmas hold for every frame, well-formed or not. Only the failure characterisation of the
  IRP-RSP run needs it.

Behaviour worth knowing, as the two scripts are written:

- A row whose type is none of the four labels is kept in all four views,
  because each view removes only the other three labels (irp-rsp.py:82-85, iva.py:42-45).
  A row with an empty type is one of these, since its type renders as "nan".
- Only the exact text "CREDITO" counts as credit (irp-rsp.py:104).
- The IRP-RSP flag check looks only at the rows left after credit rows are removed (irp-rsp.py:104-109).
  For sheets as pandas reads them, its column test never changes the verdict: a row with both flags
  set comes from a sheet that has both columns. The test only avoids a missing-column error.
- In IVA the flag check can never fire: the projection just before it drops "No Imputar" (iva.py:64-69).
- IRP-RSP sales are filtered exactly like purchases, by credit and by "Imputa IRP" (irp-rsp.py:131-134).
  IVA purchases have no credit filter (iva.py:72).
- The RUC clean-up `replace(".0", "")` removes every ".0", not only a trailing one. It is not idempotent:
  "..00" becomes ".0", which becomes "". It is idempotent on strings with no "..".
- The tax estimate is a flat `int(total_diff * 0.1)` (irp-rsp.py:230).
- With no input sheet, `pd.concat([])` raises (irp-rsp.py:92, iva.py:52), so the run fails.

## Model

| member | source | states |
|---|---|---|
| Frames.CheckFlags | irp-rsp.py:107-109 | fails with the both-"NO" error iff both flag columns exist and some row has both flags "NO"; fails with the both-"SI" error iff both columns exist, no row is both-"NO" and some row is both-"SI"; passes otherwise |
| Frames.Concat | irp-rsp.py:92-95 | the concatenation has exactly the columns of some input frame and exactly the rows of some input frame, and as many rows as all input frames together; a single frame is returned unchanged |
| Frames.ConcatAppend | irp-rsp.py:92-95 | concatenating two lists of frames gives the first list's rows, in order, followed by the second list's rows, and the union of their columns |
| Frames.ConcatWellFormed | irp-rsp.py:92-95 | concatenating sheets as pandas reads them gives a frame where no row has a value in a column the frame lacks (missing columns are filled with NaN) |
| Frames.ClashNeedsFlagColumns | irp-rsp.py:107-109 | in such a frame, a row with both flags "NO" or both "SI" implies that both flag columns exist |
| Ruc.Normalize | irp-rsp.py:121 | the result is never longer than the input; a string containing no ".0" comes back unchanged |
| Ruc.NormalizeRemovesEvery | irp-rsp.py:143 | every occurrence is removed: cutting the input at any ".0" normalises the two sides independently |
| Ruc.DigitsWithFloatSuffix | irp-rsp.py:160 | a digit string followed by ".0" (a RUC read as a float) maps to the digit string |
| Ruc.NormalizeIdempotentWithoutDoubleDot | iva.py:74 | a string without ".." normalises to one without ".0", so normalising twice equals normalising once |
| Ruc.NormalizeNotIdempotent | iva.py:88 | "..00" normalises to ".0", which normalises to "": the clean-up is not idempotent in general |
| Classify.ClassifyFrame | irp-rsp.py:82-85 | a view keeps the sheet's columns, and a row is in the view of a class iff it is in the sheet and its type is that class's label or no known label |
| Classify.InViewIff | iva.py:42-45 | excluding the other three labels is the same as: the type is this class's label, or not a known label |
| Classify.LabelledRowOnlyInOwnView | irp-rsp.py:82-85 | a row typed with one class's label is in that class's view and in no other |
| Classify.UnlabelledRowInEveryView | iva.py:42-45 | a row whose type is no known label is in all four views |
| Classify.MissingTypeInEveryView | irp-rsp.py:82 | a row with an empty type cell (rendered "nan") is in all four views |
| Classify.ClassifyCommutes | irp-rsp.py:73-95 | classifying file by file and concatenating equals classifying the concatenation: same columns, same rows, same order |
| Classify.LoadView | irp-rsp.py:87-95 | one class's concatenated per-file views equal that class's view of the concatenated input |
| Classify.LoadViews | irp-rsp.py:69-99 | fails with "no objects to concatenate" iff there is no input sheet; otherwise each of the four views is that class's view of the concatenated input |
| IrpRsp.CashImputable | irp-rsp.py:104-116 | a row survives iff it is in the input, is not on credit and is not marked "Imputa IRP" = "NO"; so no survivor has either marker, and the two filters equal one filter by the conjunction |
| IrpRsp.CashImputableKeepsInPlace | irp-rsp.py:131-134 | a row with neither marker survives exactly where it stood, with the rows before it before and the rows after it after |
| IrpRsp.CashImputableDropsInPlace | irp-rsp.py:131-138 | a credit row or a row not imputed to IRP is removed and nothing else changes |
| IrpRsp.CleanCompras | irp-rsp.py:102-126 | fails iff both flag columns exist and some non-credit row has both flags "NO" or both "SI"; the both-"NO" error iff such a both-"NO" row exists, the both-"SI" error iff there is none but a both-"SI" row exists, and no other error; otherwise it is the projection of the cash, imputable rows in order |
| IrpRsp.CreditRowIgnoredByCleanCompras | irp-rsp.py:104-109 | removing a credit row, whatever its flags, changes neither the verdict nor the result of the purchase cleaning |
| IrpRsp.CleanVentas | irp-rsp.py:129-148 | never longer than the input; every cash, imputable sale appears projected in the result, and every result document is the projection of a cash, imputable sale |
| IrpRsp.CleanVentasInPlace | irp-rsp.py:129-148 | a cash sale not marked "NO" yields its document exactly where it stood among the others; a credit sale or one marked "NO" is removed and the rest are unchanged, in order |
| IrpRsp.CleanEgresos | irp-rsp.py:151-165 | never longer than the input; an outflow appears in the result iff it is not marked "NO", so a credit outflow survives |
| IrpRsp.CleanEgresosInPlace | irp-rsp.py:151-165 | an outflow not marked "NO", credit or not, yields its document exactly where it stood among the others; one marked "NO" is removed and the rest are unchanged, in order |
| IrpRsp.TotalOfDocs | irp-rsp.py:179-181 | the total of projected documents is the sum of the raw rows' totals, with an empty cell counting 0 |
| IrpRsp.MissingTotalAddsNothing | irp-rsp.py:146-163 | a row with an empty total leaves the sales and outflow totals unchanged, whether or not it survives cleaning |
| IrpRsp.CatalogsDisjoint | irp-rsp.py:23-64 | no RUC is in both the household and the state/association catalogs |
| IrpRsp.CatalogSumsPartition | irp-rsp.py:186-201 | household sum + state/association sum + sum of documents in neither catalog = class total |
| IrpRsp.RepeatedRucCountsOnce | irp-rsp.py:23-57 | "80100678" is listed twice, and the household sum equals the sum over the catalog without the repeat |
| IrpRsp.RepeatedRucDocCountsOnce | irp-rsp.py:186-187 | a document with the repeated RUC contributes its total once |
| IrpRsp.EstimatedIrp | irp-rsp.py:230 | the estimate is a tenth of the difference truncated toward zero: for a non-negative difference 0 <= 10*tax <= diff < 10*tax + 10, and symmetrically for a negative one |
| IrpRsp.IrpReport | irp-rsp.py:179-230 | each class total is the total of the cleaned class; the difference is sales minus purchases minus outflows; each catalog sum is the total of the documents whose RUC is in that catalog; total expenses = purchases + outflows; household and state/association expenses add the purchase and outflow sums; the health/education figure is the fixed allowance; the estimate is `EstimatedIrp` of the difference; taxed-activity + household + health/education + state/association buckets = purchases + outflows; the taxed-activity residual = purchases and outflows in neither catalog minus the fixed allowance; a non-negative difference gives an estimate between 0 and a tenth of it |
| IrpRsp.IrpPipeline | irp-rsp.py:168-230 | fails with "no objects to concatenate" iff there is no input sheet; its flag failures are characterised by IrpRsp.IrpPipelineFailsIff, its class totals by IrpRsp.IrpPipelineTotals and its other figures by IrpRsp.IrpReport |
| IrpRsp.IrpPipelineFailsIff | irp-rsp.py:173-176 | for sheets as pandas reads them, the run fails iff there is no input sheet, or both flag columns exist and some non-credit row of the purchases view has both flags "NO" or both "SI"; equivalently, iff there is no sheet or such a row exists |
| IrpRsp.IrpPipelineTotals | irp-rsp.py:179-181 | on success, each class total is the sum over the raw input rows of that class's view that pass its rules: cash and imputable for purchases and sales, imputable for outflows |
| Iva.CleanCompras | iva.py:62-81 | never longer than the input; no result row has "Imputa IRP" = "NO"; every imputable row survives projected, credit rows included; every result is the projection of an imputable row |
| Iva.CleanComprasInPlace | iva.py:72 | a row marked "Imputa IRP" = "NO" is removed and nothing else changes; any other row, credit or not, yields its projection exactly where it stood |
| Iva.ComprasFlagCheckNeverFires | iva.py:64-69 | the flag check on the projected purchase columns always passes |
| Iva.ClashingRowKeptByIva | iva.py:62-72 | for any purchase with both flags "SI" among any other rows, with both flag columns present: on cash the IRP-RSP purchase cleaning fails, on credit the IRP-RSP cleaning gives what it gives without that row, and the IVA cleaning keeps its projection exactly where it stood |
| Iva.CleanVentas | iva.py:84-95 | no row is removed: same length as the input, and the i-th result carries the i-th row's type, its RUC with every ".0" removed, and its three amounts with empty cells as 0 |
| Iva.EgresosKept | iva.py:99-106 | no kept outflow has the credit-funded document type; without a RUC column every kept row's RUC is "0"; every other outflow is kept (with RUC "0" when the column is missing), and every kept row is such an outflow |
| Iva.CleanEgresos | iva.py:98-116 | no result row has the credit-funded document type; without a RUC column every result RUC is "0"; every other outflow appears projected, and every result is the projection of such an outflow |
| Iva.CleanEgresosInPlace | iva.py:99-102 | a credit-funded outflow is removed and nothing else changes; any other outflow yields one document exactly where it stood |
| Iva.ComprasSums | iva.py:130-132 | each tier sum of cleaned purchases is the sum of that amount over the imputable raw rows |
| Iva.VentasSums | iva.py:134-136 | each tier sum of cleaned sales is the sum of that amount over all raw rows |
| Iva.EgresosSum | iva.py:138 | the outflow total is the sum of the totals of the raw rows that are not credit-funded |
| Iva.MissingAmountsAddNothing | iva.py:77-79 | a row with an empty 10%, 5% or exempt amount leaves that tier sum of purchases and sales unchanged; one with an empty total leaves the outflow total unchanged |
| Iva.IvaPipeline | iva.py:124-128 | the run fails iff there is no input sheet |
| Iva.IvaPipelineTotals | iva.py:130-152 | on success, the three purchase tiers are the sums over the counted purchases, the outflow total is the sum over the counted outflows, exempt expenses = exempt purchases + counted outflows, 5% and 10% expenses = the purchases of that tier, and sales tiers = the sums over the sales view, all over the raw input rows |

## Left out

- File discovery and reading are not modelled, because they are I/O. This covers `pathlib.glob`, `pd.read_excel`, the "Datos" sheet, the "~$" lock-file skip and the file count. The model starts from one `Frame` per sheet.
- Command-line parsing (`argparse`) and all `logging` output are not modelled. They are plumbing.
- A `KeyError` for a column the code reads unconditionally is not modelled. The model assumes those columns exist. Only the two conditional column tests are modelled.
- pandas column order and index labels are not modelled. They do not affect any total.
- The model treats a text cell as already rendered by `astype(str)`. So `x == "NO"` and `astype(str) == "NO"` agree. A numeric cell in a text column is not modelled.
- `astype(int)` truncation of fractional amounts is not modelled. Amounts are whole guaraníes.
- numpy 64-bit overflow of the sums is not modelled. Sums are unbounded integers.
- IrpRsp.EstimatedIrp: idealises `int(total_diff * 0.1)` as exact truncated division by 10. It ignores floating-point rounding of the product.
- The post-filter assertions (irp-rsp.py:115-116, 137-138, 155; iva.py:102) cannot fail after their filters. They appear as postconditions of the filters, not as failure paths.
- The inflows view is classified and returned, but neither script cleans or totals it. The model stops there as well.
- `COL_TIMBRADO` and `COL_TIPO_COMPROBANTE_TODOS` are not modelled. Both are defined but never used.
- `TIPO_COMPROBANTE_EXTRACTO_TC` and `TIPO_COMPROBANTE_EGRESO_ENT_PUBLICAS` are not modelled. They are used only to build `COL_TIPO_COMPROBANTE_TODOS` (iva.py:26).
