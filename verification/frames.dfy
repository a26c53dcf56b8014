/** The tabular data the pipeline works on: one record per document row of a
    "Datos" sheet, and a frame that pairs rows with the set of columns the
    sheet (or the concatenation of sheets) carries. */
module Frames {
  import opened Wrappers
  import Seqs

  /** The columns the two tax computations read (irp-rsp.py:12-20, iva.py:12-21). */
  datatype Column =
    | TipoRegistro       // "Tipo de Registro"
    | Condicion          // "Condicion de la Operacion"
    | ImputaIrp          // "Imputa IRP"
    | NoImputar          // "No Imputar"
    | Ruc                // "RUC / N? de Identificacion del Informado"
    | RucEgresos         // "RUC / N° de Identificación del Informado"
    | NumeroComprobante  // "Numero de Comprobante"
    | TipoComprobante    // "Tipo de Comprobante"
    | TotalComprobante   // "Total Comprobante"
    | Monto10            // "Monto Gravado 10%"
    | Monto5             // "Monto Gravado 5%"
    | Monto0             // "Monto No Gravado / Exento "

  /** One document row. Text cells hold what pandas renders with `astype(str)`;
      amounts are whole guaraníes. An empty cell is `None`. */
  datatype Row = Row(
    tipoRegistro: Option<string>,
    condicion: Option<string>,
    imputaIrp: Option<string>,
    noImputar: Option<string>,
    ruc: Option<string>,
    rucEgresos: Option<string>,
    numero: Option<string>,
    tipoComprobante: Option<string>,
    total: Option<int>,
    monto10: Option<int>,
    monto5: Option<int>,
    monto0: Option<int>)

  /** A table: the columns it has and its rows, in order. */
  datatype Frame = Frame(columns: set<Column>, rows: seq<Row>)

  /** Why a run stops without producing totals. */
  datatype RunError =
    | NoObjectsToConcatenate   // no input file: `pd.concat([])` raises
    | FlagsBothNo              // the assertion at irp-rsp.py:108 fails
    | FlagsBothSi              // the assertion at irp-rsp.py:109 fails

  const CREDITO := "CREDITO"
  const NO := "NO"
  const SI := "SI"

  /** `astype(str)` of a text cell: an empty cell renders as "nan". */
  function Text(c: Option<string>): string {
    c.GetOr("nan")
  }

  /** `fillna(0)` of an amount cell. */
  function Amount(c: Option<int>): int {
    c.GetOr(0)
  }

  /** The payment condition is credit. */
  predicate IsCredit(x: Row) {
    x.condicion == Some(CREDITO)
  }

  predicate NotCredit(x: Row) {
    !IsCredit(x)
  }

  /** The row is explicitly marked as not deductible. */
  predicate ImputaNo(x: Row) {
    x.imputaIrp == Some(NO)
  }

  predicate Imputable(x: Row) {
    !ImputaNo(x)
  }

  /** Both flags say "NO": the row is neither deducted nor excluded. */
  predicate BothNo(x: Row) {
    x.imputaIrp == Some(NO) && x.noImputar == Some(NO)
  }

  /** Both flags say "SI": the row is both deducted and excluded. */
  predicate BothSi(x: Row) {
    x.imputaIrp == Some(SI) && x.noImputar == Some(SI)
  }

  /** The flag-consistency check runs only when both flag columns exist. */
  predicate FlagColumnsPresent(columns: set<Column>) {
    ImputaIrp in columns && NoImputar in columns
  }

  /** The flag-consistency self-check: first no row may have both flags "NO",
      then no row may have both flags "SI". */
  function CheckFlags(f: Frame): (o: Outcome<RunError>)
    ensures o == Fail(FlagsBothNo) <==>
      FlagColumnsPresent(f.columns) && exists x :: x in f.rows && BothNo(x)
    ensures o == Fail(FlagsBothSi) <==>
      FlagColumnsPresent(f.columns) && (forall x :: x in f.rows ==> !BothNo(x))
      && exists x :: x in f.rows && BothSi(x)
    ensures o.Pass? <==>
      !FlagColumnsPresent(f.columns) || forall x :: x in f.rows ==> !BothNo(x) && !BothSi(x)
  {
    var bothNo := Seqs.Filter(f.rows, BothNo);
    var bothSi := Seqs.Filter(f.rows, BothSi);
    if !FlagColumnsPresent(f.columns) then Pass
    else if |bothNo| != 0 then assert bothNo[0] in bothNo; Fail(FlagsBothNo)
    else if |bothSi| != 0 then assert bothSi[0] in bothSi; Fail(FlagsBothSi)
    else Pass
  }

  /** The rows of all frames, frame after frame. */
  function ConcatRows(fs: seq<Frame>): seq<Row> {
    if |fs| == 0 then [] else fs[0].rows + ConcatRows(fs[1..])
  }

  /** The columns of all frames. */
  function ConcatColumns(fs: seq<Frame>): set<Column> {
    if |fs| == 0 then {} else fs[0].columns + ConcatColumns(fs[1..])
  }

  /** `pd.concat` of frames: the union of their columns and all their rows,
      frame after frame. */
  function Concat(fs: seq<Frame>): (f: Frame)
    ensures forall c :: c in f.columns <==> exists i :: 0 <= i < |fs| && c in fs[i].columns
    ensures forall x :: x in f.rows <==> exists i :: 0 <= i < |fs| && x in fs[i].rows
    ensures |f.rows| == Seqs.Sum(fs, RowCount)
    ensures |fs| == 1 ==> f == fs[0]
  {
    assert |fs| == 1 ==> fs[1..] == [];
    ConcatRowsMembers(fs);
    ConcatColumnsMembers(fs);
    Frame(ConcatColumns(fs), ConcatRows(fs))
  }

  function RowCount(f: Frame): int {
    |f.rows|
  }

  lemma {:induction false} ConcatRowsMembers(fs: seq<Frame>)
    ensures forall x :: x in ConcatRows(fs) <==> exists i :: 0 <= i < |fs| && x in fs[i].rows
    ensures |ConcatRows(fs)| == Seqs.Sum(fs, RowCount)
  {
    if |fs| > 0 {
      ConcatRowsMembers(fs[1..]);
      assert forall i :: 1 <= i < |fs| ==> fs[i] == fs[1..][i - 1];
      forall x | x in ConcatRows(fs)
        ensures exists i :: 0 <= i < |fs| && x in fs[i].rows
      {
        if x !in fs[0].rows {
          assert x in ConcatRows(fs[1..]);
          var j :| 0 <= j < |fs[1..]| && x in fs[1..][j].rows;
          assert x in fs[j + 1].rows;
        }
      }
    }
  }

  lemma {:induction false} ConcatColumnsMembers(fs: seq<Frame>)
    ensures forall c :: c in ConcatColumns(fs) <==> exists i :: 0 <= i < |fs| && c in fs[i].columns
  {
    if |fs| > 0 {
      ConcatColumnsMembers(fs[1..]);
      assert forall i :: 1 <= i < |fs| ==> fs[i] == fs[1..][i - 1];
      forall c | c in ConcatColumns(fs)
        ensures exists i :: 0 <= i < |fs| && c in fs[i].columns
      {
        if c !in fs[0].columns {
          assert c in ConcatColumns(fs[1..]);
          var j :| 0 <= j < |fs[1..]| && c in fs[1..][j].columns;
          assert c in fs[j + 1].columns;
        }
      }
    }
  }

  /** Concatenating two lists of frames is concatenating their two
      concatenations: the rows of the first list come first, in order. */
  lemma ConcatAppend(a: seq<Frame>, b: seq<Frame>)
    ensures Concat(a + b) == Frame(Concat(a).columns + Concat(b).columns, Concat(a).rows + Concat(b).rows)
  {
    ConcatAppendRows(a, b);
    ConcatAppendColumns(a, b);
  }

  lemma {:induction false} ConcatAppendRows(a: seq<Frame>, b: seq<Frame>)
    ensures ConcatRows(a + b) == ConcatRows(a) + ConcatRows(b)
  {
    if |a| == 0 {
      assert a + b == b;
    } else {
      assert (a + b)[0] == a[0];
      assert (a + b)[1..] == a[1..] + b;
      ConcatAppendRows(a[1..], b);
    }
  }

  lemma {:induction false} ConcatAppendColumns(a: seq<Frame>, b: seq<Frame>)
    ensures ConcatColumns(a + b) == ConcatColumns(a) + ConcatColumns(b)
  {
    if |a| == 0 {
      assert a + b == b;
    } else {
      assert (a + b)[0] == a[0];
      assert (a + b)[1..] == a[1..] + b;
      ConcatAppendColumns(a[1..], b);
    }
  }

  /** Every column a computation reads. */
  const ALL_COLUMNS: set<Column> := {
    TipoRegistro, Condicion, ImputaIrp, NoImputar, Ruc, RucEgresos,
    NumeroComprobante, TipoComprobante, TotalComprobante, Monto10, Monto5, Monto0}

  /** The row has a value in column `c`. */
  predicate HasCell(x: Row, c: Column) {
    match c
    case TipoRegistro => x.tipoRegistro.Some?
    case Condicion => x.condicion.Some?
    case ImputaIrp => x.imputaIrp.Some?
    case NoImputar => x.noImputar.Some?
    case Ruc => x.ruc.Some?
    case RucEgresos => x.rucEgresos.Some?
    case NumeroComprobante => x.numero.Some?
    case TipoComprobante => x.tipoComprobante.Some?
    case TotalComprobante => x.total.Some?
    case Monto10 => x.monto10.Some?
    case Monto5 => x.monto5.Some?
    case Monto0 => x.monto0.Some?
  }

  /** A frame as pandas builds it: a row has no value in a column the frame
      lacks (reading a sheet, or `pd.concat` filling NaN). */
  predicate WellFormed(f: Frame) {
    forall x, c :: x in f.rows && HasCell(x, c) ==> c in f.columns
  }

  /** `pd.concat` of sheets as read gives a frame as pandas builds it: a sheet
      without a column contributes rows that are empty in that column. */
  lemma {:induction false} ConcatWellFormed(fs: seq<Frame>)
    requires forall i :: 0 <= i < |fs| ==> WellFormed(fs[i])
    ensures WellFormed(Concat(fs))
  {
    var f := Concat(fs);
    forall x, c | x in f.rows && HasCell(x, c)
      ensures c in f.columns
    {
      var i :| 0 <= i < |fs| && x in fs[i].rows;
      assert c in fs[i].columns;
    }
  }

  /** In a frame as pandas builds it, a row with both flags set comes from a
      sheet with both flag columns; so the column test of the flag check never
      changes its verdict, it only avoids a missing-column error. */
  lemma ClashNeedsFlagColumns(f: Frame, x: Row)
    requires WellFormed(f)
    requires x in f.rows && (BothNo(x) || BothSi(x))
    ensures FlagColumnsPresent(f.columns)
  {
    assert HasCell(x, ImputaIrp) && HasCell(x, NoImputar);
  }
}
