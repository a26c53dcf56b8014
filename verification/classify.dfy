/** Splitting the rows of every input sheet into the four record classes
    (purchases, sales, outflows, inflows) by "Tipo de Registro", and
    concatenating the per-file views (the body of `load_data`, without the
    file reading). */
module Classify {
  import opened Wrappers
  import opened Frames
  import Seqs

  /** The four record classes. */
  datatype Kind = Compras | Ventas | Egresos | Ingresos

  /** The known record-type labels, in the order the code lists them. */
  const TIPO_TODOS: seq<string> := ["VENTAS", "COMPRAS", "INGRESOS", "EGRESOS"]

  function Label(k: Kind): string {
    match k
    case Compras => "COMPRAS"
    case Ventas => "VENTAS"
    case Egresos => "EGRESOS"
    case Ingresos => "INGRESOS"
  }

  /** The labels of the three other classes: `[c for c in COL_TIPO_TODOS if c != label]`. */
  function Others(k: Kind): (others: seq<string>)
    ensures forall c :: c in others <==> c in TIPO_TODOS && c != Label(k)
  {
    Seqs.Filter(TIPO_TODOS, c => c != Label(k))
  }

  /** A row belongs to the view of `k` when its type is none of the other
      three labels. */
  predicate InView(k: Kind, x: Row) {
    Text(x.tipoRegistro) !in Others(k)
  }

  function ViewOf(k: Kind): Row -> bool {
    x => InView(k, x)
  }

  /** The view of class `k` of one sheet: its rows whose type is the label of
      `k` or no known label at all, in order, with the sheet's columns. */
  function ClassifyFrame(f: Frame, k: Kind): (v: Frame)
    ensures v.columns == f.columns
    ensures |v.rows| <= |f.rows|
    ensures forall x :: x in v.rows <==> x in f.rows && InView(k, x)
    ensures forall x :: x in v.rows <==>
      x in f.rows && (Text(x.tipoRegistro) == Label(k) || Text(x.tipoRegistro) !in TIPO_TODOS)
  {
    Frame(f.columns, Seqs.Filter(f.rows, ViewOf(k)))
  }

  /** Membership in a view, stated without the list of other labels. */
  lemma InViewIff(k: Kind, x: Row)
    ensures InView(k, x) <==> Text(x.tipoRegistro) == Label(k) || Text(x.tipoRegistro) !in TIPO_TODOS
  {
  }

  /** A row typed with the label of `k` lands in the view of `k` and in no other. */
  lemma LabelledRowOnlyInOwnView(k: Kind, x: Row)
    requires x.tipoRegistro == Some(Label(k))
    ensures forall k' :: InView(k', x) <==> k' == k
  {
    assert Label(k) in TIPO_TODOS by {
      match k
      case Compras => assert TIPO_TODOS[1] == Label(k);
      case Ventas => assert TIPO_TODOS[0] == Label(k);
      case Egresos => assert TIPO_TODOS[3] == Label(k);
      case Ingresos => assert TIPO_TODOS[2] == Label(k);
    }
  }

  /** A row whose type is no known label, including an empty type cell
      (rendered "nan"), lands in all four views. */
  lemma UnlabelledRowInEveryView(x: Row)
    requires Text(x.tipoRegistro) !in TIPO_TODOS
    ensures forall k :: InView(k, x)
  {
  }

  lemma MissingTypeInEveryView(x: Row)
    requires x.tipoRegistro.None?
    ensures forall k :: InView(k, x)
  {
    assert Text(x.tipoRegistro) == "nan";
  }

  /** The four views of the input, one frame per class. */
  datatype Views = Views(compras: Frame, ventas: Frame, egresos: Frame, ingresos: Frame)

  /** The view of class `k` of every file, file by file. */
  function ClassifyEach(files: seq<Frame>, k: Kind): (views: seq<Frame>)
    ensures |views| == |files|
    ensures forall i :: 0 <= i < |files| ==> views[i] == ClassifyFrame(files[i], k)
  {
    Seqs.Map(files, f => ClassifyFrame(f, k))
  }

  /** Classifying file by file and concatenating equals classifying the
      concatenation: same columns, same rows, same order. */
  lemma {:induction false} ClassifyCommutes(files: seq<Frame>, k: Kind)
    ensures Concat(ClassifyEach(files, k)) == ClassifyFrame(Concat(files), k)
  {
    if |files| > 0 {
      var views := ClassifyEach(files, k);
      assert views[1..] == ClassifyEach(files[1..], k);
      ClassifyCommutes(files[1..], k);
      Seqs.FilterConcat(files[0].rows, Concat(files[1..]).rows, ViewOf(k));
    }
  }

  /** One class of `load_data`: the class's view of every file, concatenated. */
  function LoadView(files: seq<Frame>, k: Kind): (v: Frame)
    ensures v == ClassifyFrame(Concat(files), k)
  {
    ClassifyCommutes(files, k);
    Concat(ClassifyEach(files, k))
  }

  /** `load_data` after reading: classify every sheet, then concatenate each
      class's per-file views. With no file at all `pd.concat` raises. */
  function LoadViews(files: seq<Frame>): (r: Result<Views, RunError>)
    ensures r.Failure? <==> |files| == 0
    ensures r.Failure? ==> r.error == NoObjectsToConcatenate
    ensures r.Success? ==> r.value.compras == ClassifyFrame(Concat(files), Compras)
    ensures r.Success? ==> r.value.ventas == ClassifyFrame(Concat(files), Ventas)
    ensures r.Success? ==> r.value.egresos == ClassifyFrame(Concat(files), Egresos)
    ensures r.Success? ==> r.value.ingresos == ClassifyFrame(Concat(files), Ingresos)
  {
    if |files| == 0 then Failure(NoObjectsToConcatenate)
    else
      Success(Views(
        LoadView(files, Compras),
        LoadView(files, Ventas),
        LoadView(files, Egresos),
        LoadView(files, Ingresos)))
  }
}
