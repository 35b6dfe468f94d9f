/** The bulk product import of the admin area: the category and file
    checks of the upload route, then every decoded spreadsheet row turned
    into a record for the category's table, all or nothing. Decoding the
    workbook is not modelled: the model starts from the decoded rows. */
module XlsxImport {
  import opened Text
  import opened Wrappers
  import Js
  import Categories

  /** A cell as the spreadsheet decoder hands it over; a missing column or
      an empty cell is `Absent` (`undefined`). */
  datatype Cell = Absent | Str(s: string) | Num(n: real) | Bool(b: bool)

  /** One decoded row: column header to cell. */
  type Row = map<string, Cell>

  /** `item[column]`. */
  function Get(row: Row, column: string): Cell
  {
    if column in row then row[column] else Absent
  }

  /** JavaScript truthiness of a cell: the string "0" is truthy, the
      number 0 is not. */
  predicate Truthy(c: Cell)
  {
    match c
    case Absent => false
    case Str(s) => s != []
    case Num(n) => n != 0.0
    case Bool(b) => b
  }

  /** `String(cell)`. */
  function AsText(c: Cell, conv: Js.NumberText): string
  {
    match c
    case Absent => "undefined"
    case Str(s) => s
    case Num(n) => conv.show(n)
    case Bool(b) => if b then "true" else "false"
  }

  /** `Number(cell)`; `None` is NaN. */
  function AsNumber(c: Cell, conv: Js.NumberText): Option<real>
  {
    match c
    case Absent => None
    case Str(s) => conv.parse(s)
    case Num(n) => Some(n)
    case Bool(b) => Some(if b then 1.0 else 0.0)
  }

  /** The record inserted for one row; `None` in a price is NaN. */
  datatype ImportRecord = ImportRecord(
    fabricante: string,
    modelo: string,
    cat: Option<string>,
    tipo: Option<string>,
    specs: Option<string>,
    preco_base: Option<real>,
    preco_venda: Option<real>,
    fornecedor: string,
    regiao: string,
    image_url: Option<seq<string>>)

  /** The six columns a row must have truthy values in. */
  const Required: seq<string> :=
    ["fabricante", "modelo", "preco_base", "preco_venda", "fornecedor", "regiao"]

  /** The per-row check of the route. */
  predicate RowComplete(row: Row)
  {
    Truthy(Get(row, "fabricante")) && Truthy(Get(row, "modelo")) &&
    Truthy(Get(row, "preco_base")) && Truthy(Get(row, "preco_venda")) &&
    Truthy(Get(row, "fornecedor")) && Truthy(Get(row, "regiao"))
  }

  /** A row is complete exactly when none of the required columns is
      falsy. */
  lemma RowCompleteIff(row: Row)
    ensures RowComplete(row) <==> forall k :: 0 <= k < |Required| ==> Truthy(Get(row, Required[k]))
  {
    if !RowComplete(row) {
      var bad :| bad in Required && !Truthy(Get(row, bad));
      var k :| 0 <= k < |Required| && Required[k] == bad;
    }
  }

  const IncompletePrefix: string := "Produto inválido: faltam campos obrigatórios em "

  /** The error thrown for an incomplete row: it names the row's `modelo`,
      or "produto sem nome" when that is missing. */
  function IncompleteMessage(row: Row, conv: Js.NumberText): (r: string)
    ensures |IncompletePrefix| <= |r| && r[..|IncompletePrefix|] == IncompletePrefix
    ensures Truthy(Get(row, "modelo")) ==> r[|IncompletePrefix|..] == AsText(Get(row, "modelo"), conv)
    ensures !Truthy(Get(row, "modelo")) ==> r[|IncompletePrefix|..] == "produto sem nome"
  {
    var modelo := Get(row, "modelo");
    IncompletePrefix + if Truthy(modelo) then AsText(modelo, conv) else "produto sem nome"
  }

  /** `image_url`: a falsy cell gives `null`; otherwise its text is split
      on commas, each piece trimmed and blank pieces dropped, so a cell
      holding only "," gives an empty list, not `null`. */
  function ImageUrls(c: Cell, conv: Js.NumberText): (r: Option<seq<string>>)
    ensures r.None? <==> !Truthy(c)
    ensures r.Some? ==> forall k :: 0 <= k < |r.value| ==> r.value[k] != [] && IsTrimmed(r.value[k])
  {
    if Truthy(c) then Some(SplitTrimmed(AsText(c, conv), ',')) else None
  }

  /** The URLs of a truthy cell are exactly the non-empty results of
      trimming the pieces of its text split on commas. */
  lemma {:induction false} ImageUrlsMembers(c: Cell, conv: Js.NumberText, x: string)
    requires Truthy(c)
    ensures x in ImageUrls(c, conv).value <==>
              x != [] && exists k :: 0 <= k < |Split(AsText(c, conv), ',')| && Trim(Split(AsText(c, conv), ',')[k]) == x
  {
    SplitTrimmedMembers(AsText(c, conv), ',', x);
  }

  /** `x ? String(x) : null` for the optional text columns. */
  function OptionalText(c: Cell, conv: Js.NumberText): (r: Option<string>)
    ensures r.None? <==> !Truthy(c)
    ensures r.Some? ==> r.value == AsText(c, conv)
  {
    if Truthy(c) then Some(AsText(c, conv)) else None
  }

  /** The record built for a row that passed the check. */
  function BuildRecord(row: Row, conv: Js.NumberText): ImportRecord
  {
    ImportRecord(
      AsText(Get(row, "fabricante"), conv),
      AsText(Get(row, "modelo"), conv),
      OptionalText(Get(row, "cat"), conv),
      OptionalText(Get(row, "tipo"), conv),
      OptionalText(Get(row, "specs"), conv),
      AsNumber(Get(row, "preco_base"), conv),
      AsNumber(Get(row, "preco_venda"), conv),
      AsText(Get(row, "fornecedor"), conv),
      AsText(Get(row, "regiao"), conv),
      ImageUrls(Get(row, "image_url"), conv))
  }

  /** The field-by-field meaning of a built record: required text columns
      are their string coercions, prices their numeric coercions (no sign
      check), optional columns `null` exactly when falsy and otherwise the
      text of their cell. */
  lemma BuildRecordFields(row: Row, conv: Js.NumberText)
    requires RowComplete(row)
    ensures var r := BuildRecord(row, conv);
            && r.fabricante == AsText(Get(row, "fabricante"), conv)
            && r.modelo == AsText(Get(row, "modelo"), conv)
            && r.fornecedor == AsText(Get(row, "fornecedor"), conv)
            && r.regiao == AsText(Get(row, "regiao"), conv)
            && r.preco_base == AsNumber(Get(row, "preco_base"), conv)
            && r.preco_venda == AsNumber(Get(row, "preco_venda"), conv)
            && (r.cat.None? <==> !Truthy(Get(row, "cat")))
            && (r.tipo.None? <==> !Truthy(Get(row, "tipo")))
            && (r.specs.None? <==> !Truthy(Get(row, "specs")))
            && (r.cat.Some? ==> r.cat.value == AsText(Get(row, "cat"), conv))
            && (r.tipo.Some? ==> r.tipo.value == AsText(Get(row, "tipo"), conv))
            && (r.specs.Some? ==> r.specs.value == AsText(Get(row, "specs"), conv))
            && (r.image_url.None? <==> !Truthy(Get(row, "image_url")))
  {
  }

  /** `dados.map(...)`: the records of all rows in order, or the message of
      the first incomplete row, which aborts the whole batch. */
  function ImportRows(rows: seq<Row>, conv: Js.NumberText): (r: Result<seq<ImportRecord>>)
    ensures r.Ok? <==> forall k :: 0 <= k < |rows| ==> RowComplete(rows[k])
    ensures r.Ok? ==> |r.value| == |rows| &&
                      forall k :: 0 <= k < |rows| ==> r.value[k] == BuildRecord(rows[k], conv)
  {
    if rows == [] then Ok([])
    else if !RowComplete(rows[0]) then Err(IncompleteMessage(rows[0], conv))
    else
      match ImportRows(rows[1..], conv)
      case Ok(rest) =>
        assert forall k :: 1 <= k < |rows| ==> rows[k] == rows[1..][k - 1];
        var head := BuildRecord(rows[0], conv);
        Ok([head] + rest)
      case Err(e) =>
        Err(e)
  }

  /** A failed batch reports the first incomplete row: every row before it
      is complete. */
  lemma {:induction false} ImportRowsFirstError(rows: seq<Row>, conv: Js.NumberText)
    ensures var r := ImportRows(rows, conv);
            r.Err? ==> exists k :: 0 <= k < |rows| && !RowComplete(rows[k]) &&
                                   (forall j :: 0 <= j < k ==> RowComplete(rows[j])) &&
                                   r.error == IncompleteMessage(rows[k], conv)
  {
    if rows != [] && RowComplete(rows[0]) {
      var r := ImportRows(rows, conv);
      if r.Err? {
        ImportRowsFirstError(rows[1..], conv);
        var k :| 0 <= k < |rows[1..]| && !RowComplete(rows[1..][k]) &&
                 (forall j :: 0 <= j < k ==> RowComplete(rows[1..][j])) &&
                 r.error == IncompleteMessage(rows[1..][k], conv);
        assert forall j :: 1 <= j < k + 1 ==> rows[j] == rows[1..][j - 1];
        assert !RowComplete(rows[k + 1]);
      }
    }
  }

  datatype Result<T> = Ok(value: T) | Err(error: string)

  /** What the route does with a request: answer with an error status, or
      insert the batch into the table (the insert itself and its 201/500
      answer are not modelled). */
  datatype UploadOutcome =
    | Rejected(status: int, error: string)
    | InsertBatch(table: string, records: seq<ImportRecord>)

  const MissingInput: string := "Arquivo e categoria são obrigatórios"
  const InvalidCategory: string := "Categoria inválida"
  const EmptySheet: string := "Planilha vazia"

  /** `POST /api/admin/upload-xlsx`. A missing `categoria` form field reads
      as the empty string: both are falsy. */
  function Upload(hasFile: bool, categoria: string, rows: seq<Row>, conv: Js.NumberText): (r: UploadOutcome)
    ensures r.Rejected? ==> r.status == 400 || r.status == 500
    ensures r.InsertBatch? ==> r.table == "buskoo_" + ToLower(categoria) && 0 < |r.records| == |rows|
  {
    if !hasFile || categoria == [] then Rejected(400, MissingInput)
    else
      match Categories.TableFor(categoria)
      case None => Rejected(400, InvalidCategory)
      case Some(table) =>
        if |rows| == 0 then Rejected(400, EmptySheet)
        else
          match ImportRows(rows, conv)
          case Err(message) => Rejected(500, message)
          case Ok(records) => InsertBatch(table, records)
  }

  /** A missing file or category is answered with 400 before the sheet is
      looked at: the answer is the same whatever the rows are. */
  lemma UploadChecksInputsFirst(hasFile: bool, categoria: string, rows: seq<Row>, conv: Js.NumberText)
    requires !hasFile || categoria == []
    ensures Upload(hasFile, categoria, rows, conv) == Rejected(400, MissingInput)
  {
  }

  /** An unknown category, whatever its case, is answered with 400 before
      the sheet is looked at. */
  lemma UploadRejectsUnknownCategory(categoria: string, rows: seq<Row>, conv: Js.NumberText)
    requires categoria != [] && ToLower(categoria) !in Categories.Slugs
    ensures Upload(true, categoria, rows, conv) == Rejected(400, InvalidCategory)
  {
  }

  /** A sheet without rows is answered with 400 "Planilha vazia". */
  lemma UploadRejectsEmptySheet(categoria: string, conv: Js.NumberText)
    requires categoria != [] && ToLower(categoria) in Categories.Slugs
    ensures Upload(true, categoria, [], conv) == Rejected(400, EmptySheet)
  {
  }

  /** All or nothing: the batch is inserted exactly when the inputs are
      present, the category is known, the sheet is not empty and every row
      is complete; then it holds one record per row, in sheet order, into
      the category's table. Otherwise nothing is inserted, and an
      incomplete row makes the answer 500 with the first such row's
      message. */
  lemma UploadAllOrNothing(hasFile: bool, categoria: string, rows: seq<Row>, conv: Js.NumberText)
    ensures Upload(hasFile, categoria, rows, conv).InsertBatch? <==>
              && hasFile && categoria != []
              && ToLower(categoria) in Categories.Slugs
              && |rows| > 0
              && forall k :: 0 <= k < |rows| ==> RowComplete(rows[k])
    ensures var out := Upload(hasFile, categoria, rows, conv);
            out.InsertBatch? ==>
              && out.table == "buskoo_" + ToLower(categoria)
              && |out.records| == |rows|
              && forall k :: 0 <= k < |rows| ==> out.records[k] == BuildRecord(rows[k], conv)
    ensures hasFile && categoria != [] && ToLower(categoria) in Categories.Slugs &&
            |rows| > 0 && (exists k :: 0 <= k < |rows| && !RowComplete(rows[k])) ==>
              var out := Upload(hasFile, categoria, rows, conv);
              out.Rejected? && out.status == 500 &&
              exists k :: 0 <= k < |rows| && !RowComplete(rows[k]) &&
                          (forall j :: 0 <= j < k ==> RowComplete(rows[j])) &&
                          out.error == IncompleteMessage(rows[k], conv)
  {
    ImportRowsFirstError(rows, conv);
  }

  /** A cell holding just "," gives an empty list of images, not `null`. */
  lemma CommaGivesEmptyList(conv: Js.NumberText)
    ensures ImageUrls(Cell.Str(","), conv) == Some([])
  {
    assert Split(",", ',') == [[], []] by {
      assert ","[1..] == [];
    }
    SplitTrimmedBlank([[], []]);
  }
}
