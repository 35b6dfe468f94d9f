/** The spreadsheet upload form of the admin area: the chosen file (by
    name) and category, the extension gate on file selection, and the
    submit that sends both and clears them after a successful import. */
module UploadForm {
  import opened Text
  import opened Wrappers
  import Js
  import XlsxImport

  /** The file input's check: the name ends with ".xlsx" or ".xls",
      case-sensitively. */
  predicate AcceptedName(name: string)
  {
    EndsWith(name, ".xlsx") || EndsWith(name, ".xls")
  }

  /** Both spreadsheet extensions pass; an upper-case extension and a
      comma-separated file do not. */
  lemma AcceptedNames()
    ensures AcceptedName("produtos.xlsx") && AcceptedName("produtos.xls")
    ensures !AcceptedName("PRODUTOS.XLSX")
    ensures !AcceptedName("produtos.csv")
  {
    assert "produtos.xlsx"[8..] == ".xlsx";
    assert "produtos.xls"[8..] == ".xls";
    assert "PRODUTOS.XLSX"[9] == 'X';
    assert "PRODUTOS.XLSX"[10] == 'L';
    assert "produtos.csv"[9] == 'c';
    assert "produtos.csv"[8] == '.';
  }

  /** The form holds back exactly what the import route would refuse as
      missing inputs: a request with a file and a category never gets that
      400, and one without either always does, whatever the sheet holds. */
  lemma FormGateMatchesRoute(file: Option<string>, categoria: string, rows: seq<XlsxImport.Row>, conv: Js.NumberText)
    ensures (XlsxImport.Upload(file.Some?, categoria, rows, conv) == XlsxImport.Rejected(400, XlsxImport.MissingInput))
            <==> !(file.Some? && categoria != [])
  {
    if file.Some? && categoria != [] {
      var out := XlsxImport.Upload(file.Some?, categoria, rows, conv);
      assert out.Rejected? ==> out.status == 500 || out.error != XlsxImport.MissingInput;
    }
  }

  /** The form's state. */
  class UploadXlsxForm {
    var file: Option<string>
    var categoria: string

    /** No file, no category. */
    constructor()
      ensures file.None? && categoria == []
    {
      file := None;
      categoria := [];
    }

    /** `handleFileChange`: a selected file with an accepted name replaces
        the current one; a rejected name or an empty selection leaves the
        form as it was. */
    method HandleFileChange(selected: Option<string>) returns (accepted: bool)
      modifies this
      ensures accepted <==> selected.Some? && AcceptedName(selected.value)
      ensures accepted ==> file == selected
      ensures !accepted ==> file == old(file)
      ensures categoria == old(categoria)
    {
      accepted := false;
      if selected.Some? {
        if !AcceptedName(selected.value) {
          return;
        }
        file := selected;
        accepted := true;
      }
    }

    /** The category select. */
    method SetCategoria(value: string)
      modifies this
      ensures categoria == value && file == old(file)
    {
      categoria := value;
    }

    /** `handleSubmit`, given whether the import route answered ok: without
        a file or a category nothing is sent; after a successful import
        both are cleared, and after a failed one both are kept. */
    method Submit(routeOk: bool) returns (sent: bool)
      modifies this
      ensures sent <==> old(file).Some? && old(categoria) != []
      ensures sent && routeOk ==> file.None? && categoria == []
      ensures !(sent && routeOk) ==> file == old(file) && categoria == old(categoria)
    {
      if file.None? || categoria == [] {
        return false;
      }
      sent := true;
      if routeOk {
        file := None;
        categoria := [];
      }
    }
  }
}
