/** `POST /api/admin/produtos`: one product from the admin form, checked
    and turned into the record inserted into its category's table. The
    JSON body arrives as a `Js.Value`; the insert itself and its 201/500
    answer are not modelled. */
module ProductInsert {
  import opened Text
  import opened Js
  import opened Wrappers
  import Categories

  /** The record handed to the insert. */
  datatype ProductRecord = ProductRecord(
    fabricante: Value,
    modelo: Value,
    cat: Value,
    tipo: Value,
    specs: Value,
    preco_base: Value,
    preco_venda: Value,
    fornecedor: Value,
    regiao: Value,
    image_url: Value)

  datatype InsertOutcome =
    | Rejected(status: int, error: string)
    | InsertOne(table: string, record: ProductRecord)

  const MissingInput: string := "Categoria e produto são obrigatórios"
  const InvalidCategory: string := "Categoria inválida"
  const MissingFields: string := "Campos obrigatórios: fabricante, modelo, preco_base, preco_venda, fornecedor, regiao"
  const Unexpected: string := "Erro ao processar requisição"

  /** The required-field check, on the six fields in source order. */
  predicate FieldsComplete(produto: Value)
  {
    Truthy(Field(produto, "fabricante")) && Truthy(Field(produto, "modelo")) &&
    Truthy(Field(produto, "preco_base")) && Truthy(Field(produto, "preco_venda")) &&
    Truthy(Field(produto, "fornecedor")) && Truthy(Field(produto, "regiao"))
  }

  /** `produto.image_url || []`, then a string split on commas with the
      pieces trimmed and blanks dropped; any other value is kept. */
  function NormalizeImages(image: Value): (r: Value)
    ensures !Truthy(image) ==> r == Arr([])
    ensures image.Str? && Truthy(image) ==> r == Arr(Strings(SplitTrimmed(image.s, ',')))
    ensures Truthy(image) && !image.Str? ==> r == image
  {
    var v := if Truthy(image) then image else Arr([]);
    if v.Str? then Arr(Strings(SplitTrimmed(v.s, ','))) else v
  }

  /** `imageUrls.length > 0 ? imageUrls : null`. Only an array has a
      length here; for a number, boolean or object `length` is undefined
      and the comparison is false. */
  function StoredImages(v: Value): (r: Value)
    ensures r == Null || (r == v && r.Arr? && |r.items| > 0)
    ensures v.Arr? && |v.items| > 0 ==> r == v
  {
    if v.Arr? && |v.items| > 0 then v else Null
  }

  /** The record built from a product that passed the checks: an
      optional text field is never stored falsy (it becomes `null`), and
      the image list is `null` or not empty. */
  function BuildRecord(produto: Value): (r: ProductRecord)
    ensures r.cat == Null || Truthy(r.cat)
    ensures r.tipo == Null || Truthy(r.tipo)
    ensures r.specs == Null || Truthy(r.specs)
    ensures r.image_url == Null || (r.image_url.Arr? && |r.image_url.items| > 0)
  {
    ProductRecord(
      Field(produto, "fabricante"),
      Field(produto, "modelo"),
      OrNull(Field(produto, "cat")),
      OrNull(Field(produto, "tipo")),
      OrNull(Field(produto, "specs")),
      Field(produto, "preco_base"),
      Field(produto, "preco_venda"),
      Field(produto, "fornecedor"),
      Field(produto, "regiao"),
      StoredImages(NormalizeImages(Field(produto, "image_url"))))
  }

  /** The route on a parsed JSON body. Destructuring a `null` body and
      calling `toLowerCase` on a category that is not a string both throw,
      which the route answers with 500. */
  function Insert(body: Value): (r: InsertOutcome)
    ensures r.Rejected? ==> r.status == 400 || r.status == 500
    ensures r.InsertOne? <==>
              && !body.Null? && !body.Undefined?
              && Truthy(Field(body, "categoria")) && Truthy(Field(body, "produto"))
              && Field(body, "categoria").Str?
              && ToLower(Field(body, "categoria").s) in Categories.Slugs
              && FieldsComplete(Field(body, "produto"))
  {
    if body.Null? || body.Undefined? then Rejected(500, Unexpected)
    else
      var categoria := Field(body, "categoria");
      var produto := Field(body, "produto");
      if !Truthy(categoria) || !Truthy(produto) then Rejected(400, MissingInput)
      else if !categoria.Str? then Rejected(500, Unexpected)
      else
        match Categories.TableFor(categoria.s)
        case None => Rejected(400, InvalidCategory)
        case Some(table) =>
          if !FieldsComplete(produto) then Rejected(400, MissingFields)
          else InsertOne(table, BuildRecord(produto))
  }

  /** The ordered checks: a missing category or product is 400 before the
      category is looked up; an unknown category (in any case) is 400
      before the fields are checked; a falsy required field is 400 with
      the message listing all six. */
  lemma InsertChecks(body: Value)
    requires body.Obj?
    ensures var categoria, produto := Field(body, "categoria"), Field(body, "produto");
            Insert(body) ==
              if !Truthy(categoria) || !Truthy(produto) then Rejected(400, MissingInput)
              else if !categoria.Str? then Rejected(500, Unexpected)
              else if ToLower(categoria.s) !in Categories.Slugs then Rejected(400, InvalidCategory)
              else if !FieldsComplete(produto) then Rejected(400, MissingFields)
              else InsertOne("buskoo_" + ToLower(categoria.s), BuildRecord(produto))
  {
  }

  /** What an inserted record holds: the required fields and prices as
      sent, `cat`/`tipo`/`specs` as sent when truthy and `null` otherwise,
      and `image_url` the normalised list when it is not empty and `null`
      otherwise. */
  lemma InsertedRecord(body: Value)
    requires Insert(body).InsertOne?
    ensures var produto := Field(body, "produto");
            var r := Insert(body).record;
            && FieldsComplete(produto)
            && r.fabricante == Field(produto, "fabricante") && r.modelo == Field(produto, "modelo")
            && r.preco_base == Field(produto, "preco_base") && r.preco_venda == Field(produto, "preco_venda")
            && r.fornecedor == Field(produto, "fornecedor") && r.regiao == Field(produto, "regiao")
            && (Truthy(Field(produto, "cat")) ==> r.cat == Field(produto, "cat"))
            && (!Truthy(Field(produto, "cat")) ==> r.cat == Null)
            && (Truthy(Field(produto, "tipo")) ==> r.tipo == Field(produto, "tipo"))
            && (!Truthy(Field(produto, "tipo")) ==> r.tipo == Null)
            && (Truthy(Field(produto, "specs")) ==> r.specs == Field(produto, "specs"))
            && (!Truthy(Field(produto, "specs")) ==> r.specs == Null)
            && r.image_url == StoredImages(NormalizeImages(Field(produto, "image_url")))
  {
  }

  /** A string of images is stored as the list of its trimmed non-blank
      comma-separated pieces, or `null` when there are none: "a, b" gives
      ["a", "b"] and "," gives `null`. */
  lemma StringImagesStored(s: string)
    ensures var r := StoredImages(NormalizeImages(Str(s)));
            var pieces := SplitTrimmed(s, ',');
            (pieces == [] ==> r == Null) && (pieces != [] ==> r == Arr(Strings(pieces)))
  {
  }

  /** An array of images is stored unchanged when non-empty, and an
      empty array, a missing value or any other falsy value become `null`. */
  lemma ArrayImagesStored(image: Value)
    ensures image.Arr? && |image.items| > 0 ==> StoredImages(NormalizeImages(image)) == image
    ensures image.Arr? && |image.items| == 0 ==> StoredImages(NormalizeImages(image)) == Null
    ensures !Truthy(image) ==> StoredImages(NormalizeImages(image)) == Null
  {
  }
}
