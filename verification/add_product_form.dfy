/** The single-product form of the admin area: its text fields, the
    editable list of image URLs (which always keeps at least one input),
    the request body built on submit and the reset after a successful
    insert. */
module AddProductForm {
  import opened Text
  import opened Js
  import opened Wrappers
  import ProductInsert
  import Categories

  /** The text fields of the form, as typed. */
  datatype FormData = FormData(
    categoria: string,
    fabricante: string,
    modelo: string,
    cat: string,
    tipo: string,
    specs: string,
    preco_base: string,
    preco_venda: string,
    fornecedor: string,
    regiao: string)

  const EmptyForm: FormData := FormData("", "", "", "", "", "", "", "", "", "")

  /** `imageUrls.filter(url => url.trim() !== "")`: the entries that are
      not blank, untrimmed and in order. */
  function ValidImageUrls(urls: seq<string>): (r: seq<string>)
    ensures |r| <= |urls|
  {
    if urls == [] then []
    else if Trim(urls[0]) != [] then [urls[0]] + ValidImageUrls(urls[1..])
    else ValidImageUrls(urls[1..])
  }

  /** The URLs sent are exactly the inputs that are not blank. */
  lemma {:induction false} ValidImageUrlsMembers(urls: seq<string>, u: string)
    ensures u in ValidImageUrls(urls) <==> u in urls && Trim(u) != []
  {
    if urls != [] {
      ValidImageUrlsMembers(urls[1..], u);
      assert urls == [urls[0]] + urls[1..];
    }
  }

  /** Filtering a concatenation filters each part and keeps them in
      order, so the URLs are sent in the order of their inputs. */
  lemma {:induction false} ValidImageUrlsConcat(a: seq<string>, b: seq<string>)
    ensures ValidImageUrls(a + b) == ValidImageUrls(a) + ValidImageUrls(b)
  {
    if a == [] {
      assert a + b == b;
    } else {
      assert (a + b)[1..] == a[1..] + b;
      ValidImageUrlsConcat(a[1..], b);
    }
  }

  /** Blank entries never reach the request: a list of blank inputs (such
      as the initial `[""]`) sends no URL at all. */
  lemma {:induction false} BlankUrlsDropped(urls: seq<string>)
    requires forall k :: 0 <= k < |urls| ==> AllWhitespace(urls[k])
    ensures ValidImageUrls(urls) == []
  {
    if urls != [] {
      TrimEmptyIff(urls[0]);
      BlankUrlsDropped(urls[1..]);
    }
  }

  /** `x || null` for an optional text field. */
  function TextOrNull(s: string): (r: Value)
    ensures s == [] ==> r == Null
    ensures s != [] ==> r == Str(s)
  {
    if s == [] then Null else Str(s)
  }

  /** `parseFloat(text)` as sent in JSON: a number, or `null` for NaN. */
  function Price(text: string, parseFloat: string -> Option<real>): (r: Value)
    ensures parseFloat(text).None? ==> r == Null
    ensures parseFloat(text).Some? ==> r == Num(parseFloat(text).value)
  {
    match parseFloat(text)
    case None => Null
    case Some(x) => Num(x)
  }

  /** The `produto` object of the request body, given the URLs that
      survived the filter. */
  function ProductBody(form: FormData, images: seq<string>, parseFloat: string -> Option<real>): (r: Value)
    ensures r.Obj?
    ensures r.fields.Keys == {"fabricante", "modelo", "cat", "tipo", "specs", "preco_base", "preco_venda",
                              "fornecedor", "regiao", "image_url"}
  {
    Obj(map[
      "fabricante" := Str(form.fabricante),
      "modelo" := Str(form.modelo),
      "cat" := TextOrNull(form.cat),
      "tipo" := TextOrNull(form.tipo),
      "specs" := TextOrNull(form.specs),
      "preco_base" := Price(form.preco_base, parseFloat),
      "preco_venda" := Price(form.preco_venda, parseFloat),
      "fornecedor" := Str(form.fornecedor),
      "regiao" := Str(form.regiao),
      "image_url" := Arr(Strings(images))])
  }

  /** The JSON body posted to the product route: the category and the
      product object. */
  function RequestBody(categoria: string, produto: Value): (r: Value)
    ensures r.Obj? && Field(r, "categoria") == Str(categoria)
    ensures Field(r, "produto") == produto
  {
    Obj(map["categoria" := Str(categoria), "produto" := produto])
  }

  /** The body `handleSubmit` posts for the current fields and URL inputs. */
  function FormBody(form: FormData, urls: seq<string>, parseFloat: string -> Option<real>): Value
  {
    RequestBody(form.categoria, ProductBody(form, ValidImageUrls(urls), parseFloat))
  }

  /** The fields of the product object. */
  lemma ProductBodyFields(form: FormData, images: seq<string>, parseFloat: string -> Option<real>)
    ensures var p := ProductBody(form, images, parseFloat);
            && Field(p, "fabricante") == Str(form.fabricante)
            && Field(p, "modelo") == Str(form.modelo)
            && Field(p, "cat") == TextOrNull(form.cat)
            && Field(p, "tipo") == TextOrNull(form.tipo)
            && Field(p, "specs") == TextOrNull(form.specs)
            && Field(p, "preco_base") == Price(form.preco_base, parseFloat)
            && Field(p, "preco_venda") == Price(form.preco_venda, parseFloat)
            && Field(p, "fornecedor") == Str(form.fornecedor)
            && Field(p, "regiao") == Str(form.regiao)
            && Field(p, "image_url") == Arr(Strings(images))
  {
    assert "fabricante"[0] != "preco_base"[0] && "fornecedor"[0] != "preco_base"[0];
  }

  /** Every required input filled in, with prices that parse to a
      non-zero number. */
  predicate RequiredFilled(form: FormData, parseFloat: string -> Option<real>)
  {
    form.fabricante != [] && form.modelo != [] && form.fornecedor != [] && form.regiao != [] &&
    parseFloat(form.preco_base).Some? && parseFloat(form.preco_base).value != 0.0 &&
    parseFloat(form.preco_venda).Some? && parseFloat(form.preco_venda).value != 0.0
  }

  /** An empty category is refused before anything else is looked at. */
  lemma EmptyCategoryRefused(form: FormData, urls: seq<string>, parseFloat: string -> Option<real>)
    requires form.categoria == []
    ensures ProductInsert.Insert(FormBody(form, urls, parseFloat)) == ProductInsert.Rejected(400, ProductInsert.MissingInput)
  {
    var body := FormBody(form, urls, parseFloat);
    assert !Truthy(Field(body, "categoria"));
  }

  /** With a known category in a body that also carries an object as its
      product, the route's answer depends only on the product's required
      fields. */
  lemma KnownCategoryStep(body: Value, categoria: string)
    requires categoria != [] && ToLower(categoria) in Categories.Slugs
    requires Field(body, "categoria") == Str(categoria) && Field(body, "produto").Obj?
    ensures ProductInsert.Insert(body) ==
              if ProductInsert.FieldsComplete(Field(body, "produto"))
              then ProductInsert.InsertOne("buskoo_" + ToLower(categoria), ProductInsert.BuildRecord(Field(body, "produto")))
              else ProductInsert.Rejected(400, ProductInsert.MissingFields)
  {
    assert body.Obj?;
    ProductInsert.InsertChecks(body);
  }

  /** The fields of the product object the form sends. */
  predicate SendsForm(p: Value, form: FormData, images: seq<string>, parseFloat: string -> Option<real>)
  {
    && p.Obj?
    && Field(p, "fabricante") == Str(form.fabricante)
    && Field(p, "modelo") == Str(form.modelo)
    && Field(p, "cat") == TextOrNull(form.cat)
    && Field(p, "tipo") == TextOrNull(form.tipo)
    && Field(p, "specs") == TextOrNull(form.specs)
    && Field(p, "preco_base") == Price(form.preco_base, parseFloat)
    && Field(p, "preco_venda") == Price(form.preco_venda, parseFloat)
    && Field(p, "fornecedor") == Str(form.fornecedor)
    && Field(p, "regiao") == Str(form.regiao)
    && Field(p, "image_url") == Arr(Strings(images))
  }

  /** The route's required-field check on the product the form sends is
      `RequiredFilled`. */
  lemma SentFieldsComplete(p: Value, form: FormData, images: seq<string>, parseFloat: string -> Option<real>)
    requires SendsForm(p, form, images, parseFloat)
    ensures ProductInsert.FieldsComplete(p) <==> RequiredFilled(form, parseFloat)
  {
  }

  /** The record the route builds from the product the form sends. */
  lemma SentRecord(p: Value, form: FormData, images: seq<string>, parseFloat: string -> Option<real>)
    requires SendsForm(p, form, images, parseFloat) && RequiredFilled(form, parseFloat)
    ensures var r := ProductInsert.BuildRecord(p);
            && r.fabricante == Str(form.fabricante)
            && r.modelo == Str(form.modelo)
            && r.preco_base == Num(parseFloat(form.preco_base).value)
            && r.preco_venda == Num(parseFloat(form.preco_venda).value)
            && r.fornecedor == Str(form.fornecedor)
            && r.regiao == Str(form.regiao)
            && r.cat == TextOrNull(form.cat)
            && r.tipo == TextOrNull(form.tipo)
            && r.specs == TextOrNull(form.specs)
            && r.image_url == (if images == [] then Null else Arr(Strings(images)))
  {
    ProductInsert.ArrayImagesStored(Field(p, "image_url"));
  }

  /** With a known category, an empty required input or a price that does
      not parse to a non-zero number is refused as a missing field. */
  lemma UnfilledFormRefused(form: FormData, urls: seq<string>, parseFloat: string -> Option<real>)
    requires form.categoria != [] && ToLower(form.categoria) in Categories.Slugs
    requires !RequiredFilled(form, parseFloat)
    ensures ProductInsert.Insert(FormBody(form, urls, parseFloat)) == ProductInsert.Rejected(400, ProductInsert.MissingFields)
  {
    var body := FormBody(form, urls, parseFloat);
    var images := ValidImageUrls(urls);
    ProductBodyFields(form, images, parseFloat);
    KnownCategoryStep(body, form.categoria);
    SentFieldsComplete(Field(body, "produto"), form, images, parseFloat);
  }

  /** With a known category and the required inputs filled in, the product
      is inserted into the category's table as typed, with the URLs as the
      form kept them (untrimmed) or `null` when none is left. */
  lemma FilledFormInserted(form: FormData, urls: seq<string>, parseFloat: string -> Option<real>)
    requires form.categoria != [] && ToLower(form.categoria) in Categories.Slugs
    requires RequiredFilled(form, parseFloat)
    ensures var out := ProductInsert.Insert(FormBody(form, urls, parseFloat));
            && out.InsertOne?
            && out.table == "buskoo_" + ToLower(form.categoria)
            && out.record.fabricante == Str(form.fabricante)
            && out.record.modelo == Str(form.modelo)
            && out.record.preco_base == Num(parseFloat(form.preco_base).value)
            && out.record.preco_venda == Num(parseFloat(form.preco_venda).value)
            && out.record.fornecedor == Str(form.fornecedor)
            && out.record.regiao == Str(form.regiao)
            && out.record.cat == TextOrNull(form.cat)
            && out.record.tipo == TextOrNull(form.tipo)
            && out.record.specs == TextOrNull(form.specs)
            && out.record.image_url ==
                 (if ValidImageUrls(urls) == [] then Null else Arr(Strings(ValidImageUrls(urls))))
  {
    var body := FormBody(form, urls, parseFloat);
    var images := ValidImageUrls(urls);
    ProductBodyFields(form, images, parseFloat);
    KnownCategoryStep(body, form.categoria);
    SentFieldsComplete(Field(body, "produto"), form, images, parseFloat);
    SentRecord(Field(body, "produto"), form, images, parseFloat);
  }

  /** The form's state. */
  class ProductForm {
    var formData: FormData
    var imageUrls: seq<string>

    /** The URL list always has an input. */
    predicate Valid()
      reads this
    {
      |imageUrls| >= 1
    }

    /** Empty fields and a single empty URL input. */
    constructor()
      ensures Valid() && formData == EmptyForm && imageUrls == [""]
    {
      formData := EmptyForm;
      imageUrls := [""];
    }

    /** `addImageUrl`: one more empty input at the end. */
    method AddImageUrl()
      requires Valid()
      modifies this
      ensures Valid()
      ensures imageUrls == old(imageUrls) + [""] && formData == old(formData)
    {
      imageUrls := imageUrls + [""];
    }

    /** `removeImageUrl`: the input at `index` goes, unless it is the only
        one; an index past the end removes nothing. */
    method RemoveImageUrl(index: int)
      requires Valid()
      modifies this
      ensures Valid()
      ensures formData == old(formData)
      ensures |old(imageUrls)| > 1 && 0 <= index < |old(imageUrls)| ==>
                imageUrls == old(imageUrls)[..index] + old(imageUrls)[index + 1..]
      ensures !(|old(imageUrls)| > 1 && 0 <= index < |old(imageUrls)|) ==> imageUrls == old(imageUrls)
    {
      if |imageUrls| > 1 && 0 <= index < |imageUrls| {
        imageUrls := imageUrls[..index] + imageUrls[index + 1..];
      }
    }

    /** `updateImageUrl`: the input at `index` (one that is shown) takes the
        new text; the others and the length stay. */
    method UpdateImageUrl(index: int, value: string)
      requires Valid() && 0 <= index < |imageUrls|
      modifies this
      ensures Valid()
      ensures |imageUrls| == |old(imageUrls)| && imageUrls[index] == value
      ensures forall k :: 0 <= k < |imageUrls| && k != index ==> imageUrls[k] == old(imageUrls)[k]
      ensures formData == old(formData)
    {
      imageUrls := imageUrls[index := value];
    }

    /** `handleSubmit`, given whether the product route answered ok: the
        body is built from the current fields and non-blank URLs; after a
        successful insert every field is emptied and the URL list is back
        to one empty input, otherwise nothing changes. */
    method Submit(routeOk: bool, parseFloat: string -> Option<real>) returns (body: Value)
      requires Valid()
      modifies this
      ensures Valid()
      ensures body == FormBody(old(formData), old(imageUrls), parseFloat)
      ensures routeOk ==> formData == EmptyForm && imageUrls == [""]
      ensures !routeOk ==> formData == old(formData) && imageUrls == old(imageUrls)
    {
      body := FormBody(formData, imageUrls, parseFloat);
      if routeOk {
        formData := EmptyForm;
        imageUrls := [""];
      }
    }
  }
}
