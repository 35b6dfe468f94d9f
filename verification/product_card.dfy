/** What a product card shows besides the price: the full name, the
    capitalised product type and the thumbnail. */
module ProductCard {
  import opened Text
  import opened Wrappers

  /** `image_url` as it may arrive from the database: a list, a single
      string (older rows) or nothing. */
  datatype ImageField = Urls(urls: seq<string>) | Url(url: string) | NoImage

  const Placeholder: string := "/placeholder.svg?height=80&width=80&query=product"

  /** `nomeCompleto`: maker and model separated by one space. */
  function FullName(fabricante: string, modelo: string): (r: string)
    ensures |r| == |fabricante| + 1 + |modelo|
    ensures r[..|fabricante|] == fabricante && r[|fabricante|] == ' ' && r[|fabricante| + 1..] == modelo
  {
    fabricante + " " + modelo
  }

  /** A full name is never empty, whatever the maker and model are. */
  lemma FullNameNonEmpty(fabricante: string, modelo: string)
    ensures FullName(fabricante, modelo) != []
    ensures ' ' in FullName(fabricante, modelo)
  {
    assert FullName(fabricante, modelo)[|fabricante|] == ' ';
  }

  /** `descricao`: the type with its first character upper-cased and the
      rest as stored; an absent or empty type gives "". */
  function Descricao(tipo: Option<string>): (r: string)
    ensures tipo.None? || tipo.value == [] ==> r == []
    ensures tipo.Some? && tipo.value != [] ==>
              |tipo.value| <= |r| <= |tipo.value| + 1 &&
              r[|r| - (|tipo.value| - 1)..] == tipo.value[1..] &&
              r[..|r| - (|tipo.value| - 1)] == UpperChar(tipo.value[0])
  {
    if tipo.None? || tipo.value == [] then []
    else UpperChar(tipo.value[0]) + tipo.value[1..]
  }

  /** A type starting with a lower-case ASCII or accented Latin-1 letter
      (as in "áudio") keeps its length and gains the matching capital; one
      starting with anything without an upper case is shown unchanged. */
  lemma DescricaoCapitalises(t: string)
    requires t != []
    ensures 'a' <= t[0] <= 'z' ==>
              |Descricao(Some(t))| == |t| && Descricao(Some(t))[0] as int == t[0] as int - 32 &&
              'A' <= Descricao(Some(t))[0] <= 'Z' && Descricao(Some(t))[1..] == t[1..]
    ensures 'à' <= t[0] <= 'þ' && t[0] != '÷' ==>
              |Descricao(Some(t))| == |t| && Descricao(Some(t))[0] as int == t[0] as int - 32 &&
              'À' <= Descricao(Some(t))[0] <= 'Þ' && Descricao(Some(t))[1..] == t[1..]
    ensures !('a' <= t[0] <= 'z') && !('à' <= t[0] <= 'þ' && t[0] != '÷') && t[0] != 'ß' && t[0] != 'µ' && t[0] != 'ÿ' ==>
              Descricao(Some(t)) == t
  {
    assert [t[0]] + t[1..] == t;
  }

  /** Portuguese types with an accented initial are capitalised as well. */
  lemma AccentedTypesCapitalised()
    ensures Descricao(Some("áudio")) == "Áudio"
    ensures Descricao(Some("ótica")) == "Ótica"
  {
    assert UpperChar('á') == ['Á'];
    assert UpperChar('ó') == ['Ó'];
  }

  /** `imageUrl`: the first element of a non-empty list, a non-empty
      string as it is, otherwise the placeholder. */
  function ImageUrl(image: ImageField): (r: string)
    ensures image.Urls? && |image.urls| > 0 ==> r == image.urls[0]
    ensures image.Url? && image.url != [] ==> r == image.url
    ensures (image.Urls? && |image.urls| == 0) || (image.Url? && image.url == []) || image.NoImage? ==> r == Placeholder
  {
    if image.Urls? && |image.urls| > 0 then image.urls[0]
    else if image.Url? && image.url != [] then image.url
    else Placeholder
  }

  /** The first URL is shown as stored, even when it is empty: only an
      empty list falls back to the placeholder. */
  lemma EmptyFirstUrlShown(rest: seq<string>)
    ensures ImageUrl(Urls([[]] + rest)) == []
    ensures ImageUrl(Urls([])) == Placeholder
  {
  }
}
