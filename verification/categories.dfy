/** The category slugs of the catalogue and `CATEGORIA_TABELA_MAP`, the
    table that holds each category's products. Both admin routes keep an
    identical copy of the map; both admin forms offer the same eight
    slugs. */
module Categories {
  import opened Text
  import opened Wrappers

  /** The slugs, in the order the admin forms list them. */
  const Slugs: seq<string> :=
    ["smartphones", "computadores", "videogames", "perifericos",
     "smartwatches", "audio", "cameras", "tablets"]

  /** `CATEGORIA_TABELA_MAP`: each slug to the table `buskoo_<slug>`. */
  const TableMap: map<string, string> := map s | s in Slugs :: "buskoo_" + s

  /** `CATEGORIA_TABELA_MAP[categoria.toLowerCase()]`. */
  function TableFor(categoria: string): (t: Option<string>)
    ensures t.Some? <==> ToLower(categoria) in Slugs
    ensures t.Some? ==> t.value == "buskoo_" + ToLower(categoria)
  {
    var key := ToLower(categoria);
    if key in TableMap then Some(TableMap[key]) else None
  }

  /** The lookup ignores case: a category and its lower-case spelling
      select the same table, so "Audio" and "AUDIO" reach the table of
      "audio". */
  lemma TableForIgnoresCase(categoria: string)
    ensures TableFor(categoria) == TableFor(ToLower(categoria))
  {
    ToLowerIdempotent(categoria);
  }

  /** Every character a lower-case ASCII letter. */
  predicate LowerAscii(s: string)
  {
    forall k :: 0 <= k < |s| ==> 'a' <= s[k] <= 'z'
  }

  /** Lower-casing leaves lower-case ASCII as it is. */
  lemma LowerAsciiUnchanged(s: string)
    requires LowerAscii(s)
    ensures ToLower(s) == s
  {
    var r := ToLower(s);
    assert forall k :: 0 <= k < |s| ==> r[k] == s[k];
  }

  /** Every slug is lower-case ASCII. */
  lemma SlugsLowerAscii(i: int)
    requires 0 <= i < |Slugs|
    ensures LowerAscii(Slugs[i])
  {
    if i == 0 { assert LowerAscii("smartphones"); }
    else if i == 1 { assert LowerAscii("computadores"); }
    else if i == 2 { assert LowerAscii("videogames"); }
    else if i == 3 { assert LowerAscii("perifericos"); }
    else if i == 4 { assert LowerAscii("smartwatches"); }
    else if i == 5 { assert LowerAscii("audio"); }
    else if i == 6 { assert LowerAscii("cameras"); }
    else { assert LowerAscii("tablets"); }
  }

  /** Every slug a form can send is accepted by the routes. */
  lemma EverySlugHasTable(slug: string)
    requires slug in Slugs
    ensures TableFor(slug) == Some("buskoo_" + slug)
  {
    var i :| 0 <= i < |Slugs| && Slugs[i] == slug;
    SlugsLowerAscii(i);
    LowerAsciiUnchanged(slug);
  }
}
