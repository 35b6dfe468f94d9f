/** The category page's filter panel: the saved filter preferences, the
    "active filters" badge, the brand checkboxes, clearing, and the way
    the price and select inputs become preference values. Each handler
    builds a new preferences value from the old one. */
module Filters {
  import opened Wrappers
  import Js

  /** `FilterPreferences`: every field may be absent (`undefined`). */
  datatype FilterPreferences = FilterPreferences(
    precoMin: Option<real>,
    precoMax: Option<real>,
    marcas: Option<seq<string>>,
    regiao: Option<string>,
    ordenacao: Option<string>)

  /** `{}`. */
  const NoFilters: FilterPreferences := FilterPreferences(None, None, None, None, None)

  /** Truthiness of an optional number: absent and 0 are falsy. */
  predicate NumberSet(x: Option<real>)
  {
    x.Some? && x.value != 0.0
  }

  /** Truthiness of an optional string: absent and "" are falsy. */
  predicate TextSet(x: Option<string>)
  {
    x.Some? && x.value != []
  }

  /** `hasActiveFilters`. */
  predicate HasActiveFilters(f: FilterPreferences)
  {
    NumberSet(f.precoMin) || NumberSet(f.precoMax) ||
    (f.marcas.Some? && |f.marcas.value| > 0) ||
    TextSet(f.regiao) || TextSet(f.ordenacao)
  }

  /** The preferences with every value that has no effect (absent, 0, ""
      or an empty list) dropped. */
  function Effective(f: FilterPreferences): (r: FilterPreferences)
    ensures r.precoMin.Some? ==> r.precoMin == f.precoMin && r.precoMin.value != 0.0
    ensures r.precoMax.Some? ==> r.precoMax == f.precoMax && r.precoMax.value != 0.0
    ensures r.marcas.Some? ==> r.marcas == f.marcas && r.marcas.value != []
    ensures r.regiao.Some? ==> r.regiao == f.regiao && r.regiao.value != []
    ensures r.ordenacao.Some? ==> r.ordenacao == f.ordenacao && r.ordenacao.value != []
    ensures r.precoMin.Some? <==> NumberSet(f.precoMin)
    ensures r.precoMax.Some? <==> NumberSet(f.precoMax)
    ensures r.marcas.Some? <==> f.marcas.Some? && f.marcas.value != []
    ensures r.regiao.Some? <==> TextSet(f.regiao)
    ensures r.ordenacao.Some? <==> TextSet(f.ordenacao)
  {
    FilterPreferences(
      if NumberSet(f.precoMin) then f.precoMin else None,
      if NumberSet(f.precoMax) then f.precoMax else None,
      if f.marcas.Some? && |f.marcas.value| > 0 then f.marcas else None,
      if TextSet(f.regiao) then f.regiao else None,
      if TextSet(f.ordenacao) then f.ordenacao else None)
  }

  /** The badge shows exactly when some filter has an effect; a price of 0
      or an empty brand list alone does not count. */
  lemma ActiveIffSomeEffect(f: FilterPreferences)
    ensures HasActiveFilters(f) <==> Effective(f) != NoFilters
  {
  }

  /** `clearFilters`: every field absent, so nothing is active. */
  function ClearFilters(f: FilterPreferences): (r: FilterPreferences)
    ensures !HasActiveFilters(r)
    ensures r.precoMin.None? && r.precoMax.None? && r.marcas.None? && r.regiao.None? && r.ordenacao.None?
  {
    NoFilters
  }

  /** `current.filter(m => m !== marca)`: every occurrence dropped, the
      rest kept in order. */
  function RemoveAll(xs: seq<string>, x: string): (r: seq<string>)
    ensures x !in r
    ensures forall y :: y != x ==> (y in r <==> y in xs)
    ensures |r| <= |xs|
    ensures x !in xs ==> r == xs
    ensures multiset(r) == multiset(xs)[x := 0]
  {
    if xs == [] then []
    else
      assert xs == [xs[0]] + xs[1..];
      if xs[0] == x then RemoveAll(xs[1..], x)
      else [xs[0]] + RemoveAll(xs[1..], x)
  }

  /** Filtering works piece by piece: the kept elements of a concatenation
      are those of each part, in the same order. */
  lemma {:induction false} RemoveAllConcat(a: seq<string>, b: seq<string>, x: string)
    ensures RemoveAll(a + b, x) == RemoveAll(a, x) + RemoveAll(b, x)
  {
    if a != [] {
      assert (a + b)[1..] == a[1..] + b;
      RemoveAllConcat(a[1..], b, x);
    } else {
      assert a + b == b;
    }
  }

  /** Removing what was just appended gives the list back. */
  lemma {:induction false} RemoveAllAppended(xs: seq<string>, x: string)
    requires x !in xs
    ensures RemoveAll(xs + [x], x) == xs
  {
    if xs != [] {
      assert (xs + [x])[1..] == xs[1..] + [x];
      RemoveAllAppended(xs[1..], x);
    }
  }

  /** `toggleMarca`: a brand in the list is removed (every occurrence), one
      not in it is appended at the end; an empty result is stored as
      absent. */
  function ToggleMarca(f: FilterPreferences, marca: string): (r: FilterPreferences)
    ensures marca in r.marcas.GetOr([]) <==> marca !in f.marcas.GetOr([])
    ensures forall m :: m != marca ==> (m in r.marcas.GetOr([]) <==> m in f.marcas.GetOr([]))
    ensures marca !in f.marcas.GetOr([]) ==> r.marcas == Some(f.marcas.GetOr([]) + [marca])
    ensures marca in f.marcas.GetOr([]) ==>
              var kept := RemoveAll(f.marcas.GetOr([]), marca);
              r.marcas == if kept == [] then None else Some(kept)
    ensures r.marcas.Some? ==> r.marcas.value != []
    ensures r.precoMin == f.precoMin && r.precoMax == f.precoMax
    ensures r.regiao == f.regiao && r.ordenacao == f.ordenacao
  {
    var current := f.marcas.GetOr([]);
    var updated := if marca in current then RemoveAll(current, marca) else current + [marca];
    f.(marcas := if |updated| > 0 then Some(updated) else None)
  }

  /** Checking and then unchecking a brand restores the preferences
      (unless they held an explicitly empty list, which becomes absent). */
  lemma ToggleTwice(f: FilterPreferences, marca: string)
    requires marca !in f.marcas.GetOr([])
    requires f.marcas != Some([])
    ensures ToggleMarca(ToggleMarca(f, marca), marca) == f
  {
    RemoveAllAppended(f.marcas.GetOr([]), marca);
  }

  /** A checked brand makes the filters active; unchecking the last one
      leaves the brand list absent. */
  lemma ToggleActivity(f: FilterPreferences, marca: string)
    ensures marca !in f.marcas.GetOr([]) ==> HasActiveFilters(ToggleMarca(f, marca))
    ensures f.marcas == Some([marca]) ==> ToggleMarca(f, marca).marcas.None?
  {
    if f.marcas == Some([marca]) {
      assert RemoveAll([marca], marca) == [];
    }
  }

  /** The price inputs: an empty field is absent, anything else its
      numeric value; a text that is not a number (NaN) is absent as well. */
  function PriceInput(text: string, conv: Js.NumberText): (r: Option<real>)
    ensures text == [] ==> r.None?
    ensures text != [] ==> r == conv.parse(text)
  {
    if text == [] then None else conv.parse(text)
  }

  /** The region and sort selects: an empty selection is absent. */
  function SelectInput(value: string): (r: Option<string>)
    ensures r.None? <==> value == []
    ensures r.Some? ==> r.value == value
  {
    if value == [] then None else Some(value)
  }

  /** Typing a minimum price changes that field and nothing else. */
  function SetPrecoMin(f: FilterPreferences, text: string, conv: Js.NumberText): (r: FilterPreferences)
    ensures text == [] ==> r.precoMin.None?
    ensures text != [] ==> r.precoMin == conv.parse(text)
    ensures r.precoMax == f.precoMax && r.marcas == f.marcas && r.regiao == f.regiao && r.ordenacao == f.ordenacao
  {
    f.(precoMin := PriceInput(text, conv))
  }

  /** Typing a maximum price changes that field and nothing else. */
  function SetPrecoMax(f: FilterPreferences, text: string, conv: Js.NumberText): (r: FilterPreferences)
    ensures text == [] ==> r.precoMax.None?
    ensures text != [] ==> r.precoMax == conv.parse(text)
    ensures r.precoMin == f.precoMin && r.marcas == f.marcas && r.regiao == f.regiao && r.ordenacao == f.ordenacao
  {
    f.(precoMax := PriceInput(text, conv))
  }

  /** Choosing a region changes that field and nothing else. */
  function SetRegiao(f: FilterPreferences, value: string): (r: FilterPreferences)
    ensures r.regiao.None? <==> value == []
    ensures r.regiao.Some? ==> r.regiao.value == value
    ensures r.precoMin == f.precoMin && r.precoMax == f.precoMax && r.marcas == f.marcas && r.ordenacao == f.ordenacao
  {
    f.(regiao := SelectInput(value))
  }

  /** Choosing an order changes that field and nothing else. */
  function SetOrdenacao(f: FilterPreferences, value: string): (r: FilterPreferences)
    ensures r.ordenacao.None? <==> value == []
    ensures r.ordenacao.Some? ==> r.ordenacao.value == value
    ensures r.precoMin == f.precoMin && r.precoMax == f.precoMax && r.marcas == f.marcas && r.regiao == f.regiao
  {
    f.(ordenacao := SelectInput(value))
  }

  /** The "all regions" entry of the select has the value "todas", which
      is not empty: choosing it stores a region and marks the filters as
      active. */
  lemma AllRegionsIsActive(f: FilterPreferences)
    ensures SetRegiao(f, "todas").regiao == Some("todas")
    ensures HasActiveFilters(SetRegiao(f, "todas"))
  {
  }

  /** Emptying a price field of preferences that held only that price
      makes them inactive; a price of 0 is inactive too. */
  lemma ClearingPriceDeactivates(f: FilterPreferences, conv: Js.NumberText)
    requires f.precoMax.None? && f.marcas.None? && f.regiao.None? && f.ordenacao.None?
    ensures !HasActiveFilters(SetPrecoMin(f, "", conv))
    ensures !HasActiveFilters(f.(precoMin := Some(0.0)))
  {
  }
}
