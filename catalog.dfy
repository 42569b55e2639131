/**
 * The product catalog: reference data keyed by product name, and the lookup
 * the invoicing tool performs with `df[df['product_name'] == name].iloc[0]`,
 * which takes the first row with that name.
 */
module Catalog {
  import opened Outcomes

  datatype Product = Product(
    id: int,
    name: string,
    taxRate: real,          // a fraction: 0.18 is 18%
    mrp: real,              // maximum retail price, before discount
    defaultDiscount: real   // percent
  )

  /** The position of the first product named `name` at or after position `from`. */
  function FindFrom(catalog: seq<Product>, name: string, from: nat): (r: Option<nat>)
    requires from <= |catalog|
    ensures r.Some? ==> from <= r.value < |catalog| && catalog[r.value].name == name
    ensures r.Some? ==> forall j :: from <= j < r.value ==> catalog[j].name != name
    ensures r.None? <==> forall j :: from <= j < |catalog| ==> catalog[j].name != name
    decreases |catalog| - from
  {
    if from == |catalog| then None
    else if catalog[from].name == name then Some(from)
    else FindFrom(catalog, name, from + 1)
  }

  /** The first product with the given name; None where `.iloc[0]` raises on an empty match. */
  function Lookup(catalog: seq<Product>, name: string): (r: Option<Product>)
    ensures r.None? <==> forall j :: 0 <= j < |catalog| ==> catalog[j].name != name
    ensures r.Some? ==> r.value in catalog && r.value.name == name
  {
    match FindFrom(catalog, name, 0)
    case None => None
    case Some(i) => Some(catalog[i])
  }

  /** Lookup returns the earliest match: a product listed before it never has the same name. */
  lemma LookupIsFirst(catalog: seq<Product>, name: string, j: nat)
    requires Lookup(catalog, name).Some?
    requires j < |catalog| && catalog[j].name == name
    ensures exists i :: 0 <= i <= j && catalog[i] == Lookup(catalog, name).value
  {
    var i := FindFrom(catalog, name, 0).value;
    assert i <= j;
  }

  /** The columns of the 21-product catalog the tool writes when it starts, as it lists them. */
  const SeedIds: seq<int> := [1, 2, 3, 4, 5, 6, 7, 8, 9, 10, 11, 12, 13, 14, 15, 16, 17, 18, 19, 20, 21]
  const SeedNames: seq<string> := [
    "Toilet Cleaner 5L", "Handwash 5L", "Glass Cleaner 5L", "Floor Cleaner 5L",
    "Shampoo 20ml Bottles", "Shampoo 30ml Bottles", "Shampoo 5L", "Shower Gel 20ml Bottles",
    "Shower Gel 30ml Bottles", "Shower Gel 5L", "Moisturiser 20ml Bottles", "Moisturiser 30ml Bottles",
    "Conditioner 20ml Bottles", "Conditioner 30ml Bottles", "Air Freshener 300ml", "Air Freshener 5L",
    "Samples", "Liquid Soap Dispensers", "Soap 10gms", "Soap 15gms", "Soap 20gms"]
  const SeedTaxRates: seq<real> := [
    0.0, 0.0, 0.0, 0.0, 0.0, 0.0, 0.0, 0.0, 0.0, 0.0, 0.0, 0.0, 0.0, 0.0, 0.0, 0.0, 0.0, 0.0, 0.0, 0.0, 0.0]
  const SeedMrps: seq<real> := [
    500.0, 500.0, 500.0, 500.0, 6.0, 8.0, 800.0, 6.0, 8.0, 800.0, 7.0, 9.0, 7.0, 9.0, 149.0, 2000.0, 0.0,
    400.0, 4.6, 5.4, 6.0]
  const SeedDiscounts: seq<real> := [
    10.0, 50.0, 50.0, 50.0, 25.0, 25.0, 50.0, 25.0, 50.0, 50.0, 50.0, 50.0, 50.0, 50.0, 50.0, 50.0, 50.0,
    50.0, 50.0, 50.0, 50.0]

  /** The seed catalog, one product per row of the columns above. */
  const SeedCatalog: seq<Product> :=
    seq(21, i requires 0 <= i < 21 => Product(SeedIds[i], SeedNames[i], SeedTaxRates[i], SeedMrps[i], SeedDiscounts[i]))

  /** Every seed product is tax free, has a non-negative MRP and a default discount within 0..100. */
  lemma SeedCatalogIsTaxFree()
    ensures forall i :: 0 <= i < |SeedCatalog| ==> SeedCatalog[i].taxRate == 0.0
    ensures forall i :: 0 <= i < |SeedCatalog| ==>
      0.0 <= SeedCatalog[i].mrp && 0.0 <= SeedCatalog[i].defaultDiscount <= 100.0
  {
  }

  /** The product at position i is what Lookup finds when no earlier product shares its name. */
  lemma LookupAt(catalog: seq<Product>, i: nat)
    requires i < |catalog|
    requires forall j :: 0 <= j < i ==> catalog[j].name != catalog[i].name
    ensures Lookup(catalog, catalog[i].name) == Some(catalog[i])
  {
    assert FindFrom(catalog, catalog[i].name, 0).value == i;
  }

  lemma SeedToiletCleaner()
    ensures Lookup(SeedCatalog, "Toilet Cleaner 5L") == Some(Product(1, "Toilet Cleaner 5L", 0.0, 500.0, 10.0))
  {
    assert SeedCatalog[0] == Product(1, "Toilet Cleaner 5L", 0.0, 500.0, 10.0);
    LookupAt(SeedCatalog, 0);
  }

  lemma SeedHandwash()
    ensures Lookup(SeedCatalog, "Handwash 5L") == Some(Product(2, "Handwash 5L", 0.0, 500.0, 50.0))
  {
    assert SeedCatalog[1] == Product(2, "Handwash 5L", 0.0, 500.0, 50.0);
    assert SeedCatalog[0].name[0] == 'T';
    LookupAt(SeedCatalog, 1);
  }
}
