/** The fixed product catalogue (constants.tsx) and the fixed unit-price table of the data layer. */
module Catalogue {
  import opened Types

  /** A catalogue entry: a product without its stock (`Omit<Product, 'stock'>`). */
  datatype Entry = Entry(id: string, name: string, unit: Unit, kind: ProductKind)

  const ProductsList: seq<Entry> := [
    Entry("cow-milk", "Cow Milk", Ltr, CowMilk),
    Entry("buffalo-milk", "Buffalo Milk", Ltr, BuffaloMilk),
    Entry("curd", "Curd (Dahi)", Kg, DairyProduct),
    Entry("buttermilk", "Butter Milk (Chaach)", Ltr, DairyProduct),
    Entry("buffalo-ghee", "Buffalo Ghee", Kg, DairyProduct),
    Entry("cow-ghee", "Cow Ghee", Kg, DairyProduct),
    Entry("paneer", "Paneer", Kg, DairyProduct),
    Entry("butter", "Butter (Desi Makhan)", Kg, DairyProduct),
    Entry("mustard-oil", "Farm Mustard Oil", Ltr, Other),
    Entry("mawa", "Mawa", Kg, DairyProduct),
    Entry("lassi", "Lassi", Ltr, DairyProduct)
  ]

  /** Unit prices keyed by product id. */
  const ProductPrices: map<string, int> := map[
    "cow-milk" := 50, "buffalo-milk" := 60, "curd" := 80, "buttermilk" := 40, "buffalo-ghee" := 600,
    "cow-ghee" := 700, "paneer" := 350, "butter" := 500, "mustard-oil" := 150, "mawa" := 400, "lassi" := 50
  ]

  /** `productPrices[id] || 0`: the table price, or 0 for an id the table does not hold. */
  function PriceOf(productId: string): (price: int)
    ensures productId !in ProductPrices ==> price == 0
    ensures productId in ProductPrices ==> price == ProductPrices[productId] && price > 0
  {
    if productId in ProductPrices then ProductPrices[productId] else 0
  }

  /** Every catalogue product has a positive table price, so the `|| 0` fallback only ever
      applies to ids outside the table. */
  lemma CataloguePriced(k: nat)
    requires k < |ProductsList|
    ensures ProductsList[k].id in ProductPrices
    ensures PriceOf(ProductsList[k].id) > 0
  {
    assert k < 11;
    if k < 6 {
      if k < 3 {
        if k == 0 {} else if k == 1 {} else {}
      } else {
        if k == 3 {} else if k == 4 {} else {}
      }
    } else {
      if k < 9 {
        if k == 6 {} else if k == 7 {} else {}
      } else {
        if k == 9 {} else {}
      }
    }
  }

  /** No two catalogue products share an id, so a lookup by id finds one product. */
  lemma CatalogueIdsDistinct()
    ensures forall i, j :: 0 <= i < j < |ProductsList| ==> ProductsList[i].id != ProductsList[j].id
  {
    assert "cow-milk"[4] != "cow-ghee"[4] && "buffalo-milk"[8] != "buffalo-ghee"[8];
    assert "curd"[0] != "mawa"[0] && "paneer"[0] != "butter"[0];
  }

  /** No two catalogue products share a name, so a conversion's lookup by name finds one product. */
  lemma CatalogueNamesDistinct()
    ensures forall i, j :: 0 <= i < j < |ProductsList| ==> ProductsList[i].name != ProductsList[j].name
  {
    assert "Cow Milk"[4] != "Cow Ghee"[4] && "Buffalo Milk"[8] != "Buffalo Ghee"[8];
    assert "Butter Milk (Chaach)"[7] != "Butter (Desi Makhan)"[7];
  }

  /** The price table is keyed by exactly the catalogue ids. */
  lemma PriceTableKeys()
    ensures forall id :: id in ProductPrices <==> exists k :: 0 <= k < |ProductsList| && ProductsList[k].id == id
  {
    forall k | 0 <= k < |ProductsList| ensures ProductsList[k].id in ProductPrices {
      CataloguePriced(k);
    }
    assert ProductPrices.Keys == {ProductsList[0].id, ProductsList[1].id, ProductsList[2].id, ProductsList[3].id,
      ProductsList[4].id, ProductsList[5].id, ProductsList[6].id, ProductsList[7].id, ProductsList[8].id,
      ProductsList[9].id, ProductsList[10].id};
  }
}
