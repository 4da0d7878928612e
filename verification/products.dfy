/** The storefront's product record and its static catalog of UC bundles. */
module Products {

  /** An optional field of a record: absent or present with a value. */
  datatype Option<+T> = None | Some(value: T)

  /**
   * A purchasable bundle. `uc` is the amount of in-game currency it grants and
   * `price` what it costs (in roubles); `bonus` and `popular` are optional and
   * only affect how the bundle is displayed.
   */
  datatype Product = Product(
    id: int,
    name: string,
    uc: nat,
    price: nat,
    bonus: Option<string>,
    popular: Option<bool>)

  /** The six bundles offered on the page, in display order. */
  const Catalog: seq<Product> := [
    Product(1, "Стартовый пакет", 60, 59, Some("+6 UC"), None),
    Product(2, "Базовый пакет", 325, 299, Some("+32 UC"), None),
    Product(3, "Популярный пакет", 660, 599, Some("+66 UC"), Some(true)),
    Product(4, "Выгодный пакет", 1800, 1499, Some("+180 UC"), Some(true)),
    Product(5, "Премиум пакет", 3850, 2999, Some("+385 UC"), None),
    Product(6, "Мега пакет", 8100, 5999, Some("+810 UC"), None)
  ]

  /** A bundle that costs something and grants strictly more UC than its price. */
  predicate IsBargain(p: Product) {
    0 < p.price < p.uc
  }

  /** A cart (or any list of products) made only of catalog bundles. */
  predicate FromCatalog(cart: seq<Product>) {
    forall k :: 0 <= k < |cart| ==> cart[k] in Catalog
  }

  /** The catalog numbers its bundles 1 to 6 in order, so no two share an id. */
  lemma CatalogIds()
    ensures |Catalog| == 6
    ensures forall k :: 0 <= k < |Catalog| ==> Catalog[k].id == k + 1
    ensures forall j, k :: 0 <= j < |Catalog| && 0 <= k < |Catalog| && Catalog[j].id == Catalog[k].id ==> j == k
  {
  }

  /** Every catalog bundle has a positive price and grants more UC than it costs. */
  lemma CatalogBargains()
    ensures forall p :: p in Catalog ==> IsBargain(p)
  {
  }
}
