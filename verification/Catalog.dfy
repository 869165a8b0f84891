/**
 * The bill catalogue: copying a provider's listing into the stored categories,
 * billers and products. A row's id is fixed by its unique key, so the key
 * stands for it.
 */
module Catalog {
  import opened Prelude

  datatype Terms = Terms(
    name: string, currency: string, minimum: Option<int>, maximum: Option<int>, fixed: Option<int>,
    validity: Option<string>)
  datatype ListedProduct = ListedProduct(code: string, terms: Terms)
  datatype ListedBiller = ListedBiller(
    code: string, name: string, referenceKind: string, referenceLabel: Option<string>, products: seq<ListedProduct>)
  datatype ListedCategory = ListedCategory(code: string, name: string, billers: seq<ListedBiller>)

  datatype CategoryKey = CategoryKey(provider: string, code: string)
  datatype BillerKey = BillerKey(category: CategoryKey, code: string)
  datatype ProductKey = ProductKey(biller: BillerKey, code: string)

  /** When a copy was taken and how long it holds. */
  datatype Stamp = Stamp(refreshedAt: int, expiresAt: int)
  datatype CategoryRow = CategoryRow(name: string, active: bool, position: nat, revision: Option<string>, stamp: Stamp)
  datatype BillerRow = BillerRow(
    name: string, active: bool, referenceKind: string, referenceLabel: Option<string>, stamp: Stamp)
  datatype ProductRow = ProductRow(active: bool, terms: Terms)

  datatype Stored = Stored(
    categories: map<CategoryKey, CategoryRow>, billers: map<BillerKey, BillerRow>,
    products: map<ProductKey, ProductRow>)

  // ----- The loops, as folds ----------------------------------------------

  function BillerRowOf(b: ListedBiller, stamp: Stamp): BillerRow {
    BillerRow(b.name, true, b.referenceKind, b.referenceLabel, stamp)
  }

  function CategoryRowOf(c: ListedCategory, position: nat, revision: Option<string>, stamp: Stamp): CategoryRow {
    CategoryRow(c.name, true, position, revision, stamp)
  }

  predicate ListsProduct(listed: seq<ListedProduct>, code: string) { exists p :: p in listed && p.code == code }
  predicate ListsBiller(listed: seq<ListedBiller>, code: string) { exists b :: b in listed && b.code == code }
  predicate ListsCategory(listed: seq<ListedCategory>, code: string) { exists c :: c in listed && c.code == code }

  function PutProducts(products: map<ProductKey, ProductRow>, biller: BillerKey, listed: seq<ListedProduct>):
    map<ProductKey, ProductRow>
  {
    if listed == [] then products
    else
      var last := listed[|listed| - 1];
      PutProducts(products, biller, listed[..|listed| - 1])[ProductKey(biller, last.code) := ProductRow(true, last.terms)]
  }

  function HideProducts(products: map<ProductKey, ProductRow>, biller: BillerKey, listed: seq<ListedProduct>):
    map<ProductKey, ProductRow>
  {
    map key | key in products ::
      if key.biller == biller && !ListsProduct(listed, key.code) then products[key].(active := false) else products[key]
  }

  function HideBillers(billers: map<BillerKey, BillerRow>, category: CategoryKey, listed: seq<ListedBiller>):
    map<BillerKey, BillerRow>
  {
    map key | key in billers ::
      if key.category == category && !ListsBiller(listed, key.code) then billers[key].(active := false) else billers[key]
  }

  function HideCategories(categories: map<CategoryKey, CategoryRow>, provider: string, listed: seq<ListedCategory>):
    map<CategoryKey, CategoryRow>
  {
    map key | key in categories ::
      if key.provider == provider && !ListsCategory(listed, key.code) then categories[key].(active := false)
      else categories[key]
  }

  /** One turn of the biller loop. */
  function SyncBiller(s: Stored, category: CategoryKey, b: ListedBiller, stamp: Stamp): Stored {
    var key := BillerKey(category, b.code);
    s.(billers := s.billers[key := BillerRowOf(b, stamp)],
       products := HideProducts(PutProducts(s.products, key, b.products), key, b.products))
  }

  function SyncBillers(s: Stored, category: CategoryKey, listed: seq<ListedBiller>, stamp: Stamp): Stored {
    if listed == [] then s
    else SyncBiller(SyncBillers(s, category, listed[..|listed| - 1], stamp), category, listed[|listed| - 1], stamp)
  }

  /** One turn of the category loop. */
  function SyncCategory(s: Stored, provider: string, c: ListedCategory, position: nat, revision: Option<string>,
                        stamp: Stamp): Stored {
    var key := CategoryKey(provider, c.code);
    var s' := SyncBillers(s.(categories := s.categories[key := CategoryRowOf(c, position, revision, stamp)]),
                          key, c.billers, stamp);
    s'.(billers := HideBillers(s'.billers, key, c.billers))
  }

  function SyncCategories(s: Stored, provider: string, listed: seq<ListedCategory>, revision: Option<string>,
                          stamp: Stamp): Stored {
    if listed == [] then s
    else
      var last := |listed| - 1;
      SyncCategory(SyncCategories(s, provider, listed[..last], revision, stamp),
                   provider, listed[last], last, revision, stamp)
  }

  function Sync(s: Stored, provider: string, listed: seq<ListedCategory>, revision: Option<string>, stamp: Stamp): Stored {
    var s' := SyncCategories(s, provider, listed, revision, stamp);
    s'.(categories := HideCategories(s'.categories, provider, listed))
  }

  // ----- The copy itself --------------------------------------------------

  class CatalogTables {
    var categories: map<CategoryKey, CategoryRow>
    var billers: map<BillerKey, BillerRow>
    var products: map<ProductKey, ProductRow>

    constructor ()
      ensures Rows() == Stored(map[], map[], map[])
    {
      categories, billers, products := map[], map[], map[];
    }

    ghost function Rows(): Stored
      reads this
    {
      Stored(categories, billers, products)
    }

    method CopyProducts(biller: BillerKey, listed: seq<ListedProduct>)
      modifies this`products
      ensures products == HideProducts(PutProducts(old(products), biller, listed), biller, listed)
    {
      for i := 0 to |listed|
        invariant products == PutProducts(old(products), biller, listed[..i])
      {
        assert listed[..i + 1][..i] == listed[..i];
        products := products[ProductKey(biller, listed[i].code) := ProductRow(true, listed[i].terms)];
      }
      assert listed[..|listed|] == listed;
      products := map key | key in products ::
        if key.biller == biller && !ListsProduct(listed, key.code) then products[key].(active := false) else products[key];
    }

    method CopyBillers(category: CategoryKey, listed: seq<ListedBiller>, stamp: Stamp)
      modifies this`billers, this`products
      ensures Rows() == SyncBillers(old(Rows()), category, listed, stamp)
    {
      for i := 0 to |listed|
        invariant Rows() == SyncBillers(old(Rows()), category, listed[..i], stamp)
      {
        var key := BillerKey(category, listed[i].code);
        billers := billers[key := BillerRowOf(listed[i], stamp)];
        CopyProducts(key, listed[i].products);
        assert listed[..i + 1][..i] == listed[..i];
      }
      assert listed[..|listed|] == listed;
    }

    /** Upserts and shows everything listed, and hides the rest of the provider's rows; nothing is deleted. */
    method SyncCatalog(provider: string, listed: seq<ListedCategory>, revision: Option<string>, stamp: Stamp)
      modifies this
      ensures Rows() == Sync(old(Rows()), provider, listed, revision, stamp)
    {
      for i := 0 to |listed|
        invariant Rows() == SyncCategories(old(Rows()), provider, listed[..i], revision, stamp)
      {
        var key := CategoryKey(provider, listed[i].code);
        categories := categories[key := CategoryRowOf(listed[i], i, revision, stamp)];
        CopyBillers(key, listed[i].billers, stamp);
        billers := map b | b in billers ::
          if b.category == key && !ListsBiller(listed[i].billers, b.code) then billers[b].(active := false) else billers[b];
        assert listed[..i + 1][..i] == listed[..i];
      }
      assert listed[..|listed|] == listed;
      categories := map key | key in categories ::
        if key.provider == provider && !ListsCategory(listed, key.code) then categories[key].(active := false)
        else categories[key];
    }
  }

  // ----- What one row becomes ---------------------------------------------

  function Get<K, V>(m: map<K, V>, k: K): Option<V> { if k in m then Some(m[k]) else None }

  function FindProduct(listed: seq<ListedProduct>, code: string): (found: Option<nat>)
    ensures found.Some? ==> found.value < |listed| && listed[found.value].code == code
    ensures found.None? <==> !ListsProduct(listed, code)
  {
    if listed == [] then None
    else
      var last := |listed| - 1;
      assert listed == listed[..last] + [listed[last]];
      if listed[last].code == code then Some(last) else FindProduct(listed[..last], code)
  }

  function FindBiller(listed: seq<ListedBiller>, code: string): (found: Option<nat>)
    ensures found.Some? ==> found.value < |listed| && listed[found.value].code == code
    ensures found.None? <==> !ListsBiller(listed, code)
  {
    if listed == [] then None
    else
      var last := |listed| - 1;
      assert listed == listed[..last] + [listed[last]];
      if listed[last].code == code then Some(last) else FindBiller(listed[..last], code)
  }

  function FindCategory(listed: seq<ListedCategory>, code: string): (found: Option<nat>)
    ensures found.Some? ==> found.value < |listed| && listed[found.value].code == code
    ensures found.None? <==> !ListsCategory(listed, code)
  {
    if listed == [] then None
    else
      var last := |listed| - 1;
      assert listed == listed[..last] + [listed[last]];
      if listed[last].code == code then Some(last) else FindCategory(listed[..last], code)
  }

  function Hidden(row: Option<ProductRow>): Option<ProductRow> {
    if row.Some? then Some(row.value.(active := false)) else None
  }
  function HiddenBiller(row: Option<BillerRow>): Option<BillerRow> {
    if row.Some? then Some(row.value.(active := false)) else None
  }
  function HiddenCategory(row: Option<CategoryRow>): Option<CategoryRow> {
    if row.Some? then Some(row.value.(active := false)) else None
  }

  /** A product row of a biller that is listed. */
  function ProductOf(listed: seq<ListedProduct>, code: string, before: Option<ProductRow>): Option<ProductRow> {
    var found := FindProduct(listed, code);
    if found.Some? then Some(ProductRow(true, listed[found.value].terms)) else Hidden(before)
  }

  function ProductIn(listed: seq<ListedBiller>, biller: string, code: string, before: Option<ProductRow>):
    Option<ProductRow>
  {
    var found := FindBiller(listed, biller);
    if found.Some? then ProductOf(listed[found.value].products, code, before) else before
  }

  function ProductAfter(provider: string, listed: seq<ListedCategory>, key: ProductKey, before: Option<ProductRow>):
    Option<ProductRow>
  {
    var found := FindCategory(listed, key.biller.category.code);
    if key.biller.category.provider == provider && found.Some?
    then ProductIn(listed[found.value].billers, key.biller.code, key.code, before) else before
  }

  function BillerOf(listed: seq<ListedBiller>, code: string, stamp: Stamp, before: Option<BillerRow>): Option<BillerRow> {
    var found := FindBiller(listed, code);
    if found.Some? then Some(BillerRowOf(listed[found.value], stamp)) else HiddenBiller(before)
  }

  function BillerAfter(provider: string, listed: seq<ListedCategory>, key: BillerKey, stamp: Stamp,
                       before: Option<BillerRow>): Option<BillerRow>
  {
    var found := FindCategory(listed, key.category.code);
    if key.category.provider == provider && found.Some?
    then BillerOf(listed[found.value].billers, key.code, stamp, before) else before
  }

  function CategoryAfter(provider: string, listed: seq<ListedCategory>, key: CategoryKey, revision: Option<string>,
                         stamp: Stamp, before: Option<CategoryRow>): Option<CategoryRow> {
    var found := FindCategory(listed, key.code);
    if key.provider != provider then before
    else if found.Some? then Some(CategoryRowOf(listed[found.value], found.value, revision, stamp))
    else HiddenCategory(before)
  }

  // ----- The loops give each row that value -------------------------------

  /** The provider lists no code twice within one list. */
  ghost predicate DistinctBillers(listed: seq<ListedBiller>) {
    forall i, j :: 0 <= i < j < |listed| ==> listed[i].code != listed[j].code
  }
  ghost predicate DistinctCategories(listed: seq<ListedCategory>) {
    forall i, j :: 0 <= i < j < |listed| ==> listed[i].code != listed[j].code
  }
  ghost predicate DistinctCodes(listed: seq<ListedCategory>) {
    DistinctCategories(listed) && forall i :: 0 <= i < |listed| ==> DistinctBillers(listed[i].billers)
  }

  lemma {:induction false} PutProductsRow(products: map<ProductKey, ProductRow>, biller: BillerKey,
                                          listed: seq<ListedProduct>, key: ProductKey)
    ensures Get(PutProducts(products, biller, listed), key)
         == if key.biller == biller && FindProduct(listed, key.code).Some?
            then Some(ProductRow(true, listed[FindProduct(listed, key.code).value].terms)) else Get(products, key)
    decreases |listed|
  {
    if listed != [] {
      PutProductsRow(products, biller, listed[..|listed| - 1], key);
    }
  }

  lemma SyncBillerRow(s: Stored, category: CategoryKey, b: ListedBiller, stamp: Stamp, key: ProductKey)
    ensures Get(SyncBiller(s, category, b, stamp).products, key)
         == if key.biller == BillerKey(category, b.code) then ProductOf(b.products, key.code, Get(s.products, key))
            else Get(s.products, key)
  {
    PutProductsRow(s.products, BillerKey(category, b.code), b.products, key);
  }

  lemma {:induction false} SyncBillersRow(s: Stored, category: CategoryKey, listed: seq<ListedBiller>, stamp: Stamp,
                                          key: ProductKey)
    requires DistinctBillers(listed)
    ensures Get(SyncBillers(s, category, listed, stamp).products, key)
         == if key.biller.category == category then ProductIn(listed, key.biller.code, key.code, Get(s.products, key))
            else Get(s.products, key)
    decreases |listed|
  {
    if listed != [] {
      var last := |listed| - 1;
      SyncBillersRow(s, category, listed[..last], stamp, key);
      SyncBillerRow(SyncBillers(s, category, listed[..last], stamp), category, listed[last], stamp, key);
      BillerOnlyLast(listed, key.biller.code);
    }
  }

  lemma BillerOnlyLast(listed: seq<ListedBiller>, code: string)
    requires DistinctBillers(listed) && listed != []
    ensures listed[|listed| - 1].code == code ==> FindBiller(listed[..|listed| - 1], code).None?
  {
  }

  lemma CategoryOnlyLast(listed: seq<ListedCategory>, code: string)
    requires DistinctCategories(listed) && listed != []
    ensures listed[|listed| - 1].code == code ==> FindCategory(listed[..|listed| - 1], code).None?
  {
  }

  lemma {:induction false} SyncProductRow(s: Stored, provider: string, listed: seq<ListedCategory>,
                                          revision: Option<string>, stamp: Stamp, key: ProductKey)
    requires DistinctCodes(listed)
    ensures Get(SyncCategories(s, provider, listed, revision, stamp).products, key)
         == ProductAfter(provider, listed, key, Get(s.products, key))
    decreases |listed|
  {
    if listed != [] {
      var last := |listed| - 1;
      SyncProductRow(s, provider, listed[..last], revision, stamp, key);
      var before := SyncCategories(s, provider, listed[..last], revision, stamp);
      var category := CategoryKey(provider, listed[last].code);
      SyncBillersRow(
        before.(categories := before.categories[category := CategoryRowOf(listed[last], last, revision, stamp)]),
        category, listed[last].billers, stamp, key);
      CategoryOnlyLast(listed, key.biller.category.code);
    }
  }

  lemma {:induction false} BillersPutRow(s: Stored, category: CategoryKey, listed: seq<ListedBiller>, stamp: Stamp,
                                         key: BillerKey)
    ensures Get(SyncBillers(s, category, listed, stamp).billers, key)
         == if key.category == category && FindBiller(listed, key.code).Some?
            then Some(BillerRowOf(listed[FindBiller(listed, key.code).value], stamp)) else Get(s.billers, key)
    decreases |listed|
  {
    if listed != [] {
      BillersPutRow(s, category, listed[..|listed| - 1], stamp, key);
    }
  }

  lemma SyncCategoryBiller(s: Stored, provider: string, c: ListedCategory, position: nat, revision: Option<string>,
                           stamp: Stamp, key: BillerKey)
    ensures Get(SyncCategory(s, provider, c, position, revision, stamp).billers, key)
         == if key.category == CategoryKey(provider, c.code) then BillerOf(c.billers, key.code, stamp, Get(s.billers, key))
            else Get(s.billers, key)
  {
    var category := CategoryKey(provider, c.code);
    BillersPutRow(s.(categories := s.categories[category := CategoryRowOf(c, position, revision, stamp)]),
                  category, c.billers, stamp, key);
  }

  lemma {:induction false} SyncBillerTableRow(s: Stored, provider: string, listed: seq<ListedCategory>,
                                              revision: Option<string>, stamp: Stamp, key: BillerKey)
    requires DistinctCodes(listed)
    ensures Get(SyncCategories(s, provider, listed, revision, stamp).billers, key)
         == BillerAfter(provider, listed, key, stamp, Get(s.billers, key))
    decreases |listed|
  {
    if listed != [] {
      var last := |listed| - 1;
      SyncBillerTableRow(s, provider, listed[..last], revision, stamp, key);
      SyncCategoryBiller(SyncCategories(s, provider, listed[..last], revision, stamp),
                         provider, listed[last], last, revision, stamp, key);
      CategoryOnlyLast(listed, key.category.code);
    }
  }

  lemma {:induction false} BillersLeaveCategories(s: Stored, category: CategoryKey, listed: seq<ListedBiller>, stamp: Stamp)
    ensures SyncBillers(s, category, listed, stamp).categories == s.categories
    decreases |listed|
  {
    if listed != [] {
      BillersLeaveCategories(s, category, listed[..|listed| - 1], stamp);
    }
  }

  lemma SyncCategoryTable(s: Stored, provider: string, c: ListedCategory, position: nat, revision: Option<string>,
                          stamp: Stamp)
    ensures SyncCategory(s, provider, c, position, revision, stamp).categories
         == s.categories[CategoryKey(provider, c.code) := CategoryRowOf(c, position, revision, stamp)]
  {
    var category := CategoryKey(provider, c.code);
    BillersLeaveCategories(s.(categories := s.categories[category := CategoryRowOf(c, position, revision, stamp)]),
                           category, c.billers, stamp);
  }

  /** The category table alone, over the loop. */
  function PutCategories(categories: map<CategoryKey, CategoryRow>, provider: string, listed: seq<ListedCategory>,
                         revision: Option<string>, stamp: Stamp): map<CategoryKey, CategoryRow>
  {
    if listed == [] then categories
    else
      var last := |listed| - 1;
      PutCategories(categories, provider, listed[..last], revision, stamp)[
        CategoryKey(provider, listed[last].code) := CategoryRowOf(listed[last], last, revision, stamp)]
  }

  lemma {:induction false} SyncIsPut(s: Stored, provider: string, listed: seq<ListedCategory>,
                                     revision: Option<string>, stamp: Stamp)
    ensures SyncCategories(s, provider, listed, revision, stamp).categories
         == PutCategories(s.categories, provider, listed, revision, stamp)
    decreases |listed|
  {
    if listed != [] {
      var last := |listed| - 1;
      SyncIsPut(s, provider, listed[..last], revision, stamp);
      SyncCategoryTable(SyncCategories(s, provider, listed[..last], revision, stamp),
                        provider, listed[last], last, revision, stamp);
    }
  }

  lemma {:induction false} PutRow(categories: map<CategoryKey, CategoryRow>, provider: string, listed: seq<ListedCategory>,
                                  revision: Option<string>, stamp: Stamp, key: CategoryKey)
    ensures var found := FindCategory(listed, key.code);
            Get(PutCategories(categories, provider, listed, revision, stamp), key)
              == if key.provider == provider && found.Some?
                 then Some(CategoryRowOf(listed[found.value], found.value, revision, stamp))
                 else Get(categories, key)
    decreases |listed|
  {
    if listed != [] {
      PutRow(categories, provider, listed[..|listed| - 1], revision, stamp, key);
    }
  }

  lemma {:induction false} CategoriesPutRow(s: Stored, provider: string, listed: seq<ListedCategory>,
                         revision: Option<string>, stamp: Stamp, key: CategoryKey)
    ensures var found := FindCategory(listed, key.code);
            Get(SyncCategories(s, provider, listed, revision, stamp).categories, key)
              == if key.provider == provider && found.Some?
                 then Some(CategoryRowOf(listed[found.value], found.value, revision, stamp))
                 else Get(s.categories, key)
  {
    SyncIsPut(s, provider, listed, revision, stamp);
    PutRow(s.categories, provider, listed, revision, stamp, key);
  }

  /** What a sync makes of every row, from any prior state. */
  lemma SyncRows(s: Stored, provider: string, listed: seq<ListedCategory>, revision: Option<string>, stamp: Stamp)
    requires DistinctCodes(listed)
    ensures var s' := Sync(s, provider, listed, revision, stamp);
            && (forall k :: Get(s'.products, k) == ProductAfter(provider, listed, k, Get(s.products, k)))
            && (forall k :: Get(s'.billers, k) == BillerAfter(provider, listed, k, stamp, Get(s.billers, k)))
            && (forall k :: Get(s'.categories, k)
                  == CategoryAfter(provider, listed, k, revision, stamp, Get(s.categories, k)))
  {
    var s' := Sync(s, provider, listed, revision, stamp);
    forall k ensures Get(s'.products, k) == ProductAfter(provider, listed, k, Get(s.products, k)) {
      SyncProductRow(s, provider, listed, revision, stamp, k);
    }
    forall k ensures Get(s'.billers, k) == BillerAfter(provider, listed, k, stamp, Get(s.billers, k)) {
      SyncBillerTableRow(s, provider, listed, revision, stamp, k);
    }
    forall k ensures Get(s'.categories, k) == CategoryAfter(provider, listed, k, revision, stamp, Get(s.categories, k)) {
      CategoriesPutRow(s, provider, listed, revision, stamp, k);
    }
  }

  // ----- The theorems -----------------------------------------------------

  /** The product the listing gives a key, looked up from the outside in. */
  function Offered(provider: string, listed: seq<ListedCategory>, key: ProductKey): Option<Terms> {
    var c := FindCategory(listed, key.biller.category.code);
    if key.biller.category.provider != provider || c.None? then None
    else
      var b := FindBiller(listed[c.value].billers, key.biller.code);
      if b.None? then None
      else
        var p := FindProduct(listed[c.value].billers[b.value].products, key.code);
        if p.None? then None else Some(listed[c.value].billers[b.value].products[p.value].terms)
  }

  /** What a customer can reach: an ACTIVE product of an ACTIVE biller in an ACTIVE category. */
  function Visible(s: Stored, key: ProductKey): Option<Terms> {
    if key.biller.category in s.categories && s.categories[key.biller.category].active
       && key.biller in s.billers && s.billers[key.biller].active
       && key in s.products && s.products[key].active
    then Some(s.products[key].terms) else None
  }

  /**
   * From any prior state, a sync makes visible exactly the products the
   * provider lists, each under the terms it lists, and leaves what other
   * providers offer as it was.
   */
  lemma VisibleIsListed(s: Stored, provider: string, listed: seq<ListedCategory>, revision: Option<string>,
                        stamp: Stamp, key: ProductKey)
    requires DistinctCodes(listed)
    ensures key.biller.category.provider == provider ==>
              Visible(Sync(s, provider, listed, revision, stamp), key) == Offered(provider, listed, key)
    ensures key.biller.category.provider != provider ==>
              Visible(Sync(s, provider, listed, revision, stamp), key) == Visible(s, key)
  {
    SyncRows(s, provider, listed, revision, stamp);
    var s' := Sync(s, provider, listed, revision, stamp);
    assert Get(s'.products, key) == ProductAfter(provider, listed, key, Get(s.products, key));
    assert Get(s'.billers, key.biller) == BillerAfter(provider, listed, key.biller, stamp, Get(s.billers, key.biller));
    assert Get(s'.categories, key.biller.category)
        == CategoryAfter(provider, listed, key.biller.category, revision, stamp, Get(s.categories, key.biller.category));
  }

  lemma {:induction false} FindsCategory(listed: seq<ListedCategory>, c: nat)
    requires DistinctCategories(listed) && c < |listed|
    ensures FindCategory(listed, listed[c].code) == Some(c)
  {
    var found := FindCategory(listed, listed[c].code);
    assert ListsCategory(listed, listed[c].code);
    assert found.Some?;
  }

  lemma {:induction false} FindsBiller(listed: seq<ListedBiller>, b: nat)
    requires DistinctBillers(listed) && b < |listed|
    ensures FindBiller(listed, listed[b].code) == Some(b)
  {
    var found := FindBiller(listed, listed[b].code);
    assert ListsBiller(listed, listed[b].code);
    assert found.Some?;
  }

  /** After a sync every category and biller listed has the row the listing gives it, categories in their listed order. */
  lemma ListedRowsAreCopied(s: Stored, provider: string, listed: seq<ListedCategory>, revision: Option<string>,
                            stamp: Stamp, c: nat, b: nat)
    requires DistinctCodes(listed) && c < |listed| && b < |listed[c].billers|
    ensures var s', category, biller := Sync(s, provider, listed, revision, stamp), listed[c], listed[c].billers[b];
            var key := CategoryKey(provider, category.code);
            && Get(s'.categories, key) == Some(CategoryRow(category.name, true, c, revision, stamp))
            && Get(s'.billers, BillerKey(key, biller.code))
                 == Some(BillerRow(biller.name, true, biller.referenceKind, biller.referenceLabel, stamp))
  {
    SyncRows(s, provider, listed, revision, stamp);
    FindsCategory(listed, c);
    FindsBiller(listed[c].billers, b);
    var s', key := Sync(s, provider, listed, revision, stamp), CategoryKey(provider, listed[c].code);
    assert Get(s'.categories, key) == CategoryAfter(provider, listed, key, revision, stamp, Get(s.categories, key));
    var biller := BillerKey(key, listed[c].billers[b].code);
    assert Get(s'.billers, biller) == BillerAfter(provider, listed, biller, stamp, Get(s.billers, biller));
  }

  /** A row the listing leaves out keeps all it held, but may be hidden. */
  lemma UnlistedRowsKeepTheirTerms(s: Stored, provider: string, listed: seq<ListedCategory>, revision: Option<string>,
                                   stamp: Stamp, key: ProductKey)
    requires DistinctCodes(listed) && key in s.products && Offered(provider, listed, key).None?
    ensures var s' := Sync(s, provider, listed, revision, stamp);
            key in s'.products && s'.products[key].terms == s.products[key].terms
  {
    SyncRows(s, provider, listed, revision, stamp);
    var s' := Sync(s, provider, listed, revision, stamp);
    assert Get(s'.products, key) == ProductAfter(provider, listed, key, Get(s.products, key));
  }

  ghost predicate Keeps(s: Stored, s': Stored) {
    s.categories.Keys <= s'.categories.Keys && s.billers.Keys <= s'.billers.Keys && s.products.Keys <= s'.products.Keys
  }

  lemma {:induction false} PutProductsKeeps(products: map<ProductKey, ProductRow>, biller: BillerKey,
                                            listed: seq<ListedProduct>)
    ensures products.Keys <= PutProducts(products, biller, listed).Keys
    decreases |listed|
  {
    if listed != [] {
      PutProductsKeeps(products, biller, listed[..|listed| - 1]);
    }
  }

  lemma {:induction false} SyncBillersKeeps(s: Stored, category: CategoryKey, listed: seq<ListedBiller>, stamp: Stamp)
    ensures Keeps(s, SyncBillers(s, category, listed, stamp))
    decreases |listed|
  {
    if listed != [] {
      var last := |listed| - 1;
      SyncBillersKeeps(s, category, listed[..last], stamp);
      PutProductsKeeps(SyncBillers(s, category, listed[..last], stamp).products,
                       BillerKey(category, listed[last].code), listed[last].products);
    }
  }

  lemma {:induction false} SyncCategoriesKeeps(s: Stored, provider: string, listed: seq<ListedCategory>,
                                               revision: Option<string>, stamp: Stamp)
    ensures Keeps(s, SyncCategories(s, provider, listed, revision, stamp))
    decreases |listed|
  {
    if listed != [] {
      var last := |listed| - 1;
      SyncCategoriesKeeps(s, provider, listed[..last], revision, stamp);
      var before := SyncCategories(s, provider, listed[..last], revision, stamp);
      var category := CategoryKey(provider, listed[last].code);
      SyncBillersKeeps(
        before.(categories := before.categories[category := CategoryRowOf(listed[last], last, revision, stamp)]),
        category, listed[last].billers, stamp);
    }
  }

  /** No listing, well formed or not, deletes a row: receipts of past payments keep naming who was paid. */
  lemma NothingIsDeleted(s: Stored, provider: string, listed: seq<ListedCategory>, revision: Option<string>, stamp: Stamp)
    ensures Keeps(s, Sync(s, provider, listed, revision, stamp))
  {
    SyncCategoriesKeeps(s, provider, listed, revision, stamp);
  }

  lemma SameRows<K, V>(m: map<K, V>, m': map<K, V>)
    requires forall k :: Get(m, k) == Get(m', k)
    ensures m == m'
  {
    forall k ensures k in m <==> k in m' {
      assert Get(m, k) == Get(m', k);
    }
    forall k | k in m ensures m[k] == m'[k] {
      assert Get(m, k) == Get(m', k);
    }
  }

  lemma ProductsAlike(s: Stored, provider: string, listed: seq<ListedCategory>,
                      first: Option<string>, before: Stamp, second: Option<string>, now: Stamp)
    requires DistinctCodes(listed)
    ensures Sync(Sync(s, provider, listed, first, before), provider, listed, second, now).products
         == Sync(s, provider, listed, second, now).products
  {
    var once := Sync(s, provider, listed, first, before);
    var twice, direct := Sync(once, provider, listed, second, now), Sync(s, provider, listed, second, now);
    forall k ensures Get(twice.products, k) == Get(direct.products, k) {
      SyncProductRow(s, provider, listed, first, before, k);
      SyncProductRow(once, provider, listed, second, now, k);
      SyncProductRow(s, provider, listed, second, now, k);
    }
    SameRows(twice.products, direct.products);
  }

  lemma BillersAlike(s: Stored, provider: string, listed: seq<ListedCategory>,
                     first: Option<string>, before: Stamp, second: Option<string>, now: Stamp)
    requires DistinctCodes(listed)
    ensures Sync(Sync(s, provider, listed, first, before), provider, listed, second, now).billers
         == Sync(s, provider, listed, second, now).billers
  {
    var once := Sync(s, provider, listed, first, before);
    var twice, direct := Sync(once, provider, listed, second, now), Sync(s, provider, listed, second, now);
    forall k ensures Get(twice.billers, k) == Get(direct.billers, k) {
      SyncBillerTableRow(s, provider, listed, first, before, k);
      SyncBillerTableRow(once, provider, listed, second, now, k);
      SyncBillerTableRow(s, provider, listed, second, now, k);
    }
    SameRows(twice.billers, direct.billers);
  }

  lemma CategoriesAlike(s: Stored, provider: string, listed: seq<ListedCategory>,
                        first: Option<string>, before: Stamp, second: Option<string>, now: Stamp)
    requires DistinctCodes(listed)
    ensures Sync(Sync(s, provider, listed, first, before), provider, listed, second, now).categories
         == Sync(s, provider, listed, second, now).categories
  {
    var once := Sync(s, provider, listed, first, before);
    var twice, direct := Sync(once, provider, listed, second, now), Sync(s, provider, listed, second, now);
    forall k ensures Get(twice.categories, k) == Get(direct.categories, k) {
      CategoriesPutRow(s, provider, listed, first, before, k);
      CategoriesPutRow(once, provider, listed, second, now, k);
      CategoriesPutRow(s, provider, listed, second, now, k);
    }
    SameRows(twice.categories, direct.categories);
  }

  /**
   * Syncing a listing again, later and under whatever revision, is syncing it
   * once, then: nothing of the first copy remains.
   */
  lemma SyncIsIdempotent(s: Stored, provider: string, listed: seq<ListedCategory>,
                         first: Option<string>, before: Stamp, second: Option<string>, now: Stamp)
    requires DistinctCodes(listed)
    ensures Sync(Sync(s, provider, listed, first, before), provider, listed, second, now)
         == Sync(s, provider, listed, second, now)
  {
    ProductsAlike(s, provider, listed, first, before, second, now);
    BillersAlike(s, provider, listed, first, before, second, now);
    CategoriesAlike(s, provider, listed, first, before, second, now);
  }
}
