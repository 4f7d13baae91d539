/** The menu administration page (pages/admin/Menus.tsx): products, top-navigation items
    and categories listed in ascending `order`, the per-product, per-item and per-category
    document counts, the forms that create and save items and categories, the confirmed
    deletion, and the automatic English translation when a name field loses focus. */
module Menus {
  import opened Types
  import Ordering
  import Storage
  import AIService
  import Text

  // ---------------------------------------------------------------------------
  // Document counts

  /** A count record whose missing keys read as 0 is a multiset of keys: counting a key
      once more adds one copy of it, and the sum of all counts is the multiset's size. */
  datatype Counts = Counts(products: multiset<string>, navs: multiset<string>, cats: multiset<string>)

  function One(k: Option<string>): multiset<string> {
    if k.Some? then multiset{k.value} else multiset{}
  }

  /** The key each document of `docs` contributes, counted in order. */
  function Tally(docs: seq<Doc>, key: Doc -> Option<string>): multiset<string>
    decreases |docs|
  {
    if docs == [] then multiset{}
    else Tally(docs[..|docs| - 1], key) + One(key(docs[|docs| - 1]))
  }

  function HasKey(key: Doc -> Option<string>): Doc -> bool {
    (d: Doc) => key(d).Some?
  }

  function KeyIs(key: Doc -> Option<string>, k: string): Doc -> bool {
    (d: Doc) => key(d) == Some(k)
  }

  function IdIs(id: string): Category -> bool {
    (c: Category) => c.id == id
  }

  /** A document counts for its category when it names one. */
  function CategoryKey(d: Doc): Option<string> {
    if d.categoryId != "" then Some(d.categoryId) else None
  }

  /** The category a document is filed under: the first one in `cats` with its id. */
  function ParentCategory(cats: seq<Category>, d: Doc): Option<Category> {
    if d.categoryId == "" then None else Find(cats, IdIs(d.categoryId))
  }

  /** A document counts for a product when its category exists and names a product. */
  function ProductOf(cats: seq<Category>, d: Doc): (r: Option<string>)
    ensures r.Some? ==> CategoryKey(d).Some?
  {
    match ParentCategory(cats, d)
    case None => None
    case Some(c) => if c.productId != "" then Some(c.productId) else None
  }

  /** A document counts for a top-navigation item when its category exists and names one. */
  function NavOf(cats: seq<Category>, d: Doc): (r: Option<string>)
    ensures r.Some? ==> CategoryKey(d).Some?
  {
    match ParentCategory(cats, d)
    case None => None
    case Some(c) => if c.topNavId != "" then Some(c.topNavId) else None
  }

  function ProductKey(cats: seq<Category>): Doc -> Option<string> {
    (d: Doc) => ProductOf(cats, d)
  }

  function NavKey(cats: seq<Category>): Doc -> Option<string> {
    (d: Doc) => NavOf(cats, d)
  }

  /** The three count records of `loadData`. */
  function CountsOf(docs: seq<Doc>, cats: seq<Category>): Counts {
    Counts(Tally(docs, ProductKey(cats)), Tally(docs, NavKey(cats)), Tally(docs, CategoryKey))
  }

  lemma TallySnoc(docs: seq<Doc>, i: nat, key: Doc -> Option<string>)
    requires i < |docs|
    ensures Tally(docs[..i + 1], key) == Tally(docs[..i], key) + One(key(docs[i]))
  {
    assert docs[..i + 1][..i] == docs[..i];
  }

  lemma FilterSingle(d: Doc, p: Doc -> bool)
    ensures Filter([d], p) == if p(d) then [d] else []
  {
    assert [d][1..] == [];
  }

  /** Each counted document adds exactly one to the total, so the counts of a record sum to
      the number of documents that have a key for it. */
  lemma {:induction false} TallySize(docs: seq<Doc>, key: Doc -> Option<string>)
    ensures |Tally(docs, key)| == |Filter(docs, HasKey(key))|
    decreases |docs|
  {
    if docs != [] {
      var pre, d := docs[..|docs| - 1], docs[|docs| - 1];
      TallySize(pre, key);
      assert pre + [d] == docs;
      FilterAppend(pre, [d], HasKey(key));
      FilterSingle(d, HasKey(key));
    }
  }

  /** The count of one key is the number of documents whose key it is. */
  lemma {:induction false} TallyCount(docs: seq<Doc>, key: Doc -> Option<string>, k: string)
    ensures Tally(docs, key)[k] == |Filter(docs, KeyIs(key, k))|
    decreases |docs|
  {
    if docs != [] {
      var pre, d := docs[..|docs| - 1], docs[|docs| - 1];
      TallyCount(pre, key, k);
      assert pre + [d] == docs;
      FilterAppend(pre, [d], KeyIs(key, k));
      FilterSingle(d, KeyIs(key, k));
    }
  }

  /** When every document counted by `k1` is also counted by `k2`, the first record holds
      no more counts than the second. */
  lemma {:induction false} TallyDominated(docs: seq<Doc>, k1: Doc -> Option<string>, k2: Doc -> Option<string>)
    requires forall i :: 0 <= i < |docs| ==> k1(docs[i]).Some? ==> k2(docs[i]).Some?
    ensures |Tally(docs, k1)| <= |Tally(docs, k2)|
    decreases |docs|
  {
    if docs != [] {
      TallyDominated(docs[..|docs| - 1], k1, k2);
    }
  }

  /** The category counts: each document naming a category adds one to that category, so
      they sum to the number of such documents; the product and top-navigation totals never
      exceed the category total. */
  lemma CountsMeaning(docs: seq<Doc>, cats: seq<Category>, id: string)
    ensures var c := CountsOf(docs, cats);
      && (id != "" ==> c.cats[id] == |Filter(docs, KeyIs(CategoryKey, id))|)
      && |c.cats| == |Filter(docs, HasKey(CategoryKey))|
      && |c.products| <= |c.cats|
      && |c.navs| <= |c.cats|
  {
    TallyCount(docs, CategoryKey, id);
    TallySize(docs, CategoryKey);
    TallyDominated(docs, ProductKey(cats), CategoryKey);
    TallyDominated(docs, NavKey(cats), CategoryKey);
  }

  /** A document is counted for a product exactly when its category is found and names a
      product, and then for that product. */
  lemma ProductCountMeaning(docs: seq<Doc>, cats: seq<Category>, d: Doc)
    ensures ProductKey(cats)(d).Some? <==>
      (d.categoryId != "" && (exists k :: 0 <= k < |cats| && cats[k].id == d.categoryId)
       && cats[FirstIndex(cats, IdIs(d.categoryId))].productId != "")
    ensures ProductKey(cats)(d).Some? ==>
      ProductKey(cats)(d).value == cats[FirstIndex(cats, IdIs(d.categoryId))].productId
  {
  }

  /** The keys of one document, in the terms the counting loop computes them. */
  lemma CountKeys(cats: seq<Category>, d: Doc)
    ensures d.categoryId == "" ==> ProductKey(cats)(d) == None && NavKey(cats)(d) == None
    ensures d.categoryId != "" ==>
      var cat := Find(cats, IdIs(d.categoryId));
      && ProductKey(cats)(d) == (if cat.Some? && cat.value.productId != "" then Some(cat.value.productId) else None)
      && NavKey(cats)(d) == (if cat.Some? && cat.value.topNavId != "" then Some(cat.value.topNavId) else None)
  {
  }

  /** The counting loop of `loadData`. */
  method CountDocs(docs: seq<Doc>, cats: seq<Category>) returns (c: Counts)
    ensures c == CountsOf(docs, cats)
  {
    var pCounts: multiset<string> := multiset{};
    var nCounts: multiset<string> := multiset{};
    var cCounts: multiset<string> := multiset{};
    for i := 0 to |docs|
      invariant pCounts == Tally(docs[..i], ProductKey(cats))
      invariant nCounts == Tally(docs[..i], NavKey(cats))
      invariant cCounts == Tally(docs[..i], CategoryKey)
    {
      var doc := docs[i];
      ghost var p0, n0, c0 := pCounts, nCounts, cCounts;
      CountKeys(cats, doc);
      if doc.categoryId != "" {
        cCounts := cCounts + multiset{doc.categoryId};
        var cat := Find(cats, IdIs(doc.categoryId));
        if cat.Some? {
          if cat.value.productId != "" {
            pCounts := pCounts + multiset{cat.value.productId};
          }
          if cat.value.topNavId != "" {
            nCounts := nCounts + multiset{cat.value.topNavId};
          }
        }
      }
      assert pCounts == p0 + One(ProductKey(cats)(doc));
      assert nCounts == n0 + One(NavKey(cats)(doc));
      assert cCounts == c0 + One(CategoryKey(doc));
      TallySnoc(docs, i, ProductKey(cats));
      TallySnoc(docs, i, NavKey(cats));
      TallySnoc(docs, i, CategoryKey);
    }
    assert docs[..|docs|] == docs;
    c := Counts(pCounts, nCounts, cCounts);
  }

  // ---------------------------------------------------------------------------
  // What the columns show

  // ---------------------------------------------------------------------------
  // Forms

  /** A falsy parent (none, or the empty choice of the select box) is stored as none. */
  function ParentOrNone(parentId: Option<string>): (r: Option<string>)
    ensures r.Some? <==> parentId.Some? && parentId.value != ""
    ensures r.Some? ==> r == parentId
  {
    if parentId.Some? && parentId.value != "" then parentId else None
  }

  /** A fresh top-navigation item: bound to the chosen product, internal, pointing at the
      documentation route, and ordered after the items already shown. */
  function NewNav(now: nat, productId: string, shown: nat): (n: TopNavItem)
    ensures n.productId == productId && n.labelText == "" && n.labelEn == ""
    ensures n.path == "/docs/" && n.kind == Internal && n.order == shown + 1
    ensures n.id == "nav_" + Text.DecimalString(now)
  {
    TopNavItem("nav_" + Text.DecimalString(now), productId, "", "", "/docs/", shown + 1, Internal)
  }

  /** A fresh category: bound to the chosen product and item, at the top level, and
      ordered after the categories already shown. */
  function NewCategory(now: nat, productId: string, navId: string, shown: nat): (c: Category)
    ensures c.productId == productId && c.topNavId == navId && c.parentId == None
    ensures c.name == "" && c.nameEn == "" && c.order == shown + 1
    ensures c.id == "cat_" + Text.DecimalString(now)
  {
    Category("cat_" + Text.DecimalString(now), productId, navId, "", "", None, shown + 1)
  }

  /** The item that is saved: the form's values, moved to the chosen product. */
  function NavToSave(n: TopNavItem, productId: string): (r: TopNavItem)
    ensures r.productId == productId
    ensures r.(productId := n.productId) == n
  {
    n.(productId := productId)
  }

  /** The category that is saved: the form's values, moved to the chosen product and item,
      with a falsy parent stored as none. */
  function CategoryToSave(c: Category, productId: string, navId: string): (r: Category)
    ensures r.productId == productId && r.topNavId == navId && r.parentId == ParentOrNone(c.parentId)
    ensures r.(productId := c.productId, topNavId := c.topNavId, parentId := c.parentId) == c
  {
    c.(parentId := ParentOrNone(c.parentId), productId := productId, topNavId := navId)
  }

  /** The blur of the label field asks for a translation only when there is a label, no
      English label yet, and AI is switched on. */
  predicate NavBlurTranslates(editing: Option<TopNavItem>, aiEnabled: bool) {
    editing.Some? && editing.value.labelText != "" && editing.value.labelEn == "" && aiEnabled
  }

  predicate CategoryBlurTranslates(editing: Option<Category>, aiEnabled: bool) {
    editing.Some? && editing.value.name != "" && editing.value.nameEn == "" && aiEnabled
  }

  /** A saved top-navigation item of the chosen product is listed in its column after the
      reload. */
  lemma SavedNavListed(navs: seq<TopNavItem>, n: TopNavItem)
    ensures n in NavsOf(Ordering.SortBy(Storage.Upsert(navs, n, Storage.TopNavId), NavOrder), n.productId)
  {
    var r := Storage.Upsert(navs, n, Storage.TopNavId);
    Storage.UpsertThenLookup(navs, n, Storage.TopNavId);
    Ordering.SortBySorts(r, NavOrder);
    assert n in multiset(Ordering.SortBy(r, NavOrder));
    NavsOfMember(Ordering.SortBy(r, NavOrder), n.productId, n);
  }

  /** A saved category of the chosen product and item is listed in its column after the
      reload. */
  lemma SavedCategoryListed(cats: seq<Category>, c: Category)
    ensures c in CategoriesOf(Ordering.SortBy(Storage.Upsert(cats, c, Storage.CategoryId), CategoryOrder),
                              c.productId, c.topNavId)
  {
    var r := Storage.Upsert(cats, c, Storage.CategoryId);
    Storage.UpsertThenLookup(cats, c, Storage.CategoryId);
    Ordering.SortBySorts(r, CategoryOrder);
    assert c in multiset(Ordering.SortBy(r, CategoryOrder));
    CategoriesOfMember(Ordering.SortBy(r, CategoryOrder), c.productId, c.topNavId, c);
  }

  /** No entry of the list has the id. */
  predicate NavAbsent(navs: seq<TopNavItem>, id: string) {
    forall k :: 0 <= k < |navs| ==> navs[k].id != id
  }

  predicate CategoryAbsent(cats: seq<Category>, id: string) {
    forall k :: 0 <= k < |cats| ==> cats[k].id != id
  }

  /** After deleting an id and reloading, no listed entry has that id. */
  lemma RemovedNavNotListed(navs: seq<TopNavItem>, id: string)
    ensures NavAbsent(Ordering.SortBy(Storage.RemoveId(navs, id, Storage.TopNavId), NavOrder), id)
  {
    var r := Storage.RemoveId(navs, id, Storage.TopNavId);
    var listed := Ordering.SortBy(r, NavOrder);
    Ordering.SortBySorts(r, NavOrder);
    forall k | 0 <= k < |listed| ensures listed[k].id != id {
      assert listed[k] in multiset(r);
      Storage.RemoveIdMember(navs, id, Storage.TopNavId, listed[k]);
    }
  }

  lemma RemovedCategoryNotListed(cats: seq<Category>, id: string)
    ensures CategoryAbsent(Ordering.SortBy(Storage.RemoveId(cats, id, Storage.CategoryId), CategoryOrder), id)
  {
    var r := Storage.RemoveId(cats, id, Storage.CategoryId);
    var listed := Ordering.SortBy(r, CategoryOrder);
    Ordering.SortBySorts(r, CategoryOrder);
    forall k | 0 <= k < |listed| ensures listed[k].id != id {
      assert listed[k] in multiset(r);
      Storage.RemoveIdMember(cats, id, Storage.CategoryId, listed[k]);
    }
  }

  /** Which entry a confirmed deletion removes. */
  datatype DeleteTarget = NavTarget(id: string) | CategoryTarget(id: string)

  class MenusPage {
    const store: Storage.ContentStore
    var products: seq<Product>
    var selectedProductId: string
    var selectedTopNavId: string
    var navItems: seq<TopNavItem>
    var categories: seq<Category>
    var counts: Counts
    var editingNav: Option<TopNavItem>
    var editingCat: Option<Category>
    var isTranslating: bool
    var isAIEnabled: bool
    var deleteTarget: Option<DeleteTarget>

    /** The lists and counts are those `loadData` computes from the store. */
    predicate Loaded()
      reads this`products, this`navItems, this`categories, this`counts,
        store`products, store`topNav, store`categories, store`docs
    {
      && products == Ordering.SortBy(store.products, ProductOrder)
      && navItems == Ordering.SortBy(store.topNav, NavOrder)
      && categories == Ordering.SortBy(store.categories, CategoryOrder)
      && counts == CountsOf(store.docs, categories)
    }

    function FilteredNavs(): seq<TopNavItem>
      reads this`navItems, this`selectedProductId
    {
      NavsOf(navItems, selectedProductId)
    }

    function FilteredCategories(): seq<Category>
      reads this`categories, this`selectedProductId, this`selectedTopNavId
    {
      CategoriesOf(categories, selectedProductId, selectedTopNavId)
    }

    /** Opening the page loads the lists, selects the first product and reads whether AI
        is switched on. */
    constructor (store: Storage.ContentStore)
      ensures this.store == store && Loaded()
      ensures selectedProductId == (if |products| > 0 then products[0].id else "")
      ensures selectedTopNavId == ""
      ensures editingNav == None && editingCat == None && deleteTarget == None
      ensures isAIEnabled == store.GetAIConfig().enabled
    {
      this.store := store;
      selectedProductId := "";
      selectedTopNavId := "";
      editingNav := None;
      editingCat := None;
      isTranslating := false;
      deleteTarget := None;
      isAIEnabled := store.GetAIConfig().enabled;
      new;
      LoadData();
    }

    /** `loadData`: the three lists in ascending `order`, the first product chosen when
        none is, and the counts over the stored documents. */
    method LoadData()
      modifies this`products, this`selectedProductId, this`navItems, this`categories, this`counts
      ensures Loaded()
      ensures selectedProductId ==
        (if |products| > 0 && old(selectedProductId) == "" then products[0].id else old(selectedProductId))
    {
      products := Ordering.SortBy(store.products, ProductOrder);
      if |products| > 0 && selectedProductId == "" {
        selectedProductId := products[0].id;
      }
      navItems := Ordering.SortBy(store.topNav, NavOrder);
      categories := Ordering.SortBy(store.categories, CategoryOrder);
      counts := CountDocs(store.docs, categories);
    }

    /** Choosing a product clears the chosen top-navigation item. */
    method SelectProduct(id: string)
      modifies this`selectedProductId, this`selectedTopNavId
      ensures selectedProductId == id && selectedTopNavId == ""
    {
      selectedProductId := id;
      selectedTopNavId := "";
    }

    method SelectTopNav(id: string)
      modifies this`selectedTopNavId
      ensures selectedTopNavId == id
    {
      selectedTopNavId := id;
    }

    method HandleEditNav(item: TopNavItem)
      modifies this`editingNav
      ensures editingNav == Some(item)
    {
      editingNav := Some(item);
    }

    method HandleNewNav(now: nat)
      modifies this`editingNav
      ensures editingNav == Some(NewNav(now, selectedProductId, |FilteredNavs()|))
    {
      editingNav := Some(NewNav(now, selectedProductId, |FilteredNavs()|));
    }

    /** Saving the form's item under the chosen product and reloading. With a product
        chosen, the saved item is then listed in the top-navigation column. */
    method HandleSaveNav()
      modifies store`topNav, this`editingNav, this`products, this`selectedProductId, this`navItems,
        this`categories, this`counts
      ensures old(editingNav).None? ==>
        editingNav == None && unchanged(store) && navItems == old(navItems) && counts == old(counts)
      ensures old(editingNav).Some? ==>
        && store.topNav ==
          Storage.Upsert(old(store.topNav), NavToSave(old(editingNav).value, old(selectedProductId)), Storage.TopNavId)
        && store.categories == old(store.categories) && store.docs == old(store.docs)
        && store.products == old(store.products)
        && editingNav == None && Loaded()
      ensures old(editingNav).Some? && old(selectedProductId) != "" ==>
        NavToSave(old(editingNav).value, old(selectedProductId)) in FilteredNavs()
    {
      if editingNav.Some? {
        var saved := NavToSave(editingNav.value, selectedProductId);
        SavedNavListed(store.topNav, saved);
        store.SaveTopNavItem(saved);
        editingNav := None;
        LoadData();
      }
    }

    method HandleDeleteNav(id: string)
      modifies this`deleteTarget
      ensures deleteTarget == Some(NavTarget(id))
    {
      deleteTarget := Some(NavTarget(id));
    }

    method HandleEditCat(cat: Category)
      modifies this`editingCat
      ensures editingCat == Some(cat)
    {
      editingCat := Some(cat);
    }

    method HandleNewCat(now: nat)
      modifies this`editingCat
      ensures editingCat ==
        Some(NewCategory(now, selectedProductId, selectedTopNavId, |FilteredCategories()|))
    {
      editingCat := Some(NewCategory(now, selectedProductId, selectedTopNavId, |FilteredCategories()|));
    }

    /** Saving the form's category under the chosen product and item and reloading. With a
        product chosen, the saved category is then listed in the category column. */
    method HandleSaveCat()
      modifies store`categories, this`editingCat, this`products, this`selectedProductId, this`navItems,
        this`categories, this`counts
      ensures old(editingCat).None? ==>
        editingCat == None && unchanged(store) && categories == old(categories) && counts == old(counts)
      ensures old(editingCat).Some? ==>
        && store.categories == Storage.Upsert(old(store.categories),
             CategoryToSave(old(editingCat).value, old(selectedProductId), old(selectedTopNavId)),
             Storage.CategoryId)
        && store.topNav == old(store.topNav) && store.docs == old(store.docs)
        && store.products == old(store.products)
        && editingCat == None && Loaded()
      ensures old(editingCat).Some? && old(selectedProductId) != "" ==>
        CategoryToSave(old(editingCat).value, old(selectedProductId), old(selectedTopNavId))
          in FilteredCategories()
    {
      if editingCat.Some? {
        var saved := CategoryToSave(editingCat.value, selectedProductId, selectedTopNavId);
        editingCat := None;
        StoreCategory(saved);
      }
    }

    /** The write and reload of `handleSaveCat`: the saved category is then listed under its
        own product and item. */
    method StoreCategory(saved: Category)
      modifies store`categories, this`products, this`selectedProductId, this`navItems,
        this`categories, this`counts
      ensures store.categories == Storage.Upsert(old(store.categories), saved, Storage.CategoryId)
      ensures Loaded()
      ensures selectedProductId ==
        (if |products| > 0 && old(selectedProductId) == "" then products[0].id else old(selectedProductId))
      ensures saved in CategoriesOf(categories, saved.productId, saved.topNavId)
    {
      SavedCategoryListed(store.categories, saved);
      store.SaveCategory(saved);
      LoadData();
    }

    method HandleDeleteCat(id: string)
      modifies this`deleteTarget
      ensures deleteTarget == Some(CategoryTarget(id))
    {
      deleteTarget := Some(CategoryTarget(id));
    }

    method CancelDelete()
      modifies this`deleteTarget
      ensures deleteTarget == None
    {
      deleteTarget := None;
    }

    /** `confirmDelete`: removes the target, clears the chosen top-navigation item when it
        was the one removed, reloads, and closes the dialog. The removed entry is no longer
        listed. */
    method ConfirmDelete()
      modifies store`topNav, store`categories, this`deleteTarget, this`selectedTopNavId, this`products,
        this`selectedProductId, this`navItems, this`categories, this`counts
      ensures old(deleteTarget).None? ==>
        unchanged(store) && navItems == old(navItems) && categories == old(categories)
        && selectedTopNavId == old(selectedTopNavId) && deleteTarget == None
      ensures old(deleteTarget).Some? && old(deleteTarget).value.NavTarget? ==>
        var id := old(deleteTarget).value.id;
        && store.topNav == Storage.RemoveId(old(store.topNav), id, Storage.TopNavId)
        && store.categories == old(store.categories)
        && selectedTopNavId == (if old(selectedTopNavId) == id then "" else old(selectedTopNavId))
        && NavAbsent(navItems, id)
      ensures old(deleteTarget).Some? && old(deleteTarget).value.CategoryTarget? ==>
        var id := old(deleteTarget).value.id;
        && store.categories == Storage.RemoveId(old(store.categories), id, Storage.CategoryId)
        && store.topNav == old(store.topNav)
        && selectedTopNavId == old(selectedTopNavId)
        && CategoryAbsent(categories, id)
      ensures old(deleteTarget).Some? ==>
        && store.docs == old(store.docs) && store.products == old(store.products)
        && deleteTarget == None && Loaded()
    {
      if deleteTarget.Some? {
        var target := deleteTarget.value;
        deleteTarget := None;
        if target.NavTarget? {
          RemoveNav(target.id);
        } else {
          RemoveCategory(target.id);
        }
      }
    }

    /** The top-navigation half of `confirmDelete`. */
    method RemoveNav(id: string)
      modifies store`topNav, this`selectedTopNavId, this`products, this`selectedProductId,
        this`navItems, this`categories, this`counts
      ensures store.topNav == Storage.RemoveId(old(store.topNav), id, Storage.TopNavId)
      ensures selectedTopNavId == (if old(selectedTopNavId) == id then "" else old(selectedTopNavId))
      ensures Loaded() && NavAbsent(navItems, id)
    {
      RemovedNavNotListed(store.topNav, id);
      store.DeleteTopNavItem(id);
      if selectedTopNavId == id {
        selectedTopNavId := "";
      }
      LoadData();
    }

    /** The category half of `confirmDelete`. */
    method RemoveCategory(id: string)
      modifies store`categories, this`products, this`selectedProductId,
        this`navItems, this`categories, this`counts
      ensures store.categories == Storage.RemoveId(old(store.categories), id, Storage.CategoryId)
      ensures Loaded() && CategoryAbsent(categories, id)
    {
      RemovedCategoryNotListed(store.categories, id);
      store.DeleteCategory(id);
      LoadData();
    }

    /** `autoTranslateNav`: with a label present, the English label becomes the
        translation. A failed translation rejects the call, so the form keeps its values and
        the busy flag stays set. */
    method AutoTranslateNav(t: AIService.Transport)
      modifies this`editingNav, this`isTranslating
      ensures old(editingNav).None? || old(editingNav).value.labelText == "" ==>
        editingNav == old(editingNav) && isTranslating == old(isTranslating)
      ensures old(editingNav).Some? && old(editingNav).value.labelText != "" ==>
        var r := AIService.TranslateToEnglish(old(editingNav).value.labelText, store.GetAIConfig(), t);
        && (r.Ok? ==> editingNav == Some(old(editingNav).value.(labelEn := r.value)) && !isTranslating)
        && (r.Err? ==> editingNav == old(editingNav) && isTranslating)
    {
      if editingNav.None? || editingNav.value.labelText == "" {
        return;
      }
      isTranslating := true;
      var r := AIService.TranslateToEnglish(editingNav.value.labelText, store.GetAIConfig(), t);
      if r.Ok? {
        editingNav := Some(editingNav.value.(labelEn := r.value));
        isTranslating := false;
      }
    }

    method AutoTranslateCat(t: AIService.Transport)
      modifies this`editingCat, this`isTranslating
      ensures old(editingCat).None? || old(editingCat).value.name == "" ==>
        editingCat == old(editingCat) && isTranslating == old(isTranslating)
      ensures old(editingCat).Some? && old(editingCat).value.name != "" ==>
        var r := AIService.TranslateToEnglish(old(editingCat).value.name, store.GetAIConfig(), t);
        && (r.Ok? ==> editingCat == Some(old(editingCat).value.(nameEn := r.value)) && !isTranslating)
        && (r.Err? ==> editingCat == old(editingCat) && isTranslating)
    {
      if editingCat.None? || editingCat.value.name == "" {
        return;
      }
      isTranslating := true;
      var r := AIService.TranslateToEnglish(editingCat.value.name, store.GetAIConfig(), t);
      if r.Ok? {
        editingCat := Some(editingCat.value.(nameEn := r.value));
        isTranslating := false;
      }
    }

    /** Leaving the label field translates only under the blur guard; otherwise, and in
        particular when an English label was already typed, nothing changes. */
    method HandleNavBlur(t: AIService.Transport)
      modifies this`editingNav, this`isTranslating
      ensures !NavBlurTranslates(old(editingNav), isAIEnabled) ==>
        editingNav == old(editingNav) && isTranslating == old(isTranslating)
      ensures NavBlurTranslates(old(editingNav), isAIEnabled) ==>
        var r := AIService.TranslateToEnglish(old(editingNav).value.labelText, store.GetAIConfig(), t);
        editingNav == (if r.Ok? then Some(old(editingNav).value.(labelEn := r.value)) else old(editingNav))
    {
      if NavBlurTranslates(editingNav, isAIEnabled) {
        AutoTranslateNav(t);
      }
    }

    method HandleCatBlur(t: AIService.Transport)
      modifies this`editingCat, this`isTranslating
      ensures !CategoryBlurTranslates(old(editingCat), isAIEnabled) ==>
        editingCat == old(editingCat) && isTranslating == old(isTranslating)
      ensures CategoryBlurTranslates(old(editingCat), isAIEnabled) ==>
        var r := AIService.TranslateToEnglish(old(editingCat).value.name, store.GetAIConfig(), t);
        editingCat == (if r.Ok? then Some(old(editingCat).value.(nameEn := r.value)) else old(editingCat))
    {
      if CategoryBlurTranslates(editingCat, isAIEnabled) {
        AutoTranslateCat(t);
      }
    }
  }
}
