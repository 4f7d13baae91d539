/** The site header (components/Header.tsx): the admin-mode test, the quick search over all
    documents, the top-navigation items of the current product with the automatic choice of
    the first one, the product switch and where it leads, and the localised labels. */
module Header {
  import opened Types
  import opened Text
  import Ordering
  import Storage
  import ProductContext

  /** The admin console is every route under "/admin". */
  predicate IsAdmin(path: string) {
    StartsWith(path, "/admin")
  }

  // ---------------------------------------------------------------------------
  // Search

  const SearchLimit: nat := 5

  /** The lower-cased query occurs in the lower-cased title or content. */
  predicate Hit(d: Doc, query: string) {
    Contains(Lower(d.title), Lower(query)) || Contains(Lower(d.content), Lower(query))
  }

  function HitOf(query: string): Doc -> bool {
    (d: Doc) => Hit(d, query)
  }

  /** The search runs once the query has more than one character besides surrounding white
      space; it matches the query as typed. */
  predicate SearchRuns(query: string) {
    |Trim(query)| > 1
  }

  /** The search results: the first five hits in store order, none for a short query. */
  function SearchResults(docs: seq<Doc>, query: string): (r: seq<Doc>)
    ensures !SearchRuns(query) ==> r == []
    ensures |r| <= SearchLimit
    ensures forall i :: 0 <= i < |r| ==> Hit(r[i], query)
  {
    if SearchRuns(query) then
      var hits := Filter(docs, HitOf(query));
      if |hits| <= SearchLimit then hits else hits[..SearchLimit]
    else []
  }

  /** The results are the leading hits in store order, and when fewer than five come back
      they are every hit there is. */
  lemma SearchResultsMeaning(docs: seq<Doc>, query: string, d: Doc)
    requires SearchRuns(query)
    ensures var r := SearchResults(docs, query);
      && r == Filter(docs, HitOf(query))[..|r|]
      && (|r| < SearchLimit ==> (d in r <==> d in docs && Hit(d, query)))
  {
    FilterMember(docs, HitOf(query), d);
  }

  // ---------------------------------------------------------------------------
  // Top navigation

  function OfProduct(productId: string): TopNavItem -> bool {
    (n: TopNavItem) => n.productId == productId
  }

  /** The items shown in the public header: those of the current product in ascending
      `order`, none without a current product. */
  function PublicNavs(all: seq<TopNavItem>, current: Option<Product>): seq<TopNavItem> {
    if current.Some? then Filter(Ordering.SortBy(all, NavOrder), OfProduct(current.value.id)) else []
  }

  lemma PublicNavsMeaning(all: seq<TopNavItem>, current: Option<Product>, n: TopNavItem)
    ensures Ordering.Ascending(PublicNavs(all, current), NavOrder)
    ensures n in PublicNavs(all, current) <==> current.Some? && n in all && n.productId == current.value.id
  {
    if current.Some? {
      Ordering.SortBySorts(all, NavOrder);
      Ordering.FilterAscending(Ordering.SortBy(all, NavOrder), NavOrder, OfProduct(current.value.id));
      FilterMember(Ordering.SortBy(all, NavOrder), OfProduct(current.value.id), n);
      Ordering.SortByMember(all, NavOrder, n);
    }
  }

  /** The first item is chosen for the visitor only on a public page, with a current
      product that has items and no item chosen yet. */
  predicate AutoSelects(current: Option<Product>, navs: seq<TopNavItem>, currentTopNavId: Option<string>, admin: bool) {
    current.Some? && |navs| > 0 && (currentTopNavId.None? || currentTopNavId.value == "") && !admin
  }

  // ---------------------------------------------------------------------------
  // Product switch

  /** Where a navigation goes: the home page, a path of a top-navigation item, or a
      document page. */
  datatype Route = Home | NavPath(path: string) | DocPage(slug: string)

  function RouteText(r: Route): string {
    match r
    case Home => "/"
    case NavPath(p) => p
    case DocPage(slug) => "/docs/" + slug
  }

  /** What a product switch chooses: the top-navigation item to select, if any, and the
      page to open. */
  datatype Switch = Switch(topNav: Option<TopNavItem>, route: Route)

  function ProductNavs(navs: seq<TopNavItem>, productId: string): seq<TopNavItem> {
    Ordering.SortBy(Filter(navs, OfProduct(productId)), NavOrder)
  }

  function UnderNav(navId: string): Category -> bool {
    (c: Category) => c.topNavId == navId
  }

  function NavCategories(cats: seq<Category>, navId: string): seq<Category> {
    Ordering.SortBy(Filter(cats, UnderNav(navId)), CategoryOrder)
  }

  function PublishedIn(catId: string): Doc -> bool {
    (d: Doc) => d.categoryId == catId && d.status == Published
  }

  /** `handleProductSwitch`: the product's lowest-order item is chosen; for an internal
      item the page is the first published document of the item's lowest-order category,
      else the item's own path; an external item, or a product without items, leads home. */
  function SwitchTarget(navs: seq<TopNavItem>, cats: seq<Category>, docs: seq<Doc>, productId: string): (r: Switch)
    ensures r.topNav.None? ==> r.route == Home
  {
    var prodNavs := ProductNavs(navs, productId);
    if |prodNavs| == 0 then Switch(None, Home)
    else
      var first := prodNavs[0];
      if first.kind == External then Switch(Some(first), Home)
      else
        var relevantCats := NavCategories(cats, first.id);
        if |relevantCats| == 0 then Switch(Some(first), NavPath(first.path))
        else
          var relevantDocs := Filter(docs, PublishedIn(relevantCats[0].id));
          if |relevantDocs| > 0 then Switch(Some(first), DocPage(relevantDocs[0].slug))
          else Switch(Some(first), NavPath(first.path))
  }

  /** The chosen item belongs to the product and has the lowest `order` among its items;
      without items, or with an external first item, the switch leads home. */
  lemma SwitchChoosesFirstNav(navs: seq<TopNavItem>, cats: seq<Category>, docs: seq<Doc>, productId: string)
    ensures var r := SwitchTarget(navs, cats, docs, productId);
      && (r.topNav.None? <==> forall k :: 0 <= k < |navs| ==> navs[k].productId != productId)
      && (r.topNav.Some? ==>
            && r.topNav.value in navs && r.topNav.value.productId == productId
            && (forall k :: 0 <= k < |navs| && navs[k].productId == productId ==> r.topNav.value.order <= navs[k].order)
            && (r.topNav.value.kind == External ==> r.route == Home)
            && (r.topNav.value.kind == Internal ==> r.route != Home))
  {
    var ofProduct := Filter(navs, OfProduct(productId));
    var prodNavs := ProductNavs(navs, productId);
    Ordering.SortBySorts(ofProduct, NavOrder);
    assert |prodNavs| == |ofProduct|;
    if |prodNavs| == 0 {
      forall k | 0 <= k < |navs| ensures navs[k].productId != productId {
        FilterMember(navs, OfProduct(productId), navs[k]);
      }
    } else {
      var first := prodNavs[0];
      Ordering.SortByMember(ofProduct, NavOrder, first);
      FilterMember(navs, OfProduct(productId), first);
      forall k | 0 <= k < |navs| && navs[k].productId == productId ensures first.order <= navs[k].order {
        FilterMember(navs, OfProduct(productId), navs[k]);
        Ordering.SortByMember(ofProduct, NavOrder, navs[k]);
        Ordering.FirstIsLeast(prodNavs, NavOrder, navs[k]);
      }
    }
  }

  /** A switch that opens a document opens a published one, filed under a category of the
      chosen item that has the lowest `order` among that item's categories. */
  lemma SwitchOpensPublishedDoc(navs: seq<TopNavItem>, cats: seq<Category>, docs: seq<Doc>, productId: string)
    ensures var r := SwitchTarget(navs, cats, docs, productId);
      r.route.DocPage? ==>
        && r.topNav.Some? && r.topNav.value.kind == Internal
        && exists d, c :: d in docs && c in cats
             && d.slug == r.route.slug && d.status == Published && d.categoryId == c.id
             && c.topNavId == r.topNav.value.id
             && (forall k :: 0 <= k < |cats| && cats[k].topNavId == c.topNavId ==> c.order <= cats[k].order)
  {
    var r := SwitchTarget(navs, cats, docs, productId);
    if r.route.DocPage? {
      var first := r.topNav.value;
      var under := Filter(cats, UnderNav(first.id));
      var relevantCats := NavCategories(cats, first.id);
      Ordering.SortBySorts(under, CategoryOrder);
      var c := relevantCats[0];
      Ordering.SortByMember(under, CategoryOrder, c);
      FilterMember(cats, UnderNav(first.id), c);
      var relevantDocs := Filter(docs, PublishedIn(c.id));
      var d := relevantDocs[0];
      FilterMember(docs, PublishedIn(c.id), d);
      forall k | 0 <= k < |cats| && cats[k].topNavId == c.topNavId ensures c.order <= cats[k].order {
        FilterMember(cats, UnderNav(first.id), cats[k]);
        Ordering.SortByMember(under, CategoryOrder, cats[k]);
        Ordering.FirstIsLeast(relevantCats, CategoryOrder, cats[k]);
      }
    }
  }

  // ---------------------------------------------------------------------------
  // Labels

  /** `getProductName`: nothing without a product, else its localised name. */
  function ProductName(p: Option<Product>, lang: Language): (r: string)
    ensures p.None? ==> r == ""
    ensures p.Some? && lang == En && p.value.nameEn != "" ==> r == p.value.nameEn
    ensures p.Some? && (lang == Zh || p.value.nameEn == "") ==> r == p.value.name
  {
    if p.None? then "" else Localized(p.value.name, p.value.nameEn, lang)
  }

  /** `getNavLabel` */
  function NavLabel(item: TopNavItem, lang: Language): (r: string)
    ensures lang == En && item.labelEn != "" ==> r == item.labelEn
    ensures lang == Zh || item.labelEn == "" ==> r == item.labelText
  {
    Localized(item.labelText, item.labelEn, lang)
  }

  /** A click on an item of the public header opens its path in the page for an internal
      item and in a new tab for an external one. */
  datatype Opening = InPage(route: string) | NewTab(url: string)

  // ---------------------------------------------------------------------------
  // The header

  class HeaderView {
    const store: Storage.ContentStore
    const ctx: ProductContext.ProductContextState
    const path: string
    var navItems: seq<TopNavItem>
    var showProductMenu: bool
    var searchQuery: string
    var searchResults: seq<Doc>
    var showSearch: bool

    constructor (store: Storage.ContentStore, ctx: ProductContext.ProductContextState, path: string)
      ensures this.store == store && this.ctx == ctx && this.path == path
      ensures navItems == [] && !showProductMenu && searchQuery == "" && searchResults == [] && !showSearch
    {
      this.store := store;
      this.ctx := ctx;
      this.path := path;
      navItems := [];
      showProductMenu := false;
      searchQuery := "";
      searchResults := [];
      showSearch := false;
    }

    /** The effect run when the current product, the chosen item or the admin mode changes:
        the product's items are listed and, under the guard, the first one is chosen. */
    method SyncNavs()
      modifies this`navItems, ctx`currentTopNavId
      ensures navItems == PublicNavs(store.topNav, ctx.currentProduct)
      ensures AutoSelects(ctx.currentProduct, navItems, old(ctx.currentTopNavId), IsAdmin(path)) ==>
        ctx.currentTopNavId == Some(navItems[0].id)
      ensures !AutoSelects(ctx.currentProduct, navItems, old(ctx.currentTopNavId), IsAdmin(path)) ==>
        ctx.currentTopNavId == old(ctx.currentTopNavId)
    {
      navItems := PublicNavs(store.topNav, ctx.currentProduct);
      if AutoSelects(ctx.currentProduct, navItems, ctx.currentTopNavId, IsAdmin(path)) {
        ctx.SetTopNavId(navItems[0].id);
      }
    }

    /** The search effect, run whenever the query changes. */
    method SetSearchQuery(query: string)
      modifies this`searchQuery, this`searchResults, this`showSearch
      ensures searchQuery == query
      ensures searchResults == SearchResults(store.docs, query)
      ensures showSearch <==> SearchRuns(query)
    {
      searchQuery := query;
      if |Trim(query)| > 1 {
        var docs := store.docs;
        var hits := Filter(docs, HitOf(query));
        searchResults := if |hits| <= SearchLimit then hits else hits[..SearchLimit];
        showSearch := true;
      } else {
        searchResults := [];
        showSearch := false;
      }
    }

    /** Choosing the i-th search result follows its link to the document's editor, closes the
        list and clears the query; the search effect then runs on the empty query and empties
        the results. */
    method PickResult(i: nat) returns (route: string)
      requires i < |searchResults|
      modifies this`showSearch, this`searchQuery, this`searchResults
      ensures route == "/admin/edit/" + old(searchResults)[i].id
      ensures !showSearch && searchQuery == "" && searchResults == []
    {
      route := "/admin/edit/" + searchResults[i].id;
      SetSearchQuery("");
    }

    /** Focusing the search box reopens the list when there are results. */
    method FocusSearch()
      modifies this`showSearch
      ensures showSearch <==> old(showSearch) || |searchResults| > 0
    {
      if |searchResults| > 0 {
        showSearch := true;
      }
    }

    /** `handleProductSwitch`: the product becomes current when it is listed, the menu
        closes, the product's first item is chosen, and the page given by `SwitchTarget` is
        opened. */
    method HandleProductSwitch(productId: string) returns (route: string)
      modifies ctx`currentProduct, ctx`storedProductId, ctx`currentTopNavId, this`showProductMenu
      ensures var target := SwitchTarget(store.topNav, store.categories, store.docs, productId);
        && route == RouteText(target.route)
        && (target.topNav.Some? ==> ctx.currentTopNavId == Some(target.topNav.value.id))
        && (target.topNav.None? && (exists k :: 0 <= k < |ctx.products| && ctx.products[k].id == productId) ==>
              ctx.currentTopNavId == None)
        && (target.topNav.None? && (forall k :: 0 <= k < |ctx.products| ==> ctx.products[k].id != productId) ==>
              ctx.currentTopNavId == old(ctx.currentTopNavId))
      ensures (exists k :: 0 <= k < |ctx.products| && ctx.products[k].id == productId) ==>
        ctx.currentProduct.Some? && ctx.currentProduct.value.id == productId
      ensures !showProductMenu
    {
      ctx.SetProductId(productId);
      showProductMenu := false;
      var target := SwitchTarget(store.topNav, store.categories, store.docs, productId);
      if target.topNav.Some? {
        ctx.SetTopNavId(target.topNav.value.id);
      }
      route := RouteText(target.route);
    }

    /** A click on an item of the public header chooses it and opens its path. */
    method SelectNav(item: TopNavItem) returns (o: Opening)
      modifies ctx`currentTopNavId
      ensures ctx.currentTopNavId == Some(item.id)
      ensures item.kind == Internal ==> o == InPage(item.path)
      ensures item.kind == External ==> o == NewTab(item.path)
    {
      ctx.SetTopNavId(item.id);
      if item.kind == Internal {
        o := InPage(item.path);
      } else {
        o := NewTab(item.path);
      }
    }
  }
}
