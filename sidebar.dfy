/** The documentation sidebar (components/Sidebar.tsx): the categories of the current
    product and top-navigation item, which of them are expanded, and the category tree with
    the published documents of each leaf category. */
module Sidebar {
  import opened Types
  import Ordering
  import Storage
  import ProductContext

  function OfProduct(productId: string): Category -> bool {
    (c: Category) => c.productId == productId
  }

  function UnderNav(navId: string): Category -> bool {
    (c: Category) => c.topNavId == navId
  }

  /** The categories the sidebar works on: those of the current product, and of the chosen
      top-navigation item when one is chosen; none without a current product. */
  function Shown(all: seq<Category>, current: Option<Product>, navId: Option<string>): seq<Category> {
    if current.None? then []
    else
      var ofProduct := Filter(all, OfProduct(current.value.id));
      if navId.Some? && navId.value != "" then Filter(ofProduct, UnderNav(navId.value)) else ofProduct
  }

  lemma ShownMember(all: seq<Category>, current: Option<Product>, navId: Option<string>, c: Category)
    ensures c in Shown(all, current, navId) <==>
      && current.Some? && c in all && c.productId == current.value.id
      && (navId.Some? && navId.value != "" ==> c.topNavId == navId.value)
  {
    if current.Some? {
      var ofProduct := Filter(all, OfProduct(current.value.id));
      FilterMember(all, OfProduct(current.value.id), c);
      if navId.Some? && navId.value != "" {
        FilterMember(ofProduct, UnderNav(navId.value), c);
      }
    }
  }

  function Ids(cats: seq<Category>): set<string> {
    set i | 0 <= i < |cats| :: cats[i].id
  }

  // ---------------------------------------------------------------------------
  // The tree

  function ChildOf(parentId: Option<string>): Category -> bool {
    (c: Category) => c.parentId == parentId
  }

  /** The children of a node (of the root for no id), in ascending `order`. */
  function Children(cats: seq<Category>, parentId: Option<string>): seq<Category> {
    Ordering.SortBy(Filter(cats, ChildOf(parentId)), CategoryOrder)
  }

  lemma ChildrenMeaning(cats: seq<Category>, parentId: Option<string>, c: Category)
    ensures Ordering.Ascending(Children(cats, parentId), CategoryOrder)
    ensures c in Children(cats, parentId) <==> c in cats && c.parentId == parentId
  {
    Ordering.SortBySorts(Filter(cats, ChildOf(parentId)), CategoryOrder);
    Ordering.SortByMember(Filter(cats, ChildOf(parentId)), CategoryOrder, c);
    FilterMember(cats, ChildOf(parentId), c);
  }

  function PublishedIn(catId: string): Doc -> bool {
    (d: Doc) => d.categoryId == catId && d.status == Published
  }

  /** The documents listed under a leaf category: its published ones, in store order. */
  function LeafDocs(docs: seq<Doc>, catId: string): seq<Doc> {
    Filter(docs, PublishedIn(catId))
  }

  lemma LeafDocsMeaning(docs: seq<Doc>, catId: string, d: Doc)
    ensures d in LeafDocs(docs, catId) <==> d in docs && d.categoryId == catId && d.status == Published
  {
    FilterMember(docs, PublishedIn(catId), d);
  }

  /** What one level of the tree shows: a list of categories, the documents of a leaf, or
      the "Empty" note of a leaf without published documents. */
  datatype Tree = Branches(items: seq<Item>) | Leaf(docs: seq<Doc>) | EmptyLeaf
  /** A category entry: its title, whether it is expanded, and the level under it when it
      is expanded and the depth bound allows. */
  datatype Item = Item(cat: Category, title: string, isOpen: bool, sub: Option<Tree>)

  /** `renderTree`, cut off after `fuel` levels. */
  function RenderTree(cats: seq<Category>, docs: seq<Doc>, expanded: set<string>, parentId: Option<string>,
                      lang: Language, fuel: nat): (r: Tree)
    ensures parentId.Some? && Children(cats, parentId) == [] ==>
      (if LeafDocs(docs, parentId.value) == [] then r == EmptyLeaf else r == Leaf(LeafDocs(docs, parentId.value)))
    ensures parentId.None? || Children(cats, parentId) != [] ==>
      && r.Branches?
      && |r.items| == |Children(cats, parentId)|
      && forall i :: 0 <= i < |r.items| ==>
           && r.items[i].cat == Children(cats, parentId)[i]
           && r.items[i].title == Localized(r.items[i].cat.name, r.items[i].cat.nameEn, lang)
           && (r.items[i].isOpen <==> r.items[i].cat.id in expanded)
           && (r.items[i].sub.Some? ==> r.items[i].isOpen)
    decreases fuel
  {
    var childCats := Children(cats, parentId);
    if |childCats| == 0 && parentId.Some? then
      var catDocs := LeafDocs(docs, parentId.value);
      if |catDocs| == 0 then EmptyLeaf else Leaf(catDocs)
    else
      Branches(seq(|childCats|, i requires 0 <= i < |childCats| =>
        var c := childCats[i];
        Item(c, Localized(c.name, c.nameEn, lang), c.id in expanded,
             if c.id in expanded && fuel > 0
             then Some(RenderTree(cats, docs, expanded, Some(c.id), lang, fuel - 1))
             else None)))
  }

  /** A collapsed category shows nothing under it, and with enough depth an expanded one
      shows the level of its own children or documents. */
  lemma ExpandedShowsLevel(cats: seq<Category>, docs: seq<Doc>, expanded: set<string>, parentId: Option<string>,
                           lang: Language, fuel: nat, i: nat)
    requires fuel > 0
    requires var r := RenderTree(cats, docs, expanded, parentId, lang, fuel); r.Branches? && i < |r.items|
    ensures var item := RenderTree(cats, docs, expanded, parentId, lang, fuel).items[i];
      && (item.cat.id !in expanded ==> item.sub.None?)
      && (item.cat.id in expanded ==> item.sub == Some(RenderTree(cats, docs, expanded, Some(item.cat.id), lang, fuel - 1)))
  {
  }

  /** The note under the header when nothing is shown. */
  function NoCategoriesNote(navId: Option<string>): (r: string)
    ensures navId.Some? && navId.value != "" ==> r == "No categories found."
    ensures navId.None? || navId.value == "" ==> r == "Select a tab above."
  {
    if navId.Some? && navId.value != "" then "No categories found." else "Select a tab above."
  }

  class SidebarView {
    const store: Storage.ContentStore
    const ctx: ProductContext.ProductContextState
    var categories: seq<Category>
    var docs: seq<Doc>
    var expanded: set<string>

    constructor (store: Storage.ContentStore, ctx: ProductContext.ProductContextState)
      ensures this.store == store && this.ctx == ctx
      ensures categories == [] && docs == [] && expanded == {}
    {
      this.store := store;
      this.ctx := ctx;
      categories := [];
      docs := [];
      expanded := {};
    }

    /** The effect run when the current product or item changes: every shown category
        starts expanded. */
    method Sync()
      modifies this`categories, this`docs, this`expanded
      ensures categories == Shown(store.categories, ctx.currentProduct, ctx.currentTopNavId)
      ensures docs == store.docs
      ensures expanded == Ids(categories)
    {
      categories := Shown(store.categories, ctx.currentProduct, ctx.currentTopNavId);
      docs := store.docs;
      expanded := Ids(categories);
    }

    /** `toggleExpand`: one id changes its state, the others keep theirs. */
    method ToggleExpand(id: string)
      modifies this`expanded
      ensures expanded == Toggle(old(expanded), id)
    {
      if id in expanded {
        expanded := expanded - {id};
      } else {
        expanded := expanded + {id};
      }
    }

    /** The tree under the heading, or the note when no category is shown. */
    function View(lang: Language, fuel: nat): (r: Result<Tree, string>)
      reads this, ctx
      ensures categories == [] ==> r == Err(NoCategoriesNote(ctx.currentTopNavId))
      ensures categories != [] ==> r.Ok? && r.value.Branches?
    {
      if |categories| > 0 then Ok(RenderTree(categories, docs, expanded, None, lang, fuel))
      else Err(NoCategoriesNote(ctx.currentTopNavId))
    }
  }
}
