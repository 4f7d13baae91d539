/** The document dashboard (pages/admin/Dashboard.tsx): the search and product filter over
    the document list, the selection of documents for a batch delete, and the single and
    batch deletions. */
module Dashboard {
  import opened Types
  import Text
  import Storage

  // ---------------------------------------------------------------------------
  // The filter

  /** The title contains the search text, both lower-cased. */
  predicate MatchesSearch(d: Doc, search: string) {
    Text.Contains(Text.Lower(d.title), Text.Lower(search))
  }

  /** With no product chosen every document passes; with one chosen, the document's
      category must exist and belong to it. */
  function MatchesProduct(d: Doc, cats: seq<Category>, productId: string): (r: bool)
    ensures productId == "" ==> r
    ensures productId != "" && (forall k :: 0 <= k < |cats| ==> cats[k].id != d.categoryId) ==> !r
    ensures productId != "" && r ==> exists k :: 0 <= k < |cats| && cats[k].id == d.categoryId && cats[k].productId == productId
  {
    if productId == "" then true
    else
      var i := Storage.IndexOfId(cats, d.categoryId, Storage.CategoryId);
      i < |cats| && cats[i].productId == productId
  }

  function Visible(cats: seq<Category>, search: string, productId: string): Doc -> bool {
    (d: Doc) => MatchesSearch(d, search) && MatchesProduct(d, cats, productId)
  }

  /** `filteredDocs` */
  function FilteredDocs(docs: seq<Doc>, cats: seq<Category>, search: string, productId: string): seq<Doc> {
    Filter(docs, Visible(cats, search, productId))
  }

  /** A document is listed exactly when it is stored, its title matches the search and it
      passes the product filter. */
  lemma FilteredDocsMember(docs: seq<Doc>, cats: seq<Category>, search: string, productId: string, d: Doc)
    ensures d in FilteredDocs(docs, cats, search, productId) <==>
      d in docs && MatchesSearch(d, search) && MatchesProduct(d, cats, productId)
  {
    FilterMember(docs, Visible(cats, search, productId), d);
  }

  /** Every title contains the empty search text. */
  lemma EmptySearchMatches(d: Doc)
    ensures MatchesSearch(d, "")
  {
    assert Text.OccursAt(Text.Lower(d.title), Text.Lower(""), 0);
  }

  /** With no search text and no product chosen, the dashboard lists every document, in
      store order. */
  lemma {:induction false} NoFilterListsAll(docs: seq<Doc>, cats: seq<Category>)
    ensures FilteredDocs(docs, cats, "", "") == docs
  {
    if docs != [] {
      EmptySearchMatches(docs[0]);
      NoFilterListsAll(docs[1..], cats);
    }
  }

  // ---------------------------------------------------------------------------
  // Selection

  /** The ids of the listed documents. */
  function Ids(docs: seq<Doc>): set<string> {
    set i | 0 <= i < |docs| :: docs[i].id
  }

  /** The header check box of the table as the page computes it: it compares the number of
      selected ids with the number of listed documents. */
  predicate SizesMatch(selected: set<string>, listed: seq<Doc>) {
    |listed| > 0 && |selected| == |listed|
  }

  /** `toggleSelectAll` as written: the selection is cleared when the sizes match, else it
      becomes the listed ids. */
  function ToggleAllAsWritten(selected: set<string>, listed: seq<Doc>): (r: set<string>)
    ensures SizesMatch(selected, listed) ==> r == {}
    ensures !SizesMatch(selected, listed) ==>
      forall x :: x in r <==> exists i :: 0 <= i < |listed| && listed[i].id == x
  {
    if SizesMatch(selected, listed) then {} else Ids(listed)
  }

  /** A document that is not listed, selected before the search narrowed the list, makes
      the sizes match although no listed document is selected: the page shows the box
      checked and a click clears the selection instead of selecting the listed document. */
  lemma AsWrittenClearsUnlisted()
    ensures var listed := [Doc("a", "", "", "", "", 0, Draft, "", "", None, None)];
      && SizesMatch({"b"}, listed)
      && listed[0].id !in {"b"}
      && ToggleAllAsWritten({"b"}, listed) == {}
  {
    var listed := [Doc("a", "", "", "", "", 0, Draft, "", "", None, None)];
    assert ToggleAllAsWritten({"b"}, listed) == {};
  }

  /** Every listed document is selected (the evidently intended condition of the box). */
  predicate AllSelected(selected: set<string>, listed: seq<Doc>) {
    |listed| > 0 && forall i :: 0 <= i < |listed| ==> listed[i].id in selected
  }

  /** `toggleSelectAll` with the intended condition: clear when every listed document is
      selected, else select exactly the listed documents. */
  function ToggleAll(selected: set<string>, listed: seq<Doc>): (r: set<string>)
    ensures AllSelected(selected, listed) ==> r == {}
    ensures !AllSelected(selected, listed) ==>
      forall x :: x in r <==> exists i :: 0 <= i < |listed| && listed[i].id == x
  {
    if AllSelected(selected, listed) then {} else Ids(listed)
  }

  /** Clicking the box twice on a non-empty list ends with every listed document selected
      when they were not all selected before, and with nothing selected otherwise. */
  lemma ToggleAllTwice(selected: set<string>, listed: seq<Doc>)
    requires |listed| > 0
    ensures AllSelected(selected, listed) ==> ToggleAll(ToggleAll(selected, listed), listed) == Ids(listed)
    ensures !AllSelected(selected, listed) ==> ToggleAll(ToggleAll(selected, listed), listed) == {}
  {
    if AllSelected(selected, listed) {
      assert listed[0].id !in ToggleAll(selected, listed);
    } else {
      assert AllSelected(Ids(listed), listed);
    }
  }

  /** When the selection only holds listed ids and the listed ids are distinct, the size
      comparison of the page and the intended condition agree. */
  lemma AsWrittenAgreesOnListed(selected: set<string>, listed: seq<Doc>)
    requires selected <= Ids(listed)
    requires forall i, j :: 0 <= i < j < |listed| ==> listed[i].id != listed[j].id
    ensures ToggleAllAsWritten(selected, listed) == ToggleAll(selected, listed)
  {
    IdsCount(listed);
    if SizesMatch(selected, listed) {
      SubsetSameSize(selected, Ids(listed));
      assert AllSelected(selected, listed);
    } else {
      AllSelectedCovers(selected, listed);
    }
  }

  lemma AllSelectedCovers(selected: set<string>, listed: seq<Doc>)
    requires selected <= Ids(listed)
    ensures AllSelected(selected, listed) ==> selected == Ids(listed)
  {
    if AllSelected(selected, listed) {
      assert Ids(listed) <= selected;
    }
  }

  lemma {:induction false} IdsCount(docs: seq<Doc>)
    requires forall i, j :: 0 <= i < j < |docs| ==> docs[i].id != docs[j].id
    ensures |Ids(docs)| == |docs|
  {
    if docs != [] {
      var pre := docs[..|docs| - 1];
      IdsCount(pre);
      assert Ids(docs) == Ids(pre) + {docs[|docs| - 1].id};
      assert docs[|docs| - 1].id !in Ids(pre);
    }
  }

  lemma SubsetSameSize(a: set<string>, b: set<string>)
    requires a <= b && |a| == |b|
    ensures a == b
  {
    if a != b {
      var x :| x in b && x !in a;
      assert a <= b - {x};
      SubsetSize(a, b - {x});
    }
  }

  lemma {:induction false} SubsetSize(a: set<string>, b: set<string>)
    requires a <= b
    ensures |a| <= |b|
    decreases |b|
  {
    if a != {} {
      var x :| x in a;
      SubsetSize(a - {x}, b - {x});
    }
  }

  // ---------------------------------------------------------------------------
  // Deletion

  function NotIn(ids: set<string>): Doc -> bool {
    (d: Doc) => d.id !in ids
  }

  /** Deleting one more id removes one more id from what is left. */
  lemma {:induction false} RemoveOneMore(docs: seq<Doc>, deleted: set<string>, id: string)
    ensures Storage.RemoveId(Filter(docs, NotIn(deleted)), id, Storage.DocId) ==
      Filter(docs, NotIn(deleted + {id}))
  {
    if docs != [] {
      RemoveOneMore(docs[1..], deleted, id);
    }
  }

  class DashboardPage {
    const store: Storage.ContentStore
    var docs: seq<Doc>
    var products: seq<Product>
    var categories: seq<Category>
    var search: string
    var selectedProductId: string
    var deleteId: Option<string>
    var showBatchDeleteConfirm: bool
    var selectedDocs: set<string>
    var isAIEnabled: bool

    function Listed(): seq<Doc>
      reads this
    {
      FilteredDocs(docs, categories, search, selectedProductId)
    }

    constructor (store: Storage.ContentStore)
      ensures this.store == store
      ensures docs == store.docs && products == store.products && categories == store.categories
      ensures selectedDocs == {} && isAIEnabled == store.GetAIConfig().enabled
      ensures search == "" && selectedProductId == "" && deleteId == None && !showBatchDeleteConfirm
    {
      this.store := store;
      search := "";
      selectedProductId := "";
      deleteId := None;
      showBatchDeleteConfirm := false;
      new;
      LoadData();
    }

    /** `loadData`: the lists are read again and the selection is always emptied. */
    method LoadData()
      modifies this`docs, this`products, this`categories, this`selectedDocs, this`isAIEnabled
      ensures docs == store.docs && products == store.products && categories == store.categories
      ensures selectedDocs == {}
      ensures isAIEnabled == store.GetAIConfig().enabled
    {
      docs := store.docs;
      products := store.products;
      categories := store.categories;
      selectedDocs := {};
      isAIEnabled := store.GetAIConfig().enabled;
    }

    method SetSearch(text: string)
      modifies this`search
      ensures search == text
    {
      search := text;
    }

    method SelectProduct(id: string)
      modifies this`selectedProductId
      ensures selectedProductId == id
    {
      selectedProductId := id;
    }

    method ToggleSelectOne(id: string)
      modifies this`selectedDocs
      ensures selectedDocs == Toggle(old(selectedDocs), id)
    {
      if id in selectedDocs {
        selectedDocs := selectedDocs - {id};
      } else {
        selectedDocs := selectedDocs + {id};
      }
    }

    /** The header box as the page has it: the size comparison decides, so a selection kept
        from before the search narrowed the list can clear instead of select (see
        AsWrittenClearsUnlisted; ToggleAll is the intended rule). */
    method ToggleSelectAll()
      modifies this`selectedDocs
      ensures selectedDocs == ToggleAllAsWritten(old(selectedDocs), Listed())
    {
      var listed := Listed();
      if |listed| > 0 && |selectedDocs| == |listed| {
        selectedDocs := {};
      } else {
        selectedDocs := Ids(listed);
      }
    }

    method AskDelete(id: string)
      modifies this`deleteId
      ensures deleteId == Some(id)
    {
      deleteId := Some(id);
    }

    method CancelDelete()
      modifies this`deleteId
      ensures deleteId == None
    {
      deleteId := None;
    }

    /** `confirmDelete`: a pending non-empty id is deleted, the lists are reloaded and the
        dialog closes; an empty id is falsy and leaves everything as it was. */
    method ConfirmDelete()
      modifies store`docs, this`docs, this`products, this`categories, this`selectedDocs,
        this`isAIEnabled, this`deleteId
      ensures old(deleteId).None? || old(deleteId).value == "" ==>
        unchanged(store) && docs == old(docs) && selectedDocs == old(selectedDocs) && deleteId == old(deleteId)
      ensures old(deleteId).Some? && old(deleteId).value != "" ==>
        && store.docs == Storage.RemoveId(old(store.docs), old(deleteId).value, Storage.DocId)
        && store.products == old(store.products) && store.categories == old(store.categories)
        && docs == store.docs && selectedDocs == {} && deleteId == None
        && (forall k :: 0 <= k < |docs| ==> docs[k].id != old(deleteId).value)
    {
      if deleteId.Some? && deleteId.value != "" {
        var id := deleteId.value;
        store.DeleteDoc(id);
        LoadData();
        deleteId := None;
        forall k | 0 <= k < |docs| ensures docs[k].id != id {
          Storage.RemoveIdMember(old(store.docs), id, Storage.DocId, docs[k]);
        }
      }
    }

    method AskBatchDelete()
      modifies this`showBatchDeleteConfirm
      ensures showBatchDeleteConfirm
    {
      showBatchDeleteConfirm := true;
    }

    /** `confirmBatchDelete`: every selected id is deleted, in whatever order the set gives
        them, so exactly the documents with a selected id are gone; the selection ends
        empty. */
    method ConfirmBatchDelete()
      modifies store`docs, this`docs, this`products, this`categories, this`selectedDocs,
        this`isAIEnabled, this`showBatchDeleteConfirm
      ensures store.docs == Filter(old(store.docs), NotIn(old(selectedDocs)))
      ensures store.products == old(store.products) && store.categories == old(store.categories)
      ensures docs == store.docs && selectedDocs == {} && !showBatchDeleteConfirm
    {
      DeleteAll(store, selectedDocs);
      LoadData();
      showBatchDeleteConfirm := false;
      selectedDocs := {};
    }
  }

  /** The deletion loop of `confirmBatchDelete`: the ids are taken from the set in any order,
      and each is deleted from the store. */
  method DeleteAll(store: Storage.ContentStore, ids: set<string>)
    modifies store`docs
    ensures store.docs == Filter(old(store.docs), NotIn(ids))
    ensures store.products == old(store.products) && store.categories == old(store.categories)
  {
    var remaining := ids;
    ghost var deleted: set<string> := {};
    NoneDeleted(store.docs);
    while remaining != {}
      invariant remaining + deleted == ids && remaining !! deleted
      invariant store.docs == Filter(old(store.docs), NotIn(deleted))
      invariant store.products == old(store.products) && store.categories == old(store.categories)
      decreases |remaining|
    {
      var id :| id in remaining;
      RemoveOneMore(old(store.docs), deleted, id);
      store.DeleteDoc(id);
      remaining := remaining - {id};
      deleted := deleted + {id};
    }
  }

  lemma {:induction false} NoneDeleted(docs: seq<Doc>)
    ensures Filter(docs, NotIn({})) == docs
  {
    if docs != [] {
      NoneDeleted(docs[1..]);
    }
  }
}
