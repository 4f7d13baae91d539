/** The PDF import dialog (components/PdfImportModal.tsx): choosing a PDF file, the
    upload / analysing / review steps around the AI analysis, and the import that groups the
    analysed documents by category name, creates one category per group with consecutive
    orders, and saves every document under its group's category. */
module PdfImport {
  import opened Types
  import opened Text
  import Slug
  import Storage
  import AIService

  type ImportedDoc = AIService.ImportedDoc

  datatype Step = Upload | Analyzing | Review

  /** The dialog's error line: not a PDF, something missing before analysis, analysis
      failed. */
  datatype PdfError = NotPdf | MissingInput | AnalysisFailed

  /** A file chosen in the browser, as far as the dialog looks at it. */
  datatype PickedFile = PickedFile(name: string, mimeType: string)

  const PdfMime: string := "application/pdf"
  const DefaultGroup: string := "General"

  // ---------------------------------------------------------------------------
  // Grouping

  /** The group of an analysed document: its category name, or "General" when it has none. */
  function GroupName(d: ImportedDoc): (g: string)
    ensures g != ""
    ensures d.categoryName != "" ==> g == d.categoryName
    ensures d.categoryName == "" ==> g == DefaultGroup
  {
    if d.categoryName == "" then DefaultGroup else d.categoryName
  }

  function InGroup(g: string): ImportedDoc -> bool {
    (d: ImportedDoc) => GroupName(d) == g
  }

  /** The distinct group names, each added when its first document is met. */
  function GroupNames(data: seq<ImportedDoc>): seq<string>
    decreases |data|
  {
    if data == [] then []
    else
      var names := GroupNames(data[..|data| - 1]);
      var g := GroupName(data[|data| - 1]);
      if g in names then names else names + [g]
  }

  /** The documents of one group, in input order. */
  function Members(data: seq<ImportedDoc>, g: string): seq<ImportedDoc> {
    Filter(data, InGroup(g))
  }

  lemma GroupNamesLast(data: seq<ImportedDoc>)
    requires data != []
    ensures var names := GroupNames(data[..|data| - 1]); var g := GroupName(data[|data| - 1]);
      GroupNames(data) == if g in names then names else names + [g]
  {
  }

  /** A name is listed exactly when some document belongs to that group. */
  lemma {:induction false} GroupNamesMember(data: seq<ImportedDoc>, g: string)
    ensures g in GroupNames(data) <==> exists k :: 0 <= k < |data| && GroupName(data[k]) == g
    decreases |data|
  {
    if data != [] {
      var pre := data[..|data| - 1];
      GroupNamesMember(pre, g);
      GroupNamesLast(data);
      if exists k :: 0 <= k < |pre| && GroupName(pre[k]) == g {
        var k :| 0 <= k < |pre| && GroupName(pre[k]) == g;
        assert data[k] == pre[k];
      }
      if exists k :: 0 <= k < |data| && GroupName(data[k]) == g {
        var k :| 0 <= k < |data| && GroupName(data[k]) == g;
        if k < |pre| {
          assert pre[k] == data[k];
        }
      }
    }
  }

  /** No group is listed twice. */
  lemma {:induction false} GroupNamesDistinct(data: seq<ImportedDoc>)
    ensures var names := GroupNames(data);
      forall i, j :: 0 <= i < j < |names| ==> names[i] != names[j]
    decreases |data|
  {
    if data != [] {
      GroupNamesDistinct(data[..|data| - 1]);
      GroupNamesLast(data);
    }
  }

  /** Where the first element satisfying `p` stands once `x` is appended. */
  lemma {:induction false} FirstIndexSnoc<T>(s: seq<T>, x: T, p: T -> bool)
    ensures FirstIndex(s + [x], p) == if FirstIndex(s, p) < |s| then FirstIndex(s, p) else if p(x) then |s| else |s| + 1
    decreases |s|
  {
    if s == [] {
      assert s + [x] == [x];
    } else {
      assert (s + [x])[1..] == s[1..] + [x];
      FirstIndexSnoc(s[1..], x, p);
    }
  }

  /** Groups are listed in the order in which their first documents appear. */
  lemma {:induction false} GroupsInFirstOccurrenceOrder(data: seq<ImportedDoc>, i: nat, j: nat)
    requires i < j < |GroupNames(data)|
    ensures var names := GroupNames(data);
      FirstIndex(data, InGroup(names[i])) < FirstIndex(data, InGroup(names[j])) < |data|
    decreases |data|
  {
    var pre := data[..|data| - 1];
    var x := data[|data| - 1];
    var names := GroupNames(data);
    var prenames := GroupNames(pre);
    GroupNamesLast(data);
    assert pre + [x] == data;
    assert names[..|prenames|] == prenames;
    FirstIndexSnoc(pre, x, InGroup(names[i]));
    FirstIndexSnoc(pre, x, InGroup(names[j]));
    GroupNamesMember(pre, names[i]);
    assert FirstIndex(pre, InGroup(names[i])) < |pre|;
    if j < |prenames| {
      GroupsInFirstOccurrenceOrder(pre, i, j);
    } else {
      GroupNamesMember(pre, names[j]);
      assert names[j] == GroupName(x);
      assert FirstIndex(pre, InGroup(names[j])) == |pre|;
    }
  }

  /** Every analysed document lands in exactly one group. */
  lemma EachDocOneGroup(data: seq<ImportedDoc>, k: nat)
    requires k < |data|
    ensures var names := GroupNames(data);
      exists i :: 0 <= i < |names| && data[k] in Members(data, names[i])
        && forall i' :: 0 <= i' < |names| && data[k] in Members(data, names[i']) ==> i' == i
  {
    var names := GroupNames(data);
    var g := GroupName(data[k]);
    GroupNamesMember(data, g);
    GroupNamesDistinct(data);
    var i :| 0 <= i < |names| && names[i] == g;
    FilterMember(data, InGroup(g), data[k]);
    forall i' | 0 <= i' < |names| && data[k] in Members(data, names[i']) ensures i' == i {
      FilterMember(data, InGroup(names[i']), data[k]);
    }
  }

  lemma MembersStep(data: seq<ImportedDoc>, k: nat, g: string)
    requires k < |data|
    ensures Members(data[..k + 1], g) == Members(data[..k], g) + (if GroupName(data[k]) == g then [data[k]] else [])
  {
    assert data[..k + 1] == data[..k] + [data[k]];
    FilterAppend(data[..k], [data[k]], InGroup(g));
    assert [data[k]][1..] == [];
  }

  lemma {:induction false} NoMembers(data: seq<ImportedDoc>, g: string)
    requires forall k :: 0 <= k < |data| ==> GroupName(data[k]) != g
    ensures Members(data, g) == []
    decreases |data|
  {
    if data != [] {
      NoMembers(data[1..], g);
    }
  }

  lemma GroupStepNew(data: seq<ImportedDoc>, k: nat)
    requires k < |data| && GroupName(data[k]) !in GroupNames(data[..k])
    ensures GroupNames(data[..k + 1]) == GroupNames(data[..k]) + [GroupName(data[k])]
    ensures Members(data[..k + 1], GroupName(data[k])) == [data[k]]
  {
    var g := GroupName(data[k]);
    assert data[..k + 1][..k] == data[..k];
    GroupNamesLast(data[..k + 1]);
    GroupNamesMember(data[..k], g);
    NoMembers(data[..k], g);
    MembersStep(data, k, g);
  }

  lemma MembersStepAll(data: seq<ImportedDoc>, k: nat, names: seq<string>)
    requires k < |data|
    ensures forall i :: 0 <= i < |names| ==>
      Members(data[..k + 1], names[i]) == Members(data[..k], names[i]) + (if GroupName(data[k]) == names[i] then [data[k]] else [])
  {
    forall i | 0 <= i < |names| ensures Members(data[..k + 1], names[i]) ==
      Members(data[..k], names[i]) + (if GroupName(data[k]) == names[i] then [data[k]] else []) {
      MembersStep(data, k, names[i]);
    }
  }

  lemma GroupStepOld(data: seq<ImportedDoc>, k: nat, i: nat)
    requires k < |data| && i < |GroupNames(data[..k])| && GroupNames(data[..k])[i] == GroupName(data[k])
    ensures GroupNames(data[..k + 1]) == GroupNames(data[..k])
    ensures var names := GroupNames(data[..k]);
      forall i' :: 0 <= i' < |names| && i' != i ==> names[i'] != GroupName(data[k])
  {
    assert data[..k + 1][..k] == data[..k];
    GroupNamesLast(data[..k + 1]);
    GroupNamesDistinct(data[..k]);
  }

  /** The grouping loop: a map from group name to its documents, filled in input order. */
  method GroupDocs(data: seq<ImportedDoc>) returns (names: seq<string>, groups: seq<seq<ImportedDoc>>)
    ensures names == GroupNames(data)
    ensures |groups| == |names|
    ensures forall i :: 0 <= i < |names| ==> groups[i] == Members(data, names[i])
  {
    names, groups := [], [];
    for k := 0 to |data|
      invariant names == GroupNames(data[..k])
      invariant |groups| == |names|
      invariant forall i :: 0 <= i < |names| ==> groups[i] == Members(data[..k], names[i])
    {
      var g := GroupName(data[k]);
      var i := FirstIndex(names, (s: string) => s == g);
      MembersStepAll(data, k, names);
      if i == |names| {
        GroupStepNew(data, k);
        names, groups := names + [g], groups + [[data[k]]];
      } else {
        GroupStepOld(data, k, i);
        groups := groups[i := groups[i] + [data[k]]];
      }
    }
    assert data[..|data|] == data;
  }

  // ---------------------------------------------------------------------------
  // What the import saves

  /** The values one import shares: the chosen product and top-navigation item, the clock,
      the author, and the random ids drawn for the i-th category and for the j-th document
      of the i-th group. */
  datatype Target = Target(productId: string, navId: string, now: nat, author: string,
                           catId: nat -> string, docId: (nat, nat) -> string)

  function OnNav(navId: string): Category -> bool {
    (c: Category) => c.topNavId == navId
  }

  /** The first order given out: one more than the categories already under the
      top-navigation item. */
  function FirstOrder(existing: seq<Category>, navId: string): (r: int)
    ensures r == |Filter(existing, OnNav(navId))| + 1
    ensures 1 <= r <= |existing| + 1
  {
    |Filter(existing, OnNav(navId))| + 1
  }

  function NewCategory(g: string, i: nat, order: int, tg: Target): Category {
    Category(tg.catId(i), tg.productId, tg.navId, g, "", None, order)
  }

  function PlannedCategories(names: seq<string>, first: int, tg: Target): seq<Category> {
    seq(|names|, i requires 0 <= i < |names| => NewCategory(names[i], i, first + i, tg))
  }

  /** One category per group, under the chosen product and top-navigation item, with
      consecutive orders starting at `first`. */
  lemma PlannedCategoriesShape(names: seq<string>, first: int, tg: Target)
    ensures var cs := PlannedCategories(names, first, tg);
      && |cs| == |names|
      && (forall i :: 0 <= i < |cs| ==>
            cs[i].name == names[i] && cs[i].id == tg.catId(i) && cs[i].order == first + i
            && cs[i].productId == tg.productId && cs[i].topNavId == tg.navId && cs[i].parentId == None)
      && (forall i :: 0 <= i < |cs| - 1 ==> cs[i + 1].order == cs[i].order + 1)
  {
  }

  /** The document saved for the j-th member of the i-th group. */
  function ImportDoc(d: ImportedDoc, i: nat, j: nat, tg: Target): Doc {
    Doc(tg.docId(i, j), d.title, Slug.PdfSlug(d.title, tg.now), tg.catId(i), d.content, tg.now,
      Published, tg.author, "1.0.0", None, None)
  }

  function GroupDocsOf(members: seq<ImportedDoc>, i: nat, tg: Target): seq<Doc> {
    seq(|members|, j requires 0 <= j < |members| => ImportDoc(members[j], i, j, tg))
  }

  /** The documents of the first `n` groups, group after group. */
  function PlannedDocs(data: seq<ImportedDoc>, names: seq<string>, n: nat, tg: Target): seq<Doc>
    requires n <= |names|
  {
    if n == 0 then []
    else PlannedDocs(data, names, n - 1, tg) + GroupDocsOf(Members(data, names[n - 1]), n - 1, tg)
  }

  lemma PlannedDocsHasGroup(data: seq<ImportedDoc>, names: seq<string>, n: nat, tg: Target, i: nat, j: nat)
    requires i < n <= |names| && j < |Members(data, names[i])|
    ensures ImportDoc(Members(data, names[i])[j], i, j, tg) in PlannedDocs(data, names, n, tg)
  {
    var x := ImportDoc(Members(data, names[i])[j], i, j, tg);
    GroupDocAt(Members(data, names[i]), i, j, tg);
    InAppend(x, PlannedDocs(data, names, i, tg), GroupDocsOf(Members(data, names[i]), i, tg));
    PlannedDocsGrow(data, names, i + 1, n, tg, x);
  }

  /** The documents planned for the first `m` groups stay planned with more groups. */
  lemma {:induction false} PlannedDocsGrow(data: seq<ImportedDoc>, names: seq<string>, m: nat, n: nat,
                                           tg: Target, x: Doc)
    requires m <= n <= |names| && x in PlannedDocs(data, names, m, tg)
    ensures x in PlannedDocs(data, names, n, tg)
    decreases n
  {
    if m < n {
      PlannedDocsGrow(data, names, m, n - 1, tg, x);
      InAppend(x, PlannedDocs(data, names, n - 1, tg), GroupDocsOf(Members(data, names[n - 1]), n - 1, tg));
    }
  }

  lemma GroupDocAt(members: seq<ImportedDoc>, i: nat, j: nat, tg: Target)
    requires j < |members|
    ensures ImportDoc(members[j], i, j, tg) in GroupDocsOf(members, i, tg)
  {
    assert GroupDocsOf(members, i, tg)[j] == ImportDoc(members[j], i, j, tg);
  }

  lemma InAppend(x: Doc, a: seq<Doc>, b: seq<Doc>)
    ensures x in a + b <==> x in a || x in b
  {
  }

  /** Every analysed document is saved under the category of its own group, published, with
      version "1.0.0" and the import slug of its title. */
  lemma EveryDocSaved(data: seq<ImportedDoc>, tg: Target, k: nat)
    requires k < |data|
    ensures var names := GroupNames(data);
      exists i, j :: 0 <= i < |names| && names[i] == GroupName(data[k])
        && ImportDoc(data[k], i, j, tg) in PlannedDocs(data, names, |names|, tg)
  {
    var names := GroupNames(data);
    var g := GroupName(data[k]);
    GroupNamesMember(data, g);
    var i :| 0 <= i < |names| && names[i] == g;
    FilterMember(data, InGroup(g), data[k]);
    var ms := Members(data, g);
    var j :| 0 <= j < |ms| && ms[j] == data[k];
    PlannedDocsHasGroup(data, names, |names|, tg, i, j);
  }

  /** Every saved document comes from an analysed document of the group whose category it
      is saved under. */
  lemma {:induction false} PlannedDocsSound(data: seq<ImportedDoc>, names: seq<string>, n: nat, tg: Target, x: Doc)
    requires n <= |names| && x in PlannedDocs(data, names, n, tg)
    ensures exists i, j ::
      0 <= i < n && 0 <= j < |Members(data, names[i])| && x == ImportDoc(Members(data, names[i])[j], i, j, tg)
    decreases n
  {
    var rest := PlannedDocs(data, names, n - 1, tg);
    var last := GroupDocsOf(Members(data, names[n - 1]), n - 1, tg);
    if x in rest {
      PlannedDocsSound(data, names, n - 1, tg, x);
    } else {
      var j :| 0 <= j < |last| && last[j] == x;
    }
  }

  lemma PlannedDocsNext(data: seq<ImportedDoc>, names: seq<string>, i: nat, tg: Target, members: seq<ImportedDoc>)
    requires i < |names| && members == Members(data, names[i])
    ensures PlannedDocs(data, names, i + 1, tg) == PlannedDocs(data, names, i, tg) + GroupDocsOf(members, i, tg)
  {
  }

  lemma PlannedCategoryAt(names: seq<string>, first: int, tg: Target, i: nat)
    requires i < |names|
    ensures |PlannedCategories(names, first, tg)| == |names|
    ensures PlannedCategories(names, first, tg)[i] == NewCategory(names[i], i, first + i, tg)
  {
  }

  /** The documents of a group, saved one by one. */
  method SaveGroupDocs(store: Storage.ContentStore, members: seq<ImportedDoc>, i: nat, tg: Target)
    modifies store`docs
    ensures store.docs == Storage.UpsertAll(old(store.docs), GroupDocsOf(members, i, tg), Storage.DocId)
  {
    var docs0 := store.docs;
    ghost var planned := GroupDocsOf(members, i, tg);
    for j := 0 to |members|
      invariant store.docs == Storage.UpsertAll(docs0, planned[..j], Storage.DocId)
    {
      var d := ImportDoc(members[j], i, j, tg);
      store.SaveDoc(d);
      assert planned[j] == d;
      Storage.UpsertAllSnoc(docs0, planned, j, Storage.DocId);
    }
    assert planned[..|members|] == planned;
  }

  /** The saving loop: each group's category, then its documents, with the order counter
      advancing once per group. */
  method SaveGroups(store: Storage.ContentStore, data: seq<ImportedDoc>, names: seq<string>,
                    groups: seq<seq<ImportedDoc>>, tg: Target)
    requires |groups| == |names|
    requires forall i :: 0 <= i < |names| ==> groups[i] == Members(data, names[i])
    modifies store`categories, store`docs
    ensures var first := FirstOrder(old(store.categories), tg.navId);
      store.categories == Storage.UpsertAll(old(store.categories), PlannedCategories(names, first, tg), Storage.CategoryId)
    ensures store.docs == Storage.UpsertAll(old(store.docs), PlannedDocs(data, names, |names|, tg), Storage.DocId)
  {
    var cats0, docs0 := store.categories, store.docs;
    var first := FirstOrder(store.categories, tg.navId);
    var orderCounter := first;
    ghost var planned := PlannedCategories(names, first, tg);
    for i := 0 to |names|
      invariant orderCounter == first + i
      invariant store.categories == Storage.UpsertAll(cats0, planned[..i], Storage.CategoryId)
      invariant store.docs == Storage.UpsertAll(docs0, PlannedDocs(data, names, i, tg), Storage.DocId)
    {
      var c := NewCategory(names[i], i, orderCounter, tg);
      store.SaveCategory(c);
      assert planned[i] == c by { PlannedCategoryAt(names, first, tg, i); }
      Storage.UpsertAllSnoc(cats0, planned, i, Storage.CategoryId);
      orderCounter := orderCounter + 1;
      SaveGroupDocs(store, groups[i], i, tg);
      Storage.UpsertAllAppend(docs0, PlannedDocs(data, names, i, tg), GroupDocsOf(groups[i], i, tg), Storage.DocId);
      PlannedDocsNext(data, names, i, tg, groups[i]);
    }
    assert planned[..|names|] == planned;
  }

  // ---------------------------------------------------------------------------
  // The dialog

  /** The analysis of a chosen file: `extract` stands for the PDF text extraction, and the
      text goes to the AI service. */
  function Analysis(f: PickedFile, extract: PickedFile -> Result<string, string>, cfg: AIConfig,
                    t: AIService.Transport, parse: string -> Option<seq<ImportedDoc>>)
    : (r: Result<seq<ImportedDoc>, string>)
    ensures extract(f).Err? ==> r.Err?
  {
    match extract(f)
    case Err(e) => Err(e)
    case Ok(text) => AIService.AnalyzePdfContent(text, cfg, t, parse)
  }

  class PdfImportForm {
    const store: Storage.ContentStore
    var step: Step
    var file: Option<PickedFile>
    var analyzedData: seq<ImportedDoc>
    var topNavs: seq<TopNavItem>
    var selectedProductId: string
    var selectedTopNavId: string
    var error: Option<PdfError>

    /** Opening the dialog loads the top-navigation items and resets everything else. */
    constructor (store: Storage.ContentStore)
      ensures this.store == store && topNavs == store.topNav
      ensures step == Upload && file.None? && analyzedData == [] && error.None?
      ensures selectedProductId == "" && selectedTopNavId == ""
    {
      this.store := store;
      topNavs := store.topNav;
      step := Upload;
      file := None;
      analyzedData := [];
      error := None;
      selectedProductId, selectedTopNavId := "", "";
    }

    /** The top-navigation items offered for the chosen product. */
    function AvailableNavs(): seq<TopNavItem>
      reads this`topNavs, this`selectedProductId
    {
      NavsOf(topNavs, selectedProductId)
    }

    /** Choosing a product clears the top-navigation item. */
    method SelectProduct(id: string)
      modifies this`selectedProductId, this`selectedTopNavId
      ensures selectedProductId == id && selectedTopNavId == ""
    {
      selectedProductId, selectedTopNavId := id, "";
    }

    method SelectTopNav(id: string)
      modifies this`selectedTopNavId
      ensures selectedTopNavId == id
    {
      selectedTopNavId := id;
    }

    /** Only the first chosen file counts; a file that is not a PDF raises the error and keeps
        the file chosen before. */
    method HandleFileChange(picked: seq<PickedFile>)
      modifies this`file, this`error
      ensures picked == [] ==> file == old(file) && error == old(error)
      ensures picked != [] && picked[0].mimeType != PdfMime ==> file == old(file) && error == Some(NotPdf)
      ensures picked != [] && picked[0].mimeType == PdfMime ==> file == Some(picked[0]) && error.None?
    {
      if |picked| > 0 {
        var selected := picked[0];
        if selected.mimeType != PdfMime {
          error := Some(NotPdf);
          return;
        }
        file := Some(selected);
        error := None;
      }
    }

    /** Starting the analysis needs a file, a product and a top-navigation item. A result
        moves the dialog to review; a failure returns it to upload with the error. */
    method StartAnalysis(extract: PickedFile -> Result<string, string>, t: AIService.Transport,
                         parse: string -> Option<seq<ImportedDoc>>)
      modifies this`step, this`analyzedData, this`error
      ensures file.None? || selectedProductId == "" || selectedTopNavId == "" ==>
        error == Some(MissingInput) && step == old(step) && analyzedData == old(analyzedData)
      ensures file.Some? && selectedProductId != "" && selectedTopNavId != "" ==>
        var r := Analysis(file.value, extract, store.GetAIConfig(), t, parse);
        && (r.Ok? ==> step == Review && analyzedData == r.value && error == old(error))
        && (r.Err? ==> step == Upload && analyzedData == old(analyzedData) && error == Some(AnalysisFailed))
    {
      if file.None? || selectedProductId == "" || selectedTopNavId == "" {
        error := Some(MissingInput);
        return;
      }
      step := Analyzing;
      var cfg := store.GetAIConfig();
      var r := Analysis(file.value, extract, cfg, t, parse);
      if r.Ok? {
        analyzedData := r.value;
        step := Review;
      } else {
        error := Some(AnalysisFailed);
        step := Upload;
      }
    }

    /** The import: one category per group, then its documents. `now` is the clock, `catId`
        and `docId` the random ids and `username` the stored user name. */
    method HandleImport(now: nat, catId: nat -> string, docId: (nat, nat) -> string, username: Option<string>)
      modifies store`categories, store`docs
      ensures var tg := Target(selectedProductId, selectedTopNavId, now, Storage.Author(username, "System"), catId, docId);
        var names := GroupNames(analyzedData);
        && store.categories == Storage.UpsertAll(old(store.categories),
             PlannedCategories(names, FirstOrder(old(store.categories), selectedTopNavId), tg), Storage.CategoryId)
        && store.docs == Storage.UpsertAll(old(store.docs), PlannedDocs(analyzedData, names, |names|, tg), Storage.DocId)
    {
      var tg := Target(selectedProductId, selectedTopNavId, now, Storage.Author(username, "System"), catId, docId);
      var names, groups := GroupDocs(analyzedData);
      SaveGroups(store, analyzedData, names, groups, tg);
    }
  }
}
