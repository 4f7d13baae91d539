/** The batch Markdown upload dialog (components/BatchUploadModal.tsx): the list of chosen
    files, the product / top-navigation / category selection, and the submission that turns
    each file into a published document with a title taken from its first heading and a slug
    that no document stored before the submission uses. */
module BatchUpload {
  import opened Types
  import opened Text
  import Slug
  import Storage

  /** A chosen file with the text the file reader produced for it. */
  datatype MdFile = MdFile(name: string, content: string)

  /** `UploadFailed` is the message shown when reading a file or saving a document throws. */
  datatype UploadError = NoFiles | MissingSelection | UploadFailed

  predicate IsMarkdownFile(f: MdFile) { EndsWith(f.name, ".md") }

  // ---------------------------------------------------------------------------
  // The file list

  /** The files picked in the file input that end in ".md" are appended to the list. */
  function AddFiles(files: seq<MdFile>, picked: seq<MdFile>): (r: seq<MdFile>)
    ensures |files| <= |r| && r[..|files|] == files
    ensures forall i :: |files| <= i < |r| ==> IsMarkdownFile(r[i])
  {
    files + Filter(picked, IsMarkdownFile)
  }

  /** A file is added exactly when it was picked and its name ends in ".md". */
  lemma AddFilesMember(files: seq<MdFile>, picked: seq<MdFile>, f: MdFile)
    ensures f in AddFiles(files, picked)[|files|..] <==> f in picked && IsMarkdownFile(f)
  {
    assert AddFiles(files, picked)[|files|..] == Filter(picked, IsMarkdownFile);
    FilterMember(picked, IsMarkdownFile, f);
  }

  /** Keeping every file whose position differs from `i`. */
  function RemoveAt(files: seq<MdFile>, i: int): (r: seq<MdFile>)
    ensures 0 <= i < |files| ==> r == files[..i] + files[i + 1..]
    ensures !(0 <= i < |files|) ==> r == files
    decreases |files|
  {
    if files == [] then []
    else if i == 0 then files[1..]
    else
      var rest := RemoveAt(files[1..], i - 1);
      assert 0 < i <= |files[1..]| ==> files[..i] + files[i + 1..] == [files[0]] + (files[1..][..i - 1] + files[1..][i..]);
      [files[0]] + rest
  }

  // ---------------------------------------------------------------------------
  // The title: /^#\s+(.+)$/m, else the file name without ".md"

  predicate LineStart(s: string, p: nat)
    requires p <= |s|
  {
    p == 0 || IsLineTerminator(s[p - 1])
  }

  /** The end of the run of white space starting at `k`. */
  function SpaceEnd(s: string, k: nat): (e: nat)
    requires k <= |s|
    ensures k <= e <= |s|
    ensures forall i :: k <= i < e ==> IsSpace(s[i])
    ensures e < |s| ==> !IsSpace(s[e])
    decreases |s| - k
  {
    if k == |s| || !IsSpace(s[k]) then k else SpaceEnd(s, k + 1)
  }

  /** The end of the line holding position `k`. */
  function LineEnd(s: string, k: nat): (e: nat)
    requires k <= |s|
    ensures k <= e <= |s|
    ensures forall i :: k <= i < e ==> !IsLineTerminator(s[i])
    ensures e < |s| ==> IsLineTerminator(s[e])
    decreases |s| - k
  {
    if k == |s| || IsLineTerminator(s[k]) then k else LineEnd(s, k + 1)
  }

  /** Where `(.+)` starts once `\s+` has backed off as little as it can: the last position in
      `[lo, hi]` that holds a character other than a line terminator. */
  function LastTextStart(s: string, lo: nat, hi: nat): (r: Option<nat>)
    requires hi <= |s|
    ensures r.Some? ==> lo <= r.value <= hi && r.value < |s| && !IsLineTerminator(s[r.value])
    ensures r.Some? ==> forall i :: r.value < i <= hi && i < |s| ==> IsLineTerminator(s[i])
    ensures r.None? ==> forall i :: lo <= i <= hi && i < |s| ==> IsLineTerminator(s[i])
    decreases hi
  {
    if hi < lo then None
    else if hi < |s| && !IsLineTerminator(s[hi]) then Some(hi)
    else if hi == 0 then None
    else LastTextStart(s, lo, hi - 1)
  }

  /** The text captured by a heading match that starts at `p`: a line that begins with '#',
      white space (which may run over line ends), then the rest of a line. */
  function HeadingAt(s: string, p: nat): (r: Option<string>)
    requires p <= |s|
    ensures r.Some? ==> LineStart(s, p) && p < |s| && s[p] == '#' && |r.value| >= 1
    ensures r.Some? ==> forall i :: 0 <= i < |r.value| ==> !IsLineTerminator(r.value[i])
  {
    if LineStart(s, p) && p + 1 < |s| && s[p] == '#' && IsSpace(s[p + 1]) then
      match LastTextStart(s, p + 2, SpaceEnd(s, p + 1))
      case Some(k) => Some(s[k..LineEnd(s, k)])
      case None => None
    else None
  }

  /** The first position at or after `k` where a heading match starts. */
  function FirstHeading(s: string, k: nat): (r: Option<nat>)
    requires k <= |s|
    ensures r.Some? ==> k <= r.value <= |s| && HeadingAt(s, r.value).Some?
    decreases |s| - k
  {
    if HeadingAt(s, k).Some? then Some(k)
    else if k == |s| then None
    else FirstHeading(s, k + 1)
  }

  /** The heading found is the first one: no match starts before it, and "none" means that
      the pattern matches nowhere from `k` on. */
  lemma {:induction false} FirstHeadingMeaning(s: string, k: nat)
    requires k <= |s|
    ensures var r := FirstHeading(s, k);
      && (r.Some? ==> forall j :: k <= j < r.value ==> HeadingAt(s, j).None?)
      && (r.None? ==> forall j :: k <= j <= |s| ==> HeadingAt(s, j).None?)
    decreases |s| - k
  {
    var h := HeadingAt(s, k);
    if h.None? && k < |s| {
      FirstHeadingMeaning(s, k + 1);
      var r := FirstHeading(s, k);
      assert r == FirstHeading(s, k + 1);
      var end := if r.Some? then r.value else |s| + 1;
      forall j | k <= j < end ensures HeadingAt(s, j).None? {
        if j == k {
          assert HeadingAt(s, j) == h;
        }
      }
    }
  }

  function Title(f: MdFile): string {
    match FirstHeading(f.content, 0)
    case Some(p) => Trim(HeadingAt(f.content, p).value)
    case None => DropMdSuffix(f.name)
  }

  /** A file that opens with "# " and a line of text is titled by that line, trimmed. */
  lemma TitleFromFirstLine(name: string, text: string, rest: string)
    requires |text| >= 1 && !IsSpace(text[0])
    requires forall i :: 0 <= i < |text| ==> !IsLineTerminator(text[i])
    requires rest == [] || IsLineTerminator(rest[0])
    ensures Title(MdFile(name, "# " + text + rest)) == Trim(text)
  {
    var s := "# " + text + rest;
    assert s[2] == text[0];
    assert SpaceEnd(s, 2) == 2;
    assert SpaceEnd(s, 1) == 2;
    assert LastTextStart(s, 2, 2) == Some(2);
    var e := 2 + |text|;
    assert forall i :: 2 <= i < e ==> s[i] == text[i - 2];
    assert e < |s| ==> s[e] == rest[0];
    LineEndAt(s, 2, e);
    assert s[2..e] == text;
    assert HeadingAt(s, 0) == Some(text);
  }

  lemma {:induction false} LineEndAt(s: string, k: nat, e: nat)
    requires k <= e <= |s|
    requires forall i :: k <= i < e ==> !IsLineTerminator(s[i])
    requires e < |s| ==> IsLineTerminator(s[e])
    ensures LineEnd(s, k) == e
    decreases e - k
  {
    if k < e {
      LineEndAt(s, k + 1, e);
    }
  }

  /** A file with no '#' at all is titled by its name without the ".md" ending. */
  lemma TitleWithoutHeading(f: MdFile)
    requires '#' !in f.content
    ensures Title(f) == DropMdSuffix(f.name)
  {
    var s := f.content;
    forall j | 0 <= j <= |s| ensures HeadingAt(s, j).None? {
      if j < |s| {
        assert s[j] != '#';
      }
    }
  }

  // ---------------------------------------------------------------------------
  // The slug and the new document

  /** The slug made from the title, or "doc-" and the time when that slug is empty. */
  function BaseSlug(title: string, now: nat): string {
    var g := Slug.GenerateSlug(title);
    if g != "" then g else "doc-" + DecimalString(now)
  }

  /** The base slug is never empty, and is a clean slug whenever it comes from the title. */
  lemma BaseSlugShape(title: string, now: nat)
    ensures BaseSlug(title, now) != ""
    ensures Slug.GenerateSlug(title) != "" ==> Slug.IsCleanSlug(BaseSlug(title, now))
  {
    Slug.GenerateSlugIsClean(title);
  }

  /** The values that one submission shares between its files; `freshId(i)` is the random id
      drawn for the i-th file. */
  datatype Batch = Batch(categoryId: string, now: nat, author: string, freshId: nat -> string)

  function NewDoc(f: MdFile, slug: string, b: Batch, i: nat): Doc {
    Doc(b.freshId(i), Title(f), slug, b.categoryId, f.content, b.now, Published, b.author,
        "1.0.0", None, None)
  }

  /** Each document is made from the file at the same position. */
  predicate Imported(r: seq<Doc>, files: seq<MdFile>, b: Batch) {
    |r| == |files| && forall i :: 0 <= i < |r| ==> r[i] == NewDoc(files[i], r[i].slug, b, i)
  }

  /** The document the dialog makes from the i-th file: its slug is the first one free among
      the documents that existed before the submission. */
  function AsWrittenDoc(f: MdFile, i: nat, before: seq<Doc>, b: Batch): Doc {
    NewDoc(f, Slug.FreeSlug(BaseSlug(Title(f), b.now), before), b, i)
  }

  /** The documents as the dialog makes them: every slug is checked against the documents
      that existed before the submission only. */
  function ImportAsWritten(files: seq<MdFile>, before: seq<Doc>, b: Batch): (r: seq<Doc>)
    ensures |r| == |files|
    decreases |files|
  {
    if files == [] then []
    else
      var n := |files| - 1;
      ImportAsWritten(files[..n], before, b) + [AsWrittenDoc(files[n], n, before, b)]
  }

  lemma ImportStep(files: seq<MdFile>, i: nat, before: seq<Doc>, b: Batch)
    requires i < |files|
    ensures var pre := Import(files[..i], before, b);
      Import(files[..i + 1], before, b)
        == pre + [NewDoc(files[i], Slug.FreeSlug(BaseSlug(Title(files[i]), b.now), before + pre), b, i)]
  {
    assert files[..i + 1][..i] == files[..i];
  }

  lemma ImportAsWrittenStep(files: seq<MdFile>, i: nat, before: seq<Doc>, b: Batch)
    requires i < |files|
    ensures ImportAsWritten(files[..i + 1], before, b)
      == ImportAsWritten(files[..i], before, b) + [AsWrittenDoc(files[i], i, before, b)]
  {
    assert files[..i + 1][..i] == files[..i];
  }

  /** Every document the dialog makes carries its file's title and content, the chosen
      category, the published status, version "1.0.0", the submission time and the author. */
  lemma {:induction false} AsWrittenMakesDocs(files: seq<MdFile>, before: seq<Doc>, b: Batch)
    ensures Imported(ImportAsWritten(files, before, b), files, b)
    decreases |files|
  {
    if files != [] {
      var n := |files| - 1;
      AsWrittenMakesDocs(files[..n], before, b);
      var pre := ImportAsWritten(files[..n], before, b);
      var x := AsWrittenDoc(files[n], n, before, b);
      assert ImportAsWritten(files, before, b) == pre + [x];
      ImportedAppend(pre, x, files, b);
    }
  }

  /** No slug the dialog makes is used by a document stored before the submission. */
  lemma {:induction false} AsWrittenSlugsFree(files: seq<MdFile>, before: seq<Doc>, b: Batch)
    ensures forall i :: 0 <= i < |files| ==>
      !Slug.SlugTaken(before, ImportAsWritten(files, before, b)[i].slug)
    decreases |files|
  {
    if files != [] {
      var n := |files| - 1;
      AsWrittenSlugsFree(files[..n], before, b);
      var pre := ImportAsWritten(files[..n], before, b);
      var base := BaseSlug(Title(files[n]), b.now);
      var x := AsWrittenDoc(files[n], n, before, b);
      assert ImportAsWritten(files, before, b) == pre + [x];
      Slug.FreeSlugUnused(base, before);
    }
  }

  /** The same file twice in one submission gives two documents with the same slug. */
  lemma AsWrittenDuplicates(f: MdFile, before: seq<Doc>, b: Batch)
    ensures var r := ImportAsWritten([f, f], before, b); r[0].slug == r[1].slug
  {
    assert [f, f][..1] == [f];
    assert [f][..0] == [];
  }

  /** The documents as intended: every slug is also checked against the documents already
      made in the same submission. */
  function Import(files: seq<MdFile>, before: seq<Doc>, b: Batch): (r: seq<Doc>)
    ensures |r| == |files|
    decreases |files|
  {
    if files == [] then []
    else
      var n := |files| - 1;
      var pre := Import(files[..n], before, b);
      var f := files[n];
      pre + [NewDoc(f, Slug.FreeSlug(BaseSlug(Title(f), b.now), before + pre), b, n)]
  }

  /** Every imported document carries its file's title and content, the chosen category, the
      published status, version "1.0.0", the submission time and the author. */
  lemma {:induction false} ImportMakesDocs(files: seq<MdFile>, before: seq<Doc>, b: Batch)
    ensures Imported(Import(files, before, b), files, b)
    decreases |files|
  {
    if files != [] {
      var n := |files| - 1;
      ImportMakesDocs(files[..n], before, b);
      var pre := Import(files[..n], before, b);
      var x := Import(files, before, b)[n];
      assert Import(files, before, b) == pre + [x];
      ImportedAppend(pre, x, files, b);
    }
  }

  lemma ImportedAppend(pre: seq<Doc>, x: Doc, files: seq<MdFile>, b: Batch)
    requires files != [] && Imported(pre, files[..|files| - 1], b)
    requires x == NewDoc(files[|files| - 1], x.slug, b, |files| - 1)
    ensures Imported(pre + [x], files, b)
  {
    var n := |files| - 1;
    forall i | 0 <= i < n ensures (pre + [x])[i] == NewDoc(files[i], (pre + [x])[i].slug, b, i) {
      assert files[..n][i] == files[i];
    }
  }

  /** No slug of `r` is used by a document of `before`, and no two of them are equal. */
  predicate SlugsFresh(r: seq<Doc>, before: seq<Doc>) {
    && (forall i :: 0 <= i < |r| ==> !Slug.SlugTaken(before, r[i].slug))
    && (forall i, j :: 0 <= i < j < |r| ==> r[i].slug != r[j].slug)
  }

  /** No imported slug is used by an earlier document, nor by another imported one. */
  lemma {:induction false} ImportSlugsUnique(files: seq<MdFile>, before: seq<Doc>, b: Batch)
    ensures SlugsFresh(Import(files, before, b), before)
    decreases |files|
  {
    if files != [] {
      var n := |files| - 1;
      ImportSlugsUnique(files[..n], before, b);
      var pre := Import(files[..n], before, b);
      var base := BaseSlug(Title(files[n]), b.now);
      var x := NewDoc(files[n], Slug.FreeSlug(base, before + pre), b, n);
      assert Import(files, before, b) == pre + [x];
      Slug.FreeSlugUnused(base, before + pre);
      FreshAppend(pre, x, before);
    }
  }

  lemma FreshAppend(pre: seq<Doc>, x: Doc, before: seq<Doc>)
    requires SlugsFresh(pre, before) && !Slug.SlugTaken(before + pre, x.slug)
    ensures SlugsFresh(pre + [x], before)
  {
    forall i | 0 <= i < |before| ensures before[i].slug != x.slug {
      assert (before + pre)[i] == before[i];
    }
    forall i | 0 <= i < |pre| ensures pre[i].slug != x.slug {
      assert (before + pre)[|before| + i] == pre[i];
    }
  }

  
  /** The checks made before anything is saved: first that there is a file, then that a
      product, a top-navigation item and a category are all chosen. */
  function SubmitError(files: seq<MdFile>, productId: string, navId: string, categoryId: string): (r: Option<UploadError>)
    ensures r == Some(NoFiles) <==> files == []
    ensures r == Some(MissingSelection) <==> files != [] && (productId == "" || navId == "" || categoryId == "")
    ensures r == None <==> files != [] && productId != "" && navId != "" && categoryId != ""
  {
    if files == [] then Some(NoFiles)
    else if productId == "" || navId == "" || categoryId == "" then Some(MissingSelection)
    else None
  }

  // ---------------------------------------------------------------------------
  // The dialog

  class UploadForm {
    const store: Storage.ContentStore
    var files: seq<MdFile>
    var topNavs: seq<TopNavItem>
    var categories: seq<Category>
    var selectedProductId: string
    var selectedTopNavId: string
    var selectedCategoryId: string
    var error: Option<UploadError>

    /** Opening the dialog loads the lists and clears the files, the selection and the error. */
    constructor (store: Storage.ContentStore)
      ensures this.store == store && files == [] && error == None
      ensures topNavs == store.topNav && categories == store.categories
      ensures selectedProductId == "" && selectedTopNavId == "" && selectedCategoryId == ""
    {
      this.store := store;
      files := [];
      topNavs := store.topNav;
      categories := store.categories;
      selectedProductId, selectedTopNavId, selectedCategoryId := "", "", "";
      error := None;
    }

    /** The top-navigation items offered for the selected product. */
    function AvailableNavs(): seq<TopNavItem>
      reads this`topNavs, this`selectedProductId
    {
      NavsOf(topNavs, selectedProductId)
    }

    /** The categories offered for the selected product and top-navigation item. */
    function AvailableCategories(): seq<Category>
      reads this`categories, this`selectedProductId, this`selectedTopNavId
    {
      CategoriesOf(categories, selectedProductId, selectedTopNavId)
    }

    /** Choosing a product clears the top-navigation item and the category below it. */
    method SelectProduct(id: string)
      modifies this`selectedProductId, this`selectedTopNavId, this`selectedCategoryId
      ensures selectedProductId == id && selectedTopNavId == "" && selectedCategoryId == ""
    {
      selectedProductId, selectedTopNavId, selectedCategoryId := id, "", "";
    }

    /** Choosing a top-navigation item clears the category. */
    method SelectTopNav(id: string)
      modifies this`selectedTopNavId, this`selectedCategoryId
      ensures selectedTopNavId == id && selectedCategoryId == ""
    {
      selectedTopNavId, selectedCategoryId := id, "";
    }

    method SelectCategory(id: string)
      modifies this`selectedCategoryId
      ensures selectedCategoryId == id
    {
      selectedCategoryId := id;
    }

    /** `picked` is `None` when the input reports no file list. */
    method HandleFileChange(picked: Option<seq<MdFile>>)
      modifies this`files
      ensures picked.None? ==> files == old(files)
      ensures picked.Some? ==> files == AddFiles(old(files), picked.value)
    {
      if picked.Some? {
        files := AddFiles(files, picked.value);
      }
    }

    method RemoveFile(index: int)
      modifies this`files
      ensures 0 <= index < |old(files)| ==> files == old(files)[..index] + old(files)[index + 1..]
      ensures !(0 <= index < |old(files)|) ==> files == old(files)
    {
      files := RemoveAt(files, index);
    }

    /** The submission. `now` is the clock, `freshId(i)` the random id of the i-th file,
        `username` the stored user name and `failAt` the position of the first file whose
        reading or saving throws (a position past the last file when none does). With no file, or with the selection incomplete, nothing is saved
        and the matching error is shown. Otherwise the files are saved in order until the
        first failure: the documents saved before it stay, the failure message is shown and
        the dialog stays open; without a failure every file is saved and `closed` reports that
        the success and close callbacks run. */
    method HandleSubmit(now: nat, freshId: nat -> string, username: Option<string>, failAt: nat)
      returns (closed: bool)
      modifies this`error, store`docs
      ensures var e := SubmitError(old(files), old(selectedProductId), old(selectedTopNavId), old(selectedCategoryId));
        e.Some? ==> error == e && store.docs == old(store.docs)
      ensures var e := SubmitError(old(files), old(selectedProductId), old(selectedTopNavId), old(selectedCategoryId));
        var k := if failAt < |old(files)| then failAt else |old(files)|;
        var b := Batch(old(selectedCategoryId), now, Storage.Author(username, "Admin"), freshId);
        e.None? ==>
          && (error == if k < |old(files)| then Some(UploadFailed) else None)
          && store.docs == Storage.UpsertAll(old(store.docs), ImportAsWritten(old(files)[..k], old(store.docs), b), Storage.DocId)
      ensures closed <==> error.None?
    {
      var e := SubmitError(files, selectedProductId, selectedTopNavId, selectedCategoryId);
      if e.None? {
        var failed := SaveFiles(store, files, Batch(selectedCategoryId, now, Storage.Author(username, "Admin"), freshId), failAt);
        if failed {
          e := Some(UploadFailed);
        }
      }
      error := e;
      closed := e.None?;
    }
  }

  /** The loop of the submission: each file becomes a document whose slug is free among the
      documents read before the loop, and the loop stops at the first file whose reading or
      saving fails. */
  method SaveFiles(store: Storage.ContentStore, files: seq<MdFile>, b: Batch, failAt: nat)
    returns (failed: bool)
    modifies store`docs
    ensures failed <==> failAt < |files|
    ensures var k := if failAt < |files| then failAt else |files|;
      store.docs == Storage.UpsertAll(old(store.docs), ImportAsWritten(files[..k], old(store.docs), b), Storage.DocId)
  {
    var allDocs := store.docs;
    var added: seq<Doc> := [];
    var i := 0;
    while i < |files| && i != failAt
      invariant 0 <= i <= |files| && (failAt < |files| ==> i <= failAt)
      invariant added == ImportAsWritten(files[..i], allDocs, b)
      invariant store.docs == Storage.UpsertAll(allDocs, added, Storage.DocId)
    {
      var f := files[i];
      var slug := Slug.UniqueSlug(BaseSlug(Title(f), b.now), allDocs);
      var d := NewDoc(f, slug, b, i);
      store.SaveDoc(d);
      ImportAsWrittenStep(files, i, allDocs, b);
      added := added + [d];
      i := i + 1;
    }
    failed := i < |files|;
  }
}
