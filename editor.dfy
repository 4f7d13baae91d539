/** The document editor (pages/admin/Editor.tsx): opening a document or a fresh draft, the
    rule that keeps the slug following the title until the slug is edited by hand, the
    English slug asked of the AI service, saving with an automatic version, restoring a
    version, and AI rewriting of the content. */
module Editor {
  import opened Types
  import opened Text
  import Slug
  import Storage
  import AIService

  /** The only alert the page raises: the AI request failed. */
  datatype Alert = AiError

  // ---------------------------------------------------------------------------
  // The slug-follows-title rule

  /** Edits of the two inputs that take part in the rule. */
  datatype SlugEdit = TitleTyped(title: string) | SlugTyped(slug: string)

  /** The title, the slug and whether the slug has been edited by hand. */
  datatype SlugState = SlugState(title: string, slug: string, touched: bool)

  /** A title edit recomputes the slug only while it is untouched; a slug edit takes the
      typed value and marks the slug as touched. */
  function Step(st: SlugState, e: SlugEdit): SlugState {
    match e
    case TitleTyped(t) => st.(title := t, slug := if st.touched then st.slug else Slug.GenerateSlug(t))
    case SlugTyped(v) => st.(slug := v, touched := true)
  }

  function Replay(st: SlugState, es: seq<SlugEdit>): SlugState
    decreases |es|
  {
    if es == [] then st else Replay(Step(st, es[0]), es[1..])
  }

  predicate OnlyTitleEdits(es: seq<SlugEdit>) {
    forall i :: 0 <= i < |es| ==> es[i].TitleTyped?
  }

  lemma {:induction false} ReplayAppend(st: SlugState, a: seq<SlugEdit>, b: seq<SlugEdit>)
    ensures Replay(st, a + b) == Replay(Replay(st, a), b)
    decreases |a|
  {
    if a != [] {
      assert (a + b)[0] == a[0];
      assert (a + b)[1..] == a[1..] + b;
      ReplayAppend(Step(st, a[0]), a[1..], b);
    } else {
      assert a + b == b;
    }
  }

  /** Once touched, the slug stays touched, and title edits no longer change it. */
  lemma {:induction false} TouchedSticks(st: SlugState, es: seq<SlugEdit>)
    requires st.touched
    ensures Replay(st, es).touched
    ensures OnlyTitleEdits(es) ==> Replay(st, es).slug == st.slug
    decreases |es|
  {
    if es != [] {
      TouchedSticks(Step(st, es[0]), es[1..]);
    }
  }

  /** While untouched, the slug is the normalised form of the latest title, and so a clean
      slug. */
  lemma {:induction false} UntouchedFollowsTitle(st: SlugState, es: seq<SlugEdit>)
    requires !st.touched && OnlyTitleEdits(es) && es != []
    ensures var r := Replay(st, es);
      && !r.touched
      && r.title == es[|es| - 1].title
      && r.slug == Slug.GenerateSlug(r.title)
      && Slug.IsCleanSlug(r.slug)
    decreases |es|
  {
    var next := Step(st, es[0]);
    if |es| > 1 {
      UntouchedFollowsTitle(next, es[1..]);
    } else {
      Slug.GenerateSlugIsClean(next.title);
    }
  }

  /** After a hand edit of the slug, later title edits leave the typed value in place. */
  lemma HandEditWins(st: SlugState, before: seq<SlugEdit>, v: string, after: seq<SlugEdit>)
    requires OnlyTitleEdits(after)
    ensures Replay(st, before + [SlugTyped(v)] + after).slug == v
    ensures Replay(st, before + [SlugTyped(v)] + after).touched
  {
    ReplayAppend(st, before + [SlugTyped(v)], after);
    ReplayAppend(st, before, [SlugTyped(v)]);
    var mid := Replay(st, before + [SlugTyped(v)]);
    assert mid == Step(Replay(st, before), SlugTyped(v));
    TouchedSticks(mid, after);
  }

  // ---------------------------------------------------------------------------
  // The English slug from the AI service

  const SlugInstruction: string :=
    "Translate this title to a URL-friendly, lowercase, kebab-case English slug. Return ONLY the slug (e.g., 'getting-started'), no code blocks, no explanation."

  /** The clean-up of the reply: every backtick removed, then white space trimmed. */
  function CleanAiSlug(reply: string): string {
    Trim(ReplaceAll(reply, "`", ""))
  }

  lemma CleanAiSlugShape(reply: string)
    ensures var r := CleanAiSlug(reply);
      && '`' !in r
      && (r != [] ==> !IsSpace(r[0]) && !IsSpace(r[|r| - 1]))
  {
    var s := ReplaceAll(reply, "`", "");
    ReplaceAllCharGone(reply, '`', "");
    TrimShape(s);
    TrimSubset(s, '`');
  }

  lemma TrimSubset(s: string, c: char)
    requires c !in s
    ensures c !in Trim(s)
  {
    var k := TrimOffset(s);
    var r := Trim(s);
    assert r == s[k..k + |r|];
  }

  /** Cleaning a cleaned reply changes nothing. */
  lemma CleanAiSlugIdempotent(reply: string)
    ensures CleanAiSlug(CleanAiSlug(reply)) == CleanAiSlug(reply)
  {
    var r := CleanAiSlug(reply);
    CleanAiSlugShape(reply);
    HeadAbsentNotContains(r, "`");
    ReplaceAllAbsent(r, "`", "");
    TrimIdentity(r);
  }

  /** The new slug proposed for `title`, or `None` when the slug stays as it is: no request
      is made for an empty title or with AI switched off, and a failed request changes
      nothing. */
  function EnglishSlug(title: string, aiEnabled: bool, cfg: AIConfig, t: AIService.Transport): (r: Option<string>)
    ensures title == "" || !aiEnabled ==> r.None?
    ensures r.Some? ==> '`' !in r.value
    ensures r.Some? <==>
      title != "" && aiEnabled && AIService.GenerateContentSuggestion(title, SlugInstruction, cfg, t).Ok?
  {
    if title == "" || !aiEnabled then None
    else
      match AIService.GenerateContentSuggestion(title, SlugInstruction, cfg, t)
      case Ok(s) => CleanAiSlugShape(s); Some(CleanAiSlug(s))
      case Err(_) => None
  }

  /** The document with the new slug when one was produced, else unchanged. */
  function WithSlug(d: Doc, r: Option<string>): Doc {
    if r.Some? then d.(slug := r.value) else d
  }

  // ---------------------------------------------------------------------------
  // Versions

  const DefaultVersion: string := "1.0.0"

  /** The automatic version label: the document's version, or "1.0.0" when it has none,
      a dash and the time marker. */
  function VersionLabel(version: string, timeMarker: string): (r: string)
    ensures StartsWith(r, if version == "" then DefaultVersion else version)
    ensures EndsWith(r, "-" + timeMarker)
  {
    var base := if version == "" then DefaultVersion else version;
    assert (base + "-" + timeMarker)[|base|..] == "-" + timeMarker;
    base + "-" + timeMarker
  }

  /** The version recorded on save. */
  function AutoVersion(d: Doc, now: nat, timeMarker: string, author: string): DocVersion {
    DocVersion("v_" + DecimalString(now), d.id, d.title, d.content, VersionLabel(d.version, timeMarker),
      now, author, "Auto-saved")
  }

  /** The document a version restores: its title, content and version come from the version,
      everything else stays. */
  function Restored(d: Doc, v: DocVersion): (r: Doc)
    ensures r.title == v.title && r.content == v.content && r.version == v.version
    ensures r.(title := d.title, content := d.content, version := d.version) == d
  {
    d.(title := v.title, content := v.content, version := v.version)
  }

  /** The version saved with a document records that document's title, content and id at
      the save time, and restoring it gives back the saved document with the new label. */
  lemma SaveThenRestore(d: Doc, now: nat, timeMarker: string, author: string)
    ensures var v := AutoVersion(d, now, timeMarker, author);
      && v.docId == d.id && v.timestamp == now
      && Restored(d.(lastUpdated := now), v)
         == d.(lastUpdated := now, version := VersionLabel(d.version, timeMarker))
  {
  }

  /** The draft a new document starts from. */
  function NewDraft(now: nat, username: Option<string>): (d: Doc)
    ensures d.title == "" && d.slug == "" && d.content == "" && d.categoryId == ""
    ensures d.status == Draft && d.version == DefaultVersion && d.lastUpdated == now
    ensures d.author == Storage.Author(username, "Admin")
  {
    Doc("doc_" + DecimalString(now), "", "", "", "", now, Draft, Storage.Author(username, "Admin"), DefaultVersion, None, None)
  }

  /** The route names an existing document rather than "new". */
  predicate NamesDocument(id: Option<string>) {
    id.Some? && id.value != "" && id.value != "new"
  }

  /** The stored document the route names: the first with that id, when the route names
      one at all. */
  function StoredDoc(docs: seq<Doc>, id: Option<string>): (r: Option<Doc>)
    ensures r.Some? ==> NamesDocument(id) && r.value in docs && r.value.id == id.value
    ensures r.None? && NamesDocument(id) ==> forall k :: 0 <= k < |docs| ==> docs[k].id != id.value
  {
    if !NamesDocument(id) then None
    else
      var i := Storage.IndexOfId(docs, id.value, Storage.DocId);
      if i < |docs| then Some(docs[i]) else None
  }

  /** The product and top-navigation item of a category, both empty when no category has
      that id. */
  function CategoryPath(categories: seq<Category>, categoryId: string): (r: (string, string))
    ensures r != ("", "") ==>
      exists k :: 0 <= k < |categories| && categories[k].id == categoryId && r == (categories[k].productId, categories[k].topNavId)
    ensures (forall k :: 0 <= k < |categories| ==> categories[k].id != categoryId) ==> r == ("", "")
  {
    var c := Storage.IndexOfId(categories, categoryId, Storage.CategoryId);
    if c < |categories| then (categories[c].productId, categories[c].topNavId) else ("", "")
  }

  /** The product selected on a page that loaded no document: the first product for a new
      document, none otherwise. */
  function DefaultProduct(products: seq<Product>, id: Option<string>): (r: string)
    ensures NamesDocument(id) || products == [] ==> r == ""
    ensures !NamesDocument(id) && products != [] ==> r == products[0].id
  {
    if !NamesDocument(id) && |products| > 0 then products[0].id else ""
  }

  // ---------------------------------------------------------------------------
  // The page

  class EditorPage {
    const store: Storage.ContentStore
    var doc: Doc
    var versions: seq<DocVersion>
    var slugTouched: bool
    var isAIEnabled: bool
    var selectedProductId: string
    var selectedTopNavId: string
    var aiPrompt: string
    var showAiModal: bool
    var showHistory: bool
    var confirmRestore: Option<DocVersion>
    var alert: Option<Alert>

    function SlugView(): SlugState
      reads this
    {
      SlugState(doc.title, doc.slug, slugTouched)
    }

    /** Opening the page: a route naming a stored document loads it with its versions, marks
        the slug as touched and fills the product and top-navigation item from its category;
        otherwise the draft stays, the slug follows the title, and for "new" the first
        product is selected. `now` is the clock and `username` the stored user name. */
    constructor (store: Storage.ContentStore, id: Option<string>, now: nat, username: Option<string>)
      ensures this.store == store
      ensures isAIEnabled == store.GetAIConfig().enabled
      ensures aiPrompt == "" && !showAiModal && !showHistory && confirmRestore.None? && alert.None?
      ensures var found := StoredDoc(store.docs, id);
        && (found.Some? ==>
              && doc == found.value && slugTouched && versions == store.DocVersions(found.value.id)
              && (selectedProductId, selectedTopNavId) == CategoryPath(store.categories, found.value.categoryId))
        && (found.None? ==>
              && doc == NewDraft(now, username) && !slugTouched && versions == []
              && selectedTopNavId == "" && selectedProductId == DefaultProduct(store.products, id))
    {
      var found := StoredDoc(store.docs, id);
      this.store := store;
      isAIEnabled := store.GetAIConfig().enabled;
      aiPrompt := "";
      showAiModal, showHistory := false, false;
      confirmRestore := None;
      alert := None;
      if found.Some? {
        doc := found.value;
        versions := store.DocVersions(found.value.id);
        slugTouched := true;
        selectedProductId, selectedTopNavId := CategoryPath(store.categories, found.value.categoryId).0,
          CategoryPath(store.categories, found.value.categoryId).1;
      } else {
        doc := NewDraft(now, username);
        versions := [];
        slugTouched := false;
        selectedProductId, selectedTopNavId := DefaultProduct(store.products, id), "";
      }
    }

    method HandleTitleChange(val: string)
      modifies this`doc
      ensures SlugView() == Step(old(SlugView()), TitleTyped(val))
      ensures doc == old(doc).(title := doc.title, slug := doc.slug)
    {
      doc := doc.(title := val, slug := if !slugTouched then Slug.GenerateSlug(val) else doc.slug);
    }

    method HandleSlugChange(val: string)
      modifies this`doc, this`slugTouched
      ensures SlugView() == Step(old(SlugView()), SlugTyped(val))
      ensures doc == old(doc).(slug := val)
    {
      doc := doc.(slug := val);
      slugTouched := true;
    }

    /** Asking for the English slug of `title`; `t` stands for the AI providers. */
    method GenerateEnglishSlug(title: string, t: AIService.Transport)
      modifies this`doc
      ensures doc == WithSlug(old(doc), EnglishSlug(title, isAIEnabled, store.GetAIConfig(), t))
    {
      var r := EnglishSlug(title, isAIEnabled, store.GetAIConfig(), t);
      doc := WithSlug(doc, r);
    }

    /** Leaving the title field asks for an English slug only while the slug is untouched. */
    method HandleTitleBlur(t: AIService.Transport)
      modifies this`doc
      ensures slugTouched ==> doc == old(doc)
      ensures !slugTouched ==>
        doc == WithSlug(old(doc), EnglishSlug(old(doc).title, isAIEnabled, store.GetAIConfig(), t))
    {
      if !slugTouched && doc.title != "" && isAIEnabled {
        GenerateEnglishSlug(doc.title, t);
      }
    }

    /** Saving: a version of the current title and content is recorded first, then the
        document is stored with `lastUpdated` set to the same time, and half a second later
        the page moves to `route`, the admin list. `now` is the clock, `timeMarker` its
        minute-precision rendering and `username` the stored user name. */
    method HandleSave(now: nat, timeMarker: string, username: Option<string>) returns (route: string)
      modifies store`versions, store`docs
      ensures route == "/admin"
      ensures store.versions == old(store.versions) + [AutoVersion(doc, now, timeMarker, Storage.Author(username, "Admin"))]
      ensures store.docs == Storage.Upsert(old(store.docs), doc.(lastUpdated := now), Storage.DocId)
      ensures var j := Storage.IndexOfId(store.docs, doc.id, Storage.DocId);
        j < |store.docs| && store.docs[j] == doc.(lastUpdated := now)
      ensures store.products == old(store.products) && store.categories == old(store.categories)
    {
      var v := AutoVersion(doc, now, timeMarker, Storage.Author(username, "Admin"));
      store.SaveDocVersion(v);
      store.SaveDoc(doc.(lastUpdated := now));
      Storage.UpsertThenLookup(old(store.docs), doc.(lastUpdated := now), Storage.DocId);
      route := "/admin";
    }

    /** Choosing a product clears the top-navigation item. */
    method SelectProduct(id: string)
      modifies this`selectedProductId, this`selectedTopNavId
      ensures selectedProductId == id && selectedTopNavId == ""
    {
      selectedProductId, selectedTopNavId := id, "";
    }

    method SelectTopNav(id: string)
      modifies this`selectedTopNavId
      ensures selectedTopNavId == id
    {
      selectedTopNavId := id;
    }

    /** Choosing a category files the document under it and changes nothing else of it. */
    method SelectCategory(id: string)
      modifies this`doc
      ensures doc == old(doc).(categoryId := id)
    {
      doc := doc.(categoryId := id);
    }

    /** Choosing a version in the history opens the confirmation. */
    method AskRestore(v: DocVersion)
      modifies this`confirmRestore
      ensures confirmRestore == Some(v)
    {
      confirmRestore := Some(v);
    }

    /** Confirming the restore copies the version into the document and closes the history
        and the confirmation; with nothing to restore nothing changes. */
    method HandleRestore()
      modifies this`doc, this`showHistory, this`confirmRestore
      ensures old(confirmRestore).None? ==>
        doc == old(doc) && showHistory == old(showHistory) && confirmRestore.None?
      ensures old(confirmRestore).Some? ==>
        doc == Restored(old(doc), old(confirmRestore).value) && !showHistory && confirmRestore.None?
    {
      if confirmRestore.Some? {
        var v := confirmRestore.value;
        doc := Restored(doc, v);
        showHistory := false;
        confirmRestore := None;
      }
    }

    /** Rewriting the content with the AI service: nothing happens for an empty prompt; a
        reply replaces the content and closes the dialog, a failure keeps the content and
        raises the alert. */
    method HandleAiGenerate(t: AIService.Transport)
      modifies this`doc, this`showAiModal, this`aiPrompt, this`alert
      ensures old(aiPrompt) == "" ==> doc == old(doc) && alert == old(alert) && showAiModal == old(showAiModal)
      ensures old(aiPrompt) != "" ==>
        var r := AIService.GenerateContentSuggestion(old(doc).content, old(aiPrompt), store.GetAIConfig(), t);
        && (r.Ok? ==> doc == old(doc).(content := r.value) && !showAiModal && aiPrompt == "" && alert == old(alert))
        && (r.Err? ==>
              doc == old(doc) && alert == Some(AiError) && aiPrompt == old(aiPrompt) && showAiModal == old(showAiModal))
    {
      if aiPrompt == "" {
        return;
      }
      var cfg := store.GetAIConfig();
      var r := AIService.GenerateContentSuggestion(doc.content, aiPrompt, cfg, t);
      if r.Ok? {
        doc := doc.(content := r.value);
        showAiModal := false;
        aiPrompt := "";
      } else {
        alert := Some(AiError);
      }
    }
  }
}
