/** The content store (services/storage.ts): one list per record kind, updated by
    upsert-by-id and delete-by-id, the feedback counters, the version history, the user
    status migration run at start-up, and the stored AI configuration. Local storage and
    its JSON encoding are collapsed into the fields of one object: every getter reads the
    field, every setter reassigns it. */
module Storage {
  import opened Types
  import opened AIConfigStore
  import Ordering

  // ---------------------------------------------------------------------------
  // Lists keyed by id

  /** The position of the first item with the given id, or |items| when there is none. */
  function IndexOfId<T>(items: seq<T>, key: string, id: T -> string): (i: nat)
    ensures i <= |items|
    ensures i < |items| ==> id(items[i]) == key
    ensures forall k :: 0 <= k < i ==> id(items[k]) != key
  {
    if items == [] then 0
    else if id(items[0]) == key then 0
    else 1 + IndexOfId(items[1..], key, id)
  }

  predicate HasId<T>(items: seq<T>, key: string, id: T -> string) {
    exists k :: 0 <= k < |items| && id(items[k]) == key
  }

  /** Saving by id: the first item with the same id is replaced in place, else `x` is appended. */
  function Upsert<T>(items: seq<T>, x: T, id: T -> string): seq<T> {
    var i := IndexOfId(items, id(x), id);
    if i < |items| then items[i := x] else items + [x]
  }

  /** Deleting by id: every item with that id is dropped. */
  function RemoveId<T>(items: seq<T>, key: string, id: T -> string): (r: seq<T>)
    ensures |r| <= |items|
  {
    if items == [] then []
    else (if id(items[0]) == key then [] else [items[0]]) + RemoveId(items[1..], key, id)
  }

  /** An existing id is replaced where its first occurrence stands: the length stays, every
      other position keeps its entry. */
  lemma UpsertExisting<T>(items: seq<T>, x: T, id: T -> string)
    requires HasId(items, id(x), id)
    ensures var r := Upsert(items, x, id); var i := IndexOfId(items, id(x), id);
      && |r| == |items| && i < |items| && r[i] == x
      && (forall k :: 0 <= k < |items| && k != i ==> r[k] == items[k])
  {
  }

  /** A new id is appended after the existing entries. */
  lemma UpsertNew<T>(items: seq<T>, x: T, id: T -> string)
    requires !HasId(items, id(x), id)
    ensures Upsert(items, x, id) == items + [x]
  {
  }

  /** Saving records one after another, each by upsert. */
  function UpsertAll<T>(items: seq<T>, added: seq<T>, id: T -> string): seq<T>
    decreases |added|
  {
    if added == [] then items
    else Upsert(UpsertAll(items, added[..|added| - 1], id), added[|added| - 1], id)
  }

  /** Saving one more record of a list is one more upsert. */
  lemma UpsertAllSnoc<T>(items: seq<T>, added: seq<T>, j: nat, id: T -> string)
    requires j < |added|
    ensures UpsertAll(items, added[..j + 1], id) == Upsert(UpsertAll(items, added[..j], id), added[j], id)
  {
    assert added[..j + 1][..j] == added[..j];
  }

  /** Saving two lists one after the other is saving their concatenation. */
  lemma {:induction false} UpsertAllAppend<T>(items: seq<T>, a: seq<T>, b: seq<T>, id: T -> string)
    ensures UpsertAll(items, a + b, id) == UpsertAll(UpsertAll(items, a, id), b, id)
    decreases |b|
  {
    if b == [] {
      assert a + b == a;
    } else {
      var b' := b[..|b| - 1];
      assert (a + b)[..|a + b| - 1] == a + b';
      UpsertAllAppend(items, a, b', id);
    }
  }

  /** Records whose ids are new and pairwise distinct end up appended in order. */
  lemma {:induction false} UpsertAllFresh<T>(items: seq<T>, added: seq<T>, id: T -> string)
    requires forall k :: 0 <= k < |added| ==> !HasId(items, id(added[k]), id)
    requires forall j, k :: 0 <= j < k < |added| ==> id(added[j]) != id(added[k])
    ensures UpsertAll(items, added, id) == items + added
    decreases |added|
  {
    if added != [] {
      var pre := added[..|added| - 1];
      var x := added[|added| - 1];
      UpsertAllFresh(items, pre, id);
      forall k | 0 <= k < |items + pre| ensures id((items + pre)[k]) != id(x) {
        if k < |items| {
          assert (items + pre)[k] == items[k];
        } else {
          assert (items + pre)[k] == added[k - |items|];
        }
      }
      UpsertNew(items + pre, x, id);
      assert items + pre + [x] == items + added;
    }
  }

  /** After an upsert, looking the id up finds exactly the record just saved. */
  lemma UpsertThenLookup<T>(items: seq<T>, x: T, id: T -> string)
    ensures var r := Upsert(items, x, id); var j := IndexOfId(r, id(x), id);
      j < |r| && r[j] == x
  {
    var r := Upsert(items, x, id);
    var i := IndexOfId(items, id(x), id);
    if i == |items| {
      assert r[|items|] == x;
    } else {
      assert r[i] == x;
    }
  }

  /** Deleting leaves no record with that id, and keeps every other record. */
  lemma {:induction false} RemoveIdMember<T>(items: seq<T>, key: string, id: T -> string, y: T)
    ensures y in RemoveId(items, key, id) <==> y in items && id(y) != key
  {
    if items != [] {
      RemoveIdMember(items[1..], key, id, y);
      assert items == [items[0]] + items[1..];
    }
  }

  /** Deleting works element by element, so the records that stay keep their order. */
  lemma {:induction false} RemoveIdAppend<T>(a: seq<T>, b: seq<T>, key: string, id: T -> string)
    ensures RemoveId(a + b, key, id) == RemoveId(a, key, id) + RemoveId(b, key, id)
  {
    if a == [] {
      assert a + b == b;
    } else {
      assert (a + b)[1..] == a[1..] + b;
      RemoveIdAppend(a[1..], b, key, id);
    }
  }

  /** Deleting an id that is not there changes nothing. */
  lemma {:induction false} RemoveIdAbsent<T>(items: seq<T>, key: string, id: T -> string)
    requires !HasId(items, key, id)
    ensures RemoveId(items, key, id) == items
  {
    if items != [] {
      assert id(items[0]) != key;
      assert !HasId(items[1..], key, id) by {
        forall k | 0 <= k < |items| - 1 ensures id(items[1..][k]) != key {
          assert items[1..][k] == items[k + 1];
        }
      }
      RemoveIdAbsent(items[1..], key, id);
    }
  }

  /** Saving a record and then deleting its id is the same as deleting the id. */
  lemma {:induction false} UpsertThenRemove<T>(items: seq<T>, x: T, id: T -> string)
    ensures RemoveId(Upsert(items, x, id), id(x), id) == RemoveId(items, id(x), id)
  {
    var i := IndexOfId(items, id(x), id);
    if i < |items| {
      var r := items[i := x];
      assert items == items[..i] + [items[i]] + items[i + 1..];
      assert r == items[..i] + [x] + items[i + 1..];
      RemoveIdAppend(items[..i] + [items[i]], items[i + 1..], id(x), id);
      RemoveIdAppend(items[..i] + [x], items[i + 1..], id(x), id);
      RemoveIdAppend(items[..i], [items[i]], id(x), id);
      RemoveIdAppend(items[..i], [x], id(x), id);
      assert RemoveId([items[i]], id(x), id) == [] + RemoveId([], id(x), id);
      assert RemoveId([x], id(x), id) == [] + RemoveId([], id(x), id);
    } else {
      RemoveIdAppend(items, [x], id(x), id);
      assert RemoveId([x], id(x), id) == [] + RemoveId([], id(x), id);
      assert items + [] == items;
    }
  }

  function ProductId(p: Product): string { p.id }
  function DocId(d: Doc): string { d.id }
  function CategoryId(c: Category): string { c.id }
  function TopNavId(n: TopNavItem): string { n.id }
  function UserId(u: User): string { u.id }

  // ---------------------------------------------------------------------------
  // Feedback counters

  /** One more helpful (or unhelpful) vote, a missing counter counting as 0. */
  function Bump(d: Doc, isHelpful: bool): Doc {
    if isHelpful then d.(helpfulCount := Some(d.helpfulCount.GetOr(0) + 1))
    else d.(unhelpfulCount := Some(d.unhelpfulCount.GetOr(0) + 1))
  }

  function Feedback(docs: seq<Doc>, docId: string, isHelpful: bool): seq<Doc> {
    var i := IndexOfId(docs, docId, DocId);
    if i < |docs| then docs[i := Bump(docs[i], isHelpful)] else docs
  }

  /** Feedback raises exactly one counter of the first document with that id by one (a
      missing counter counts as 0), keeps every other field and every other document, and
      does nothing for an unknown id. */
  lemma FeedbackEffect(docs: seq<Doc>, docId: string, isHelpful: bool)
    ensures var r := Feedback(docs, docId, isHelpful); var i := IndexOfId(docs, docId, DocId);
      && |r| == |docs|
      && (forall k :: 0 <= k < |docs| && k != i ==> r[k] == docs[k])
      && (!HasId(docs, docId, DocId) ==> r == docs)
      && (i < |docs| && isHelpful ==>
            r[i] == docs[i].(helpfulCount := Some(docs[i].helpfulCount.GetOr(0) + 1)))
      && (i < |docs| && !isHelpful ==>
            r[i] == docs[i].(unhelpfulCount := Some(docs[i].unhelpfulCount.GetOr(0) + 1)))
  {
    var i := IndexOfId(docs, docId, DocId);
    if i < |docs| {
      assert HasId(docs, docId, DocId);
    }
  }

  // ---------------------------------------------------------------------------
  // Version history

  predicate NewestFirst(vs: seq<DocVersion>) {
    forall i, j :: 0 <= i < j < |vs| ==> vs[i].timestamp >= vs[j].timestamp
  }

  /** The sort key that puts newer versions first. */
  function Age(v: DocVersion): int { -v.timestamp }

  lemma NewestFirstByAge(vs: seq<DocVersion>)
    requires Ordering.Ascending(vs, Age)
    ensures NewestFirst(vs)
  {
    forall i, j | 0 <= i < j < |vs| ensures vs[i].timestamp >= vs[j].timestamp {
      assert Age(vs[i]) <= Age(vs[j]);
    }
  }

  predicate IsVersionOf(docId: string, v: DocVersion) { v.docId == docId }

  function VersionsOf(all: seq<DocVersion>, docId: string): seq<DocVersion> {
    Ordering.SortBy(FilterDoc(all, docId), Age)
  }

  /** The versions of one document, in store order. */
  function FilterDoc(all: seq<DocVersion>, docId: string): (r: seq<DocVersion>)
    ensures forall k :: 0 <= k < |r| ==> r[k].docId == docId
  {
    if all == [] then []
    else (if all[0].docId == docId then [all[0]] else []) + FilterDoc(all[1..], docId)
  }

  /** The history of a document holds exactly its versions, each as often as it was saved,
      newest first. */
  lemma VersionsOfContents(all: seq<DocVersion>, docId: string, v: DocVersion)
    ensures var r := VersionsOf(all, docId);
      && NewestFirst(r)
      && multiset(r)[v] == (if v.docId == docId then multiset(all)[v] else 0)
  {
    Ordering.SortBySorts(FilterDoc(all, docId), Age);
    NewestFirstByAge(VersionsOf(all, docId));
    FilterDocCount(all, docId, v);
  }

  /** The per-document filter keeps every copy of the document's versions and nothing else. */
  lemma {:induction false} FilterDocCount(all: seq<DocVersion>, docId: string, v: DocVersion)
    ensures multiset(FilterDoc(all, docId))[v] == (if v.docId == docId then multiset(all)[v] else 0)
  {
    if all != [] {
      FilterDocCount(all[1..], docId, v);
      assert all == [all[0]] + all[1..];
      assert multiset(FilterDoc(all, docId)) ==
        multiset(if all[0].docId == docId then [all[0]] else []) + multiset(FilterDoc(all[1..], docId));
    }
  }

  /** Saving a version appends it without looking for duplicates: the history of its
      document gains one more copy of it, the other histories are unchanged. */
  lemma {:induction false} SaveVersionGrows(all: seq<DocVersion>, v: DocVersion, docId: string)
    ensures docId == v.docId ==>
      multiset(VersionsOf(all + [v], docId)) == multiset(VersionsOf(all, docId)) + multiset{v}
    ensures docId != v.docId ==> VersionsOf(all + [v], docId) == VersionsOf(all, docId)
  {
    FilterDocAppend(all, [v], docId);
    assert FilterDoc([v], docId) == (if v.docId == docId then [v] else []) + FilterDoc([], docId);
    if docId != v.docId {
      assert FilterDoc(all, docId) + [] == FilterDoc(all, docId);
    }
  }

  lemma {:induction false} FilterDocAppend(a: seq<DocVersion>, b: seq<DocVersion>, docId: string)
    ensures FilterDoc(a + b, docId) == FilterDoc(a, docId) + FilterDoc(b, docId)
  {
    if a == [] {
      assert a + b == b;
    } else {
      assert (a + b)[1..] == a[1..] + b;
      FilterDocAppend(a[1..], b, docId);
    }
  }

  // ---------------------------------------------------------------------------
  // User status migration

  /** A user without a status becomes active; any other user is unchanged. */
  function Activate(u: User): User {
    if u.status.None? then u.(status := Some(Active)) else u
  }

  /** Activating is the identity on users that have a status. */
  lemma {:induction false} ActivateComplete(users: seq<User>)
    requires forall k :: 0 <= k < |users| ==> users[k].status.Some?
    ensures Map(users, Activate) == users
  {
  }

  // ---------------------------------------------------------------------------
  // The store

  /** The persisted lists. Each write replaces one list; its frame names that list, so
      every other list is unchanged. */
  class ContentStore {
    var products: seq<Product>
    var docs: seq<Doc>
    var versions: seq<DocVersion>
    var categories: seq<Category>
    var topNav: seq<TopNavItem>
    var users: seq<User>
    var aiConfig: RawConfig

    constructor (products: seq<Product>, docs: seq<Doc>, categories: seq<Category>,
                 topNav: seq<TopNavItem>, users: seq<User>)
      ensures this.products == products && this.docs == docs && this.categories == categories
      ensures this.topNav == topNav && this.users == users
      ensures versions == [] && aiConfig == Absent
    {
      this.products := products;
      this.docs := docs;
      this.versions := [];
      this.categories := categories;
      this.topNav := topNav;
      this.users := users;
      this.aiConfig := Absent;
    }

    method SaveProduct(p: Product)
      modifies this`products
      ensures products == Upsert(old(products), p, ProductId)
    {
      var i := IndexOfId(products, p.id, ProductId);
      if i < |products| {
        products := products[i := p];
      } else {
        products := products + [p];
      }
    }

    method DeleteProduct(id: string)
      modifies this`products
      ensures products == RemoveId(old(products), id, ProductId)
    {
      products := RemoveId(products, id, ProductId);
    }

    method SaveDoc(d: Doc)
      modifies this`docs
      ensures docs == Upsert(old(docs), d, DocId)
    {
      var i := IndexOfId(docs, d.id, DocId);
      if i < |docs| {
        docs := docs[i := d];
      } else {
        docs := docs + [d];
      }
    }

    method DeleteDoc(id: string)
      modifies this`docs
      ensures docs == RemoveId(old(docs), id, DocId)
    {
      docs := RemoveId(docs, id, DocId);
    }

    /** `getDocBySlug`: the first document with that slug. */
    function DocBySlug(slug: string): (r: Option<Doc>)
      reads this
      ensures r.Some? ==> r.value in docs && r.value.slug == slug
      ensures r.Some? ==> r.value == docs[FirstIndex(docs, (d: Doc) => d.slug == slug)]
      ensures r.None? ==> forall k :: 0 <= k < |docs| ==> docs[k].slug != slug
    {
      FindSlug(docs, slug)
    }

    method SubmitFeedback(docId: string, isHelpful: bool)
      modifies this`docs
      ensures docs == Feedback(old(docs), docId, isHelpful)
    {
      var index := IndexOfId(docs, docId, DocId);
      if index < |docs| {
        var doc := docs[index];
        if isHelpful {
          doc := doc.(helpfulCount := Some(doc.helpfulCount.GetOr(0) + 1));
        } else {
          doc := doc.(unhelpfulCount := Some(doc.unhelpfulCount.GetOr(0) + 1));
        }
        docs := docs[index := doc];
      }
    }

    /** `getDocVersions` */
    function DocVersions(docId: string): (r: seq<DocVersion>)
      reads this
      ensures NewestFirst(r)
      ensures forall k :: 0 <= k < |r| ==> r[k].docId == docId
    {
      var r := VersionsOf(versions, docId);
      Ordering.SortBySorts(FilterDoc(versions, docId), Age);
      NewestFirstByAge(r);
      assert multiset(r) == multiset(FilterDoc(versions, docId));
      forall k | 0 <= k < |r| ensures r[k].docId == docId {
        assert r[k] in multiset(FilterDoc(versions, docId));
      }
      r
    }

    method SaveDocVersion(v: DocVersion)
      modifies this`versions
      ensures versions == old(versions) + [v]
    {
      versions := versions + [v];
    }

    method SaveCategory(c: Category)
      modifies this`categories
      ensures categories == Upsert(old(categories), c, CategoryId)
    {
      var i := IndexOfId(categories, c.id, CategoryId);
      if i < |categories| {
        categories := categories[i := c];
      } else {
        categories := categories + [c];
      }
    }

    method DeleteCategory(id: string)
      modifies this`categories
      ensures categories == RemoveId(old(categories), id, CategoryId)
    {
      categories := RemoveId(categories, id, CategoryId);
    }

    method SaveTopNavItem(n: TopNavItem)
      modifies this`topNav
      ensures topNav == Upsert(old(topNav), n, TopNavId)
    {
      var i := IndexOfId(topNav, n.id, TopNavId);
      if i < |topNav| {
        topNav := topNav[i := n];
      } else {
        topNav := topNav + [n];
      }
    }

    method DeleteTopNavItem(id: string)
      modifies this`topNav
      ensures topNav == RemoveId(old(topNav), id, TopNavId)
    {
      topNav := RemoveId(topNav, id, TopNavId);
    }

    method SaveUser(u: User)
      modifies this`users
      ensures users == Upsert(old(users), u, UserId)
    {
      var i := IndexOfId(users, u.id, UserId);
      if i < |users| {
        users := users[i := u];
      } else {
        users := users + [u];
      }
    }

    method DeleteUser(id: string)
      modifies this`users
      ensures users == RemoveId(old(users), id, UserId)
    {
      users := RemoveId(users, id, UserId);
    }

    /** The migration branch of `initStorage`: users without a status become active, and
        the list is written back only when one of them changed. */
    method MigrateUsers() returns (changed: bool)
      modifies this`users
      ensures changed <==> exists k :: 0 <= k < |old(users)| && old(users)[k].status.None?
      ensures users == Map(old(users), Activate)
    {
      var migrated: seq<User> := [];
      changed := false;
      var i := 0;
      while i < |users|
        invariant 0 <= i <= |users|
        invariant migrated == Map(users[..i], Activate)
        invariant changed <==> exists k :: 0 <= k < i && users[k].status.None?
      {
        var u := users[i];
        if u.status.None? {
          changed := true;
          migrated := migrated + [u.(status := Some(Active))];
        } else {
          migrated := migrated + [u];
        }
        i := i + 1;
      }
      assert users[..i] == users;
      if changed {
        users := migrated;
      } else {
        ActivateComplete(users);
      }
    }

    /** `getAIConfig` */
    function GetAIConfig(): AIConfig
      reads this
    {
      Resolve(aiConfig)
    }

    /** `saveAIConfig`: what is saved is what is read back. */
    method SaveAIConfig(c: AIConfig)
      modifies this`aiConfig
      ensures GetAIConfig() == c
    {
      aiConfig := Parsed(Serialize(c));
      SaveThenResolve(c);
    }
  }

  /** The first document with the given slug. */
  function FindSlug(docs: seq<Doc>, slug: string): (r: Option<Doc>)
    ensures r.Some? ==> r.value in docs && r.value.slug == slug
    ensures r.Some? ==> r.value == docs[FirstIndex(docs, (d: Doc) => d.slug == slug)]
    ensures r.None? ==> forall k :: 0 <= k < |docs| ==> docs[k].slug != slug
  {
    if docs == [] then None
    else if docs[0].slug == slug then Some(docs[0])
    else FindSlug(docs[1..], slug)
  }

  /** The author recorded on documents and versions: the stored user name when there is a
      non-empty one, else the page's fallback name. */
  function Author(username: Option<string>, fallback: string): (r: string)
    ensures username.Some? && username.value != "" ==> r == username.value
    ensures username.None? || username.value == "" ==> r == fallback
  {
    if username.Some? && username.value != "" then username.value else fallback
  }
}
