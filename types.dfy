/** The records of the documentation portal (types.ts) and the Option/Result wrappers
    used for missing values and thrown errors.

    Optional string fields that the code only ever reads through JavaScript truthiness
    (the English names, the document version, the WeChat id) are plain strings
    here, with "" standing for "absent": every reader treats the two alike. Fields whose
    absence is observable differently from "" (`password`, `status`, the feedback
    counters, `parentId`) are Options. */
module Types {

  datatype Option<+T> = None | Some(value: T) {
    function GetOr(default: T): T {
      match this
      case Some(v) => v
      case None => default
    }
  }

  datatype Result<+T, +E> = Ok(value: T) | Err(error: E)

  datatype DocStatus = Draft | Published | Archived

  datatype Product = Product(id: string, name: string, nameEn: string, order: int)

  datatype Doc = Doc(
    id: string,
    title: string,
    slug: string,
    categoryId: string,
    content: string,
    lastUpdated: int,
    status: DocStatus,
    author: string,
    version: string,
    helpfulCount: Option<int>,
    unhelpfulCount: Option<int>)

  datatype DocVersion = DocVersion(
    id: string,
    docId: string,
    title: string,
    content: string,
    version: string,
    timestamp: int,
    author: string,
    note: string)

  datatype Category = Category(
    id: string,
    productId: string,
    topNavId: string,
    name: string,
    nameEn: string,
    parentId: Option<string>,
    order: int)

  datatype NavKind = Internal | External

  datatype TopNavItem = TopNavItem(
    id: string,
    productId: string,
    labelText: string,
    labelEn: string,
    path: string,
    order: int,
    kind: NavKind)

  datatype Role = Admin | Editor | Guest

  datatype UserStatus = Pending | Active

  datatype User = User(
    id: string,
    username: string,
    password: Option<string>,
    role: Role,
    displayName: string,
    status: Option<UserStatus>,
    wechatOpenId: string)

  datatype WeChatConfig = WeChatConfig(
    appId: string,
    appSecret: string,
    token: string,
    encodingAesKey: string,
    callbackUrl: string,
    enabled: bool)

  datatype AIProvider = Gemini | Bailian

  datatype GeminiSettings = GeminiSettings(enabled: bool, apiKey: string, model: string)

  datatype BailianSettings = BailianSettings(enabled: bool, apiKey: string, baseURL: string, model: string)

  datatype AIConfig = AIConfig(
    enabled: bool,
    priority: seq<AIProvider>,
    gemini: GeminiSettings,
    bailian: BailianSettings)
  {
    /** Whether the given provider is switched on. */
    function ProviderEnabled(p: AIProvider): bool {
      match p
      case Gemini => gemini.enabled
      case Bailian => bailian.enabled
    }
  }

  /** The provider id as the code writes it. */
  function ProviderName(p: AIProvider): string {
    match p
    case Gemini => "gemini"
    case Bailian => "bailian"
  }

  /** The `order` fields the lists are sorted by. */
  function ProductOrder(p: Product): int { p.order }
  function NavOrder(n: TopNavItem): int { n.order }
  function CategoryOrder(c: Category): int { c.order }

  /** Flips the membership of one id, as the pages do with a `Set` of selected or expanded
      ids: a present id is removed, an absent one added. */
  function Toggle(ids: set<string>, id: string): (r: set<string>)
    ensures id in r <==> id !in ids
    ensures forall x :: x != id ==> (x in r <==> x in ids)
  {
    if id in ids then ids - {id} else ids + {id}
  }

  /** Toggling the same id twice restores the set. */
  lemma ToggleTwice(ids: set<string>, id: string)
    ensures Toggle(Toggle(ids, id), id) == ids
  {
  }

  /** The interface language. */
  datatype Language = Zh | En

  /** A name shown in the interface language: the English name in English when there is
      one, the primary name otherwise. */
  function Localized(name: string, nameEn: string, lang: Language): (r: string)
    ensures lang == En && nameEn != "" ==> r == nameEn
    ensures lang == Zh || nameEn == "" ==> r == name
  {
    if lang == En && nameEn != "" then nameEn else name
  }

  /** Index of the first element satisfying `p`, or |s| when there is none. */
  function FirstIndex<T>(s: seq<T>, p: T -> bool): (i: nat)
    ensures i <= |s|
    ensures i < |s| ==> p(s[i])
    ensures forall k :: 0 <= k < i ==> !p(s[k])
  {
    if s == [] then 0
    else if p(s[0]) then 0
    else 1 + FirstIndex(s[1..], p)
  }

  /** `Array.prototype.find`. */
  function Find<T>(s: seq<T>, p: T -> bool): (r: Option<T>)
    ensures r.Some? <==> exists k :: 0 <= k < |s| && p(s[k])
    ensures r.Some? ==> p(r.value) && r.value == s[FirstIndex(s, p)]
  {
    var i := FirstIndex(s, p);
    if i < |s| then Some(s[i]) else None
  }

  /** `Array.prototype.filter`. */
  function Filter<T>(s: seq<T>, p: T -> bool): (r: seq<T>)
    ensures |r| <= |s|
    ensures forall i :: 0 <= i < |r| ==> p(r[i])
  {
    if s == [] then []
    else if p(s[0]) then [s[0]] + Filter(s[1..], p)
    else Filter(s[1..], p)
  }

  /** An element survives the filter exactly when it is in the input and passes `p`. */
  lemma {:induction false} FilterMember<T>(s: seq<T>, p: T -> bool, x: T)
    ensures x in Filter(s, p) <==> x in s && p(x)
  {
    if s != [] {
      FilterMember(s[1..], p, x);
      assert s == [s[0]] + s[1..];
    }
  }

  lemma {:induction false} FilterAppend<T>(a: seq<T>, b: seq<T>, p: T -> bool)
    ensures Filter(a + b, p) == Filter(a, p) + Filter(b, p)
  {
    if a == [] {
      assert a + b == b;
    } else {
      assert (a + b)[1..] == a[1..] + b;
      FilterAppend(a[1..], b, p);
    }
  }

  /** `Array.prototype.map`. */
  function Map<T, U>(s: seq<T>, f: T -> U): (r: seq<U>)
    ensures |r| == |s|
    ensures forall i :: 0 <= i < |s| ==> r[i] == f(s[i])
  {
    seq(|s|, i requires 0 <= i < |s| => f(s[i]))
  }

  /** The top-navigation items of a product, in list order, as the admin forms offer them. */
  function NavsOf(navs: seq<TopNavItem>, productId: string): seq<TopNavItem> {
    Filter(navs, (n: TopNavItem) => n.productId == productId)
  }

  /** The categories under a product and a top-navigation item, in list order. */
  function CategoriesOf(cats: seq<Category>, productId: string, navId: string): seq<Category> {
    Filter(cats, (c: Category) => c.productId == productId && c.topNavId == navId)
  }

  /** The items of a product are exactly the stored items carrying its id. */
  lemma NavsOfMember(navs: seq<TopNavItem>, productId: string, n: TopNavItem)
    ensures n in NavsOf(navs, productId) <==> n in navs && n.productId == productId
  {
    FilterMember(navs, (n: TopNavItem) => n.productId == productId, n);
  }

  /** The categories of a product and item are exactly the stored categories carrying both ids. */
  lemma CategoriesOfMember(cats: seq<Category>, productId: string, navId: string, c: Category)
    ensures c in CategoriesOf(cats, productId, navId) <==>
      c in cats && c.productId == productId && c.topNavId == navId
  {
    FilterMember(cats, (c: Category) => c.productId == productId && c.topNavId == navId, c);
  }
}
