/** The document page (pages/DocViewer.tsx): opening a document by slug, the once-only
    feedback, and the transformation of the Markdown before rendering — newline
    normalisation, removal of a leading front-matter block, and the rewriting of
    `[[target]]` / `[[target|label]]` wiki links — plus the classification of link targets
    by the Markdown renderer. */
module DocViewer {
  import opened Types
  import opened Text
  import Slug
  import Storage

  // ---------------------------------------------------------------------------
  // Newlines

  /** Every CR LF pair, and then every remaining CR, becomes LF. */
  function NormalizeNewlines(s: string): (r: string)
    ensures '\r' !in r
  {
    var r := ReplaceAll(ReplaceAll(s, "\r\n", "\n"), "\r", "\n");
    ReplaceAllCharGone(ReplaceAll(s, "\r\n", "\n"), '\r', "\n");
    r
  }

  /** Text that already uses "\n" alone is left as it is. */
  lemma NormalizeKeepsUnixText(s: string)
    requires '\r' !in s
    ensures NormalizeNewlines(s) == s
  {
    HeadAbsentNotContains(s, "\r\n");
    HeadAbsentNotContains(s, "\r");
    ReplaceAllAbsent(s, "\r\n", "\n");
    ReplaceAllAbsent(s, "\r", "\n");
  }

  /** Normalising twice is normalising once. */
  lemma NormalizeIdempotent(s: string)
    ensures NormalizeNewlines(NormalizeNewlines(s)) == NormalizeNewlines(s)
  {
    NormalizeKeepsUnixText(NormalizeNewlines(s));
  }

  // ---------------------------------------------------------------------------
  // Front matter: /^---\s*\n([\s\S]*?)\n---\s*(?:\n|$)/ with its backtracking order

  /** Where the opening `\n` ends, where the lazy group ends, and where the whole match ends. */
  datatype FenceMatch = FenceMatch(groupStart: nat, groupEnd: nat, matchEnd: nat)

  /** The end of the run of `\s` characters that starts at `i`. */
  function SpaceRunEnd(s: string, i: nat): (w: nat)
    requires i <= |s|
    ensures i <= w <= |s|
    decreases |s| - i
  {
    if i < |s| && IsSpace(s[i]) then SpaceRunEnd(s, i + 1) else i
  }

  /** The run is all white space and stops at the end of the text or at a character that
      is not white space. */
  lemma {:induction false} SpaceRunEndMeaning(s: string, i: nat)
    requires i <= |s|
    ensures var w := SpaceRunEnd(s, i);
      && (forall k :: i <= k < w ==> IsSpace(s[k]))
      && (w < |s| ==> !IsSpace(s[w]))
    decreases |s| - i
  {
    if i < |s| && IsSpace(s[i]) {
      SpaceRunEndMeaning(s, i + 1);
    }
  }

  /** The last '\n' in `s[i..w]`: where a greedy `\s*` followed by `\n` stops. */
  function LastNewline(s: string, i: nat, w: nat): (m: Option<nat>)
    requires i <= w <= |s|
    ensures m.Some? ==> i <= m.value < w && s[m.value] == '\n'
    decreases w - i
  {
    if w == i then None
    else if s[w - 1] == '\n' then Some(w - 1)
    else LastNewline(s, i, w - 1)
  }

  /** No newline follows the one found, and none is in the range when none is found. */
  lemma {:induction false} LastNewlineMeaning(s: string, i: nat, w: nat)
    requires i <= w <= |s|
    ensures var m := LastNewline(s, i, w);
      && (m.Some? ==> forall k :: m.value < k < w ==> s[k] != '\n')
      && (m.None? ==> forall k :: i <= k < w ==> s[k] != '\n')
    decreases w - i
  {
    if w > i && s[w - 1] != '\n' {
      LastNewlineMeaning(s, i, w - 1);
    }
  }

  /** The four characters "\n---" start at `e`. */
  predicate FenceAt(s: string, e: nat) {
    e + 4 <= |s| && s[e] == '\n' && s[e + 1] == '-' && s[e + 2] == '-' && s[e + 3] == '-'
  }

  /** "\n---" at `e`, then white space up to `end`, which is the end of the text or just
      after a newline. */
  predicate ClosesAt(s: string, e: nat, end: nat) {
    && e + 4 <= end <= |s| && FenceAt(s, e)
    && (forall k :: e + 4 <= k < end ==> IsSpace(s[k]))
    && (end == |s| || s[end - 1] == '\n')
  }

  /** The closing fence matches at no position in `[lo, hi)`. */
  predicate NoCloseIn(s: string, lo: nat, hi: nat) {
    forall k :: lo <= k < hi ==> CloseAt(s, k).None?
  }

  /** Where `\n---\s*(?:\n|$)` ends when tried at `e`: the greedy `\s*` takes the whole run
      of white space when it reaches the end of the text, and otherwise gives back
      characters until a `\n` follows it. */
  function CloseAt(s: string, e: nat): (r: Option<nat>)
    ensures r.Some? ==> e + 4 <= r.value <= |s| && FenceAt(s, e)
  {
    if FenceAt(s, e) then
      var w := SpaceRunEnd(s, e + 4);
      if w == |s| then Some(|s|)
      else match LastNewline(s, e + 4, w)
        case None => None
        case Some(m) => Some(m + 1)
    else None
  }
  /** A match of the closing fence has its shape. */
  lemma CloseAtMeaning(s: string, e: nat)
    ensures CloseAt(s, e).Some? ==> ClosesAt(s, e, CloseAt(s, e).value)
  {
    if FenceAt(s, e) {
      SpaceRunEndMeaning(s, e + 4);
      var w := SpaceRunEnd(s, e + 4);
      if w < |s| {
        LastNewlineMeaning(s, e + 4, w);
      }
    }
  }


  /** The lazy group: the first end position, from `e` on, at which the closing fence matches. */
  function FirstClose(s: string, e: nat): (r: Option<(nat, nat)>)
    requires e <= |s|
    ensures r.Some? ==> e <= r.value.0 && r.value.0 + 4 <= r.value.1 <= |s|
    decreases |s| - e
  {
    match CloseAt(s, e)
    case Some(m) => Some((e, m))
    case None => if e == |s| then None else FirstClose(s, e + 1)
  }

  /** The group ends where the closing fence first matches: nowhere before it, and nowhere
      at all when there is no group. */
  lemma {:induction false} FirstCloseMeaning(s: string, e: nat)
    requires e <= |s|
    ensures var r := FirstClose(s, e);
      && (r.Some? ==> CloseAt(s, r.value.0) == Some(r.value.1) && NoCloseIn(s, e, r.value.0))
      && (r.None? ==> NoCloseIn(s, e, |s| + 1))
    decreases |s| - e
  {
    if CloseAt(s, e).None? && e < |s| {
      FirstCloseMeaning(s, e + 1);
    }
  }

  /** No newline at a position in `(lo, hi]` opens a group that some "\n---" closes. */
  predicate NoOpeningIn(s: string, lo: nat, hi: nat)
    requires hi <= |s|
  {
    forall k :: lo < k <= hi && s[k - 1] == '\n' ==> FirstClose(s, k).None?
  }

  /** The greedy opening `\s*\n`: the `\n` positions of the white-space run after "---",
      from the last one back to the first, each tried with every lazy group before the next. */
  function TryOpenings(s: string, p: nat): (r: Option<FenceMatch>)
    requires p <= |s|
    ensures r.Some? ==> 3 < r.value.groupStart <= p && s[r.value.groupStart - 1] == '\n'
    ensures r.Some? ==> r.value.groupStart <= r.value.groupEnd && r.value.groupEnd + 4 <= r.value.matchEnd <= |s|
    decreases p
  {
    if p <= 3 then None
    else if s[p - 1] == '\n' then
      match FirstClose(s, p)
      case Some((ge, me)) => Some(FenceMatch(p, ge, me))
      case None => TryOpenings(s, p - 1)
    else TryOpenings(s, p - 1)
  }

  /** The opening taken is the last newline whose group some closing fence ends; with no
      match, no newline up to `p` has one. */
  lemma {:induction false} TryOpeningsMeaning(s: string, p: nat)
    requires p <= |s|
    ensures var r := TryOpenings(s, p);
      && (r.Some? ==> FirstClose(s, r.value.groupStart) == Some((r.value.groupEnd, r.value.matchEnd)))
      && (r.Some? ==> NoOpeningIn(s, r.value.groupStart, p))
      && (r.None? ==> NoOpeningIn(s, 3, p))
    decreases p
  {
    var r := TryOpenings(s, p);
    if p <= 3 {
      assert r.None?;
    } else if s[p - 1] == '\n' && FirstClose(s, p).Some? {
      var fc := FirstClose(s, p).value;
      assert r == Some(FenceMatch(p, fc.0, fc.1));
    } else {
      TryOpeningsMeaning(s, p - 1);
      assert r == TryOpenings(s, p - 1);
      NoOpeningExtend(s, if r.Some? then r.value.groupStart else 3, p);
    }
  }

  lemma NoOpeningExtend(s: string, lo: nat, p: nat)
    requires lo < p <= |s|
    requires NoOpeningIn(s, lo, p - 1)
    requires !(s[p - 1] == '\n' && FirstClose(s, p).Some?)
    ensures NoOpeningIn(s, lo, p)
  {
    forall k | lo < k <= p && s[k - 1] == '\n'
      ensures FirstClose(s, k).None?
    {
      if k < p {
        assert lo < k <= p - 1;
      }
    }
  }

  function MatchFence(s: string): Option<FenceMatch> {
    if StartsWith(s, "---") then TryOpenings(s, SpaceRunEnd(s, 3)) else None
  }

  /** What a match is: "---", white space ending in a newline, the shortest possible group,
      "\n---", white space, and a newline or the end of the text. */
  lemma MatchFenceShape(s: string)
    ensures var r := MatchFence(s);
      r.Some? ==>
        var m := r.value;
        && StartsWith(s, "---")
        && 3 < m.groupStart <= m.groupEnd && m.groupEnd + 4 <= m.matchEnd <= |s|
        && (forall k :: 3 <= k < m.groupStart ==> IsSpace(s[k]))
        && s[m.groupStart - 1] == '\n'
        && s[m.groupEnd..m.groupEnd + 4] == "\n---"
        && (forall k :: m.groupEnd + 4 <= k < m.matchEnd ==> IsSpace(s[k]))
        && (m.matchEnd == |s| || s[m.matchEnd - 1] == '\n')
        && (forall k :: m.groupStart <= k < m.groupEnd ==> CloseAt(s, k).None?)
  {
    var r := MatchFence(s);
    if r.Some? {
      var m := r.value;
      TryOpeningsMeaning(s, SpaceRunEnd(s, 3));
      FirstCloseMeaning(s, m.groupStart);
      SpaceRunEndMeaning(s, 3);
      CloseAtMeaning(s, m.groupEnd);
      assert FenceAt(s, m.groupEnd);
      assert s[m.groupEnd..m.groupEnd + 4] == "\n---";
    }
  }

  /** A text that has that shape somewhere is matched. */
  lemma MatchFenceComplete(s: string, p: nat, e: nat)
    requires StartsWith(s, "---") && 3 < p <= e <= |s|
    requires forall k :: 3 <= k < p ==> IsSpace(s[k])
    requires s[p - 1] == '\n'
    requires CloseAt(s, e).Some?
    ensures MatchFence(s).Some?
  {
    var w := SpaceRunEnd(s, 3);
    SpaceRunEndMeaning(s, 3);
    assert w == |s| || !IsSpace(s[w]);
    assert p <= w;
    FirstCloseMeaning(s, p);
    assert FirstClose(s, p).Some?;
    TryOpeningsMeaning(s, w);
  }

  /** The front-matter step: the block goes, and its text is handed to the YAML loader
      (`load`, `None` when it throws), only when both succeed; otherwise the content stays. */
  function StripFrontMatter<M>(content: string, load: string -> Option<M>): (r: (Option<M>, string))
  {
    match MatchFence(content)
    case None => (None, content)
    case Some(m) =>
      MatchFenceShape(content);
      match load(content[m.groupStart..m.groupEnd])
      case None => (None, content)
      case Some(meta) => (Some(meta), content[m.matchEnd..])
  }

  /** Either nothing happens, or the metadata is what the loader made of the block and the
      content is what follows the block. */
  lemma StripFrontMatterMeaning<M>(content: string, load: string -> Option<M>)
    ensures var r := StripFrontMatter(content, load);
      && (MatchFence(content).None? ==> r == (None, content))
      && (r.0.None? ==> r.1 == content)
      && (r.0.Some? ==>
            var m := MatchFence(content).value;
            && MatchFence(content).Some?
            && load(content[m.groupStart..m.groupEnd]) == Some(r.0.value)
            && content == content[..m.matchEnd] + r.1
            && StartsWith(content, "---"))
  {
    var r := StripFrontMatter(content, load);
    if r.0.Some? {
      MatchFenceShape(content);
      var m := MatchFence(content).value;
      assert content == content[..m.matchEnd] + content[m.matchEnd..];
    }
  }

  // ---------------------------------------------------------------------------
  // Wiki links: /\[\[([\s\S]+?)\]\]/g

  /** The first "]]" at or after `k`. */
  function FirstLinkClose(s: string, k: nat): (r: Option<nat>)
    ensures r.Some? ==> k <= r.value && OccursAt(s, "]]", r.value)
    ensures r.Some? ==> forall j :: k <= j < r.value ==> !OccursAt(s, "]]", j)
    ensures r.None? ==> forall j :: k <= j ==> !OccursAt(s, "]]", j)
    decreases |s| - k
  {
    if k + 2 > |s| then None
    else if s[k..k + 2] == "]]" then Some(k)
    else FirstLinkClose(s, k + 1)
  }

  /** The global replace: at each position, a link is "[[", at least one character, and the
      first "]]" after that; where none starts, the character is kept. */
  function RewriteLinks(s: string, render: string -> string): string
    decreases |s|
  {
    if s == [] then []
    else
      match LinkAt(s)
      case Some(j) => render(s[2..j]) + RewriteLinks(s[j + 2..], render)
      case None => [s[0]] + RewriteLinks(s[1..], render)
  }

  /** Where the link starting at the head of `s` closes: "[[", at least one character, then
      the first "]]". */
  function LinkAt(s: string): (r: Option<nat>)
    ensures r.Some? ==> 3 <= r.value && r.value + 2 <= |s|
  {
    if |s| >= 3 && s[0] == '[' && s[1] == '[' then FirstLinkClose(s, 3) else None
  }

  /** Text with no '[' in it is copied as it is, and what follows is rewritten on its own. */
  lemma {:induction false} RewritePlainPrefix(plain: string, rest: string, render: string -> string)
    requires '[' !in plain
    ensures RewriteLinks(plain + rest, render) == plain + RewriteLinks(rest, render)
    decreases |plain|
  {
    if plain != [] {
      var s := plain + rest;
      assert s[0] == plain[0] && s[1..] == plain[1..] + rest;
      assert s[0] != '[';
      RewritePlainPrefix(plain[1..], rest, render);
      assert plain == [plain[0]] + plain[1..];
    } else {
      assert plain + rest == rest;
    }
  }

  /** Text with no "[[" in it is left untouched. */
  lemma RewriteNoLinks(s: string, render: string -> string)
    requires !Contains(s, "[[")
    ensures RewriteLinks(s, render) == s
  {
    AvoidsNotContains(s, "[[");
    RewriteAvoiding(s, render);
  }

  lemma {:induction false} RewriteAvoiding(s: string, render: string -> string)
    requires Avoids(s, "[[")
    ensures RewriteLinks(s, render) == s
    decreases |s|
  {
    if s != [] {
      if |s| >= 2 {
        assert s[..2] != "[[";
        assert !(s[0] == '[' && s[1] == '[');
        AvoidsSuffix(s, "[[", 1);
      }
      RewriteAvoiding(s[1..], render);
    }
  }

  /** A link `[[inner]]` — whose text does not close early — preceded by plain text becomes
      the plain text followed by the rendered link, and the rest is rewritten on its own. */
  lemma RewriteOneLink(plain: string, inner: string, rest: string, render: string -> string)
    requires '[' !in plain
    requires |inner| >= 1 && Avoids(inner[1..] + "]", "]]")
    ensures RewriteLinks(plain + "[[" + inner + "]]" + rest, render)
         == plain + render(inner) + RewriteLinks(rest, render)
  {
    var t := "[[" + inner + "]]" + rest;
    assert plain + "[[" + inner + "]]" + rest == plain + t;
    RewritePlainPrefix(plain, t, render);
    LinkCloses(inner, rest);
    var close := |inner| + 2;
    LinkParts(inner, rest);
    assert LinkAt(t) == Some(close);
    RewriteAtLink(t, close, render);
  }

  /** The pieces of a written link. */
  lemma LinkParts(inner: string, rest: string)
    ensures var t := "[[" + inner + "]]" + rest;
      && |t| == |inner| + 4 + |rest| && t[0] == '[' && t[1] == '['
      && t[2..|inner| + 2] == inner && t[|inner| + 4..] == rest
  {
  }

  /** Where a link opens and closes, it is rendered and the rewriting goes on after it. */
  lemma RewriteAtLink(t: string, close: nat, render: string -> string)
    requires LinkAt(t) == Some(close)
    ensures RewriteLinks(t, render) == render(t[2..close]) + RewriteLinks(t[close + 2..], render)
  {
  }

  /** The link closes at the first "]]" after its text. */
  lemma LinkCloses(inner: string, rest: string)
    requires |inner| >= 1 && Avoids(inner[1..] + "]", "]]")
    ensures FirstLinkClose("[[" + inner + "]]" + rest, 3) == Some(|inner| + 2)
  {
    var t := "[[" + inner + "]]" + rest;
    var close := |inner| + 2;
    assert t[close..close + 2] == "]]";
    assert OccursAt(t, "]]", close);
    var u := inner[1..] + "]";
    AvoidsNotContains(u, "]]");
    forall j | 3 <= j < close ensures !OccursAt(t, "]]", j) {
      assert t[j..j + 2] == u[j - 3..j - 1];
      assert !OccursAt(u, "]]", j - 3);
    }
  }

  // ---------------------------------------------------------------------------
  // Rendering one link

  predicate IsBar(c: char) { c == '|' }

  /** The text before the first '|' (all of it when there is none). */
  function FirstPart(inner: string): (r: string)
    ensures '|' !in r && StartsWith(inner, r)
  {
    var i := FirstIndex(inner, IsBar);
    assert inner[..i][..i] == inner[..i];
    inner[..i]
  }

  /** The text between the first and the second '|', missing when there is no '|'. */
  function SecondPart(inner: string): (r: Option<string>)
    ensures r.Some? <==> '|' in inner
    ensures r.Some? ==> '|' !in r.value
  {
    var i := FirstIndex(inner, IsBar);
    if i == |inner| then None
    else
      var rest := inner[i + 1..];
      Some(FirstPart(rest))
  }

  function RawTarget(inner: string): string { Trim(FirstPart(inner)) }

  function CleanTarget(inner: string): string { Trim(DropMdSuffix(RawTarget(inner))) }

  /** The trimmed label when it is non-empty, else the trimmed target. */
  function DisplayText(inner: string): string {
    var second := SecondPart(inner);
    if second.Some? && Trim(second.value) != "" then Trim(second.value)
    else RawTarget(inner)
  }

  /** A document answers to a target by its trimmed title or slug, ignoring ASCII case. */
  predicate Answers(d: Doc, target: string) {
    Lower(Trim(d.title)) == Lower(target) || Lower(Trim(d.slug)) == Lower(target)
  }

  function AnswersTo(target: string): Doc -> bool {
    d => Answers(d, target)
  }

  /** The fallback slug made from the target. */
  function FallbackSlug(target: string): string {
    Slug.SlugChain(Lower(target))
  }

  function LinkHref(inner: string, docs: seq<Doc>): string {
    var target := CleanTarget(inner);
    var k := FirstIndex(docs, AnswersTo(target));
    if k < |docs| then "/docs/" + docs[k].slug else "/docs/" + FallbackSlug(target)
  }

  /** A Markdown link with the display text and the address. */
  function RenderLink(inner: string, docs: seq<Doc>): string {
    "[" + DisplayText(inner) + "](" + LinkHref(inner, docs) + ")"
  }

  /** `docs[j]` is the first document that answers to the target. */
  predicate FirstAnswering(docs: seq<Doc>, target: string, j: int) {
    0 <= j < |docs| && Answers(docs[j], target) && forall i :: 0 <= i < j ==> !Answers(docs[i], target)
  }

  /** Every rewritten link is a documentation route. */
  lemma LinkHrefRoute(inner: string, docs: seq<Doc>)
    ensures StartsWith(LinkHref(inner, docs), "/docs/")
  {
    var href := LinkHref(inner, docs);
    assert href[..6] == "/docs/";
  }

  /** A link points at the first document that answers to its target. */
  lemma LinkHrefFound(inner: string, docs: seq<Doc>, j: int)
    requires FirstAnswering(docs, CleanTarget(inner), j)
    ensures LinkHref(inner, docs) == "/docs/" + docs[j].slug
  {
    var target := CleanTarget(inner);
    var k := FirstIndex(docs, AnswersTo(target));
    assert AnswersTo(target)(docs[j]);
    assert forall i :: 0 <= i < j ==> !AnswersTo(target)(docs[i]);
    assert k == j;
  }

  /** When no document answers, the link points at a clean slug made from the target. */
  lemma LinkHrefFallback(inner: string, docs: seq<Doc>)
    requires forall k :: 0 <= k < |docs| ==> !Answers(docs[k], CleanTarget(inner))
    ensures LinkHref(inner, docs) == "/docs/" + FallbackSlug(CleanTarget(inner))
    ensures Slug.IsCleanSlug(FallbackSlug(CleanTarget(inner)))
  {
    var target := CleanTarget(inner);
    assert forall i :: 0 <= i < |docs| ==> !AnswersTo(target)(docs[i]);
    FallbackSlugClean(target);
  }

  lemma FallbackSlugClean(target: string)
    ensures Slug.IsCleanSlug(FallbackSlug(target))
  {
    assert Slug.All(Lower(target), Slug.NotUpper);
    Slug.SlugChainIsClean(Lower(target));
  }

  /** The label is the trimmed text after the first '|' when it has any, else the trimmed
      target; the target drops a trailing ".md" in any letter case. */
  lemma DisplayAndTarget(inner: string)
    ensures '|' !in inner ==> DisplayText(inner) == Trim(inner)
    ensures '|' !in CleanTarget(inner) && '|' !in DisplayText(inner)
  {
    if '|' !in inner {
      var i := FirstIndex(inner, IsBar);
      assert i == |inner|;
      assert inner[..i] == inner;
    }
    var raw := FirstPart(inner);
    TrimNoBar(raw);
    TrimNoBar(DropMdSuffix(Trim(raw)));
    DropMdNoBar(Trim(raw));
    var second := SecondPart(inner);
    if second.Some? {
      TrimNoBar(second.value);
    }
  }

  lemma TrimNoBar(s: string)
    requires '|' !in s
    ensures '|' !in Trim(s)
  {
    var k := TrimOffset(s);
    var r := Trim(s);
    forall i | 0 <= i < |r| ensures r[i] != '|' {
      assert r[i] == s[k + i];
    }
  }

  lemma DropMdNoBar(s: string)
    requires '|' !in s
    ensures '|' !in DropMdSuffix(s)
  {
    var r := DropMdSuffix(s);
    forall i | 0 <= i < |r| ensures r[i] != '|' {
      assert r[i] == s[i];
    }
  }

  /** The whole pipeline of the page: newlines, front matter, links. */
  function CleanContent<M>(content: string, docs: seq<Doc>, load: string -> Option<M>): (r: (Option<M>, string))
  {
    var normal := NormalizeNewlines(content);
    var (meta, body) := StripFrontMatter(normal, load);
    (meta, RewriteLinks(body, inner => RenderLink(inner, docs)))
  }

  /** Content that has no carriage return, no front matter and no "[[" is shown as it is. */
  lemma CleanContentPlain<M>(content: string, docs: seq<Doc>, load: string -> Option<M>)
    requires '\r' !in content && !StartsWith(content, "---") && !Contains(content, "[[")
    ensures CleanContent(content, docs, load) == (None, content)
  {
    NormalizeKeepsUnixText(content);
    RewriteNoLinks(content, inner => RenderLink(inner, docs));
  }

  // ---------------------------------------------------------------------------
  // Link targets in the rendered Markdown

  datatype LinkTarget = NoLink | OffSite(url: string) | OnSite(path: string)

  /** The `a` renderer: no href gives no link; "http…", "//…" and "www.…" open outside the
      site, "www.…" with "http://" put in front; every other href is a route of the site. */
  function ClassifyLink(href: string): (r: LinkTarget)
    ensures href == "" <==> r == NoLink
    ensures r.OffSite? <==> href != "" && (StartsWith(href, "http") || StartsWith(href, "//") || StartsWith(href, "www."))
    ensures r.OffSite? && StartsWith(href, "www.") ==> r.url == "http://" + href
    ensures r.OffSite? && !StartsWith(href, "www.") ==> r.url == href
    ensures r.OnSite? ==> r.path == href
  {
    if href == "" then NoLink
    else if StartsWith(href, "http") || StartsWith(href, "//") || StartsWith(href, "www.") then
      OffSite(if StartsWith(href, "www.") then "http://" + href else href)
    else OnSite(href)
  }

  /** Every rewritten wiki link stays inside the site. */
  lemma WikiLinksAreInternal(inner: string, docs: seq<Doc>)
    ensures ClassifyLink(LinkHref(inner, docs)) == OnSite(LinkHref(inner, docs))
  {
    LinkHrefRoute(inner, docs);
    DocsRouteIsOnSite(LinkHref(inner, docs));
  }

  lemma DocsRouteIsOnSite(href: string)
    requires StartsWith(href, "/docs/")
    ensures ClassifyLink(href) == OnSite(href)
  {
    assert href[0] == '/' && href[1] == 'd' by { assert href[..6][0] == href[0] && href[..6][1] == href[1]; }
    assert !StartsWith(href, "http") by { assert href[..4][0] == href[0]; }
    assert !StartsWith(href, "//") by { assert href[..2][1] == href[1]; }
    assert !StartsWith(href, "www.") by { assert href[..4][0] == href[0]; }
  }

  // ---------------------------------------------------------------------------
  // The page

  const DefaultSlug: string := "getting-started"

  class Viewer {
    const store: Storage.ContentStore
    var doc: Option<Doc>
    var allDocs: seq<Doc>
    var feedbackSubmitted: bool

    constructor (store: Storage.ContentStore)
      ensures this.store == store && doc == None && allDocs == [] && !feedbackSubmitted
    {
      this.store := store;
      doc := None;
      allDocs := [];
      feedbackSubmitted := false;
    }

    /** The effect run when the slug of the route changes. `slug` is "" when the route has
        none. It returns the route to replace the current one with, and the product and
        top-navigation ids to select from the document's category. */
    method Open(slug: string) returns (redirect: Option<string>, product: Option<string>, nav: Option<string>)
      modifies this
      ensures !feedbackSubmitted && allDocs == store.docs
      ensures var found := store.DocBySlug(if slug == "" then DefaultSlug else slug);
        && (found.Some? ==> doc == found && redirect == None)
        && (found.None? && (slug == "" || slug == DefaultSlug) && |store.docs| > 0 ==>
              doc == Some(store.docs[0]) && redirect == Some("/docs/" + store.docs[0].slug))
        && (found.None? && !((slug == "" || slug == DefaultSlug) && |store.docs| > 0) ==>
              doc == None && redirect == None)
      ensures doc.None? ==> product == None && nav == None
      ensures doc.Some? ==>
        var i := Storage.IndexOfId(store.categories, doc.value.categoryId, Storage.CategoryId);
        && (i == |store.categories| ==> product == None && nav == None)
        && (i < |store.categories| ==>
              && product == (if store.categories[i].productId != "" then Some(store.categories[i].productId) else None)
              && nav == (if store.categories[i].topNavId != "" then Some(store.categories[i].topNavId) else None))
    {
      feedbackSubmitted := false;
      allDocs := store.docs;
      var found := store.DocBySlug(if slug == "" then DefaultSlug else slug);
      redirect := None;
      if found.None? && (slug == "" || slug == DefaultSlug) && |allDocs| > 0 {
        found := Some(allDocs[0]);
        redirect := Some("/docs/" + allDocs[0].slug);
      }
      doc := found;
      product, nav := None, None;
      if found.Some? {
        var i := Storage.IndexOfId(store.categories, found.value.categoryId, Storage.CategoryId);
        if i < |store.categories| {
          var category := store.categories[i];
          if category.productId != "" {
            product := Some(category.productId);
          }
          if category.topNavId != "" {
            nav := Some(category.topNavId);
          }
        }
      }
    }

    /** `handleFeedback`: counted once per opened document. */
    method HandleFeedback(isHelpful: bool)
      modifies this`feedbackSubmitted, store`docs
      ensures doc.Some? && !old(feedbackSubmitted) ==>
        store.docs == Storage.Feedback(old(store.docs), doc.value.id, isHelpful) && feedbackSubmitted
      ensures doc.None? || old(feedbackSubmitted) ==>
        store.docs == old(store.docs) && feedbackSubmitted == old(feedbackSubmitted)
    {
      if doc.Some? && !feedbackSubmitted {
        store.SubmitFeedback(doc.value.id, isHelpful);
        feedbackSubmitted := true;
      }
    }
  }
}
