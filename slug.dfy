/** URL slugs. The replace chain of `generateSlug` (components/BatchUploadModal.tsx),
    `generateSlugSync` (pages/admin/Editor.tsx) and the wiki-link fallback of
    pages/DocViewer.tsx is written once here, as is the ASCII slug of the PDF import and
    the "-1", "-2", ... search for a slug that no document uses yet. */
module Slug {
  import opened Types
  import opened Text

  predicate IsDash(c: char) { c == '-' }

  predicate IsSlugChar(c: char) { IsWordChar(c) || c == '-' || IsCjk(c) }

  /** The characters a slug keeps apart from its dashes. */
  predicate IsKept(c: char) { IsWordChar(c) || IsCjk(c) }

  predicate IsAsciiAlnum(c: char) { ('a' <= c <= 'z') || ('0' <= c <= '9') }

  predicate NotAsciiAlnum(c: char) { !IsAsciiAlnum(c) }

  predicate NoDoubleDash(s: string) {
    Avoids(s, "--")
  }

  predicate NoEdgeDash(s: string) {
    s != [] ==> s[0] != '-' && s[|s| - 1] != '-'
  }

  /** What `generateSlug` promises of its output: only slug characters, no ASCII capital,
      no leading or trailing dash and no two dashes in a row. */
  predicate IsCleanSlug(s: string) {
    && (forall i :: 0 <= i < |s| ==> IsSlugChar(s[i]) && !IsAsciiUpper(s[i]))
    && NoDoubleDash(s)
    && NoEdgeDash(s)
  }

  /** Every maximal run of characters satisfying `p` becomes one `c`. */
  function CollapseRuns(s: string, p: char -> bool, c: char): (r: string)
    ensures r == [] <==> s == []
    ensures r != [] ==> (r[0] == c <==> p(s[0]) || s[0] == c)
    decreases |s|
  {
    if s == [] then []
    else if p(s[0]) then [c] + CollapseRuns(DropWhile(s, p), p, c)
    else [s[0]] + CollapseRuns(s[1..], p, c)
  }

  /** Drops every character that is not a word character, a dash or a CJK ideograph. */
  function KeepSlugChars(s: string): (r: string)
    ensures forall i :: 0 <= i < |r| ==> IsSlugChar(r[i])
  {
    Filter(s, IsSlugChar)
  }

  /** The steps after lower-casing and trimming: white-space runs to '-', drop
      what is not a slug character, collapse dash runs, strip edge dashes. */
  function SlugChain(s: string): string {
    var spaced := CollapseRuns(s, IsSpace, '-');
    var kept := KeepSlugChars(spaced);
    var single := CollapseRuns(kept, IsDash, '-');
    DropWhileEnd(DropWhile(single, IsDash), IsDash)
  }

  /** `generateSlug` / `generateSlugSync`. */
  function GenerateSlug(text: string): string {
    SlugChain(Trim(Lower(text)))
  }

  // ---------------------------------------------------------------------------
  // The shape of the result

  lemma {:induction false} CollapseDashRunsNoDouble(s: string)
    ensures NoDoubleDash(CollapseRuns(s, IsDash, '-'))
    decreases |s|
  {
    if s != [] {
      var r := CollapseRuns(s, IsDash, '-');
      if IsDash(s[0]) {
        var t := DropWhile(s, IsDash);
        CollapseDashRunsNoDouble(t);
        assert r[1..] == CollapseRuns(t, IsDash, '-');
      } else {
        CollapseDashRunsNoDouble(s[1..]);
        assert r[1..] == CollapseRuns(s[1..], IsDash, '-');
      }
      if |r| >= 2 {
        assert r[..2] == [r[0], r[1]];
      }
    }
  }

  predicate LowerSlugChar(c: char) { IsSlugChar(c) && !IsAsciiUpper(c) }

  predicate NotUpper(c: char) { !IsAsciiUpper(c) }

  predicate All(s: string, q: char -> bool) {
    forall i :: 0 <= i < |s| ==> q(s[i])
  }

  lemma AllSlice(s: string, q: char -> bool, k: nat, n: nat)
    requires All(s, q) && k + n <= |s|
    ensures All(s[k..k + n], q)
  {
    var t := s[k..k + n];
    forall i | 0 <= i < n ensures q(t[i]) {
      assert t[i] == s[k + i];
    }
  }

  /** Collapsing runs keeps a property that the run character and every character outside
      the runs have. */
  lemma {:induction false} CollapseRunsAll(s: string, p: char -> bool, c: char, q: char -> bool)
    requires q(c) && forall i :: 0 <= i < |s| ==> p(s[i]) || q(s[i])
    ensures All(CollapseRuns(s, p, c), q)
    decreases |s|
  {
    if s != [] {
      if p(s[0]) {
        var t := DropWhile(s, p);
        AllTail(s, |s| - |t|, p, q);
        CollapseRunsAll(t, p, c, q);
      } else {
        CollapseRunsAll(s[1..], p, c, q);
      }
    }
  }

  lemma AllTail(s: string, k: nat, p: char -> bool, q: char -> bool)
    requires k <= |s| && forall i :: 0 <= i < |s| ==> p(s[i]) || q(s[i])
    ensures forall i :: 0 <= i < |s[k..]| ==> p(s[k..][i]) || q(s[k..][i])
  {
    var t := s[k..];
    forall i | 0 <= i < |t| ensures p(t[i]) || q(t[i]) {
      assert t[i] == s[k + i];
    }
  }

  lemma DropDashesAll(s: string, q: char -> bool)
    requires All(s, q)
    ensures All(DropWhileEnd(DropWhile(s, IsDash), IsDash), q)
  {
    var a := DropWhile(s, IsDash);
    AllSlice(s, q, |s| - |a|, |a|);
    assert s[|s| - |a|..|s|] == a;
    var b := DropWhileEnd(a, IsDash);
    AllSlice(a, q, 0, |b|);
    assert a[0..|b|] == b;
  }

  lemma DropDashesShape(s: string)
    requires NoDoubleDash(s)
    ensures var r := DropWhileEnd(DropWhile(s, IsDash), IsDash);
      NoDoubleDash(r) && NoEdgeDash(r)
  {
    var a := DropWhile(s, IsDash);
    AvoidsSuffix(s, "--", |s| - |a|);
    var b := DropWhileEnd(a, IsDash);
    AvoidsPrefix(a, "--", |b|);
    if b != [] {
      assert b[0] == a[0];
    }
  }

  lemma LowerTrimNoUpper(text: string)
    ensures All(Trim(Lower(text)), NotUpper)
  {
    var l := Lower(text);
    assert All(l, NotUpper);
    AllSlice(l, NotUpper, TrimOffset(l), |Trim(l)|);
  }

  lemma KeepSlugCharsAll(s: string)
    requires All(s, NotUpper)
    ensures All(KeepSlugChars(s), LowerSlugChar)
  {
    var r := KeepSlugChars(s);
    forall i | 0 <= i < |r| ensures LowerSlugChar(r[i]) {
      FilterMember(s, IsSlugChar, r[i]);
    }
  }

  /** Whatever the chain is given, its output is a clean slug once the input has no ASCII
      capital. */
  lemma SlugChainIsClean(t: string)
    requires All(t, NotUpper)
    ensures IsCleanSlug(SlugChain(t))
  {
    var spaced := CollapseRuns(t, IsSpace, '-');
    CollapseRunsAll(t, IsSpace, '-', NotUpper);
    var kept := KeepSlugChars(spaced);
    KeepSlugCharsAll(spaced);
    var single := CollapseRuns(kept, IsDash, '-');
    CollapseRunsAll(kept, IsDash, '-', LowerSlugChar);
    CollapseDashRunsNoDouble(kept);
    DropDashesAll(single, LowerSlugChar);
    DropDashesShape(single);
    var r := DropWhileEnd(DropWhile(single, IsDash), IsDash);
    assert SlugChain(t) == r;
    assert All(r, LowerSlugChar);
  }

  /** The output of `generateSlug` never starts or ends with '-', never holds "--", and
      holds only word characters, '-' and CJK ideographs, none of them an ASCII capital. */
  lemma GenerateSlugIsClean(text: string)
    ensures IsCleanSlug(GenerateSlug(text))
  {
    LowerTrimNoUpper(text);
    SlugChainIsClean(Trim(Lower(text)));
  }

  // ---------------------------------------------------------------------------
  // The content of the result: exactly the kept characters, in order

  lemma {:induction false} FilterNone(s: string, q: char -> bool)
    requires forall i :: 0 <= i < |s| ==> !q(s[i])
    ensures Filter(s, q) == []
    decreases |s|
  {
    if s != [] {
      FilterNone(s[1..], q);
    }
  }

  lemma {:induction false} FilterCons(c: char, s: string, q: char -> bool)
    ensures Filter([c] + s, q) == (if q(c) then [c] else []) + Filter(s, q)
  {
    assert ([c] + s)[1..] == s;
  }

  lemma DropWhileSplit(s: string, p: char -> bool)
    ensures s == s[..|s| - |DropWhile(s, p)|] + DropWhile(s, p)
  {
  }

  /** Collapsing runs of characters that `q` rejects into a rejected character keeps the
      subsequence of characters `q` accepts. */
  lemma {:induction false} CollapseRunsKeeps(s: string, p: char -> bool, c: char, q: char -> bool)
    requires !q(c) && forall x :: p(x) ==> !q(x)
    ensures Filter(CollapseRuns(s, p, c), q) == Filter(s, q)
    decreases |s|
  {
    if s != [] {
      if p(s[0]) {
        var t := DropWhile(s, p);
        var lead := s[..|s| - |t|];
        DropWhileSplit(s, p);
        CollapseRunsKeeps(t, p, c, q);
        FilterCons(c, CollapseRuns(t, p, c), q);
        FilterNone(lead, q);
        FilterAppend(lead, t, q);
      } else {
        CollapseRunsKeeps(s[1..], p, c, q);
        FilterCons(s[0], CollapseRuns(s[1..], p, c), q);
        FilterCons(s[0], s[1..], q);
        assert s == [s[0]] + s[1..];
      }
    }
  }

  lemma {:induction false} FilterTwice(s: string)
    ensures Filter(Filter(s, IsSlugChar), IsKept) == Filter(s, IsKept)
    decreases |s|
  {
    if s != [] {
      FilterTwice(s[1..]);
      if IsSlugChar(s[0]) {
        FilterCons(s[0], Filter(s[1..], IsSlugChar), IsKept);
      }
    }
  }

  /** Dropping a prefix that `q` rejects entirely does not change the filter. */
  lemma {:induction false} FilterDropNone(s: string, k: nat, q: char -> bool)
    requires k <= |s| && forall i :: 0 <= i < k ==> !q(s[i])
    ensures Filter(s, q) == Filter(s[k..], q)
    decreases k
  {
    if k > 0 {
      FilterDropNone(s[1..], k - 1, q);
      assert s[1..][k - 1..] == s[k..];
    }
  }

  /** Dropping a suffix that `q` rejects entirely does not change the filter. */
  lemma {:induction false} FilterTakeNone(s: string, n: nat, q: char -> bool)
    requires n <= |s| && forall i :: n <= i < |s| ==> !q(s[i])
    ensures Filter(s, q) == Filter(s[..n], q)
    decreases |s|
  {
    if n == 0 {
      FilterNone(s, q);
    } else {
      FilterTakeNone(s[1..], n - 1, q);
      assert s[..n][1..] == s[1..][..n - 1];
    }
  }

  lemma SpaceNotKept(c: char)
    requires IsSpace(c)
    ensures !IsKept(c)
  {
  }

  lemma TrimKeeps(s: string)
    ensures Filter(Trim(s), IsKept) == Filter(s, IsKept)
  {
    var r := Trim(s);
    var k := TrimOffset(s);
    TrimShape(s);
    forall i | 0 <= i < k ensures !IsKept(s[i]) {
      SpaceNotKept(s[..k][i]);
    }
    FilterDropNone(s, k, IsKept);
    var t := s[k..];
    forall i | |r| <= i < |t| ensures !IsKept(t[i]) {
      assert t[i] == s[k + |r|..][i - |r|];
      SpaceNotKept(s[k + |r|..][i - |r|]);
    }
    FilterTakeNone(t, |r|, IsKept);
    assert t[..|r|] == r;
  }

  lemma DropDashesKeeps(s: string)
    ensures Filter(DropWhileEnd(DropWhile(s, IsDash), IsDash), IsKept) == Filter(s, IsKept)
  {
    var a := DropWhile(s, IsDash);
    FilterDropNone(s, |s| - |a|, IsKept);
    var b := DropWhileEnd(a, IsDash);
    FilterTakeNone(a, |b|, IsKept);
  }

  /** Apart from its dashes, the slug is exactly the word characters and CJK ideographs of
      the lower-cased text, in their original order. */
  lemma GenerateSlugKeeps(text: string)
    ensures Filter(GenerateSlug(text), IsKept) == Filter(Lower(text), IsKept)
  {
    TrimKeeps(Lower(text));
    SlugChainKeeps(Trim(Lower(text)));
  }

  lemma SlugChainKeeps(t: string)
    ensures Filter(SlugChain(t), IsKept) == Filter(t, IsKept)
  {
    var spaced := CollapseRuns(t, IsSpace, '-');
    var kept := KeepSlugChars(spaced);
    var single := CollapseRuns(kept, IsDash, '-');
    CollapseRunsKeeps(t, IsSpace, '-', IsKept);
    FilterTwice(spaced);
    CollapseRunsKeeps(kept, IsDash, '-', IsKept);
    DropDashesKeeps(single);
  }

  // ---------------------------------------------------------------------------
  // Idempotence: a clean slug is its own slug

  lemma {:induction false} CollapseRunsNoop(s: string, p: char -> bool, c: char)
    requires forall i :: 0 <= i < |s| ==> !p(s[i])
    ensures CollapseRuns(s, p, c) == s
    decreases |s|
  {
    if s != [] {
      CollapseRunsNoop(s[1..], p, c);
    }
  }

  lemma {:induction false} CollapseDashesNoop(s: string)
    requires NoDoubleDash(s)
    ensures CollapseRuns(s, IsDash, '-') == s
    decreases |s|
  {
    if s != [] {
      if |s| >= 2 {
        assert s[..2] == [s[0], s[1]];
      }
      CollapseDashesNoop(s[1..]);
      if IsDash(s[0]) {
        assert DropWhile(s, IsDash) == s[1..];
      }
    }
  }

  lemma {:induction false} FilterAll(s: string, q: char -> bool)
    requires forall i :: 0 <= i < |s| ==> q(s[i])
    ensures Filter(s, q) == s
    decreases |s|
  {
    if s != [] {
      FilterAll(s[1..], q);
    }
  }

  lemma CleanSlugFixed(s: string)
    requires IsCleanSlug(s)
    ensures GenerateSlug(s) == s
  {
    LowerIdentity(s);
    if s != [] {
      SlugCharNotSpace(s[0]);
      SlugCharNotSpace(s[|s| - 1]);
    }
    TrimIdentity(s);
    SlugChainFixed(s);
  }

  lemma SlugChainFixed(s: string)
    requires IsCleanSlug(s)
    ensures SlugChain(s) == s
  {
    forall i | 0 <= i < |s| ensures !IsSpace(s[i]) {
      SlugCharNotSpace(s[i]);
    }
    CollapseRunsNoop(s, IsSpace, '-');
    FilterAll(s, IsSlugChar);
    CollapseDashesNoop(s);
    assert DropWhile(s, IsDash) == s;
    assert DropWhileEnd(s, IsDash) == s;
  }

  lemma SlugCharNotSpace(c: char)
    requires IsSlugChar(c)
    ensures !IsSpace(c)
  {
  }

  /** Slugging a slug changes nothing. */
  lemma GenerateSlugIdempotent(text: string)
    ensures GenerateSlug(GenerateSlug(text)) == GenerateSlug(text)
  {
    GenerateSlugIsClean(text);
    CleanSlugFixed(GenerateSlug(text));
  }

  // ---------------------------------------------------------------------------
  // The PDF import slug (components/PdfImportModal.tsx:129)

  /** The lower-cased title with every run of characters other than ASCII letters and digits
      turned into one '-', and the dashes at both ends removed. */
  function AsciiSlug(title: string): string {
    var dashed := CollapseRuns(Lower(title), NotAsciiAlnum, '-');
    DropWhileEnd(DropWhile(dashed, IsDash), IsDash)
  }

  /** The last four characters (all of them when there are fewer). */
  function LastFour(s: string): (r: string)
    ensures |r| == if |s| < 4 then |s| else 4
    ensures r == s[|s| - |r|..]
  {
    if |s| < 4 then s else s[|s| - 4..]
  }

  function PdfSlug(title: string, now: nat): string {
    AsciiSlug(title) + "-" + LastFour(DecimalString(now))
  }

  predicate IsAsciiSlugChar(c: char) { IsAsciiAlnum(c) || c == '-' }

  lemma {:induction false} AsciiRunsNoDouble(s: string)
    ensures NoDoubleDash(CollapseRuns(s, NotAsciiAlnum, '-'))
    decreases |s|
  {
    if s != [] {
      var r := CollapseRuns(s, NotAsciiAlnum, '-');
      if NotAsciiAlnum(s[0]) {
        var t := DropWhile(s, NotAsciiAlnum);
        AsciiRunsNoDouble(t);
        assert r[1..] == CollapseRuns(t, NotAsciiAlnum, '-');
      } else {
        AsciiRunsNoDouble(s[1..]);
        assert r[1..] == CollapseRuns(s[1..], NotAsciiAlnum, '-');
      }
      if |r| >= 2 {
        assert r[..2] == [r[0], r[1]];
      }
    }
  }

  /** The PDF import slug is built from 'a'-'z', '0'-'9' and single inner dashes, followed by
      '-' and the last (at most four) digits of the clock. */
  lemma PdfSlugShape(title: string, now: nat)
    ensures var core := AsciiSlug(title);
      && All(core, IsAsciiSlugChar) && NoDoubleDash(core) && NoEdgeDash(core)
      && PdfSlug(title, now) == core + "-" + LastFour(DecimalString(now))
      && 1 <= |LastFour(DecimalString(now))| <= 4
  {
    var dashed := CollapseRuns(Lower(title), NotAsciiAlnum, '-');
    CollapseRunsAll(Lower(title), NotAsciiAlnum, '-', IsAsciiSlugChar);
    AsciiRunsNoDouble(Lower(title));
    DropDashesAll(dashed, IsAsciiSlugChar);
    DropDashesShape(dashed);
  }

  // ---------------------------------------------------------------------------
  // Unique slugs (components/BatchUploadModal.tsx:108-113)

  function Candidate(base: string, n: nat): string {
    base + "-" + DecimalString(n)
  }

  lemma CandidateInjective(base: string, m: nat, n: nat)
    requires m != n
    ensures Candidate(base, m) != Candidate(base, n)
  {
    var k := |base| + 1;
    assert Candidate(base, m)[k..] == DecimalString(m);
    assert Candidate(base, n)[k..] == DecimalString(n);
    DecimalInjective(m, n);
  }

  /** The slug tried when the counter of the loop below holds `c`. */
  function Attempt(base: string, c: nat): string {
    if c <= 1 then base else Candidate(base, c - 1)
  }

  lemma AttemptsDistinct(base: string, i: nat, j: nat)
    requires 1 <= i < j
    ensures Attempt(base, i) != Attempt(base, j)
  {
    if i == 1 {
      assert |Attempt(base, j)| > |base|;
    } else {
      CandidateInjective(base, i - 1, j - 1);
    }
  }

  /** The slugs tried before the one for counter `c`. */
  ghost function Tried(base: string, c: nat): set<string>
    decreases c
  {
    if c <= 1 then {} else Tried(base, c - 1) + {Attempt(base, c - 1)}
  }

  lemma {:induction false} TriedHolds(base: string, c: nat, j: nat)
    requires 1 <= c <= j
    ensures Attempt(base, j) !in Tried(base, c)
    decreases c
  {
    if c > 1 {
      TriedHolds(base, c - 1, j);
      AttemptsDistinct(base, c - 1, j);
    }
  }

  lemma {:induction false} TriedCard(base: string, c: nat)
    requires c >= 1
    ensures |Tried(base, c)| == c - 1
    decreases c
  {
    if c > 1 {
      TriedCard(base, c - 1);
      TriedHolds(base, c - 1, c - 1);
    }
  }

  predicate SlugTaken(docs: seq<Doc>, slug: string) {
    exists i | 0 <= i < |docs| :: docs[i].slug == slug
  }

  function SlugsOf(docs: seq<Doc>): set<string> {
    set i | 0 <= i < |docs| :: docs[i].slug
  }

  /** The counter search of the batch upload: try `base`, then `base-1`, `base-2`, ... until
      no document uses the slug. */
  method UniqueSlug(base: string, docs: seq<Doc>) returns (slug: string)
    ensures slug == FreeSlug(base, docs)
  {
    slug := base;
    var counter: nat := 1;
    while SlugTaken(docs, slug)
      invariant counter >= 1 && slug == Attempt(base, counter)
      invariant Tried(base, counter) <= SlugsOf(docs)
      invariant FreeFrom(base, docs, counter) == FreeSlug(base, docs)
      decreases |SlugsOf(docs)| - (counter - 1)
    {
      TriedStep(base, counter, docs);
      slug := Candidate(base, counter);
      counter := counter + 1;
    }
  }

  /** The slug the search settles on once the attempts before counter `c` were all taken. */
  function FreeFrom(base: string, docs: seq<Doc>, c: nat): string
    requires c >= 1 && Tried(base, c) <= SlugsOf(docs)
    decreases |SlugsOf(docs)| - (c - 1)
  {
    if !SlugTaken(docs, Attempt(base, c)) then Attempt(base, c)
    else
      TriedStep(base, c, docs);
      FreeFrom(base, docs, c + 1)
  }

  /** The slug chosen for `base` against `docs`. */
  function FreeSlug(base: string, docs: seq<Doc>): string {
    FreeFrom(base, docs, 1)
  }

  /** No document uses the chosen slug. */
  lemma FreeSlugUnused(base: string, docs: seq<Doc>)
    ensures !SlugTaken(docs, FreeSlug(base, docs))
  {
    FreeFromMeaning(base, docs, 1);
  }

  /** The chosen slug is `base` itself when that is free, and otherwise the first free
      `base-n`. */
  lemma FreeSlugMeaning(base: string, docs: seq<Doc>)
    ensures !SlugTaken(docs, base) ==> FreeSlug(base, docs) == base
    ensures SlugTaken(docs, base) ==>
              exists n: nat :: n >= 1 && FreeSlug(base, docs) == Candidate(base, n) &&
                (forall k: nat :: 1 <= k < n ==> SlugTaken(docs, Candidate(base, k)))
  {
    FreeFromMeaning(base, docs, 1);
  }

  lemma {:induction false} FreeFromMeaning(base: string, docs: seq<Doc>, c: nat)
    requires c >= 1 && Tried(base, c) <= SlugsOf(docs)
    requires c > 1 ==> SlugTaken(docs, base)
    requires forall k: nat :: 1 <= k < c - 1 ==> SlugTaken(docs, Candidate(base, k))
    ensures !SlugTaken(docs, FreeFrom(base, docs, c))
    ensures !SlugTaken(docs, base) ==> FreeFrom(base, docs, c) == base
    ensures SlugTaken(docs, base) ==>
              exists n: nat :: n >= 1 && FreeFrom(base, docs, c) == Candidate(base, n) &&
                (forall k: nat :: 1 <= k < n ==> SlugTaken(docs, Candidate(base, k)))
    decreases |SlugsOf(docs)| - (c - 1)
  {
    if SlugTaken(docs, Attempt(base, c)) {
      TriedStep(base, c, docs);
      FreeFromMeaning(base, docs, c + 1);
    } else if c > 1 {
      assert FreeFrom(base, docs, c) == Candidate(base, c - 1);
    }
  }

  /** Each round of the loop tries a slug that is taken and was not tried before, so the
      rounds are bounded by the number of distinct slugs in use. */
  lemma TriedStep(base: string, counter: nat, docs: seq<Doc>)
    requires counter >= 1 && Tried(base, counter) <= SlugsOf(docs)
    requires SlugTaken(docs, Attempt(base, counter))
    ensures Tried(base, counter + 1) <= SlugsOf(docs)
    ensures counter <= |SlugsOf(docs)|
  {
    var i :| 0 <= i < |docs| && docs[i].slug == Attempt(base, counter);
    assert Attempt(base, counter) in SlugsOf(docs);
    TriedCard(base, counter + 1);
    SubsetCard(Tried(base, counter + 1), SlugsOf(docs));
  }

  lemma SubsetCard<T>(a: set<T>, b: set<T>)
    requires a <= b
    ensures |a| <= |b|
  {
    assert b == a + (b - a);
  }
}
