/** One category's verdict on a posting: compiled tiers, evidence and the decision table. */
module CategoryFilter {
  import opened Options
  import opened Normalizer
  import opened KeywordMatcher

  // ---- compiling a tier: longest keyword first, ties in the order given ----

  function Inserted(item: Item, sorted: seq<Item>): seq<Item> {
    if sorted == [] || |item.keyword| >= |sorted[0].keyword| then [item] + sorted
    else [sorted[0]] + Inserted(item, sorted[1..])
  }

  function LongestFirst(items: seq<Item>): seq<Item> {
    if items == [] then [] else Inserted(items[0], LongestFirst(items[1..]))
  }

  ghost predicate Descending(items: seq<Item>) {
    forall i, j | 0 <= i < j < |items| :: |items[i].keyword| >= |items[j].keyword|
  }

  function OfLength(items: seq<Item>, n: nat): seq<Item> {
    if items == [] then []
    else (if |items[0].keyword| == n then [items[0]] else []) + OfLength(items[1..], n)
  }

  lemma {:induction false} InsertedMembers(item: Item, sorted: seq<Item>)
    ensures multiset(Inserted(item, sorted)) == multiset(sorted) + multiset{item}
  {
    if sorted != [] && |item.keyword| < |sorted[0].keyword| {
      InsertedMembers(item, sorted[1..]);
      assert sorted == [sorted[0]] + sorted[1..];
    }
  }

  lemma {:induction false} InsertedDescends(item: Item, sorted: seq<Item>)
    requires Descending(sorted)
    ensures Descending(Inserted(item, sorted))
  {
    if sorted != [] && |item.keyword| < |sorted[0].keyword| {
      var rest := Inserted(item, sorted[1..]);
      InsertedDescends(item, sorted[1..]);
      forall j | 0 <= j < |rest| ensures |rest[j].keyword| <= |sorted[0].keyword| {
        InsertedFrom(item, sorted[1..], j);
      }
    }
  }

  lemma InsertedFrom(item: Item, sorted: seq<Item>, j: nat)
    requires j < |Inserted(item, sorted)|
    ensures Inserted(item, sorted)[j] == item || Inserted(item, sorted)[j] in sorted
  {
    InsertedMembers(item, sorted);
    assert Inserted(item, sorted)[j] in multiset(Inserted(item, sorted));
  }

  lemma {:induction false} InsertedKeepsOrder(item: Item, sorted: seq<Item>, n: nat)
    ensures OfLength(Inserted(item, sorted), n) == OfLength([item], n) + OfLength(sorted, n)
  {
    var r := Inserted(item, sorted);
    if sorted != [] && |item.keyword| < |sorted[0].keyword| {
      InsertedKeepsOrder(item, sorted[1..], n);
      assert r[1..] == Inserted(item, sorted[1..]);
    } else {
      assert r[1..] == sorted;
    }
  }

  lemma {:induction false} LongestFirstMembers(items: seq<Item>)
    ensures multiset(LongestFirst(items)) == multiset(items)
  {
    if items != [] {
      LongestFirstMembers(items[1..]);
      InsertedMembers(items[0], LongestFirst(items[1..]));
      assert items == [items[0]] + items[1..];
    }
  }

  lemma {:induction false} LongestFirstDescends(items: seq<Item>)
    ensures Descending(LongestFirst(items))
  {
    if items != [] {
      LongestFirstDescends(items[1..]);
      InsertedDescends(items[0], LongestFirst(items[1..]));
    }
  }

  lemma {:induction false} LongestFirstKeepsOrder(items: seq<Item>, n: nat)
    ensures OfLength(LongestFirst(items), n) == OfLength(items, n)
  {
    if items != [] {
      LongestFirstKeepsOrder(items[1..], n);
      InsertedKeepsOrder(items[0], LongestFirst(items[1..]), n);
    }
  }

  /** The compiled tier is the same keywords, longest first, equally long ones in their first order. */
  lemma LongestFirstSorts(items: seq<Item>)
    ensures Descending(LongestFirst(items)) && multiset(LongestFirst(items)) == multiset(items)
    ensures forall n: nat :: OfLength(LongestFirst(items), n) == OfLength(items, n)
  {
    LongestFirstMembers(items);
    LongestFirstDescends(items);
    forall n: nat ensures OfLength(LongestFirst(items), n) == OfLength(items, n) {
      LongestFirstKeepsOrder(items, n);
    }
  }

  /** One keyword list of a profile as it is written down. */
  function Normalized(a: Alphabet, words: seq<Item>): (r: seq<Item>)
    ensures |r| == |words| && forall i | 0 <= i < |r| :: r[i] == words[i].(keyword := Normalize(a, words[i].keyword))
  {
    if words == [] then []
    else [words[0].(keyword := Normalize(a, words[0].keyword))] + Normalized(a, words[1..])
  }

  function Tier(a: Alphabet, words: seq<Item>): seq<Item> { LongestFirst(Normalized(a, words)) }

  /** Keywords that do not normalise to nothing. */
  predicate Usable(a: Alphabet, words: seq<Item>) {
    forall w <- words :: Normalize(a, w.keyword) != ""
  }

  lemma TierIsPhrases(a: Alphabet, words: seq<Item>)
    requires a.Valid() && Usable(a, words)
    ensures Phrases(a, Tier(a, words)) && Descending(Tier(a, words))
    ensures forall item :: item in Tier(a, words) <==> item in Normalized(a, words)
  {
    var n := Normalized(a, words);
    LongestFirstSorts(n);
    forall item ensures item in Tier(a, words) <==> item in n {
      assert item in multiset(Tier(a, words)) <==> item in multiset(n);
    }
    forall item | item in n ensures Phrase(a, item.keyword) {
      var i :| 0 <= i < |n| && n[i] == item;
      NormalizeYieldsNormalForm(a, words[i].keyword);
      assert words[i] in words;
    }
  }

  /**
   What a compiled tier's hits are: each is a word-bounded form of its keyword in
   the original text, no two overlap, and a keyword that misses lost every one of
   its occurrences to a hit whose keyword is no shorter.
   */
  lemma TierHits(a: Alphabet, text: string, words: seq<Item>)
    requires a.Valid() && Usable(a, words)
    ensures var items := Tier(a, words);
            var claims := Claims(a, text, items);
            && InTurn(claims) && (forall c <- claims :: Genuine(a, text, items, c))
            && forall i: nat | i < |items| && !Hit(claims, i) ::
                 forall form, p: nat | form in Forms(items[i].keyword) && Occurs(a, text, form, p) ::
                   exists c <- claims :: |c.item.keyword| >= |items[i].keyword| && !Apart(c.span, p, p + |form|)
  {
    var items := Tier(a, words);
    var claims := Claims(a, text, items);
    TierIsPhrases(a, words);
    ClaimsAreGenuine(a, text, items, 0, []);
    forall i: nat, form, p: nat | i < |items| && !Hit(claims, i) && form in Forms(items[i].keyword)
        && Occurs(a, text, form, p)
      ensures exists c <- claims :: |c.item.keyword| >= |items[i].keyword| && !Apart(c.span, p, p + |form|)
    {
      TierMiss(a, text, items, i, form, p);
    }
  }

  lemma TierMiss(a: Alphabet, text: string, items: seq<Item>, i: nat, form: string, p: nat)
    requires Descending(items) && i < |items| && form in Forms(items[i].keyword)
    ensures AllGenuine(a, text, items, 0, [], Claims(a, text, items)) && Occurs(a, text, form, p) ==>
              Hit(Claims(a, text, items), i)
              || exists c <- Claims(a, text, items) ::
                   |c.item.keyword| >= |items[i].keyword| && !Apart(c.span, p, p + |form|)
  {
    ClaimsAreComplete(a, text, items, 0, [], i);
    assert Free([], p, p + |form|);
    forall c | c in Claims(a, text, items) && AllGenuine(a, text, items, 0, [], Claims(a, text, items)) && c.index < i
      ensures |c.item.keyword| >= |items[i].keyword|
    {
      assert Genuine(a, text, items, c);
    }
  }

  // ---- the decision table ----

  datatype Profile = Profile(
    positiveCore: seq<Item>, positiveSupporting: seq<Item>,
    negativeCore: seq<Item>, negativeSupporting: seq<Item>,
    hardReject: seq<Item>,
    supportingPositiveMin: int, supportingNegativeDowngrade: int,
    loneCoreMin: int, titleNegativeThreshold: int)

  datatype Decision = Notify | NeedsGemini | Reject

  datatype Reason =
    | HardRejectKeyword | TitlePositiveBodyNegative | TitlePositiveHeavyNegative | TitlePositive
    | TitleNegative | MixedCore | CoreNegative | LoneCore | CoreHeavyNegative | CoreClean
    | SupportingOnly | Insufficient

  datatype Evidence = Evidence(
    hardReject: bool, titlePositive: bool, titleNegative: bool,
    corePositives: nat, coreNegative: bool, supportingPositive: int, supportingNegative: int)

  datatype FilterResult = FilterResult(decision: Decision, reason: Reason, evidence: Evidence)

  ghost predicate UsableProfile(a: Alphabet, p: Profile) {
    && Usable(a, p.positiveCore) && Usable(a, p.positiveSupporting) && Usable(a, p.negativeCore)
    && Usable(a, p.negativeSupporting) && Usable(a, p.hardReject)
  }

  function Weight(hits: seq<Item>): int {
    if hits == [] then 0 else Weight(hits[..|hits| - 1]) + hits[|hits| - 1].weight
  }

  predicate AnyOccurs(a: Alphabet, text: string, items: seq<Item>) {
    exists item <- items :: Contains(a, text, item.keyword)
  }

  function Gathered(a: Alphabet, text: string, title: string, p: Profile): Evidence {
    Evidence(
      AnyOccurs(a, text, Tier(a, p.hardReject)),
      title != "" && AnyOccurs(a, title, Tier(a, p.positiveCore)),
      title != "" && AnyOccurs(a, title, Tier(a, p.negativeCore)),
      |Claims(a, text, Tier(a, p.positiveCore))|,
      Claims(a, text, Tier(a, p.negativeCore)) != [],
      Weight(Hits(Claims(a, text, Tier(a, p.positiveSupporting)))),
      Weight(Hits(Claims(a, text, Tier(a, p.negativeSupporting)))))
  }

  /** The rules, top to bottom; the first that applies decides. */
  function Decide(e: Evidence, p: Profile): (Decision, Reason) {
    if e.hardReject then (Reject, HardRejectKeyword)
    else if e.titlePositive && !e.titleNegative then
      if e.coreNegative then (NeedsGemini, TitlePositiveBodyNegative)
      else if e.supportingNegative >= p.titleNegativeThreshold then (NeedsGemini, TitlePositiveHeavyNegative)
      else (Notify, TitlePositive)
    else if e.titleNegative && !e.titlePositive && e.corePositives == 0 then (Reject, TitleNegative)
    else if e.corePositives > 0 && e.coreNegative then (NeedsGemini, MixedCore)
    else if e.coreNegative && e.corePositives == 0 then (Reject, CoreNegative)
    else if e.corePositives > 0 && !e.coreNegative then
      if e.corePositives == 1 && e.supportingPositive < p.loneCoreMin then (NeedsGemini, LoneCore)
      else if e.supportingNegative >= p.supportingNegativeDowngrade then (NeedsGemini, CoreHeavyNegative)
      else (Notify, CoreClean)
    else if e.supportingPositive >= p.supportingPositiveMin then (NeedsGemini, SupportingOnly)
    else (Reject, Insufficient)
  }

  function KeywordFilter(a: Alphabet, text: string, title: string, p: Profile): FilterResult {
    var e := Gathered(a, Normalize(a, text), if title == "" then "" else Normalize(a, title), p);
    var (decision, reason) := Decide(e, p);
    FilterResult(decision, reason, e)
  }

  const MAX_TEXT: nat := 32_000
  const MAX_TITLE: nat := 2_000

  function Cut(t: string, cap: nat): string { if |t| > cap then t[..cap] else t }

  /** What process_job asks of a category: the title, a newline and the description, and the title again. */
  function Classify(a: Alphabet, title: string, description: string, p: Profile): FilterResult {
    KeywordFilter(a, Cut(title + "\n" + description, MAX_TEXT), Cut(title, MAX_TITLE), p)
  }

  // ---- what occurs in the title occurs in the text ----

  lemma OccursInGlued(a: Alphabet, x: string, y: string, form: string, p: nat)
    requires a.Valid() && Occurs(a, x, form, p)
    ensures Occurs(a, Glue(x, y), form, p)
  {
    var g := Glue(x, y);
    assert g[..|x|] == x;
    assert g[p..p + |form|] == x[p..p + |form|];
    assert |g| > |x| > 0 ==> g[|x|] == ' ';
    forall i | i <= |x| ensures WordAt(a, g, i) == WordAt(a, x, i) {
      if 0 <= i < |x| {
        assert g[i] == x[i];
      }
    }
  }

  lemma ContainsMeans(a: Alphabet, t: string, keyword: string)
    ensures Contains(a, t, keyword) <==> exists form, p: nat :: form in Forms(keyword) && Occurs(a, t, form, p)
  {
    FindFormMeans(a, t, [], Forms(keyword));
    if exists form, p: nat :: form in Forms(keyword) && Occurs(a, t, form, p) {
      var form, p: nat :| form in Forms(keyword) && Occurs(a, t, form, p);
      assert Free([], p, p + |form|);
    }
  }

  lemma AnyInGlued(a: Alphabet, x: string, y: string, items: seq<Item>)
    requires a.Valid() && AnyOccurs(a, x, items)
    ensures AnyOccurs(a, Glue(x, y), items)
  {
    var item :| item in items && Contains(a, x, item.keyword);
    ContainsMeans(a, x, item.keyword);
    ContainsMeans(a, Glue(x, y), item.keyword);
    var form, p: nat :| form in Forms(item.keyword) && Occurs(a, x, form, p);
    OccursInGlued(a, x, y, form, p);
  }

  /** A title is cut between words: it fits, or the cut falls at whitespace. */
  predicate CutClean(a: Alphabet, title: string) {
    |title| <= MAX_TITLE || a.space(title[MAX_TITLE])
  }

  /** The classified text begins with the classified title and goes on after whitespace. */
  lemma TitleWithinText(a: Alphabet, title: string, description: string) returns (rest: string)
    requires a.Valid() && CutClean(a, title)
    ensures Normalize(a, Cut(title + "\n" + description, MAX_TEXT)) == Glue(Normalize(a, Cut(title, MAX_TITLE)), rest)
  {
    var whole := title + "\n" + description;
    var text, head := Cut(whole, MAX_TEXT), Cut(title, MAX_TITLE);
    var n := |head|;
    var c := text[n];
    assert text[..n] == head;
    assert a.space(c);
    assert text == head + [c] + text[n + 1..];
    NormalizeAround(a, head, c, text[n + 1..]);
    rest := Normalize(a, text[n + 1..]);
  }

  // ---- main results ----

  lemma HitsIffOccurs(a: Alphabet, text: string, items: seq<Item>)
    ensures Claims(a, text, items) != [] <==> AnyOccurs(a, text, items)
  {
    NoHitsIffNoKeyword(a, text, items);
    if Claims(a, text, items) != [] {
      var i :| 0 <= i < |items| && Contains(a, text, items[i].keyword);
      assert items[i] in items;
    }
  }

  /** A direct notification means no core negative and no hard reject in the text, in any form. */
  lemma NotifyMeansClean(a: Alphabet, text: string, title: string, p: Profile)
    requires KeywordFilter(a, text, title, p).decision == Notify
    ensures forall item, form, q: nat |
              (item in Tier(a, p.negativeCore) || item in Tier(a, p.hardReject)) && form in Forms(item.keyword) ::
              !Occurs(a, Normalize(a, text), form, q)
  {
    var t := Normalize(a, text);
    HitsIffOccurs(a, t, Tier(a, p.negativeCore));
    forall item, form, q: nat |
      (item in Tier(a, p.negativeCore) || item in Tier(a, p.hardReject)) && form in Forms(item.keyword)
      ensures !Occurs(a, t, form, q)
    {
      ContainsMeans(a, t, item.keyword);
    }
  }

  // ---- for which titles that holds, whatever the profile ----

  /** Every keyword of the judged title is a keyword of the judged text. */
  ghost predicate CarriesOver(a: Alphabet, head: string, text: string) {
    forall keyword | NormalForm(a, keyword) && keyword != "" && Contains(a, head, keyword) :: Contains(a, text, keyword)
  }

  function JudgedTitle(a: Alphabet, title: string): string { Normalize(a, Cut(title, MAX_TITLE)) }

  function JudgedText(a: Alphabet, title: string, description: string): string {
    Normalize(a, Cut(title + "\n" + description, MAX_TEXT))
  }

  /** No usable profile notifies directly on a title that reads as a core negative. */
  ghost predicate TitleSafe(a: Alphabet, title: string, description: string) {
    forall p | UsableProfile(a, p) && Classify(a, title, description, p).decision == Notify ::
      !Classify(a, title, description, p).evidence.titleNegative
  }

  lemma TierKeyword(a: Alphabet, words: seq<Item>, item: Item)
    requires a.Valid() && Usable(a, words) && item in Tier(a, words)
    ensures NormalForm(a, item.keyword) && item.keyword != ""
  {
    TierIsPhrases(a, words);
    var n := Normalized(a, words);
    var i :| 0 <= i < |n| && n[i] == item;
    NormalizeYieldsNormalForm(a, words[i].keyword);
    assert words[i] in words;
  }

  lemma CarriedTier(a: Alphabet, head: string, text: string, words: seq<Item>)
    requires a.Valid() && Usable(a, words) && CarriesOver(a, head, text) && AnyOccurs(a, head, Tier(a, words))
    ensures Claims(a, text, Tier(a, words)) != []
  {
    var item :| item in Tier(a, words) && Contains(a, head, item.keyword);
    TierKeyword(a, words, item);
    assert Contains(a, text, item.keyword);
    HitsIffOccurs(a, text, Tier(a, words));
  }

  lemma CarriedTitleIsSafe(a: Alphabet, title: string, description: string, p: Profile)
    requires a.Valid() && UsableProfile(a, p)
    requires CarriesOver(a, JudgedTitle(a, title), JudgedText(a, title, description))
    ensures Classify(a, title, description, p).evidence.titleNegative ==>
              Classify(a, title, description, p).decision != Notify
  {
    if AnyOccurs(a, JudgedTitle(a, title), Tier(a, p.negativeCore)) {
      CarriedTier(a, JudgedTitle(a, title), JudgedText(a, title, description), p.negativeCore);
    }
  }

  /** A profile that knows the whole text as a good sign and one keyword as a bad one. */
  function TrapProfile(text: string, keyword: string): Profile {
    Profile([Item(text, 0, "")], [], [Item(keyword, 0, "")], [], [], 0, 1, 0, 1)
  }

  lemma SingleTier(a: Alphabet, keyword: string)
    requires a.Valid() && NormalForm(a, keyword)
    ensures Tier(a, [Item(keyword, 0, "")]) == [Item(keyword, 0, "")] && Tier(a, []) == []
  {
    FixedIffNormalForm(a, keyword);
    assert Normalized(a, [Item(keyword, 0, "")]) == [Item(keyword, 0, "")];
    assert LongestFirst([Item(keyword, 0, "")]) == Inserted(Item(keyword, 0, ""), LongestFirst([]));
  }

  lemma SingleClaims(a: Alphabet, text: string, item: Item)
    ensures |Claims(a, text, [item])| == if Contains(a, text, item.keyword) then 1 else 0
    ensures AnyOccurs(a, text, [item]) <==> Contains(a, text, item.keyword)
    ensures Claims(a, text, []) == [] && !AnyOccurs(a, text, [])
  {
    assert [item][0] == item && item in [item];
    var r := Find(a, text, [], [item][0].keyword);
    assert forall claimed :: ClaimsFrom(a, text, [item], 1, claimed) == [];
    if r.None? {
      assert ClaimsFrom(a, text, [item], 0, []) == [];
    } else {
      assert ClaimsFrom(a, text, [item], 0, [])
          == [Claim(0, item, r.value)] + ClaimsFrom(a, text, [item], 1, [] + [r.value]);
    }
  }

  lemma TextContainsItself(a: Alphabet, text: string)
    requires a.Valid() && NormalForm(a, text) && text != ""
    ensures Contains(a, text, text)
  {
    PhraseEnds(a, text);
    assert text[0..|text|] == text;
    assert Occurs(a, text, text, 0);
    assert text in Forms(text);
    ContainsMeans(a, text, text);
  }

  lemma TrapEvidence(a: Alphabet, head: string, text: string, keyword: string)
    requires a.Valid() && NormalForm(a, keyword) && keyword != "" && NormalForm(a, text) && text != "" && head != ""
    requires Contains(a, head, keyword) && !Contains(a, text, keyword)
    ensures var e := Gathered(a, text, head, TrapProfile(text, keyword));
            && !e.hardReject && e.titleNegative && e.corePositives == 1 && !e.coreNegative
            && e.supportingPositive == 0 && e.supportingNegative == 0
  {
    SingleTier(a, text);
    SingleTier(a, keyword);
    TextContainsItself(a, text);
    SingleClaims(a, text, Item(text, 0, ""));
    SingleClaims(a, text, Item(keyword, 0, ""));
    SingleClaims(a, head, Item(keyword, 0, ""));
  }

  lemma ContainedInNothing(a: Alphabet, keyword: string)
    requires a.Valid() && Phrase(a, keyword)
    ensures !Contains(a, "", keyword)
  {
    FormsArePhrases(a, keyword);
    ContainsMeans(a, "", keyword);
  }

  /** A keyword the cut title has and the text has not is a trap for some profile. */
  lemma UncarriedTitleIsUnsafe(a: Alphabet, title: string, description: string, keyword: string)
    requires a.Valid() && NormalForm(a, keyword) && keyword != ""
    requires Contains(a, JudgedTitle(a, title), keyword) && !Contains(a, JudgedText(a, title, description), keyword)
    ensures !TitleSafe(a, title, description)
  {
    var head, text := JudgedTitle(a, title), JudgedText(a, title, description);
    ContainedInNothing(a, keyword);
    assert head != "";
    JudgedTextNotEmpty(a, title, description);
    NormalizeYieldsNormalForm(a, Cut(title + "\n" + description, MAX_TEXT));
    TrapEvidence(a, head, text, keyword);
    var p := TrapProfile(text, keyword);
    FixedIffNormalForm(a, text);
    FixedIffNormalForm(a, keyword);
    assert UsableProfile(a, p);
    var r := Classify(a, title, description, p);
    EmptyStaysEmpty(a);
    assert r.decision == Notify && r.evidence.titleNegative;
  }

  lemma EmptyStaysEmpty(a: Alphabet)
    requires a.Valid()
    ensures Normalize(a, "") == ""
  {
    FixedIffNormalForm(a, "");
  }

  lemma JudgedTextNotEmpty(a: Alphabet, title: string, description: string)
    requires a.Valid() && JudgedTitle(a, title) != ""
    ensures JudgedText(a, title, description) != ""
  {
    var head, text := Cut(title, MAX_TITLE), Cut(title + "\n" + description, MAX_TEXT);
    assert text == head + text[|head|..];
    PrefixNotEmpty(a, head, text[|head|..]);
  }

  /**
   Exactly for which postings a direct notification rules out a title that reads as
   a core negative, whatever the profile: those whose judged text has every keyword
   their judged title has. A title cut between words is one of them.
   */
  lemma TitleSafeIff(a: Alphabet, title: string, description: string)
    requires a.Valid()
    ensures TitleSafe(a, title, description) <==>
            CarriesOver(a, JudgedTitle(a, title), JudgedText(a, title, description))
  {
    var head, text := JudgedTitle(a, title), JudgedText(a, title, description);
    if CarriesOver(a, head, text) {
      forall p | UsableProfile(a, p) && Classify(a, title, description, p).evidence.titleNegative
        ensures Classify(a, title, description, p).decision != Notify
      {
        CarriedTitleIsSafe(a, title, description, p);
      }
    } else {
      var keyword :| NormalForm(a, keyword) && keyword != "" && Contains(a, head, keyword)
          && !Contains(a, text, keyword);
      UncarriedTitleIsUnsafe(a, title, description, keyword);
    }
  }

  lemma CleanCutCarriesOver(a: Alphabet, title: string, description: string)
    requires a.Valid() && CutClean(a, title)
    ensures CarriesOver(a, JudgedTitle(a, title), JudgedText(a, title, description))
  {
    var rest := TitleWithinText(a, title, description);
    var head := JudgedTitle(a, title);
    forall keyword | NormalForm(a, keyword) && keyword != "" && Contains(a, head, keyword)
      ensures Contains(a, Glue(head, rest), keyword)
    {
      SingleClaims(a, head, Item(keyword, 0, ""));
      SingleClaims(a, Glue(head, rest), Item(keyword, 0, ""));
      AnyInGlued(a, head, rest, [Item(keyword, 0, "")]);
    }
  }

  /** Core evidence in the title is core evidence in the text. */
  lemma TitleEvidence(a: Alphabet, title: string, description: string, p: Profile)
    requires a.Valid() && CutClean(a, title)
    ensures var e := Classify(a, title, description, p).evidence;
            && (e.titlePositive ==> e.corePositives > 0)
            && (e.titleNegative ==> e.coreNegative)
  {
    var rest := TitleWithinText(a, title, description);
    var head := Normalize(a, Cut(title, MAX_TITLE));
    TitleTier(a, head, rest, Tier(a, p.positiveCore));
    TitleTier(a, head, rest, Tier(a, p.negativeCore));
  }

  lemma TitleTier(a: Alphabet, head: string, rest: string, items: seq<Item>)
    requires a.Valid()
    ensures AnyOccurs(a, head, items) ==> Claims(a, Glue(head, rest), items) != []
  {
    HitsIffOccurs(a, Glue(head, rest), items);
    if AnyOccurs(a, head, items) {
      AnyInGlued(a, head, rest, items);
    }
  }

  /**
   Because the text holds the title, the rules come to this: the title matters
   only for which threshold of negative support a posting must stay under.
   */
  lemma DecisionInShort(a: Alphabet, title: string, description: string, p: Profile)
    requires a.Valid() && CutClean(a, title)
    ensures var r := Classify(a, title, description, p);
            var e := r.evidence;
            && (r.decision == Reject <==>
                  e.hardReject || (e.corePositives == 0
                      && (e.coreNegative || e.supportingPositive < p.supportingPositiveMin)))
            && (r.decision == Notify <==>
                  && !e.hardReject && e.corePositives > 0 && !e.coreNegative
                  && if e.titlePositive then e.supportingNegative < p.titleNegativeThreshold
                     else e.supportingNegative < p.supportingNegativeDowngrade
                          && (e.corePositives > 1 || e.supportingPositive >= p.loneCoreMin))
  {
    TitleEvidence(a, title, description, p);
  }

  // ---- the table on any evidence ----

  function Standing(d: Decision): nat {
    match d
    case Reject => 0
    case NeedsGemini => 1
    case Notify => 2
  }

  /** The title speaks for the category and not against it. */
  predicate TitleClaims(e: Evidence) { e.titlePositive && !e.titleNegative }

  /** Whatever the evidence, also when the title shows what the text does not: which postings go which way. */
  lemma DecisionIff(e: Evidence, p: Profile)
    ensures Decide(e, p).0 == Reject <==>
            || e.hardReject
            || (e.corePositives == 0 && !TitleClaims(e)
                && ((e.titleNegative && !e.titlePositive) || e.coreNegative
                    || e.supportingPositive < p.supportingPositiveMin))
    ensures Decide(e, p).0 == Notify <==>
            && !e.hardReject && !e.coreNegative
            && if TitleClaims(e) then e.supportingNegative < p.titleNegativeThreshold
               else e.corePositives > 0 && e.supportingNegative < p.supportingNegativeDowngrade
                    && (e.corePositives > 1 || e.supportingPositive >= p.loneCoreMin)
  {
  }

  /** The reason says which rule fired, and with it what the evidence had. */
  lemma ReasonMeans(e: Evidence, p: Profile)
    ensures Decide(e, p).1 == HardRejectKeyword <==> e.hardReject
    ensures Decide(e, p).1 in {TitlePositive, TitlePositiveBodyNegative, TitlePositiveHeavyNegative} <==>
            !e.hardReject && TitleClaims(e)
    ensures Decide(e, p).1 in {TitlePositiveBodyNegative, MixedCore, CoreNegative} ==> e.coreNegative
    ensures Decide(e, p).1 == TitlePositiveHeavyNegative ==>
              !e.coreNegative && e.supportingNegative >= p.titleNegativeThreshold
    ensures Decide(e, p).1 in {MixedCore, LoneCore, CoreHeavyNegative, CoreClean} <==>
            !e.hardReject && !TitleClaims(e) && e.corePositives > 0
    ensures Decide(e, p).1 == LoneCore ==> e.corePositives == 1 && e.supportingPositive < p.loneCoreMin
    ensures Decide(e, p).1 == CoreHeavyNegative ==> e.supportingNegative >= p.supportingNegativeDowngrade
    ensures Decide(e, p).1 == TitleNegative ==> e.titleNegative && !e.titlePositive && e.corePositives == 0
    ensures Decide(e, p).1 == SupportingOnly <==>
            Decide(e, p).0 == NeedsGemini && !TitleClaims(e) && e.corePositives == 0
    ensures Decide(e, p).0 == Notify <==> Decide(e, p).1 in {TitlePositive, CoreClean}
    ensures Decide(e, p).0 == Reject <==>
            Decide(e, p).1 in {HardRejectKeyword, TitleNegative, CoreNegative, Insufficient}
  {
  }

  /** As good a case or worse, with the same to say of the title. */
  ghost predicate NoBetter(e: Evidence, f: Evidence) {
    && e.titlePositive == f.titlePositive && e.titleNegative == f.titleNegative
    && (f.hardReject ==> e.hardReject) && (f.coreNegative ==> e.coreNegative)
    && e.corePositives <= f.corePositives && e.supportingPositive <= f.supportingPositive
    && e.supportingNegative >= f.supportingNegative
  }

  /** More against a category or less for it never makes its decision better. */
  lemma DecisionIsMonotone(e: Evidence, f: Evidence, p: Profile)
    requires NoBetter(e, f)
    ensures Standing(Decide(e, p).0) <= Standing(Decide(f, p).0)
  {
    DecisionIff(e, p);
    DecisionIff(f, p);
  }

  /**
   A core keyword in the title, on top of one in the text, never makes the decision
   worse if and only if the policy allows a claim through the title as much negative
   support as one through the text.
   */
  lemma TitleHelpsIff(p: Profile)
    ensures (forall e: Evidence | e.corePositives > 0 && e.supportingNegative >= 0 ::
               Standing(Decide(e.(titlePositive := false), p).0) <= Standing(Decide(e.(titlePositive := true), p).0))
            <==> p.titleNegativeThreshold >= p.supportingNegativeDowngrade || p.supportingNegativeDowngrade <= 0
  {
    if p.titleNegativeThreshold < p.supportingNegativeDowngrade && p.supportingNegativeDowngrade > 0 {
      var e := Evidence(false, false, false, 2, false, 0, p.supportingNegativeDowngrade - 1);
      assert Decide(e, p).0 == Notify && Decide(e.(titlePositive := true), p).0 == NeedsGemini;
      assert e.(titlePositive := false) == e;
    } else {
      forall e: Evidence | e.corePositives > 0 && e.supportingNegative >= 0
        ensures Standing(Decide(e.(titlePositive := false), p).0) <= Standing(Decide(e.(titlePositive := true), p).0)
      {
        DecisionIff(e.(titlePositive := false), p);
        DecisionIff(e.(titlePositive := true), p);
      }
    }
  }

  // ---- weights ----

  lemma {:induction false} WeightAdds(x: seq<Item>, y: seq<Item>)
    ensures Weight(x + y) == Weight(x) + Weight(y)
    decreases |y|
  {
    if y == [] {
      assert x + y == x;
    } else {
      var n := |y| - 1;
      assert (x + y)[..|x| + n] == x + y[..n];
      WeightAdds(x, y[..n]);
    }
  }

  /** The weights of the first n items, of those alone that have a hit. */
  ghost function WeightOfHitting(items: seq<Item>, claims: seq<Claim>, n: nat): int
    requires n <= |items|
  {
    if n == 0 then 0
    else WeightOfHitting(items, claims, n - 1) + if Hit(claims, n - 1) then items[n - 1].weight else 0
  }

  /** Which of the first n items have a hit. */
  ghost function Hitting(claims: seq<Claim>, n: nat): set<nat> { set i: nat | i < n && Hit(claims, i) }

  lemma {:induction false} SameHitsWeighTheSame(items: seq<Item>, claims: seq<Claim>, others: seq<Claim>, n: nat)
    requires n <= |items| && forall i: nat | i < n :: Hit(claims, i) <==> Hit(others, i)
    ensures WeightOfHitting(items, claims, n) == WeightOfHitting(items, others, n)
  {
    if n > 0 {
      SameHitsWeighTheSame(items, claims, others, n - 1);
    }
  }

  /** The claims are made by ever later ones of the first n items. */
  ghost predicate Indexed(items: seq<Item>, claims: seq<Claim>, n: nat) {
    && n <= |items|
    && (claims == [] ||
        var last := claims[|claims| - 1];
        last.index < n && last.item == items[last.index] && Indexed(items, claims[..|claims| - 1], last.index))
  }

  lemma {:induction false} InTurnIndexed(items: seq<Item>, claims: seq<Claim>, n: nat)
    requires n <= |items| && InTurn(claims)
    requires forall k | 0 <= k < |claims| :: claims[k].index < n && claims[k].item == items[claims[k].index]
    ensures Indexed(items, claims, n)
  {
    if claims != [] {
      var m := |claims| - 1;
      assert forall k | 0 <= k < m :: claims[..m][k] == claims[k] && claims[k].index < claims[m].index;
      InTurnIndexed(items, claims[..m], claims[m].index);
    }
  }

  lemma {:induction false} IndexedBelow(items: seq<Item>, claims: seq<Claim>, n: nat)
    requires Indexed(items, claims, n)
    ensures forall c <- claims :: c.index < n
  {
    if claims != [] {
      var rest, last := claims[..|claims| - 1], claims[|claims| - 1];
      IndexedBelow(items, rest, last.index);
      assert claims == rest + [last];
    }
  }

  lemma LastHit(items: seq<Item>, claims: seq<Claim>, n: nat)
    requires Indexed(items, claims, n) && n > 0
    ensures Hit(claims, n - 1) <==> claims != [] && claims[|claims| - 1].index == n - 1
  {
    if claims != [] {
      var rest, last := claims[..|claims| - 1], claims[|claims| - 1];
      IndexedBelow(items, rest, last.index);
      assert claims == rest + [last] && last in claims;
    }
  }

  /** The last claim apart, the same items have hits. */
  lemma HitsBefore(claims: seq<Claim>, n: nat)
    requires n > 0 && claims != [] && claims[|claims| - 1].index == n - 1
    ensures forall i: nat | i < n - 1 :: Hit(claims, i) <==> Hit(claims[..|claims| - 1], i)
    ensures Hitting(claims, n) == Hitting(claims[..|claims| - 1], n - 1) + {n - 1}
  {
    var rest := claims[..|claims| - 1];
    assert claims == rest + [claims[|claims| - 1]];
    forall i: nat | i < n - 1 ensures Hit(claims, i) <==> Hit(rest, i) {
      if Hit(claims, i) {
        var c :| c in claims && c.index == i;
        assert c in rest;
      }
      if Hit(rest, i) {
        var c :| c in rest && c.index == i;
        assert c in claims;
      }
    }
    assert claims[|claims| - 1] in claims && Hit(claims, n - 1);
  }

  lemma OneMoreHit(items: seq<Item>, claims: seq<Claim>, n: nat)
    requires 0 < n <= |items| && claims != [] && claims[|claims| - 1] == Claim(n - 1, items[n - 1],
        claims[|claims| - 1].span)
    ensures var rest := claims[..|claims| - 1];
            && Weight(Hits(claims)) == Weight(Hits(rest)) + items[n - 1].weight
            && WeightOfHitting(items, claims, n) == WeightOfHitting(items, rest, n - 1) + items[n - 1].weight
            && |Hitting(claims, n)| == |Hitting(rest, n - 1)| + 1
  {
    var rest := claims[..|claims| - 1];
    HitsBefore(claims, n);
    SameHitsWeighTheSame(items, claims, rest, n - 1);
    assert claims[|claims| - 1] in claims && Hit(claims, n - 1);
    assert n - 1 !in Hitting(rest, n - 1);
  }

  lemma NoMoreHit(items: seq<Item>, claims: seq<Claim>, n: nat)
    requires 0 < n <= |items| && !Hit(claims, n - 1)
    ensures WeightOfHitting(items, claims, n) == WeightOfHitting(items, claims, n - 1)
    ensures Hitting(claims, n) == Hitting(claims, n - 1)
  {
  }

  lemma {:induction false} HitsWeigh(items: seq<Item>, claims: seq<Claim>, n: nat)
    requires Indexed(items, claims, n)
    ensures Weight(Hits(claims)) == WeightOfHitting(items, claims, n) && |claims| == |Hitting(claims, n)|
    decreases n
  {
    if n > 0 {
      LastHit(items, claims, n);
      if Hit(claims, n - 1) {
        var last := claims[|claims| - 1];
        assert last == Claim(n - 1, items[n - 1], last.span);
        HitsWeigh(items, claims[..|claims| - 1], n - 1);
        OneMoreHit(items, claims, n);
      } else {
        HitsWeigh(items, claims, n - 1);
        NoMoreHit(items, claims, n);
      }
    }
  }

  lemma TierSum(a: Alphabet, text: string, words: seq<Item>)
    requires a.Valid() && Usable(a, words)
    ensures var items := Tier(a, words);
            var claims := Claims(a, text, items);
            && Weight(Hits(claims)) == WeightOfHitting(items, claims, |items|)
            && |claims| == |Hitting(claims, |items|)|
  {
    TierHits(a, text, words);
    var items := Tier(a, words);
    var claims := Claims(a, text, items);
    forall k | 0 <= k < |claims| ensures claims[k].index < |items| && claims[k].item == items[claims[k].index] {
      assert Genuine(a, text, items, claims[k]);
    }
    InTurnIndexed(items, claims, |items|);
    HitsWeigh(items, claims, |items|);
  }

  /** The evidence as sums: every keyword that hits counts once, with its own weight, and no other counts. */
  lemma EvidenceIsSums(a: Alphabet, text: string, title: string, p: Profile)
    requires a.Valid() && UsableProfile(a, p)
    ensures var e := Gathered(a, text, title, p);
            var core, support := Tier(a, p.positiveCore), Tier(a, p.positiveSupporting);
            var against, contrary := Tier(a, p.negativeCore), Tier(a, p.negativeSupporting);
            && e.corePositives == |Hitting(Claims(a, text, core), |core|)|
            && (e.coreNegative <==> Hitting(Claims(a, text, against), |against|) != {})
            && e.supportingPositive == WeightOfHitting(support, Claims(a, text, support), |support|)
            && e.supportingNegative == WeightOfHitting(contrary, Claims(a, text, contrary), |contrary|)
  {
    TierSum(a, text, p.positiveCore);
    TierSum(a, text, p.positiveSupporting);
    TierSum(a, text, p.negativeCore);
    TierSum(a, text, p.negativeSupporting);
  }


  ghost predicate NonNegative(words: seq<Item>) { forall w <- words :: w.weight >= 0 }

  lemma {:induction false} HitsAreItems(a: Alphabet, text: string, items: seq<Item>, k: nat, claimed: seq<Span>)
    requires k <= |items|
    ensures forall c <- ClaimsFrom(a, text, items, k, claimed) :: c.item in items
    decreases |items| - k
  {
    if k < |items| {
      match Find(a, text, claimed, items[k].keyword)
      case None => HitsAreItems(a, text, items, k + 1, claimed);
      case Some(s) => HitsAreItems(a, text, items, k + 1, claimed + [s]);
    }
  }

  lemma {:induction false} WeightNonNegative(claims: seq<Claim>)
    requires forall c <- claims :: c.item.weight >= 0
    ensures Weight(Hits(claims)) >= 0
  {
    if claims != [] {
      WeightNonNegative(claims[..|claims| - 1]);
    }
  }

  lemma TierWeight(a: Alphabet, text: string, words: seq<Item>)
    requires NonNegative(words)
    ensures Weight(Hits(Claims(a, text, Tier(a, words)))) >= 0
  {
    var items, n := Tier(a, words), Normalized(a, words);
    LongestFirstMembers(n);
    HitsAreItems(a, text, items, 0, []);
    forall c | c in Claims(a, text, items) ensures c.item.weight >= 0 {
      assert c.item in multiset(items);
      var i :| 0 <= i < |n| && n[i] == c.item;
      assert words[i] in words;
    }
    WeightNonNegative(Claims(a, text, items));
  }

  // ---- the loops that gather the evidence ----

  /** keyword_filter: four masked passes over the text and two unmasked ones over the title. */
  method RunKeywordFilter(a: Alphabet, text: string, title: string, p: Profile) returns (r: FilterResult)
    requires a.Valid() && UsableProfile(a, p)
    ensures r == KeywordFilter(a, text, title, p)
  {
    var normalizedText := Normalize(a, text);
    var normalizedTitle := if title == "" then "" else Normalize(a, title);
    TiersUsable(a, p);
    var hardReject := AnyOccurs(a, normalizedText, Tier(a, p.hardReject));
    var positive, _ := MatchTier(a, normalizedText, Tier(a, p.positiveCore));
    var supporting, _ := MatchTier(a, normalizedText, Tier(a, p.positiveSupporting));
    var negative, _ := MatchTier(a, normalizedText, Tier(a, p.negativeCore));
    var against, _ := MatchTier(a, normalizedText, Tier(a, p.negativeSupporting));
    var titlePositive, titleNegative := false, false;
    if normalizedTitle != "" {
      titlePositive := HasCoreHit(a, normalizedTitle, Tier(a, p.positiveCore));
      titleNegative := HasCoreHit(a, normalizedTitle, Tier(a, p.negativeCore));
    }
    HitsIffOccurs(a, normalizedTitle, Tier(a, p.positiveCore));
    HitsIffOccurs(a, normalizedTitle, Tier(a, p.negativeCore));
    var e := Evidence(hardReject, titlePositive, titleNegative, |positive|, negative != [], Weight(supporting),
        Weight(against));
    var (decision, reason) := Decide(e, p);
    return FilterResult(decision, reason, e);
  }

  lemma TiersUsable(a: Alphabet, p: Profile)
    requires a.Valid() && UsableProfile(a, p)
    ensures Phrases(a, Tier(a, p.positiveCore)) && Phrases(a, Tier(a, p.positiveSupporting))
    ensures Phrases(a, Tier(a, p.negativeCore)) && Phrases(a, Tier(a, p.negativeSupporting))
  {
    TierIsPhrases(a, p.positiveCore);
    TierIsPhrases(a, p.positiveSupporting);
    TierIsPhrases(a, p.negativeCore);
    TierIsPhrases(a, p.negativeSupporting);
  }

  // ---- a cut through a word ----

  predicate PlainWord(c: char) { c == 'a' || c == 'b' || c in CLITIC_LETTERS }

  predicate PlainSpace(c: char) { c == ' ' || c == '\n' }

  function PlainLower(c: char): string { [c] }

  const PLAIN: Alphabet := Alphabet(PlainWord, PlainSpace, PlainLower)

  const CUT_PROFILE: Profile := Profile(
    [Item("ab", 8, "core")], [Item("ab", 5, "supporting")], [Item("a", 8, "core")], [], [], 12, 14, 5, 10)

  lemma PlainIsValid()
    ensures PLAIN.Valid()
  {
  }

  lemma {:induction false} LeadingSpaces(n: nat, y: string)
    ensures Normalize(PLAIN, Spaces(n) + y) == Normalize(PLAIN, y)
  {
    PlainIsValid();
    if n > 0 {
      assert Spaces(n) + y == [] + [' '] + (Spaces(n - 1) + y);
      NormalizeAround(PLAIN, [], ' ', Spaces(n - 1) + y);
      LeadingSpaces(n - 1, y);
    } else {
      assert Spaces(n) + y == y;
    }
  }

  lemma PlainWords(t: string)
    requires t == "a" || t == "ab"
    ensures Normalize(PLAIN, t) == t
  {
    PlainIsValid();
    assert forall c :: c == 'a' || c == 'b' ==> Settled(PLAIN, c);
    assert NormalForm(PLAIN, t);
    FixedIffNormalForm(PLAIN, t);
  }

  lemma PlainLine()
    ensures Normalize(PLAIN, "ab\n") == "ab"
  {
    PlainIsValid();
    PlainWords("ab");
    assert "ab\n" == "ab" + ['\n'] + "";
    NormalizeAround(PLAIN, "ab", '\n', "");
    FixedIffNormalForm(PLAIN, "");
  }

  lemma PlainForms(form: string)
    requires form == "a" || form == "ab"
    ensures Forms(form) == [form]
  {
    assert FirstWordEnd(form) == |form|;
  }

  lemma PlainFind(t: string, form: string)
    requires (t == "a" && form == "ab") || (t == "ab" && form == "a")
    ensures Find(PLAIN, t, [], form) == None
  {
    PlainForms(form);
    FindFormMeans(PLAIN, t, [], [form]);
    forall p: nat ensures !Occurs(PLAIN, t, form, p) {
    }
  }

  lemma PlainFindSelf(t: string)
    requires t == "a" || t == "ab"
    ensures Find(PLAIN, t, [], t) == Some(Span(0, |t|))
  {
    PlainForms(t);
    assert t[0..|t|] == t;
    assert Occurs(PLAIN, t, t, 0);
  }

  lemma PlainTier(w: Item)
    requires w.keyword == "a" || w.keyword == "ab"
    ensures Tier(PLAIN, [w]) == [w] && Tier(PLAIN, []) == []
  {
    PlainWords(w.keyword);
    assert Normalized(PLAIN, [w]) == [w];
    assert LongestFirst([w]) == Inserted(w, LongestFirst([]));
  }

  lemma PlainClaims(t: string, w: Item)
    requires (t == "a" || t == "ab") && (w.keyword == "a" || w.keyword == "ab")
    ensures Claims(PLAIN, t, [w]) == if t == w.keyword then [Claim(0, w, Span(0, |t|))] else []
    ensures Contains(PLAIN, t, w.keyword) <==> t == w.keyword
  {
    if t == w.keyword {
      PlainFindSelf(t);
    } else {
      PlainFind(t, w.keyword);
    }
    var s := Span(0, |t|);
    assert ClaimsFrom(PLAIN, t, [w], 1, []) == [] == ClaimsFrom(PLAIN, t, [w], 1, [] + [s]);
    assert Find(PLAIN, t, [], [w][0].keyword) == if t == w.keyword then Some(s) else None;
    assert ClaimsFrom(PLAIN, t, [w], 0, []) == if t == w.keyword then [Claim(0, w, s)] + [] else [];
  }

  lemma CutEvidence()
    ensures var e := Gathered(PLAIN, "ab", "a", CUT_PROFILE);
            && !e.hardReject && !e.titlePositive && e.titleNegative && e.corePositives == 1 && !e.coreNegative
            && e.supportingPositive == 5 && e.supportingNegative == 0
  {
    var core, support, negative := CUT_PROFILE.positiveCore[0], CUT_PROFILE.positiveSupporting[0],
        CUT_PROFILE.negativeCore[0];
    PlainTier(core);
    PlainTier(support);
    PlainTier(negative);
    PlainClaims("ab", core);
    PlainClaims("a", core);
    PlainClaims("ab", support);
    PlainClaims("ab", negative);
    PlainClaims("a", negative);
    assert negative in [negative];
    assert Claims(PLAIN, "ab", []) == [];
    assert Hits([Claim(0, support, Span(0, 2))]) == [support];
    assert Weight([support]) == 5;
  }

  /**
   The premise is needed: when the cap cuts a title in the middle of a word, what
   is left can read as a core negative that the text does not hold, and the
   posting is still notified directly.
   */
  lemma CutTitleReadsNegative() returns (title: string)
    ensures PLAIN.Valid() && |title| == MAX_TITLE + 1
    ensures var r := Classify(PLAIN, title, "", CUT_PROFILE);
            r.decision == Notify && r.evidence.titleNegative
  {
    PlainIsValid();
    title := Spaces(1999) + "ab";
    assert Cut(title, MAX_TITLE) == Spaces(1999) + "a";
    assert Cut(title + "\n" + "", MAX_TEXT) == Spaces(1999) + "ab\n";
    LeadingSpaces(1999, "a");
    LeadingSpaces(1999, "ab\n");
    PlainWords("a");
    PlainLine();
    CutEvidence();
  }
}
