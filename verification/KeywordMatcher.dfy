/**
 Masked keyword matching: keywords claim their text longest first, and what one
 keyword claims is blanked out before the next is tried. The reference here
 never changes the text: it looks for occurrences clear of the claimed spans.
 */
module KeywordMatcher {
  import opened Options
  import opened Normalizer

  datatype Span = Span(start: nat, end: nat)

  datatype Item = Item(keyword: string, weight: int, category: string)

  /** 'item', number 'index' of its tier, claims 'span'. */
  datatype Claim = Claim(index: nat, item: Item, span: Span)

  const PREFIXES: seq<string> := [
    "\U{0648}", "\U{0641}", "\U{0628}", "\U{0644}", "\U{0643}", "\U{0627}\U{0644}",
    "\U{0648}\U{0627}\U{0644}", "\U{0641}\U{0627}\U{0644}", "\U{0628}\U{0627}\U{0644}",
    "\U{0644}\U{0644}", "\U{0643}\U{0627}\U{0644}"]

  /** Where the first space is, or the length. */
  function FirstWordEnd(t: string): (n: nat)
    ensures n <= |t| && (n < |t| ==> t[n] == ' ')
  {
    if t == [] || t[0] == ' ' then 0 else 1 + FirstWordEnd(t[1..])
  }

  /** The keyword and, for an Arabic phrase, the keyword with each clitic prefix. */
  function Forms(keyword: string): seq<string> {
    var n := FirstWordEnd(keyword);
    if n == |keyword| || !(exists c <- keyword[..n] :: Arabic(c)) then [keyword]
    else [keyword] + Prefixed(PREFIXES, keyword)
  }

  function Prefixed(prefixes: seq<string>, keyword: string): (r: seq<string>)
    ensures |r| == |prefixes| && forall k | 0 <= k < |r| :: r[k] == prefixes[k] + keyword
  {
    if prefixes == [] then [] else [prefixes[0] + keyword] + Prefixed(prefixes[1..], keyword)
  }

  predicate WordAt(a: Alphabet, t: string, i: int) { 0 <= i < |t| && a.word(t[i]) }

  /** \b. */
  predicate Boundary(a: Alphabet, t: string, i: int) { WordAt(a, t, i - 1) != WordAt(a, t, i) }

  predicate Occurs(a: Alphabet, t: string, form: string, p: nat) {
    && p + |form| <= |t| && t[p..p + |form|] == form
    && Boundary(a, t, p) && Boundary(a, t, p + |form|)
  }

  predicate Apart(s: Span, start: nat, end: nat) { end <= s.start || s.end <= start }

  predicate Free(claimed: seq<Span>, start: nat, end: nat) {
    forall s <- claimed :: Apart(s, start, end)
  }

  /** The leftmost occurrence at or after p that is clear of every claimed span; with none claimed, re.search. */
  function Search(a: Alphabet, t: string, claimed: seq<Span>, form: string, p: nat): (r: Option<nat>)
    ensures r.Some? ==> p <= r.value && Occurs(a, t, form, r.value) && Free(claimed, r.value, r.value + |form|)
    ensures forall q | p <= q < (if r.Some? then r.value else |t| + 1) ::
              !(Occurs(a, t, form, q) && Free(claimed, q, q + |form|))
    decreases |t| + 1 - p
  {
    if p > |t| then None
    else if Occurs(a, t, form, p) && Free(claimed, p, p + |form|) then Some(p)
    else Search(a, t, claimed, form, p + 1)
  }

  /** The first of the forms that is found, where it is found. */
  function FindForm(a: Alphabet, t: string, claimed: seq<Span>, forms: seq<string>): (r: Option<Span>)
    ensures r.Some? ==> r.value.start <= r.value.end <= |t|
  {
    if forms == [] then None
    else match Search(a, t, claimed, forms[0], 0)
      case Some(p) => Some(Span(p, p + |forms[0]|))
      case None => FindForm(a, t, claimed, forms[1..])
  }

  function Find(a: Alphabet, t: string, claimed: seq<Span>, keyword: string): (r: Option<Span>)
    ensures r.Some? ==> r.value.start <= r.value.end <= |t|
  {
    FindForm(a, t, claimed, Forms(keyword))
  }

  predicate Contains(a: Alphabet, t: string, keyword: string) { Find(a, t, [], keyword).Some? }

  function Spaces(n: nat): (r: string)
    ensures |r| == n && forall i | 0 <= i < n :: r[i] == ' '
  {
    seq(n, _ => ' ')
  }

  function Mask(t: string, s: Span): string
    requires s.start <= s.end <= |t|
  {
    t[..s.start] + Spaces(s.end - s.start) + t[s.end..]
  }

  /** _mask_keyword. */
  function MaskKeyword(a: Alphabet, t: string, keyword: string): string {
    match Find(a, t, [], keyword)
    case None => t
    case Some(s) => Mask(t, s)
  }

  predicate Covered(claimed: seq<Span>, i: int) { exists s <- claimed :: s.start <= i < s.end }

  /** The text with every claimed span blanked. */
  function Blanked(t: string, claimed: seq<Span>): (r: string)
    ensures |r| == |t|
  {
    seq(|t|, i requires 0 <= i < |t| => if Covered(claimed, i) then ' ' else t[i])
  }

  // ---- what a claim is ----

  /** A keyword or form of one: words of word characters, one space apart. */
  ghost predicate Phrase(a: Alphabet, form: string) { form != "" && Spaced(a, form) && a.space(' ') && !a.word(' ') }

  /** A stretch that begins and ends with whole words. */
  ghost predicate WordSpan(a: Alphabet, t: string, s: Span) {
    && s.start < s.end <= |t|
    && WordAt(a, t, s.start) && WordAt(a, t, s.end - 1)
    && !WordAt(a, t, s.start - 1) && !WordAt(a, t, s.end)
  }

  lemma PhraseSpan(a: Alphabet, t: string, form: string, p: nat)
    requires Phrase(a, form) && Occurs(a, t, form, p)
    ensures WordSpan(a, t, Span(p, p + |form|))
  {
    PhraseEnds(a, form);
    assert t[p] == form[0] && t[p + |form| - 1] == form[|form| - 1];
  }

  lemma PhraseEnds(a: Alphabet, form: string)
    requires Phrase(a, form)
    ensures a.word(form[0]) && a.word(form[|form| - 1])
  {
    assert form[0] in form && form[|form| - 1] in form;
  }

  /** A space inside a phrase has a word character on each side. */
  lemma PhraseSpace(a: Alphabet, form: string, j: nat)
    requires Phrase(a, form) && j < |form| && form[j] == ' '
    ensures 0 < j < |form| - 1 && a.word(form[j - 1]) && a.word(form[j + 1])
  {
    PhraseEnds(a, form);
    assert form[j - 1] in form && form[j + 1] in form;
  }

  lemma {:induction false} FormsArePhrases(a: Alphabet, keyword: string)
    requires a.Valid() && Phrase(a, keyword)
    ensures forall form <- Forms(keyword) :: Phrase(a, form) && |form| >= |keyword|
  {
    forall form | form in Forms(keyword) ensures Phrase(a, form) && |form| >= |keyword| {
      if form != keyword {
        var prefix := PrefixOf(keyword, form);
        PrefixedPhrase(a, prefix, keyword);
      }
    }
  }

  lemma PrefixOf(keyword: string, form: string) returns (prefix: string)
    requires form in Forms(keyword) && form != keyword
    ensures form == prefix + keyword && prefix != "" && forall c <- prefix :: c in CLITIC_LETTERS
  {
    var k :| 0 <= k < |PREFIXES| && form == PREFIXES[k] + keyword;
    prefix := PREFIXES[k];
    PrefixLetters(k);
  }

  lemma PrefixLetters(k: nat)
    requires k < |PREFIXES|
    ensures PREFIXES[k] != "" && forall c <- PREFIXES[k] :: c in CLITIC_LETTERS
  {
  }

  lemma PrefixedPhrase(a: Alphabet, prefix: string, keyword: string)
    requires a.Valid() && Phrase(a, keyword) && prefix != "" && forall c <- prefix :: c in CLITIC_LETTERS
    ensures Phrase(a, prefix + keyword)
  {
    var form := prefix + keyword;
    assert forall i | 0 <= i < |prefix| :: form[i] in prefix;
    assert forall i | |prefix| <= i < |form| :: form[i] == keyword[i - |prefix|];
    forall i | 0 <= i < |form| - 1 ensures !(form[i] == ' ' && form[i + 1] == ' ') {
      if i >= |prefix| {
        assert !(keyword[i - |prefix|] == ' ' && keyword[i - |prefix| + 1] == ' ');
      }
    }
  }

  // ---- blanking a claimed span is the same as looking around it ----

  /** A phrase found in the blanked text touches nothing that was blanked. */
  lemma NoBlankInside(a: Alphabet, t: string, claimed: seq<Span>, form: string, p: nat, i: nat)
    requires Phrase(a, form) && forall s <- claimed :: WordSpan(a, t, s)
    requires Occurs(a, Blanked(t, claimed), form, p) && p <= i < p + |form|
    ensures !Covered(claimed, i)
  {
    var b := Blanked(t, claimed);
    assert forall k | p <= k < p + |form| :: b[k] == form[k - p];
    if Covered(claimed, i) {
      PhraseSpace(a, form, i - p);
    }
  }

  /** A word edge of a phrase is one before blanking exactly when it is one after. */
  lemma EdgeSurvives(a: Alphabet, t: string, claimed: seq<Span>, i: int)
    requires !a.word(' ') && forall s <- claimed :: WordSpan(a, t, s)
    requires 0 <= i <= |t|
    ensures WordAt(a, t, i) && !Covered(claimed, i) ==> (WordAt(a, t, i - 1) <==> WordAt(a, Blanked(t, claimed), i - 1))
    ensures WordAt(a, t, i - 1) && !Covered(claimed, i - 1) ==> (WordAt(a, t, i) <==> WordAt(a, Blanked(t, claimed), i))
  {
    if Covered(claimed, i - 1) && !Covered(claimed, i) {
      var s :| s in claimed && s.start <= i - 1 < s.end;
      assert s.end == i;
    }
    if Covered(claimed, i) && !Covered(claimed, i - 1) {
      var s :| s in claimed && s.start <= i < s.end;
      assert s.start == i;
    }
  }

  lemma FreeMeansUncovered(claimed: seq<Span>, start: nat, end: nat)
    requires start < end && forall s <- claimed :: s.start < s.end
    ensures Free(claimed, start, end) <==> forall i | start <= i < end :: !Covered(claimed, i)
  {
    if forall i | start <= i < end :: !Covered(claimed, i) {
      forall s | s in claimed ensures Apart(s, start, end) {
        if !Apart(s, start, end) {
          var i := if s.start <= start then start else s.start;
          assert s.start <= i < s.end && start <= i < end;
          assert Covered(claimed, i);
        }
      }
    }
  }

  /** Blanking creates no match and hides only those that touch a claimed span. */
  lemma OccursBlanked(a: Alphabet, t: string, claimed: seq<Span>, form: string, p: nat)
    requires Phrase(a, form) && forall s <- claimed :: WordSpan(a, t, s)
    ensures Occurs(a, Blanked(t, claimed), form, p) <==> Occurs(a, t, form, p) && Free(claimed, p, p + |form|)
  {
    var b, n := Blanked(t, claimed), |form|;
    FreeMeansUncovered(claimed, p, p + n);
    if Occurs(a, b, form, p) {
      forall i | p <= i < p + n ensures !Covered(claimed, i) {
        NoBlankInside(a, t, claimed, form, p, i);
      }
    }
    if p + n <= |t| && Free(claimed, p, p + n) {
      assert b[p..p + n] == t[p..p + n];
      EdgesSurvive(a, t, claimed, form, p);
    }
  }

  lemma EdgesSurvive(a: Alphabet, t: string, claimed: seq<Span>, form: string, p: nat)
    requires Phrase(a, form) && forall s <- claimed :: WordSpan(a, t, s)
    requires p + |form| <= |t| && forall i | p <= i < p + |form| :: !Covered(claimed, i)
    ensures var b := Blanked(t, claimed);
            t[p..p + |form|] == form ==>
              (Boundary(a, b, p) <==> Boundary(a, t, p)) && (Boundary(a, b, p + |form|) <==> Boundary(a, t, p + |form|))
  {
    if t[p..p + |form|] == form {
      PhraseEnds(a, form);
      assert t[p] == form[0] && t[p + |form| - 1] == form[|form| - 1];
      EdgeSurvives(a, t, claimed, p);
      EdgeSurvives(a, t, claimed, p + |form|);
    }
  }

  lemma {:induction false} SearchBlanked(a: Alphabet, t: string, claimed: seq<Span>, form: string, p: nat)
    requires Phrase(a, form) && forall s <- claimed :: WordSpan(a, t, s)
    ensures Search(a, Blanked(t, claimed), [], form, p) == Search(a, t, claimed, form, p)
    decreases |t| + 1 - p
  {
    if p <= |t| {
      OccursBlanked(a, t, claimed, form, p);
      SearchBlanked(a, t, claimed, form, p + 1);
    }
  }

  lemma {:induction false} FindFormBlanked(a: Alphabet, t: string, claimed: seq<Span>, forms: seq<string>)
    requires (forall form <- forms :: Phrase(a, form)) && forall s <- claimed :: WordSpan(a, t, s)
    ensures FindForm(a, Blanked(t, claimed), [], forms) == FindForm(a, t, claimed, forms)
  {
    if forms != [] {
      SearchBlanked(a, t, claimed, forms[0], 0);
      FindFormBlanked(a, t, claimed, forms[1..]);
    }
  }

  /** The span holds one of the forms. */
  ghost predicate Holds(a: Alphabet, t: string, forms: seq<string>, s: Span) {
    exists form <- forms :: Occurs(a, t, form, s.start) && s.end == s.start + |form|
  }

  /** Every occurrence of every form touches a claimed span. */
  ghost predicate AllTaken(a: Alphabet, t: string, forms: seq<string>, claimed: seq<Span>) {
    forall form, p: nat | form in forms && Occurs(a, t, form, p) :: !Free(claimed, p, p + |form|)
  }

  /** A find is a free occurrence of some form; no find means every form's every occurrence is taken. */
  lemma {:induction false} FindFormMeans(a: Alphabet, t: string, claimed: seq<Span>, forms: seq<string>)
    ensures var r := FindForm(a, t, claimed, forms);
            && (r.Some? ==> Holds(a, t, forms, r.value) && Free(claimed, r.value.start, r.value.end))
            && (r.None? <==> AllTaken(a, t, forms, claimed))
  {
    if forms != [] {
      FindFormMeans(a, t, claimed, forms[1..]);
      assert forms == [forms[0]] + forms[1..];
    }
  }

  // ---- what is looked for, and what is taken ----

  /** There is a space, and an Arabic letter in front of the first one. */
  ghost predicate ArabicPhrase(keyword: string) {
    exists k: nat, n: nat | k < n < |keyword| ::
      keyword[n] == ' ' && ' ' !in keyword[..n] && '\U{0600}' <= keyword[k] <= '\U{06FF}'
  }

  ghost predicate FoundFree(a: Alphabet, t: string, claimed: seq<Span>, form: string) {
    exists p: nat :: Occurs(a, t, form, p) && Free(claimed, p, p + |form|)
  }

  lemma {:induction false} FirstWordEndIs(t: string, n: nat)
    requires n < |t| && t[n] == ' ' && ' ' !in t[..n]
    ensures FirstWordEnd(t) == n
  {
    if n > 0 {
      assert t[0] == t[..n][0] && t[1..][..n - 1] == t[..n][1..];
      FirstWordEndIs(t[1..], n - 1);
    }
  }

  lemma {:induction false} NoSpaceInFirstWord(t: string)
    ensures ' ' !in t[..FirstWordEnd(t)]
  {
    if t != [] && t[0] != ' ' {
      NoSpaceInFirstWord(t[1..]);
      var n := FirstWordEnd(t[1..]);
      assert t[..n + 1] == [t[0]] + t[1..][..n];
    }
  }

  lemma FormsAre(keyword: string)
    ensures ArabicPhrase(keyword) ==> Forms(keyword) == [keyword] + Prefixed(PREFIXES, keyword)
    ensures !ArabicPhrase(keyword) ==> Forms(keyword) == [keyword]
  {
    NoSpaceInFirstWord(keyword);
    if ArabicPhrase(keyword) {
      var k: nat, n: nat :| k < n < |keyword| && keyword[n] == ' ' && ' ' !in keyword[..n]
                            && '\U{0600}' <= keyword[k] <= '\U{06FF}';
      FirstWordEndIs(keyword, n);
      assert keyword[..n][k] in keyword[..n] && Arabic(keyword[k]);
    }
  }

  lemma SearchFinds(a: Alphabet, t: string, claimed: seq<Span>, form: string)
    ensures FoundFree(a, t, claimed, form) <==> Search(a, t, claimed, form, 0).Some?
  {
  }

  /** The first form in the list with an occurrence free of claims, where the first such occurrence is. */
  lemma {:induction false} FindFormPicks(a: Alphabet, t: string, claimed: seq<Span>, forms: seq<string>)
    ensures match FindForm(a, t, claimed, forms)
            case None => forall form <- forms :: !FoundFree(a, t, claimed, form)
            case Some(s) =>
              exists k | 0 <= k < |forms| ::
                && Leftmost(a, t, claimed, forms[k], s)
                && forall j | 0 <= j < k :: !FoundFree(a, t, claimed, forms[j])
  {
    if forms != [] {
      var rest := forms[1..];
      SearchFinds(a, t, claimed, forms[0]);
      FindFormPicks(a, t, claimed, rest);
      if Search(a, t, claimed, forms[0], 0).Some? {
        assert Leftmost(a, t, claimed, forms[0], FindForm(a, t, claimed, forms).value);
      } else if FindForm(a, t, claimed, rest).Some? {
        var s := FindForm(a, t, claimed, rest).value;
        var k :| 0 <= k < |rest| && Leftmost(a, t, claimed, rest[k], s)
                 && forall j | 0 <= j < k :: !FoundFree(a, t, claimed, rest[j]);
        assert forms[k + 1] == rest[k] && forall j | 0 < j < k + 1 :: forms[j] == rest[j - 1];
      }
    }
  }

  /** The span holds the form, and no occurrence further left is free of claims. */
  ghost predicate Leftmost(a: Alphabet, t: string, claimed: seq<Span>, form: string, s: Span) {
    && Occurs(a, t, form, s.start) && Free(claimed, s.start, s.end) && s.end == s.start + |form|
    && forall q: nat | q < s.start :: !(Occurs(a, t, form, q) && Free(claimed, q, q + |form|))
  }

  /** An Arabic phrase behind the k-th clitic, in the order in which they are tried. */
  ghost function WithClitic(k: nat, keyword: string): string
    requires k < 11
  {
    (match k
     case 0 => "\U{0648}" case 1 => "\U{0641}" case 2 => "\U{0628}" case 3 => "\U{0644}" case 4 => "\U{0643}"
     case 5 => "\U{0627}\U{0644}" case 6 => "\U{0648}\U{0627}\U{0644}" case 7 => "\U{0641}\U{0627}\U{0644}"
     case 8 => "\U{0628}\U{0627}\U{0644}" case 9 => "\U{0644}\U{0644}" case _ => "\U{0643}\U{0627}\U{0644}")
    + keyword
  }

  lemma PhraseForms(keyword: string)
    requires ArabicPhrase(keyword)
    ensures |Forms(keyword)| == 12 && Forms(keyword)[0] == keyword
    ensures forall k: nat | k < 11 :: Forms(keyword)[k + 1] == WithClitic(k, keyword)
  {
    FormsAre(keyword);
    assert |PREFIXES| == 11;
    forall k: nat | k < 11 ensures Forms(keyword)[k + 1] == WithClitic(k, keyword) {
      assert Forms(keyword)[k + 1] == PREFIXES[k] + keyword;
    }
  }

  /**
   Main result: what a search takes. The keyword's own leftmost free occurrence; failing
   that, and only for a phrase that begins with an Arabic word, the leftmost free one
   behind the first of the eleven clitics that has any; otherwise nothing.
   */
  lemma FindPicks(a: Alphabet, t: string, claimed: seq<Span>, keyword: string)
    ensures var r := Find(a, t, claimed, keyword);
            if FoundFree(a, t, claimed, keyword) then r.Some? && Leftmost(a, t, claimed, keyword, r.value)
            else if r.Some? then
              ArabicPhrase(keyword)
              && exists k: nat | k < 11 ::
                   && Leftmost(a, t, claimed, WithClitic(k, keyword), r.value)
                   && forall j: nat | j < k :: !FoundFree(a, t, claimed, WithClitic(j, keyword))
            else ArabicPhrase(keyword) ==> forall k: nat | k < 11 :: !FoundFree(a, t, claimed, WithClitic(k, keyword))
  {
    var forms, r := Forms(keyword), Find(a, t, claimed, keyword);
    FormsAre(keyword);
    assert forms[0] == keyword;
    FindFormPicks(a, t, claimed, forms);
    if r.Some? {
      var k :| 0 <= k < |forms| && Leftmost(a, t, claimed, forms[k], r.value)
               && forall j | 0 <= j < k :: !FoundFree(a, t, claimed, forms[j]);
      assert FoundFree(a, t, claimed, forms[k]);
      if k > 0 {
        PhraseForms(keyword);
        assert forms[k] == WithClitic(k - 1, keyword);
        assert forall j: nat | j < k - 1 :: forms[j + 1] == WithClitic(j, keyword);
      }
    } else if ArabicPhrase(keyword) {
      PhraseForms(keyword);
      forall k: nat | k < 11 ensures !FoundFree(a, t, claimed, WithClitic(k, keyword)) {
        assert forms[k + 1] == WithClitic(k, keyword);
      }
    }
  }

  /** A keyword is contained exactly when it, or for an Arabic phrase one of its eleven clitic forms, occurs. */
  lemma ContainsIff(a: Alphabet, t: string, keyword: string)
    ensures Contains(a, t, keyword) <==>
            || (exists p: nat :: Occurs(a, t, keyword, p))
            || (ArabicPhrase(keyword) && exists k: nat, p: nat | k < 11 :: Occurs(a, t, WithClitic(k, keyword), p))
  {
    FindPicks(a, t, [], keyword);
    assert forall start, end :: Free([], start, end);
    if exists p: nat :: Occurs(a, t, keyword, p) {
      assert FoundFree(a, t, [], keyword);
    } else if ArabicPhrase(keyword) && exists k: nat, p: nat | k < 11 :: Occurs(a, t, WithClitic(k, keyword), p) {
      var k: nat, p: nat :| k < 11 && Occurs(a, t, WithClitic(k, keyword), p);
      assert FoundFree(a, t, [], WithClitic(k, keyword));
    } else {
      assert !FoundFree(a, t, [], keyword);
    }
  }

  // ---- a tier ----

  /** The reference: each item in turn takes its first occurrence clear of what was taken before. */
  function ClaimsFrom(a: Alphabet, text: string, items: seq<Item>, k: nat, claimed: seq<Span>): seq<Claim>
    requires k <= |items|
    decreases |items| - k
  {
    if k == |items| then []
    else match Find(a, text, claimed, items[k].keyword)
      case None => ClaimsFrom(a, text, items, k + 1, claimed)
      case Some(s) => [Claim(k, items[k], s)] + ClaimsFrom(a, text, items, k + 1, claimed + [s])
  }

  function Claims(a: Alphabet, text: string, items: seq<Item>): seq<Claim> { ClaimsFrom(a, text, items, 0, []) }

  function Hits(claims: seq<Claim>): (r: seq<Item>)
    ensures |r| == |claims|
  {
    if claims == [] then [] else Hits(claims[..|claims| - 1]) + [claims[|claims| - 1].item]
  }

  ghost predicate Phrases(a: Alphabet, items: seq<Item>) {
    forall item <- items :: Phrase(a, item.keyword)
  }

  /** What one search of the blanked text finds, and what masking it leaves. */
  lemma OneClaim(a: Alphabet, text: string, claimed: seq<Span>, keyword: string)
    requires a.Valid() && Phrase(a, keyword) && forall s <- claimed :: WordSpan(a, text, s)
    ensures var r := Find(a, Blanked(text, claimed), [], keyword);
            && r == Find(a, text, claimed, keyword)
            && (r.Some? ==>
                  && WordSpan(a, text, r.value) && Free(claimed, r.value.start, r.value.end)
                  && Holds(a, text, Forms(keyword), r.value))
    ensures MaskKeyword(a, Blanked(text, claimed), keyword) ==
            var r := Find(a, text, claimed, keyword);
            Blanked(text, if r.Some? then claimed + [r.value] else claimed)
  {
    FormsArePhrases(a, keyword);
    FindFormBlanked(a, text, claimed, Forms(keyword));
    FindFormMeans(a, text, claimed, Forms(keyword));
    var r := Find(a, text, claimed, keyword);
    if r.Some? {
      HoldsWordSpan(a, text, Forms(keyword), r.value);
      MaskOnce(text, claimed, r.value);
    }
  }

  lemma HoldsWordSpan(a: Alphabet, t: string, forms: seq<string>, s: Span)
    requires (forall form <- forms :: Phrase(a, form)) && Holds(a, t, forms, s)
    ensures WordSpan(a, t, s)
  {
    var form :| form in forms && Occurs(a, t, form, s.start) && s.end == s.start + |form|;
    PhraseSpan(a, t, form, s.start);
  }

  lemma MaskOnce(text: string, claimed: seq<Span>, s: Span)
    requires s.start <= s.end <= |text|
    ensures Mask(Blanked(text, claimed), s) == Blanked(text, claimed + [s])
  {
    forall i | 0 <= i < |text| ensures Covered(claimed + [s], i) <==> Covered(claimed, i) || s.start <= i < s.end {
      if Covered(claimed, i) {
        var c :| c in claimed && c.start <= i < c.end;
        assert c in claimed + [s];
      }
      assert s in claimed + [s];
    }
  }

  /** The claim is a word-bounded form of its item's keyword, in the text as it was given. */
  ghost predicate Genuine(a: Alphabet, text: string, items: seq<Item>, c: Claim) {
    && c.index < |items| && c.item == items[c.index] && WordSpan(a, text, c.span)
    && Holds(a, text, Forms(c.item.keyword), c.span)
  }

  /** No two claims overlap, and each is made by a later item than the one before. */
  ghost predicate InTurn(claims: seq<Claim>) {
    forall i, j | 0 <= i < j < |claims| ::
      claims[i].index < claims[j].index && Apart(claims[i].span, claims[j].span.start, claims[j].span.end)
  }

  ghost predicate AllGenuine(a: Alphabet, text: string, items: seq<Item>, k: nat, claimed: seq<Span>,
      claims: seq<Claim>) {
    forall c <- claims :: k <= c.index && Genuine(a, text, items, c) && Free(claimed, c.span.start, c.span.end)
  }

  /** Every claim is genuine, clear of the spans taken before it, and made by a later item than the claims before it. */
  lemma {:induction false} ClaimsAreGenuine(a: Alphabet, text: string, items: seq<Item>, k: nat, claimed: seq<Span>)
    requires a.Valid() && Phrases(a, items) && k <= |items| && forall s <- claimed :: WordSpan(a, text, s)
    ensures AllGenuine(a, text, items, k, claimed, ClaimsFrom(a, text, items, k, claimed))
    ensures InTurn(ClaimsFrom(a, text, items, k, claimed))
    decreases |items| - k
  {
    if k < |items| {
      assert items[k] in items;
      OneClaim(a, text, claimed, items[k].keyword);
      match Find(a, text, claimed, items[k].keyword)
      case None => ClaimsAreGenuine(a, text, items, k + 1, claimed);
      case Some(s) =>
        ClaimsAreGenuine(a, text, items, k + 1, claimed + [s]);
        FirstClaim(a, text, items, k, claimed, s, ClaimsFrom(a, text, items, k + 1, claimed + [s]));
    }
  }

  lemma FirstClaim(a: Alphabet, text: string, items: seq<Item>, k: nat, claimed: seq<Span>, s: Span, rest: seq<Claim>)
    requires k < |items| && Genuine(a, text, items, Claim(k, items[k], s)) && Free(claimed, s.start, s.end)
    requires AllGenuine(a, text, items, k + 1, claimed + [s], rest) && InTurn(rest)
    ensures AllGenuine(a, text, items, k, claimed, [Claim(k, items[k], s)] + rest)
    ensures InTurn([Claim(k, items[k], s)] + rest)
  {
    forall c | c in rest
      ensures Free(claimed, c.span.start, c.span.end) && Apart(s, c.span.start, c.span.end)
    {
      FreeOfMore(claimed, s, c.span.start, c.span.end);
    }
    FirstInTurn(Claim(k, items[k], s), rest);
  }

  lemma FirstInTurn(first: Claim, rest: seq<Claim>)
    requires InTurn(rest)
    requires forall c <- rest :: first.index < c.index && Apart(first.span, c.span.start, c.span.end)
    ensures InTurn([first] + rest)
  {
    var claims := [first] + rest;
    forall i, j | 0 <= i < j < |claims|
      ensures claims[i].index < claims[j].index && Apart(claims[i].span, claims[j].span.start, claims[j].span.end)
    {
      assert claims[j] == rest[j - 1] && rest[j - 1] in rest;
      if i > 0 {
        assert claims[i] == rest[i - 1];
      }
    }
  }

  lemma FreeOfMore(claimed: seq<Span>, s: Span, start: nat, end: nat)
    ensures Free(claimed + [s], start, end) <==> Free(claimed, start, end) && Apart(s, start, end)
  {
    assert forall u :: u in claimed + [s] <==> u in claimed || u == s;
  }

  /** Whatever occurrence of the item's keyword was free has since been taken by an earlier item. */
  ghost predicate Shadowed(a: Alphabet, text: string, items: seq<Item>, i: nat, claimed: seq<Span>, claims: seq<Claim>)
    requires i < |items|
  {
    forall form, p: nat | form in Forms(items[i].keyword) && Occurs(a, text, form, p) && Free(claimed, p, p + |form|) ::
      exists c <- claims :: c.index < i && !Apart(c.span, p, p + |form|)
  }

  ghost predicate Hit(claims: seq<Claim>, i: nat) { exists c <- claims :: c.index == i }

  /** An item that claims nothing had all its occurrences taken by the items before it. */
  lemma {:induction false} ClaimsAreComplete(a: Alphabet, text: string, items: seq<Item>, k: nat, claimed: seq<Span>,
      i: nat)
    requires k <= i < |items|
    ensures var claims := ClaimsFrom(a, text, items, k, claimed);
            Hit(claims, i) || Shadowed(a, text, items, i, claimed, claims)
    decreases |items| - k
  {
    FindFormMeans(a, text, claimed, Forms(items[k].keyword));
    var claims := ClaimsFrom(a, text, items, k, claimed);
    match Find(a, text, claimed, items[k].keyword)
    case None =>
      if k < i {
        ClaimsAreComplete(a, text, items, k + 1, claimed, i);
      }
    case Some(s) =>
      assert Claim(k, items[k], s) in claims;
      if k < i {
        ClaimsAreComplete(a, text, items, k + 1, claimed + [s], i);
        ShadowGrows(a, text, items, i, claimed, Claim(k, items[k], s),
            ClaimsFrom(a, text, items, k + 1, claimed + [s]));
      }
  }

  lemma ShadowGrows(a: Alphabet, text: string, items: seq<Item>, i: nat, claimed: seq<Span>, first: Claim,
      rest: seq<Claim>)
    requires first.index < i < |items|
    requires Hit(rest, i) || Shadowed(a, text, items, i, claimed + [first.span], rest)
    ensures var claims := [first] + rest;
            Hit(claims, i) || Shadowed(a, text, items, i, claimed, claims)
  {
    var claims := [first] + rest;
    assert first in claims && forall c :: c in rest ==> c in claims;
    if !Hit(rest, i) {
      forall form, p: nat | form in Forms(items[i].keyword) && Occurs(a, text, form, p) && Free(claimed, p, p + |form|)
        ensures exists c <- claims :: c.index < i && !Apart(c.span, p, p + |form|)
      {
        if Free(claimed + [first.span], p, p + |form|) {
          var c :| c in rest && c.index < i && !Apart(c.span, p, p + |form|);
          assert c in claims;
        }
      }
    }
  }

  /** A tier has hits exactly when one of its keywords occurs in the text. */
  lemma NoHitsIffNoKeyword(a: Alphabet, text: string, items: seq<Item>)
    ensures Claims(a, text, items) == [] <==> forall i | 0 <= i < |items| :: !Contains(a, text, items[i].keyword)
  {
    if Claims(a, text, items) == [] {
      forall i | 0 <= i < |items| ensures !Contains(a, text, items[i].keyword) {
        ClaimsAreComplete(a, text, items, 0, [], i);
        NotContained(a, text, items, i);
      }
    } else {
      FirstHit(a, text, items, 0);
    }
  }

  lemma NotContained(a: Alphabet, text: string, items: seq<Item>, i: nat)
    requires i < |items| && Shadowed(a, text, items, i, [], [])
    ensures !Contains(a, text, items[i].keyword)
  {
    FindFormMeans(a, text, [], Forms(items[i].keyword));
  }

  lemma {:induction false} FirstHit(a: Alphabet, text: string, items: seq<Item>, k: nat)
    requires k <= |items| && ClaimsFrom(a, text, items, k, []) != []
    ensures exists i | k <= i < |items| :: Contains(a, text, items[i].keyword)
    decreases |items| - k
  {
    if Find(a, text, [], items[k].keyword).None? {
      FirstHit(a, text, items, k + 1);
    } else {
      assert Contains(a, text, items[k].keyword);
    }
  }

  // ---- the loops ----

  function Spans(claims: seq<Claim>): seq<Span> {
    if claims == [] then [] else Spans(claims[..|claims| - 1]) + [claims[|claims| - 1].span]
  }

  lemma OneMore(claims: seq<Claim>, c: Claim)
    ensures Hits(claims + [c]) == Hits(claims) + [c.item]
    ensures Spans(claims + [c]) == Spans(claims) + [c.span]
  {
    assert (claims + [c])[..|claims|] == claims;
  }

  /** The masking loop is at item i: what it has claimed, and what the reference has still to claim. */
  ghost predicate Matching(a: Alphabet, text: string, items: seq<Item>, i: nat, claims: seq<Claim>, hits: seq<Item>,
      remaining: string) {
    && i <= |items| && hits == Hits(claims) && remaining == Blanked(text, Spans(claims))
    && (forall s <- Spans(claims) :: WordSpan(a, text, s))
    && claims + ClaimsFrom(a, text, items, i, Spans(claims)) == Claims(a, text, items)
  }

  lemma MatchingStep(a: Alphabet, text: string, items: seq<Item>, i: nat, claims: seq<Claim>, hits: seq<Item>,
      remaining: string)
    returns (next: seq<Claim>)
    requires a.Valid() && Phrases(a, items) && i < |items| && Matching(a, text, items, i, claims, hits, remaining)
    ensures var found := Contains(a, remaining, items[i].keyword);
            Matching(a, text, items, i + 1, next, if found then hits + [items[i]] else hits,
                     MaskKeyword(a, remaining, items[i].keyword))
  {
    OneClaim(a, text, Spans(claims), items[i].keyword);
    var r := Find(a, text, Spans(claims), items[i].keyword);
    assert Find(a, remaining, [], items[i].keyword) == r;
    if r.None? {
      next := claims;
    } else {
      next := claims + [Claim(i, items[i], r.value)];
      MatchingHit(a, text, items, i, claims, hits, remaining, r.value);
    }
  }

  lemma MatchingHit(a: Alphabet, text: string, items: seq<Item>, i: nat, claims: seq<Claim>, hits: seq<Item>,
      remaining: string, s: Span)
    requires i < |items| && Matching(a, text, items, i, claims, hits, remaining)
    requires Find(a, text, Spans(claims), items[i].keyword) == Some(s) && WordSpan(a, text, s)
    ensures Matching(a, text, items, i + 1, claims + [Claim(i, items[i], s)], hits + [items[i]],
        Blanked(text, Spans(claims) + [s]))
  {
    var c := Claim(i, items[i], s);
    OneMore(claims, c);
    Regroup(claims, c, ClaimsFrom(a, text, items, i + 1, Spans(claims) + [s]));
  }

  lemma Regroup(claims: seq<Claim>, c: Claim, later: seq<Claim>)
    ensures claims + ([c] + later) == claims + [c] + later
  {
  }

  lemma MatchingStart(a: Alphabet, text: string, items: seq<Item>)
    ensures Matching(a, text, items, 0, [], [], text)
  {
    assert Spans([]) == [];
    assert Blanked(text, []) == text;
    assert [] + Claims(a, text, items) == Claims(a, text, items);
  }

  lemma MatchingEnd(a: Alphabet, text: string, items: seq<Item>, claims: seq<Claim>, hits: seq<Item>, remaining: string)
    requires Matching(a, text, items, |items|, claims, hits, remaining)
    ensures claims == Claims(a, text, items)
  {
    assert claims + [] == claims;
  }

  /** _match_tier: masking the remaining text claims what looking around the earlier claims would. */
  method MatchTier(a: Alphabet, text: string, items: seq<Item>) returns (hits: seq<Item>, remaining: string)
    requires a.Valid() && Phrases(a, items)
    ensures hits == Hits(Claims(a, text, items))
    ensures remaining == Blanked(text, Spans(Claims(a, text, items)))
  {
    hits, remaining := [], text;
    ghost var claims: seq<Claim> := [];
    MatchingStart(a, text, items);
    for i := 0 to |items|
      invariant Matching(a, text, items, i, claims, hits, remaining)
    {
      claims := MatchingStep(a, text, items, i, claims, hits, remaining);
      if Contains(a, remaining, items[i].keyword) {
        hits := hits + [items[i]];
        remaining := MaskKeyword(a, remaining, items[i].keyword);
      }
    }
    MatchingEnd(a, text, items, claims, hits, remaining);
  }

  /** _has_core_hit: no masking, and the same answer as asking whether the tier has hits. */
  method HasCoreHit(a: Alphabet, text: string, items: seq<Item>) returns (found: bool)
    ensures found <==> Claims(a, text, items) != []
  {
    NoHitsIffNoKeyword(a, text, items);
    for i := 0 to |items|
      invariant forall k | 0 <= k < i :: !Contains(a, text, items[k].keyword)
    {
      if Contains(a, text, items[i].keyword) {
        return true;
      }
    }
    return false;
  }
}
