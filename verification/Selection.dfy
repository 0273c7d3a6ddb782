/**
 Picking one category among the profiles' verdicts. Scores are five times the
 code's, so that 0.8 and 1.0 are whole numbers.
 */
module Selection {
  import opened Options
  import opened CategoryFilter
  import opened Normalizer

  const TITLE_CORE_POSITIVE: int := 60
  const CORE_POSITIVE_HIT: int := 40
  const SUPPORTING_POSITIVE: int := 5
  const CORE_NEGATIVE_PENALTY: int := 125
  const SUPPORTING_NEGATIVE: int := 4
  const CLAIM_THRESHOLD: int := 50
  const AMBIGUOUS_THRESHOLD: int := 100
  const MIN_MARGIN: int := 5

  datatype Candidate = Candidate(id: string, result: FilterResult)

  /** category_select_score. */
  function Score(r: FilterResult): int {
    var e := r.evidence;
    (if e.titlePositive then TITLE_CORE_POSITIVE else 0) + CORE_POSITIVE_HIT * e.corePositives
    + SUPPORTING_POSITIVE * e.supportingPositive - (if e.coreNegative then CORE_NEGATIVE_PENALTY else 0)
    - SUPPORTING_NEGATIVE * e.supportingNegative
  }

  function Threshold(r: FilterResult): int {
    if r.decision == Notify then CLAIM_THRESHOLD else AMBIGUOUS_THRESHOLD
  }

  function Deciding(results: seq<Candidate>, d: Decision): seq<Candidate> {
    if results == [] then []
    else (if results[0].result.decision == d then [results[0]] else []) + Deciding(results[1..], d)
  }

  /** The best candidate so far and the score of the one after it. */
  datatype Ranking = Ranking(top: Option<Candidate>, second: Option<int>)

  function Ranked(r: Ranking, c: Candidate): Ranking {
    var score := Score(c.result);
    if r.top.None? || score > Score(r.top.value.result)
    then Ranking(Some(c), if r.top.None? then None else Some(Score(r.top.value.result)))
    else if r.second.None? || score > r.second.value then Ranking(r.top, Some(score))
    else r
  }

  function Rank(candidates: seq<Candidate>): Ranking {
    if candidates == [] then Ranking(None, None)
    else Ranked(Rank(candidates[..|candidates| - 1]), candidates[|candidates| - 1])
  }

  lemma RankStep(candidates: seq<Candidate>, i: nat)
    requires i < |candidates|
    ensures Rank(candidates[..i + 1]) == Ranked(Rank(candidates[..i]), candidates[i])
  {
    assert candidates[..i + 1][..i] == candidates[..i];
  }

  /** The pick, and whether a tie was broken to make it. */
  datatype Selected = Selected(pick: Option<string>, tiebreak: bool)

  /** _select_category_internal. */
  function Select(results: seq<Candidate>): Selected {
    var direct, ambiguous := Deciding(results, Notify), Deciding(results, NeedsGemini);
    if |direct| == 1 && ambiguous == [] then Selected(Some(direct[0].id), false)
    else if direct == [] && |ambiguous| == 1 then Selected(Some(ambiguous[0].id), true)
    else
      match Rank(direct + ambiguous)
      case Ranking(Some(top), second) =>
        if Score(top.result) >= Threshold(top.result)
           && (second.Some? ==> Score(top.result) - second.value >= MIN_MARGIN)
        then Selected(Some(top.id), true) else Selected(None, false)
      case _ => Selected(None, false)
  }

  /** The loop over the candidates, with its two running variables. */
  method SelectCategory(results: seq<Candidate>) returns (r: Selected)
    ensures r == Select(results)
  {
    var direct, ambiguous := Deciding(results, Notify), Deciding(results, NeedsGemini);
    if |direct| == 1 && ambiguous == [] {
      return Selected(Some(direct[0].id), false);
    }
    if direct == [] && |ambiguous| == 1 {
      return Selected(Some(ambiguous[0].id), true);
    }
    var candidates := direct + ambiguous;
    if candidates == [] {
      return Selected(None, false);
    }
    var top: Option<Candidate> := None;
    var second: Option<int> := None;
    for i := 0 to |candidates|
      invariant Ranking(top, second) == Rank(candidates[..i])
      invariant i > 0 ==> top.Some?
    {
      RankStep(candidates, i);
      var score := Score(candidates[i].result);
      if top.None? || score > Score(top.value.result) {
        second := if top.None? then None else Some(Score(top.value.result));
        top := Some(candidates[i]);
      } else if second.None? || score > second.value {
        second := Some(score);
      }
    }
    assert candidates[..|candidates|] == candidates;
    var best := Score(top.value.result);
    if best >= Threshold(top.value.result) && (second.None? || best - second.value >= MIN_MARGIN) {
      return Selected(Some(top.value.id), true);
    }
    return Selected(None, false);
  }

  // ---- the same choice without an order ----

  ghost predicate Distinct(results: seq<Candidate>) {
    forall i, j | 0 <= i < j < |results| :: results[i].id != results[j].id
  }

  predicate InPlay(c: Candidate) { c.result.decision == Notify || c.result.decision == NeedsGemini }

  /** Clears its own threshold and every other candidate by the margin. */
  ghost predicate ClearWinner(results: seq<Candidate>, c: Candidate) {
    && c in results && InPlay(c) && Score(c.result) >= Threshold(c.result)
    && forall d <- results | InPlay(d) && d != c :: Score(c.result) >= Score(d.result) + MIN_MARGIN
  }

  ghost predicate Alone(results: seq<Candidate>, c: Candidate) {
    c in results && InPlay(c) && forall d <- results | InPlay(d) :: d == c
  }

  lemma {:induction false} DecidingMembers(results: seq<Candidate>, d: Decision)
    ensures forall c :: c in Deciding(results, d) <==> c in results && c.result.decision == d
    ensures Distinct(results) ==> Distinct(Deciding(results, d))
  {
    if results != [] {
      DecidingMembers(results[1..], d);
      assert results == [results[0]] + results[1..];
      var rest := Deciding(results[1..], d);
      if Distinct(results) {
        forall k | 0 <= k < |rest| ensures rest[k].id != results[0].id {
          assert rest[k] in results[1..];
        }
      }
    }
  }

  /** 'top' has the highest score and 'second' is the highest among the others. */
  ghost predicate Tops(candidates: seq<Candidate>, r: Ranking) {
    match r
    case Ranking(None, _) => candidates == [] && r.second.None?
    case Ranking(Some(top), None) => candidates == [top]
    case Ranking(Some(top), Some(second)) =>
      && top in candidates && second <= Score(top.result)
      && (exists d <- candidates :: d != top && Score(d.result) == second)
      && (forall d <- candidates | d != top :: Score(d.result) <= second)
  }

  lemma TopsStep(before: seq<Candidate>, r: Ranking, c: Candidate)
    requires Tops(before, r) && c !in before
    ensures Tops(before + [c], Ranked(r, c))
  {
    if r.top.Some? {
      var top := r.top.value;
      var after := before + [c];
      assert forall d :: d in after <==> d in before || d == c;
      if r.second.None? {
        assert forall d :: d in after <==> d == top || d == c;
      } else if Score(c.result) <= r.second.value {
        var d :| d in before && d != top && Score(d.result) == r.second.value;
        assert d in after;
      }
    }
  }

  lemma {:induction false} RankMeans(candidates: seq<Candidate>)
    requires Distinct(candidates)
    ensures Tops(candidates, Rank(candidates))
  {
    if candidates != [] {
      var n := |candidates| - 1;
      RankMeans(candidates[..n]);
      assert candidates[n] !in candidates[..n];
      TopsStep(candidates[..n], Rank(candidates[..n]), candidates[n]);
      assert candidates == candidates[..n] + [candidates[n]];
    }
  }

  function CandidatesOf(results: seq<Candidate>): seq<Candidate> {
    Deciding(results, Notify) + Deciding(results, NeedsGemini)
  }

  /** Whoever is clear of every other is the one on top. */
  lemma WinnerIsTop(results: seq<Candidate>, c: Candidate)
    requires Distinct(results) && |CandidatesOf(results)| >= 2 && ClearWinner(results, c)
    ensures Rank(CandidatesOf(results)).top == Some(c)
  {
    CandidatesAre(results);
    RankMeans(CandidatesOf(results));
  }

  /** The one on top is clear exactly when it passes the code's two tests. */
  lemma TopWinsIff(results: seq<Candidate>)
    requires Distinct(results) && |CandidatesOf(results)| >= 2
    ensures var r := Rank(CandidatesOf(results));
            && r.top.Some? && r.second.Some?
            && (ClearWinner(results, r.top.value) <==>
                  Score(r.top.value.result) >= Threshold(r.top.value.result)
                  && Score(r.top.value.result) - r.second.value >= MIN_MARGIN)
  {
    CandidatesAre(results);
    RankMeans(CandidatesOf(results));
    var r := Rank(CandidatesOf(results));
    var top := r.top.value;
    var d :| d in CandidatesOf(results) && d != top && Score(d.result) == r.second.value;
    assert top in results && InPlay(top) && d in results && InPlay(d);
  }

  lemma SelectScored(results: seq<Candidate>)
    requires |CandidatesOf(results)| >= 2
    ensures var r := Rank(CandidatesOf(results));
            r.top.Some? && r.second.Some? ==>
              Select(results) ==
              if Score(r.top.value.result) >= Threshold(r.top.value.result)
                 && Score(r.top.value.result) - r.second.value >= MIN_MARGIN
              then Selected(Some(r.top.value.id), true) else Selected(None, false)
  {
  }

  /** With two candidates or more, the scored pick is the clear winner, and there is none when no one is clear. */
  lemma ScoredPick(results: seq<Candidate>)
    requires Distinct(results) && |CandidatesOf(results)| >= 2
    ensures Select(results).tiebreak <==> Select(results).pick.Some?
    ensures forall c | ClearWinner(results, c) :: Select(results).pick == Some(c.id)
    ensures Select(results).pick.Some? ==> exists c :: ClearWinner(results, c) && Select(results).pick == Some(c.id)
  {
    TopWinsIff(results);
    SelectScored(results);
    forall c | ClearWinner(results, c) ensures Select(results).pick == Some(c.id) {
      WinnerIsTop(results, c);
    }
  }

  lemma CandidatesDistinct(results: seq<Candidate>)
    requires Distinct(results)
    ensures Distinct(Deciding(results, Notify) + Deciding(results, NeedsGemini))
  {
    var direct, ambiguous := Deciding(results, Notify), Deciding(results, NeedsGemini);
    DecidingMembers(results, Notify);
    DecidingMembers(results, NeedsGemini);
    forall i, j | 0 <= i < |direct| && 0 <= j < |ambiguous| ensures direct[i].id != ambiguous[j].id {
      var k :| 0 <= k < |results| && results[k] == direct[i];
      var l :| 0 <= l < |results| && results[l] == ambiguous[j];
      assert k != l;
    }
  }

  /**
   The pick in terms of the candidates alone: one direct match on its own, one
   open question on its own, or the clear winner of several.
   */
  lemma SelectMeans(results: seq<Candidate>, c: Candidate)
    requires Distinct(results) && c in results
    ensures Select(results).pick == Some(c.id) <==> Alone(results, c) || ClearWinner(results, c)
    ensures Select(results).pick == Some(c.id) ==>
              (Select(results).tiebreak <==> !(Alone(results, c) && c.result.decision == Notify))
  {
    var candidates := Deciding(results, Notify) + Deciding(results, NeedsGemini);
    CandidatesAre(results);
    IdsIdentify(results);
    if |candidates| >= 2 {
      ScoredPick(results);
      HowMany(candidates);
    } else if |candidates| == 1 {
      assert candidates[0] in candidates && forall d <- candidates :: d == candidates[0];
      OnePick(results, candidates[0]);
      if ClearWinner(results, c) {
        assert c in candidates;
      }
    } else {
      assert c !in candidates;
    }
  }

  lemma OnePick(results: seq<Candidate>, only: Candidate)
    requires Deciding(results, Notify) + Deciding(results, NeedsGemini) == [only]
    ensures Select(results) == Selected(Some(only.id), only.result.decision != Notify)
  {
    var direct, ambiguous := Deciding(results, Notify), Deciding(results, NeedsGemini);
    DecidingMembers(results, Notify);
    DecidingMembers(results, NeedsGemini);
    assert |direct| + |ambiguous| == 1;
    if direct != [] {
      assert direct[0] == (direct + ambiguous)[0] && direct[0] in direct;
    } else {
      assert ambiguous[0] == (direct + ambiguous)[0] && ambiguous[0] in ambiguous;
    }
  }

  lemma IdsIdentify(results: seq<Candidate>)
    requires Distinct(results)
    ensures forall c, d | c in results && d in results && c.id == d.id :: c == d
  {
    forall c, d | c in results && d in results && c.id == d.id ensures c == d {
      var i :| 0 <= i < |results| && results[i] == c;
      var j :| 0 <= j < |results| && results[j] == d;
      assert i == j;
    }
  }

  /** Main result: the order of the profiles never matters. */
  lemma OrderIsIrrelevant(results: seq<Candidate>, permuted: seq<Candidate>)
    requires Distinct(results) && multiset(results) == multiset(permuted)
    ensures Select(results) == Select(permuted)
  {
    PermutedDistinct(results, permuted);
    forall c ensures c in results <==> c in permuted {
      assert c in multiset(results) <==> c in multiset(permuted);
    }
    forall c | c in results ensures Select(results).pick == Some(c.id) <==> Select(permuted).pick == Some(c.id) {
      SelectMeans(results, c);
      SelectMeans(permuted, c);
    }
    PickIsACandidate(results);
    PickIsACandidate(permuted);
    if Select(results).pick.Some? {
      var c :| c in results && Select(results).pick == Some(c.id);
      SelectMeans(results, c);
      SelectMeans(permuted, c);
    }
  }

  lemma PickIsACandidate(results: seq<Candidate>)
    requires Distinct(results)
    ensures Select(results).pick.Some? ==> exists c <- results :: InPlay(c) && Select(results).pick == Some(c.id)
    ensures Select(results).pick.None? ==> !Select(results).tiebreak
  {
    var direct, ambiguous := Deciding(results, Notify), Deciding(results, NeedsGemini);
    DecidingMembers(results, Notify);
    DecidingMembers(results, NeedsGemini);
    if |direct| + |ambiguous| >= 2 {
      ScoredPick(results);
    } else if direct != [] {
      assert direct[0] in direct;
    } else if ambiguous != [] {
      assert ambiguous[0] in ambiguous;
    } else {
      assert Rank(direct + ambiguous) == Ranking(None, None);
    }
  }

  lemma PermutedDistinct(results: seq<Candidate>, permuted: seq<Candidate>)
    requires Distinct(results) && multiset(results) == multiset(permuted)
    ensures Distinct(permuted)
  {
    forall i, j | 0 <= i < j < |permuted| ensures permuted[i].id != permuted[j].id {
      assert permuted[i] in multiset(permuted) && permuted[j] in multiset(permuted);
      IdsIdentify(results);
      if permuted[i].id == permuted[j].id {
        assert permuted[i] in results && permuted[j] in results;
        TwiceIn(permuted, i, j);
        OnceIn(results, permuted[i]);
      }
    }
  }

  lemma TwiceIn(s: seq<Candidate>, i: nat, j: nat)
    requires i < j < |s| && s[i] == s[j]
    ensures multiset(s)[s[i]] >= 2
  {
    assert s == s[..j] + [s[j]] + s[j + 1..];
    assert s[i] in s[..j];
    assert s[i] in multiset(s[..j]);
  }

  lemma {:induction false} OnceIn(s: seq<Candidate>, c: Candidate)
    requires Distinct(s)
    ensures multiset(s)[c] <= 1
  {
    if s != [] {
      OnceIn(s[1..], c);
      assert s == [s[0]] + s[1..];
      if s[0] == c {
        assert c !in s[1..];
      }
    }
  }

  // ---- what the caller is told ----

  datatype Classification = Classification(pick: Option<string>, tiebreak: bool, multiCandidate: bool,
      needsArbitration: bool)

  /** classify_and_select, after the profiles have been judged. */
  function ClassifyAndSelect(results: seq<Candidate>): Classification {
    var s := Select(results);
    var directCount, ambiguousCount := |Deciding(results, Notify)|, |Deciding(results, NeedsGemini)|;
    Classification(
      s.pick, s.tiebreak,
      s.pick.Some? && s.pick.value != "" && directCount + ambiguousCount >= 2,
      s.pick.None? && (ambiguousCount > 0 || directCount > 1))
  }

  /** Whenever some profile does not reject, the job is either given a category or sent to arbitration, never both. */
  lemma PickedOrArbitrated(results: seq<Candidate>)
    requires Distinct(results) && forall c <- results :: c.id != ""
    ensures var k := ClassifyAndSelect(results);
            && (k.pick.Some? || k.needsArbitration <==> exists c <- results :: InPlay(c))
            && !(k.pick.Some? && k.needsArbitration)
            && (k.multiCandidate <==>
                  k.pick.Some? && exists c, d | c in results && d in results :: InPlay(c) && InPlay(d) && c != d)
            && (k.multiCandidate ==> k.tiebreak)
  {
    PickIsACandidate(results);
    CountInPlay(results);
    if |Deciding(results, Notify)| + |Deciding(results, NeedsGemini)| >= 2 {
      ScoredPick(results);
    }
  }

  /** How many candidates there are, told from the results. */
  lemma CountInPlay(results: seq<Candidate>)
    requires Distinct(results)
    ensures var n := |Deciding(results, Notify)| + |Deciding(results, NeedsGemini)|;
            && (n >= 1 <==> exists c <- results :: InPlay(c))
            && (n >= 2 <==> exists c, d | c in results && d in results :: InPlay(c) && InPlay(d) && c != d)
  {
    var candidates := Deciding(results, Notify) + Deciding(results, NeedsGemini);
    CandidatesAre(results);
    HowMany(candidates);
    if exists c, d | c in results && d in results :: InPlay(c) && InPlay(d) && c != d {
      var c, d :| c in results && d in results && InPlay(c) && InPlay(d) && c != d;
      assert c in candidates && d in candidates;
    }
  }

  lemma HowMany(s: seq<Candidate>)
    requires Distinct(s)
    ensures |s| >= 1 <==> exists c :: c in s
    ensures |s| >= 2 ==> exists c, d | c in s && d in s :: c != d
    ensures |s| < 2 ==> forall c, d | c in s && d in s :: c == d
  {
    if s != [] {
      assert s[0] in s;
    }
    if |s| >= 2 {
      assert s[1] in s && s[0] != s[1];
    }
  }

  lemma CandidatesAre(results: seq<Candidate>)
    requires Distinct(results)
    ensures var candidates := Deciding(results, Notify) + Deciding(results, NeedsGemini);
            Distinct(candidates) && forall c :: c in candidates <==> c in results && InPlay(c)
  {
    DecidingMembers(results, Notify);
    DecidingMembers(results, NeedsGemini);
    CandidatesDistinct(results);
  }

  // ---- the table and the scores together ----

  /** What the evidence of a posting is when its text holds its title and no keyword has a negative weight. */
  ghost predicate Consistent(e: Evidence) {
    && (e.titlePositive ==> e.corePositives > 0) && (e.titleNegative ==> e.coreNegative)
    && e.supportingPositive >= 0 && e.supportingNegative >= 0
  }

  /** The table notifies directly on this evidence, and the score stays below the threshold of such a claim. */
  ghost predicate ClaimFallsShort(e: Evidence, p: Profile) {
    && Consistent(e) && Decide(e, p).0 == Notify
    && Score(FilterResult(Notify, Decide(e, p).1, e)) < CLAIM_THRESHOLD
  }

  /**
   A category claimed through the title always scores at least its threshold exactly
   when the policy lets at most 12 points of negative support past such a claim.
   */
  lemma TitleClaimsClearIff(p: Profile)
    ensures (forall e: Evidence :: e.titlePositive ==> !ClaimFallsShort(e, p)) <==> p.titleNegativeThreshold <= 13
  {
    if p.titleNegativeThreshold > 13 {
      assert ClaimFallsShort(Evidence(false, true, false, 1, false, 0, 13), p);
    }
  }

  /**
   A claim from the body alone can fall short exactly when the policy lets enough
   negative support past it: against a lone core keyword with the least support the
   policy asks for, or against two.
   */
  lemma BodyClaimsFallShortIff(p: Profile)
    ensures (exists e: Evidence :: !e.titlePositive && ClaimFallsShort(e, p)) <==>
            var most, least := p.supportingNegativeDowngrade - 1, if p.loneCoreMin > 0 then p.loneCoreMin else 0;
            most >= 0 && (5 * least < 4 * most + 10 || 4 * most > 30)
  {
    var most, least := p.supportingNegativeDowngrade - 1, if p.loneCoreMin > 0 then p.loneCoreMin else 0;
    if most >= 0 && 5 * least < 4 * most + 10 {
      assert ClaimFallsShort(Evidence(false, false, false, 1, false, least, most), p);
    }
    if most >= 0 && 4 * most > 30 {
      assert ClaimFallsShort(Evidence(false, false, false, 2, false, 0, most), p);
    }
    forall e: Evidence | !e.titlePositive && ClaimFallsShort(e, p)
      ensures most >= 0 && (5 * least < 4 * most + 10 || 4 * most > 30)
    {
      BodyClaimBound(e, p);
    }
  }

  lemma BodyClaimBound(e: Evidence, p: Profile)
    requires !e.titlePositive && ClaimFallsShort(e, p)
    ensures 0 <= e.supportingNegative < p.supportingNegativeDowngrade
    ensures e.corePositives == 1 ==>
              e.supportingPositive >= p.loneCoreMin && 40 + 5 * e.supportingPositive < 50 + 4 * e.supportingNegative
    ensures e.corePositives > 1 ==> 30 < 4 * e.supportingNegative
    ensures e.corePositives > 0
  {
  }

  /** What one more of each kind of evidence is worth against the others. */
  lemma ScoreExchange(r: FilterResult)
    requires !r.evidence.titlePositive && r.evidence.coreNegative
    ensures var e := r.evidence;
            var oneMoreCore := Score(r.(evidence := e.(corePositives := e.corePositives + 1)));
            && oneMoreCore > Score(r)
            && oneMoreCore == Score(r.(evidence := e.(supportingPositive := e.supportingPositive + 8)))
            && oneMoreCore == Score(r.(evidence := e.(supportingNegative := e.supportingNegative - 10)))
            && Score(r.(evidence := e.(titlePositive := true)))
               == Score(r.(evidence := e.(supportingPositive := e.supportingPositive + 12)))
            && Score(r.(evidence := e.(coreNegative := false)))
               == Score(r.(evidence := e.(supportingPositive := e.supportingPositive + 25)))
  {
  }

  /**
   For which evidence an open question clears its threshold, rule by rule: what the
   core keywords and the support must come to against the negative support.
   */
  lemma OpenQuestionClearsIff(e: Evidence, p: Profile)
    requires Consistent(e) && Decide(e, p).0 == NeedsGemini
    ensures var reason := Decide(e, p).1;
            var cores, support, against := e.corePositives, e.supportingPositive, e.supportingNegative;
            var r := FilterResult(NeedsGemini, reason, e);
            Score(r) >= Threshold(r) <==>
              if reason == SupportingOnly then 5 * support >= 100 + 4 * against
              else if reason == LoneCore then 5 * support >= 60 + 4 * against
              else if reason == CoreHeavyNegative then 40 * cores + 5 * support >= 100 + 4 * against
              else if reason == TitlePositiveHeavyNegative then 40 * cores + 5 * support >= 40 + 4 * against
              else if reason == TitlePositiveBodyNegative || e.titlePositive then
                40 * cores + 5 * support >= 165 + 4 * against
              else 40 * cores + 5 * support >= 225 + 4 * against
  {
    DecisionIff(e, p);
    ReasonMeans(e, p);
  }

  /** A lone core keyword with too little support never wins exactly when the policy is content with 12 points of it. */
  lemma LoneCoreFallsShortIff(p: Profile)
    ensures (forall e: Evidence | Consistent(e) && Decide(e, p) == (NeedsGemini, LoneCore) ::
               Score(FilterResult(NeedsGemini, LoneCore, e)) < AMBIGUOUS_THRESHOLD) <==> p.loneCoreMin <= 12
  {
    if p.loneCoreMin > 12 {
      var e := Evidence(false, false, false, 1, false, p.loneCoreMin - 1, 0);
      assert Decide(e, p) == (NeedsGemini, LoneCore) && Consistent(e);
    } else {
      forall e: Evidence | Consistent(e) && Decide(e, p) == (NeedsGemini, LoneCore)
        ensures Score(FilterResult(NeedsGemini, LoneCore, e)) < AMBIGUOUS_THRESHOLD
      {
        OpenQuestionClearsIff(e, p);
        ReasonMeans(e, p);
      }
    }
  }

  lemma PostingIsConsistent(a: Alphabet, title: string, description: string, p: Profile)
    requires a.Valid() && CutClean(a, title)
    requires NonNegative(p.positiveSupporting) && NonNegative(p.negativeSupporting)
    ensures var r := Classify(a, title, description, p);
            Consistent(r.evidence) && r.decision == Decide(r.evidence, p).0
  {
    TitleEvidence(a, title, description, p);
    TierWeight(a, JudgedText(a, title, description), p.positiveSupporting);
    TierWeight(a, JudgedText(a, title, description), p.negativeSupporting);
  }

  lemma ClaimClears(r: FilterResult, p: Profile)
    requires Consistent(r.evidence) && r.decision == Decide(r.evidence, p).0 && p.titleNegativeThreshold <= 13
    ensures r.decision == Notify && r.evidence.titlePositive ==> Score(r) >= Threshold(r)
  {
    TitleClaimsClearIff(p);
    assert r.evidence.titlePositive ==> !ClaimFallsShort(r.evidence, p);
  }

  /** So, for postings: with the policy's default of 10, a claim made through the title always clears its threshold. */
  lemma TitleClaimClearsThreshold(a: Alphabet, title: string, description: string, p: Profile)
    requires a.Valid() && CutClean(a, title) && p.titleNegativeThreshold <= 13
    requires NonNegative(p.positiveSupporting) && NonNegative(p.negativeSupporting)
    ensures var r := Classify(a, title, description, p);
            r.decision == Notify && r.evidence.titlePositive ==> Score(r) >= Threshold(r)
  {
    PostingIsConsistent(a, title, description, p);
    ClaimClears(Classify(a, title, description, p), p);
  }
}
