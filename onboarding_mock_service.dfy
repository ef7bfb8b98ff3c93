/**
 * `OnboardingMockService`: the stand-in role matcher and course recommender.
 *
 * Scores are in hundredths: an exact (case-insensitive) title match is worth 50, a title containing
 * the other 30, each shared description word 2 and a matching (or `"Any"`) industry 20; a kept score
 * is capped at 95. The catalogues are the service's fixed role and course lists, taken as parameters.
 */
module OnboardingMock {
  import opened Wrappers
  import opened Text
  import opened OnboardingModels

  /** A catalogue role with its score; in a response the score is the role's `confidence`. */
  datatype ScoredRole = ScoredRole(role: Role, score: nat)

  datatype RoleMatchResponse = RoleMatchResponse(roles: seq<ScoredRole>)

  const ExactTitle: nat := 50
  const PartialTitle: nat := 30
  const PerSharedWord: nat := 2
  const SameIndustry: nat := 20
  const ScoreCap: nat := 95
  const TopCount: nat := 3

  function Min(a: nat, b: nat): nat { if a <= b then a else b }

  // ---------------------------------------------------------------------------
  // Scoring

  /** Title score of two lower-cased titles. */
  function TitleScore(roleTitle: string, title: string): nat {
    if roleTitle == title then ExactTitle
    else if Contains(roleTitle, title) || Contains(title, roleTitle) then PartialTitle
    else 0
  }

  /** The number of distinct space-separated words two descriptions share. */
  function SharedWords(a: string, b: string): nat {
    |Words(a) * Words(b)|
  }

  function IndustryScore(roleIndustry: string, industry: string): nat {
    if roleIndustry == industry || roleIndustry == "Any" then SameIndustry else 0
  }

  /** The uncapped score of `role` against the user's title, description and industry. */
  function Score(role: Role, title: string, description: string, industry: string): nat {
    TitleScore(Lowercased(role.title), Lowercased(title)) +
    PerSharedWord * SharedWords(Lowercased(role.description), Lowercased(description)) +
    IndustryScore(role.industry, industry)
  }

  function Capped(score: nat): nat {
    if score < ScoreCap then score else ScoreCap
  }

  /** The title either matches exactly (50), contains or is contained (30), or scores nothing; never both. */
  lemma TitleScoreCases(roleTitle: string, title: string)
    ensures TitleScore(roleTitle, title) == 50 <==> roleTitle == title
    ensures TitleScore(roleTitle, title) == 30 <==>
      roleTitle != title && (Contains(roleTitle, title) || Contains(title, roleTitle))
    ensures TitleScore(roleTitle, title) == 0 <==>
      !Contains(roleTitle, title) && !Contains(title, roleTitle)
  {
  }

  /** An empty title occurs in every role title, so it always earns the partial score. */
  lemma EmptyTitleIsPartial(roleTitle: string)
    requires roleTitle != []
    ensures TitleScore(roleTitle, "") == PartialTitle
  {
  }

  /** Word order and repetition in the user's description do not matter, and the count is symmetric. */
  lemma SharedWordsSymmetric(a: string, b: string)
    ensures SharedWords(a, b) == SharedWords(b, a)
    ensures SharedWords(a, b) <= |Words(a)|
  {
    assert Words(a) * Words(b) == Words(b) * Words(a);
    assert Words(a) * Words(b) <= Words(a);
    SubsetCardinality(Words(a) * Words(b), Words(a));
  }

  lemma {:induction false} SubsetCardinality<T>(a: set<T>, b: set<T>)
    requires a <= b
    ensures |a| <= |b|
    decreases |b|
  {
    if a != {} {
      var x :| x in a;
      SubsetCardinality(a - {x}, b - {x});
    }
  }

  // ---------------------------------------------------------------------------
  // The roles kept, in catalogue order

  /** The score of every catalogue role, in catalogue order. */
  function Scores(catalogue: seq<Role>, title: string, description: string, industry: string): (r: seq<nat>)
    ensures |r| == |catalogue|
  {
    if catalogue == [] then []
    else [Score(catalogue[0], title, description, industry)] + Scores(catalogue[1..], title, description, industry)
  }

  lemma {:induction false} ScoresAt(catalogue: seq<Role>, title: string, description: string, industry: string, k: nat)
    requires k < |catalogue|
    ensures Scores(catalogue, title, description, industry)[k] == Score(catalogue[k], title, description, industry)
  {
    if k > 0 {
      ScoresAt(catalogue[1..], title, description, industry, k - 1);
    }
  }

  /** The first `n` roles with a positive score, each stored with its capped score. */
  function KeepPositive(roles: seq<Role>, scores: seq<nat>, n: nat): seq<ScoredRole>
    requires n <= |roles| == |scores|
  {
    if n == 0 then [] else
      var kept := KeepPositive(roles, scores, n - 1);
      if scores[n - 1] > 0 then kept + [ScoredRole(roles[n - 1], Capped(scores[n - 1]))] else kept
  }

  function Kept(catalogue: seq<Role>, title: string, description: string, industry: string): seq<ScoredRole> {
    KeepPositive(catalogue, Scores(catalogue, title, description, industry), |catalogue|)
  }

  lemma KeepPositiveStep(roles: seq<Role>, scores: seq<nat>, n: nat)
    requires n < |roles| == |scores|
    ensures KeepPositive(roles, scores, n + 1) ==
      KeepPositive(roles, scores, n) + (if scores[n] > 0 then [ScoredRole(roles[n], Capped(scores[n]))] else [])
  {
  }

  /** A scored role is kept iff it is a role with a positive score, stored capped. */
  lemma {:induction false} KeptMembers(roles: seq<Role>, scores: seq<nat>, n: nat, x: ScoredRole)
    requires n <= |roles| == |scores|
    ensures x in KeepPositive(roles, scores, n) <==>
      exists k | 0 <= k < n :: scores[k] > 0 && x == ScoredRole(roles[k], Capped(scores[k]))
  {
    if n > 0 {
      KeptMembers(roles, scores, n - 1, x);
      if scores[n - 1] > 0 && x == ScoredRole(roles[n - 1], Capped(scores[n - 1])) {
        assert x in KeepPositive(roles, scores, n);
      }
    }
  }

  /** Nothing is kept iff no role scores above 0. */
  lemma {:induction false} KeptEmptyIff(roles: seq<Role>, scores: seq<nat>, n: nat)
    requires n <= |roles| == |scores|
    ensures KeepPositive(roles, scores, n) == [] <==> forall k | 0 <= k < n :: scores[k] == 0
  {
    if n > 0 {
      KeptEmptyIff(roles, scores, n - 1);
    }
  }

  // ---------------------------------------------------------------------------
  // Ranking

  predicate NonIncreasing(s: seq<ScoredRole>) {
    forall i, j | 0 <= i < j < |s| :: s[i].score >= s[j].score
  }

  /** Places `x` before the first entry it scores at least as high as. */
  function Insert(x: ScoredRole, s: seq<ScoredRole>): seq<ScoredRole> {
    if s == [] || x.score >= s[0].score then [x] + s else [s[0]] + Insert(x, s[1..])
  }

  lemma {:induction false} InsertPermutes(x: ScoredRole, s: seq<ScoredRole>)
    ensures multiset(Insert(x, s)) == multiset(s) + multiset{x}
  {
    if s != [] && x.score < s[0].score {
      InsertPermutes(x, s[1..]);
      assert s == [s[0]] + s[1..];
    }
  }

  lemma {:induction false} InsertMembers(x: ScoredRole, s: seq<ScoredRole>, y: ScoredRole)
    ensures y in Insert(x, s) <==> y == x || y in s
  {
    if s != [] && x.score < s[0].score {
      InsertMembers(x, s[1..], y);
      assert s == [s[0]] + s[1..];
    }
  }

  lemma {:induction false} InsertKeepsOrder(x: ScoredRole, s: seq<ScoredRole>)
    requires NonIncreasing(s)
    ensures NonIncreasing(Insert(x, s))
  {
    if s != [] && x.score < s[0].score {
      var rest := Insert(x, s[1..]);
      InsertKeepsOrder(x, s[1..]);
      var t := [s[0]] + rest;
      forall i, j | 0 <= i < j < |t|
        ensures t[i].score >= t[j].score
      {
        if i == 0 {
          assert t[j] == rest[j - 1];
          InsertMembers(x, s[1..], t[j]);
          if t[j] != x {
            var m :| 0 <= m < |s[1..]| && s[1..][m] == t[j];
            assert s[m + 1] == t[j];
          }
        } else {
          assert t[i] == rest[i - 1] && t[j] == rest[j - 1];
        }
      }
    }
  }

  /** The in-place `sort { $0.score > $1.score }`: some non-increasing permutation, ties in any order. */
  method SortByScore(s: seq<ScoredRole>) returns (t: seq<ScoredRole>)
    ensures NonIncreasing(t)
    ensures multiset(t) == multiset(s)
  {
    t := [];
    var i := 0;
    while i < |s|
      invariant 0 <= i <= |s|
      invariant NonIncreasing(t)
      invariant multiset(t) == multiset(s[..i])
    {
      InsertKeepsOrder(s[i], t);
      InsertPermutes(s[i], t);
      assert s[..i + 1] == s[..i] + [s[i]];
      t := Insert(s[i], t);
      i := i + 1;
    }
    assert s[..i] == s;
  }

  /** `r` is the first three of some non-increasing arrangement of `kept`. */
  ghost predicate IsTopMatches(r: seq<ScoredRole>, kept: seq<ScoredRole>) {
    exists t :: NonIncreasing(t) && multiset(t) == multiset(kept) && r == t[..Min(TopCount, |t|)]
  }

  /** An entry past the cut never outscores one before it. */
  lemma CutIsRanked(t: seq<ScoredRole>, n: nat, x: ScoredRole, y: ScoredRole)
    requires NonIncreasing(t) && n <= |t|
    requires x in multiset(t) - multiset(t[..n]) && y in t[..n]
    ensures x.score <= y.score
  {
    assert t == t[..n] + t[n..];
    assert multiset(t) == multiset(t[..n]) + multiset(t[n..]);
    assert x in multiset(t[n..]);
    var j :| 0 <= j < |t[n..]| && t[n..][j] == x;
    var i :| 0 <= i < n && t[..n][i] == y;
    assert t[n + j] == x && t[i] == y;
  }

  lemma RankingIsTop(ranked: seq<ScoredRole>, kept: seq<ScoredRole>)
    requires NonIncreasing(ranked) && multiset(ranked) == multiset(kept)
    ensures IsTopMatches(ranked[..Min(TopCount, |ranked|)], kept)
  {
  }

  /** A prefix of a ranking is a ranking, and its entries are drawn from the whole. */
  lemma PrefixOfRanking(t: seq<ScoredRole>, n: nat)
    requires NonIncreasing(t) && n <= |t|
    ensures NonIncreasing(t[..n])
    ensures multiset(t[..n]) <= multiset(t)
  {
    assert t == t[..n] + t[n..];
    assert multiset(t) == multiset(t[..n]) + multiset(t[n..]);
  }

  /**
   * The top matches: as many as there are, up to three, in non-increasing order, drawn from the kept roles,
   * and no kept role left out scores above one taken.
   */
  lemma TopMatchesProperties(r: seq<ScoredRole>, kept: seq<ScoredRole>)
    requires IsTopMatches(r, kept)
    ensures |r| == Min(TopCount, |kept|)
    ensures NonIncreasing(r)
    ensures multiset(r) <= multiset(kept)
    ensures forall x, y | x in multiset(kept) - multiset(r) && y in r :: x.score <= y.score
  {
    var t :| NonIncreasing(t) && multiset(t) == multiset(kept) && r == t[..Min(TopCount, |t|)];
    var n := Min(TopCount, |t|);
    assert |t| == |multiset(t)| == |kept|;
    PrefixOfRanking(t, n);
    forall x, y | x in multiset(kept) - multiset(r) && y in r
      ensures x.score <= y.score
    {
      CutIsRanked(t, n, x, y);
    }
  }

  // ---------------------------------------------------------------------------
  // The service operations

  /** The body of the scoring loop: `score` accumulates the title, description and industry parts. */
  method ScoreRole(mockRole: Role, lowercaseTitle: string, lowercaseDesc: string, industry: string) returns (score: nat)
    ensures score == TitleScore(Lowercased(mockRole.title), lowercaseTitle) +
      PerSharedWord * SharedWords(Lowercased(mockRole.description), lowercaseDesc) +
      IndustryScore(mockRole.industry, industry)
  {
    score := 0;
    var roleTitle := Lowercased(mockRole.title);
    if roleTitle == lowercaseTitle {
      score := score + ExactTitle;
    } else if Contains(roleTitle, lowercaseTitle) || Contains(lowercaseTitle, roleTitle) {
      score := score + PartialTitle;
    }
    score := score + PerSharedWord * SharedWords(Lowercased(mockRole.description), lowercaseDesc);
    if mockRole.industry == industry || mockRole.industry == "Any" {
      score := score + SameIndustry;
    }
  }

  /** The scoring loop of `matchRole`: every catalogue role is scored and the positive ones are kept, capped. */
  method ScoreCatalogue(catalogue: seq<Role>, title: string, description: string, industry: string)
    returns (scoredRoles: seq<ScoredRole>)
    ensures scoredRoles == Kept(catalogue, title, description, industry)
  {
    var lowercaseTitle := Lowercased(title);
    var lowercaseDesc := Lowercased(description);
    ghost var scores := Scores(catalogue, title, description, industry);
    scoredRoles := [];
    var k := 0;
    while k < |catalogue|
      invariant 0 <= k <= |catalogue|
      invariant scoredRoles == KeepPositive(catalogue, scores, k)
    {
      scoredRoles := ScoreNext(catalogue, title, description, industry, lowercaseTitle, lowercaseDesc, k, scoredRoles);
      k := k + 1;
    }
  }

  lemma ScoreParts(role: Role, title: string, description: string, industry: string)
    ensures Score(role, title, description, industry) ==
      TitleScore(Lowercased(role.title), Lowercased(title)) +
      PerSharedWord * SharedWords(Lowercased(role.description), Lowercased(description)) +
      IndustryScore(role.industry, industry)
  {
  }

  /** One turn of the scoring loop: score the `k`-th role and keep it if its score is positive. */
  method ScoreNext(catalogue: seq<Role>, title: string, description: string, industry: string,
                   lowercaseTitle: string, lowercaseDesc: string, k: nat, scoredRoles: seq<ScoredRole>)
    returns (next: seq<ScoredRole>)
    requires k < |catalogue|
    requires lowercaseTitle == Lowercased(title) && lowercaseDesc == Lowercased(description)
    requires scoredRoles == KeepPositive(catalogue, Scores(catalogue, title, description, industry), k)
    ensures next == KeepPositive(catalogue, Scores(catalogue, title, description, industry), k + 1)
  {
    var mockRole := catalogue[k];
    var score := ScoreRole(mockRole, lowercaseTitle, lowercaseDesc, industry);
    ScoreParts(mockRole, title, description, industry);
    KeepNext(catalogue, title, description, industry, k, score);
    next := scoredRoles;
    if score > 0 {
      next := next + [ScoredRole(mockRole, Capped(score))];
    }
  }

  /** One more turn of the scoring loop keeps the `k`-th role iff its score is positive. */
  lemma KeepNext(catalogue: seq<Role>, title: string, description: string, industry: string, k: nat, score: nat)
    requires k < |catalogue|
    requires score == Score(catalogue[k], title, description, industry)
    ensures var scores := Scores(catalogue, title, description, industry);
      KeepPositive(catalogue, scores, k + 1) ==
      KeepPositive(catalogue, scores, k) + (if score > 0 then [ScoredRole(catalogue[k], Capped(score))] else [])
  {
    var scores := Scores(catalogue, title, description, industry);
    ScoresAt(catalogue, title, description, industry, k);
    assert scores[k] == score;
    KeepPositiveStep(catalogue, scores, k);
  }

  /** `matchRole`: scores every catalogue role, keeps the positive ones (capped), ranks them and takes three. */
  method MatchRole(catalogue: seq<Role>, title: string, description: string, industry: string)
    returns (response: RoleMatchResponse)
    ensures IsTopMatches(response.roles, Kept(catalogue, title, description, industry))
  {
    var scoredRoles := ScoreCatalogue(catalogue, title, description, industry);
    var ranked := SortByScore(scoredRoles);
    RankingIsTop(ranked, scoredRoles);
    response := RoleMatchResponse(ranked[..Min(TopCount, |ranked|)]);
  }

  /** A kept role is a catalogue role with its capped positive score. */
  lemma KeptFromCatalogue(catalogue: seq<Role>, title: string, description: string, industry: string, x: ScoredRole)
    requires x in Kept(catalogue, title, description, industry)
    ensures x.role in catalogue && 0 < x.score <= ScoreCap
    ensures x.score == Capped(Score(x.role, title, description, industry))
  {
    var scores := Scores(catalogue, title, description, industry);
    KeptMembers(catalogue, scores, |catalogue|, x);
    var k :| 0 <= k < |catalogue| && scores[k] > 0 && x == ScoredRole(catalogue[k], Capped(scores[k]));
    ScoresAt(catalogue, title, description, industry, k);
  }

  /**
   * What a match response holds: at most three catalogue roles, each with its capped positive score as
   * confidence; and it is empty iff no catalogue role scores above 0.
   */
  lemma MatchedRolesFromCatalogue(catalogue: seq<Role>, title: string, description: string, industry: string, r: seq<ScoredRole>)
    requires IsTopMatches(r, Kept(catalogue, title, description, industry))
    ensures |r| <= TopCount
    ensures forall x | x in r ::
      x.role in catalogue && 0 < x.score <= ScoreCap && x.score == Capped(Score(x.role, title, description, industry))
    ensures r == [] <==> forall k | 0 <= k < |catalogue| :: Score(catalogue[k], title, description, industry) == 0
  {
    var scores := Scores(catalogue, title, description, industry);
    var kept := Kept(catalogue, title, description, industry);
    TopMatchesProperties(r, kept);
    KeptEmptyIff(catalogue, scores, |catalogue|);
    forall k | 0 <= k < |catalogue|
      ensures scores[k] == Score(catalogue[k], title, description, industry)
    {
      ScoresAt(catalogue, title, description, industry, k);
    }
    assert |r| == 0 <==> |kept| == 0;
    forall x | x in r
      ensures x.role in catalogue && 0 < x.score <= ScoreCap && x.score == Capped(Score(x.role, title, description, industry))
    {
      assert x in multiset(r);
      assert x in kept;
      KeptFromCatalogue(catalogue, title, description, industry, x);
    }
  }

  /** `recommendCourses`: a known role gets the whole course list; a new one waits for custom courses. */
  function RecommendCourses(courses: seq<Course>, roleId: Option<string>, industry: string, needs: seq<string>): CourseRecommendationResponse {
    if roleId.Some? then CourseRecommendationResponse(courses, false, None)
    else CourseRecommendationResponse([], true, Some("24-48 hours"))
  }

  lemma RecommendCoursesCases(courses: seq<Course>, roleId: Option<string>, industry: string, needs: seq<string>)
    ensures var r := RecommendCourses(courses, roleId, industry, needs);
      (r.customCoursesBeingCreated <==> roleId.None?) &&
      (roleId.Some? ==> r.courses == courses && r.estimatedCreationTime.None?) &&
      (roleId.None? ==> r.courses == [] && r.estimatedCreationTime == Some("24-48 hours"))
  {
  }
}
