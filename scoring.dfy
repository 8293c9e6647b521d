/**
 * The scoring engine: every candidate date starts at zero, each stored
 * response adds its role-tiered points to every date, and the best date is the
 * earliest one holding the highest score.
 */
module Scoring {
  import opened Preferences
  import opened Responses

  /** Why a scoring run produces no result. */
  datatype ScoreError =
    | UnknownRole(role: string)  // a response's role has no weight
    | NoCandidateDates           // there is no date to choose from

  datatype Result<T> = Ok(value: T) | Err(error: ScoreError)

  /** Outcome of one scoring run. */
  datatype ScoreResult = ScoreResult(scores: map<Date, int>, best: Date, bestScore: int)

  /** Every response's role has a weight. */
  predicate KnownRoles(responses: seq<Response>, weights: map<string, nat>) {
    forall i :: 0 <= i < |responses| ==> responses[i].role in weights
  }

  /** Points one response adds to one date; a date it holds no choice for gets none. */
  function Gain(r: Response, d: Date, weights: map<string, nat>): nat
    requires r.role in weights
  {
    if d in r.prefs then Contribution(r.role, weights[r.role], r.prefs[d]) else 0
  }

  /** A date's score: the sum of every stored response's gain, duplicates counted each time. */
  function Score(responses: seq<Response>, d: Date, weights: map<string, nat>): nat
    requires KnownRoles(responses, weights)
  {
    if responses == [] then 0
    else Score(responses[..|responses| - 1], d, weights) + Gain(responses[|responses| - 1], d, weights)
  }

  /** One more response adds exactly its own gain, so no score ever decreases. */
  lemma ScoreAppend(responses: seq<Response>, r: Response, d: Date, weights: map<string, nat>)
    requires KnownRoles(responses, weights) && r.role in weights
    ensures KnownRoles(responses + [r], weights)
    ensures Score(responses + [r], d, weights) == Score(responses, d, weights) + Gain(r, d, weights)
    ensures Score(responses + [r], d, weights) >= Score(responses, d, weights)
    ensures d !in r.prefs ==> Score(responses + [r], d, weights) == Score(responses, d, weights)
  {
    assert (responses + [r])[..|responses|] == responses;
  }

  /** The score of two batches of responses is the sum of their scores. */
  lemma {:induction false} ScoreConcat(a: seq<Response>, b: seq<Response>, d: Date, weights: map<string, nat>)
    requires KnownRoles(a, weights) && KnownRoles(b, weights)
    ensures KnownRoles(a + b, weights)
    ensures Score(a + b, d, weights) == Score(a, d, weights) + Score(b, d, weights)
    decreases |b|
  {
    if b == [] {
      assert a + b == a;
    } else {
      var b' := b[..|b| - 1];
      var last := b[|b| - 1];
      assert KnownRoles(b', weights);
      ScoreConcat(a, b', d, weights);
      assert a + b == (a + b') + [last];
      ScoreAppend(a + b', last, d, weights);
    }
  }

  /** Roles stay known in any sequence whose responses all occur in a sequence with known roles. */
  lemma KnownRolesSubMultiset(a: seq<Response>, b: seq<Response>, weights: map<string, nat>)
    requires KnownRoles(a, weights) && multiset(b) <= multiset(a)
    ensures KnownRoles(b, weights)
  {
    forall i | 0 <= i < |b| ensures b[i].role in weights {
      assert b[i] in multiset(b);
      assert b[i] in a;
    }
  }

  /** Taking out the response at position k lowers each score by exactly its gain. */
  lemma ScoreRemoveAt(b: seq<Response>, k: nat, d: Date, weights: map<string, nat>)
    requires KnownRoles(b, weights) && k < |b|
    ensures KnownRoles(b[..k] + b[k + 1..], weights)
    ensures Score(b, d, weights) == Score(b[..k] + b[k + 1..], d, weights) + Gain(b[k], d, weights)
  {
    var front, x, back := b[..k], b[k], b[k + 1..];
    assert b == front + ([x] + back);
    assert KnownRoles(front, weights) && KnownRoles(back, weights) && KnownRoles([x] + back, weights);
    ScoreConcat(front, [x] + back, d, weights);
    ScoreConcat([x], back, d, weights);
    ScoreAppend([], x, d, weights);
    assert [] + [x] == [x];
    ScoreConcat(front, back, d, weights);
  }

  /**
   * The order in which responses were stored does not matter: any
   * rearrangement of the same responses gives every date the same score.
   */
  lemma {:induction false} ScoreOrderIrrelevant(a: seq<Response>, b: seq<Response>, d: Date, weights: map<string, nat>)
    requires KnownRoles(a, weights) && multiset(a) == multiset(b)
    ensures KnownRoles(b, weights)
    ensures Score(a, d, weights) == Score(b, d, weights)
    decreases |a|
  {
    KnownRolesSubMultiset(a, b, weights);
    if a != [] {
      var a' := a[..|a| - 1];
      var x := a[|a| - 1];
      assert x in multiset(b) by {
        assert a == a' + [x];
      }
      var k :| 0 <= k < |b| && b[k] == x;
      var b' := b[..k] + b[k + 1..];
      CancelLast(a, b, k);
      KnownRolesSubMultiset(a, a', weights);
      ScoreOrderIrrelevant(a', b', d, weights);
      ScoreRemoveAt(b, k, d, weights);
    }
  }

  /** Taking the last response of a and an equal one out of b keeps the two multisets equal. */
  lemma CancelLast(a: seq<Response>, b: seq<Response>, k: nat)
    requires multiset(a) == multiset(b) && a != [] && k < |b| && b[k] == a[|a| - 1]
    ensures multiset(a[..|a| - 1]) == multiset(b[..k] + b[k + 1..])
    ensures multiset(a[..|a| - 1]) <= multiset(a)
  {
    var x := a[|a| - 1];
    assert a == a[..|a| - 1] + [x];
    assert multiset(a) == multiset(a[..|a| - 1]) + multiset{x};
    assert b == b[..k] + [x] + b[k + 1..];
    assert multiset(b) == multiset(b[..k]) + multiset{x} + multiset(b[k + 1..]);
    assert multiset(b[..k] + b[k + 1..]) == multiset(b[..k]) + multiset(b[k + 1..]);
    var left, right := multiset(a[..|a| - 1]), multiset(b[..k] + b[k + 1..]);
    assert left + multiset{x} == right + multiset{x};
    forall y ensures left[y] == right[y] {
      assert (left + multiset{x})[y] == (right + multiset{x})[y];
    }
  }

  /** A resubmission is not deduplicated: the same response stored twice counts twice. */
  lemma DuplicateCountsTwice(responses: seq<Response>, r: Response, d: Date, weights: map<string, nat>)
    requires KnownRoles(responses, weights) && r.role in weights
    ensures KnownRoles(responses + [r, r], weights)
    ensures Score(responses + [r, r], d, weights) == Score(responses, d, weights) + 2 * Gain(r, d, weights)
  {
    ScoreAppend(responses, r, d, weights);
    ScoreAppend(responses + [r], r, d, weights);
    assert responses + [r] + [r] == responses + [r, r];
  }

  /** A date nobody marked DefinitelyCan or ProbablyCan scores zero. */
  lemma {:induction false} ScoreWithoutFavourable(responses: seq<Response>, d: Date, weights: map<string, nat>)
    requires KnownRoles(responses, weights)
    requires forall i :: 0 <= i < |responses| && d in responses[i].prefs ==> !Favourable(responses[i].prefs[d])
    ensures Score(responses, d, weights) == 0
    decreases |responses|
  {
    if responses != [] {
      var front := responses[..|responses| - 1];
      assert KnownRoles(front, weights);
      ScoreWithoutFavourable(front, d, weights);
    }
  }

  /**
   * A freshly submitted record scores a candidate date exactly as the answer
   * given for it does; filling an unanswered date with Undecided adds nothing,
   * and a date outside the candidate list gets nothing.
   */
  lemma FilledResponseGain(role: string, answers: map<Date, Choice>, dates: seq<Date>, d: Date, weights: map<string, nat>)
    requires role in weights
    ensures Gain(MakeResponse(role, answers, dates), d, weights) ==
            if d in dates && d in answers then Contribution(role, weights[role], answers[d]) else 0
  {
  }

  /**
   * Builds the score of every date by adding each stored response's points
   * into a table that starts at zero; a response with an unweighted role
   * stops the run.
   */
  method ComputeScores(dates: seq<Date>, responses: seq<Response>, weights: map<string, nat>)
    returns (res: Result<map<Date, int>>)
    requires Distinct(dates)
    ensures res.Err? <==> !KnownRoles(responses, weights)
    ensures res.Err? ==> exists i :: 0 <= i < |responses| && KnownRoles(responses[..i], weights) &&
                                     responses[i].role !in weights && res.error == UnknownRole(responses[i].role)
    ensures res.Ok? ==> res.value.Keys == set d | d in dates
    ensures res.Ok? ==> forall d :: d in dates ==> res.value[d] == Score(responses, d, weights)
  {
    var scores: map<Date, int> := map d | d in dates :: 0;
    var i := 0;
    while i < |responses|
      invariant 0 <= i <= |responses|
      invariant KnownRoles(responses[..i], weights)
      invariant scores.Keys == set d | d in dates
      invariant forall d :: d in dates ==> scores[d] == Score(responses[..i], d, weights)
    {
      var response := responses[i];
      if response.role !in weights {
        return Err(UnknownRole(response.role));
      }
      var roleWeight := weights[response.role];
      ghost var done := responses[..i + 1];
      assert done == responses[..i] + [response];
      ScoreAppendAll(responses[..i], response, dates, weights);
      var j := 0;
      while j < |dates|
        invariant 0 <= j <= |dates|
        invariant scores.Keys == set d | d in dates
        invariant forall k :: 0 <= k < j ==> scores[dates[k]] == Score(done, dates[k], weights)
        invariant forall k :: j <= k < |dates| ==> scores[dates[k]] == Score(responses[..i], dates[k], weights)
      {
        var date := dates[j];
        if date in response.prefs {
          scores := scores[date := scores[date] + Contribution(response.role, roleWeight, response.prefs[date])];
        }
        j := j + 1;
      }
      i := i + 1;
    }
    assert responses[..i] == responses;
    return Ok(scores);
  }

  /** ScoreAppend for every candidate date at once. */
  lemma ScoreAppendAll(responses: seq<Response>, r: Response, dates: seq<Date>, weights: map<string, nat>)
    requires KnownRoles(responses, weights) && r.role in weights
    ensures KnownRoles(responses + [r], weights)
    ensures forall d :: d in dates ==>
      Score(responses + [r], d, weights) == Score(responses, d, weights) + Gain(r, d, weights)
  {
    forall d | d in dates
      ensures Score(responses + [r], d, weights) == Score(responses, d, weights) + Gain(r, d, weights)
    {
      ScoreAppend(responses, r, d, weights);
    }
  }

  /** Every listed date has a score. */
  predicate Covers(dates: seq<Date>, scores: map<Date, int>) {
    forall i :: 0 <= i < |dates| ==> dates[i] in scores
  }

  /**
   * best is the earliest listed date whose score no other date exceeds: every
   * date before it scores strictly less.
   */
  predicate IsFirstMax(dates: seq<Date>, scores: map<Date, int>, best: Date)
    requires Covers(dates, scores)
  {
    exists k :: 0 <= k < |dates| && dates[k] == best &&
      (forall j :: 0 <= j < |dates| ==> scores[dates[j]] <= scores[dates[k]]) &&
      (forall j :: 0 <= j < k ==> scores[dates[j]] < scores[dates[k]])
  }

  /** At most one date is the earliest maximum, so the choice is deterministic. */
  lemma FirstMaxUnique(dates: seq<Date>, scores: map<Date, int>, a: Date, b: Date)
    requires Covers(dates, scores)
    requires IsFirstMax(dates, scores, a) && IsFirstMax(dates, scores, b)
    ensures a == b
  {
    var ka :| 0 <= ka < |dates| && dates[ka] == a &&
      (forall j :: 0 <= j < |dates| ==> scores[dates[j]] <= scores[dates[ka]]) &&
      (forall j :: 0 <= j < ka ==> scores[dates[j]] < scores[dates[ka]]);
    var kb :| 0 <= kb < |dates| && dates[kb] == b &&
      (forall j :: 0 <= j < |dates| ==> scores[dates[j]] <= scores[dates[kb]]) &&
      (forall j :: 0 <= j < kb ==> scores[dates[j]] < scores[dates[kb]]);
    assert scores[dates[ka]] == scores[dates[kb]];
  }

  /** When every date scores the same, the first listed date wins. */
  lemma UniformScoresPickFirst(dates: seq<Date>, scores: map<Date, int>, best: Date)
    requires Covers(dates, scores)
    requires forall j :: 0 <= j < |dates| ==> scores[dates[j]] == scores[dates[0]]
    requires IsFirstMax(dates, scores, best)
    ensures best == dates[0]
  {
    var k :| 0 <= k < |dates| && dates[k] == best &&
      (forall j :: 0 <= j < k ==> scores[dates[j]] < scores[dates[k]]);
    assert scores[dates[0]] == scores[dates[k]];
  }

  /**
   * Picks the date with the highest score, keeping the first one met when a
   * later date only ties it; there is nothing to pick from no dates.
   */
  method BestDate(dates: seq<Date>, scores: map<Date, int>) returns (res: Result<Date>)
    requires Covers(dates, scores)
    ensures res.Err? <==> dates == []
    ensures res.Err? ==> res.error == NoCandidateDates
    ensures res.Ok? ==> IsFirstMax(dates, scores, res.value)
  {
    if dates == [] {
      return Err(NoCandidateDates);
    }
    var k := 0;
    var j := 1;
    while j < |dates|
      invariant 1 <= j <= |dates|
      invariant 0 <= k < j
      invariant forall i :: 0 <= i < j ==> scores[dates[i]] <= scores[dates[k]]
      invariant forall i :: 0 <= i < k ==> scores[dates[i]] < scores[dates[k]]
    {
      if scores[dates[j]] > scores[dates[k]] {
        k := j;
      }
      j := j + 1;
    }
    return Ok(dates[k]);
  }

  /**
   * The whole run: score every date, then pick the best. An unweighted role
   * is reported before an empty date list is noticed.
   */
  method Schedule(dates: seq<Date>, responses: seq<Response>, weights: map<string, nat>)
    returns (res: Result<ScoreResult>)
    requires Distinct(dates)
    ensures res.Err? <==> !KnownRoles(responses, weights) || dates == []
    ensures !KnownRoles(responses, weights) ==> res.Err? && res.error.UnknownRole?
    ensures res.Err? && res.error.UnknownRole? ==>
      exists i :: 0 <= i < |responses| && KnownRoles(responses[..i], weights) &&
                  responses[i].role !in weights && res.error == UnknownRole(responses[i].role)
    ensures KnownRoles(responses, weights) && dates == [] ==> res == Err(NoCandidateDates)
    ensures res.Ok? ==> res.value.scores.Keys == set d | d in dates
    ensures res.Ok? ==> forall d :: d in dates ==> res.value.scores[d] == Score(responses, d, weights)
    ensures res.Ok? ==> IsFirstMax(dates, res.value.scores, res.value.best)
    ensures res.Ok? ==> res.value.best in res.value.scores && res.value.bestScore == res.value.scores[res.value.best]
    ensures responses == [] && dates != [] ==> res.Ok? && res.value.best == dates[0] && res.value.bestScore == 0
  {
    var scored := ComputeScores(dates, responses, weights);
    if scored.Err? {
      return Err(scored.error);
    }
    var scores := scored.value;
    var picked := BestDate(dates, scores);
    if picked.Err? {
      return Err(picked.error);
    }
    var best := picked.value;
    if responses == [] {
      UniformScoresPickFirst(dates, scores, best);
    }
    return Ok(ScoreResult(scores, best, scores[best]));
  }

  /**
   * Two dates under the source's weight table, a Staff and a Manager
   * response: the first date scores 2 * 1 + 1 * 3 = 5, the second
   * 0 + 1 * 3 = 3, so the first date is chosen, with score 5.
   */
  lemma TwoDateScenario()
    ensures var rs := [Response(Staff, map[1 := DefinitelyCan, 2 := Undecided]),
                       Response(Manager, map[1 := ProbablyCan, 2 := DefinitelyCan])];
            KnownRoles(rs, Weights) && Score(rs, 1, Weights) == 5 && Score(rs, 2, Weights) == 3
    ensures IsFirstMax([1, 2], map[1 := 5, 2 := 3], 1)
  {
    var r1 := Response(Staff, map[1 := DefinitelyCan, 2 := Undecided]);
    var r2 := Response(Manager, map[1 := ProbablyCan, 2 := DefinitelyCan]);
    SourceRoles();
    assert Weights[Staff] == 1 && Weights[Manager] == 3;
    assert [r1, r2][..1] == [r1];
    assert [r1][..0] == [];
    assert Gain(r1, 1, Weights) == 2 && Gain(r1, 2, Weights) == 0;
    assert Gain(r2, 1, Weights) == 3 && Gain(r2, 2, Weights) == 3;
    assert Score([r1], 1, Weights) == 2 && Score([r1], 2, Weights) == 0;
    var dates, scores := [1, 2], map[1 := 5, 2 := 3];
    assert dates[0] == 1 && scores[dates[0]] == 5 && scores[dates[1]] == 3;
  }
}
