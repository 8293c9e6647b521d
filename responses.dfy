/**
 * Candidate dates and participant responses: the values the scoring engine
 * reads. A date is a day number.
 */
module Responses {
  import opened Preferences

  type Date = int

  /** No date occurs twice. */
  predicate Distinct(dates: seq<Date>) {
    forall i, j :: 0 <= i < j < |dates| ==> dates[i] != dates[j]
  }

  /** Strictly increasing, i.e. in chronological order. */
  predicate Chronological(dates: seq<Date>) {
    forall i, j :: 0 <= i < j < |dates| ==> dates[i] < dates[j]
  }

  /**
   * Every day of the inclusive range from start to end, in order; an end
   * before the start gives no day at all, as an empty range does.
   */
  function CandidateDates(start: Date, end: Date): (dates: seq<Date>)
    ensures |dates| == if start <= end then end - start + 1 else 0
    ensures |dates| > 0 ==> dates[0] == start && dates[|dates| - 1] == end
    ensures forall i :: 0 < i < |dates| ==> dates[i] == dates[i - 1] + 1
    ensures forall d :: d in dates <==> start <= d <= end
  {
    var n := if start <= end then end - start + 1 else 0;
    var dates := seq(n, i => start + i);
    forall d | start <= d <= end
      ensures d in dates
    {
      assert dates[d - start] == d;
    }
    dates
  }

  /** The candidate list is chronological, hence has no repeated date. */
  lemma {:induction false} CandidateDatesChronological(start: Date, end: Date)
    ensures Chronological(CandidateDates(start, end))
    ensures Distinct(CandidateDates(start, end))
  {
    var dates := CandidateDates(start, end);
    forall i, j | 0 <= i < j < |dates| ensures dates[i] < dates[j] {
      StepsAdd(dates, i, j);
    }
  }

  /** In a list that rises by one per step, position j is j - i days after position i. */
  lemma {:induction false} StepsAdd(dates: seq<Date>, i: nat, j: nat)
    requires i <= j < |dates|
    requires forall k :: 0 < k < |dates| ==> dates[k] == dates[k - 1] + 1
    ensures dates[j] == dates[i] + (j - i)
    decreases j - i
  {
    if i < j {
      StepsAdd(dates, i, j - 1);
    }
  }

  /** One stored submission: a role label and the choice recorded for each date. */
  datatype Response = Response(role: string, prefs: map<Date, Choice>)

  /**
   * The record a participant submits: their role and one choice for every
   * candidate date, Undecided where the answers hold none; answers about other
   * dates are not kept.
   */
  function MakeResponse(role: string, answers: map<Date, Choice>, dates: seq<Date>): (r: Response)
    ensures r.role == role
    ensures r.prefs.Keys == set d | d in dates
    ensures forall d :: d in dates && d in answers ==> r.prefs[d] == answers[d]
    ensures forall d :: d in dates && d !in answers ==> r.prefs[d] == Undecided
  {
    Response(role, map d | d in dates :: if d in answers then answers[d] else Undecided)
  }

  /** A stored record as label cells: one cell per date, holding the choice's label. */
  function StoredCells(r: Response): (cells: map<Date, string>)
    ensures cells.Keys == r.prefs.Keys
    ensures forall d :: d in cells ==> ParseLabel(cells[d]) == Some(r.prefs[d])
  {
    map d | d in r.prefs :: Label(r.prefs[d])
  }

  /**
   * Reads a stored record back from its role and label cells. A cell holding
   * no choice's label (an empty cell left by joining records over different
   * dates) gives no entry for its date.
   */
  function ParseRecord(role: string, cells: map<Date, string>): (r: Response)
    ensures r.role == role
    ensures r.prefs.Keys == set d | d in cells && ParseLabel(cells[d]).Some?
    ensures forall d :: d in r.prefs ==> Label(r.prefs[d]) == cells[d]
  {
    Response(role, map d | d in cells && ParseLabel(cells[d]).Some? :: ParseLabel(cells[d]).value)
  }

  /** Writing a record as label cells and reading it back gives the same record. */
  lemma StoreRoundTrip(r: Response)
    ensures ParseRecord(r.role, StoredCells(r)) == r
  {
    var back := ParseRecord(r.role, StoredCells(r));
    forall d | d in r.prefs ensures d in back.prefs && back.prefs[d] == r.prefs[d] {
      LabelRoundTrip(r.prefs[d]);
    }
    assert back.prefs == r.prefs;
  }
}
