# Drinking-party date scheduler: scoring engine

The application collects, for a range of candidate days, each participant's
role (一般, リーダークラス, 部長クラス, 本部長クラス, 社長クラス) and one of five
attendance choices per day (絶対行ける, たぶん行ける, 未定, たぶん行けない,
絶対行けない). When the organiser asks for the result, every day starts at
score 0 and every stored response adds a role-tiered multiple of its role's
weight (1 to 5) to each day. The day with the highest score wins, and the
earliest such day wins a tie.

This project models that engine in Dafny:

- `preferences.dfy` (module `Preferences`) holds the choices and their labels.
  It also holds the role labels, the weight table, and the eligibility rule.
  The rule appears twice: as the source's chain of conditionals
  (`Contribution`) and as a tier-by-choice table (`Multiplier`), with a proof
  that they agree.
- `responses.dfy` (module `Responses`) holds the candidate-date range and the
  response record. Building a record fills every candidate date the answers
  do not cover with 未定 (Undecided). It also holds the record's storage as
  one label cell per date, and reading such cells back. Dates are day
  numbers.
- `scoring.dfy` (module `Scoring`) holds the specification `Score`. It is the
  sum, over the stored responses with duplicates counted, of each response's
  gain for a date. It also holds the lemmas about `Score`, and three methods.
  `ComputeScores` does the nested-loop accumulation into a score table and is
  proved equal to `Score`. `BestDate` does the first-maximum selection.
  `Schedule` is the whole run.

Role and choice labels are the application's own Japanese strings. A role
stays a string key into a `map<string, nat>` weight table, so a role the table
lacks can be represented; it leads to `Err(UnknownRole(role))`.

## Model

| member | source | states |
|---|---|---|
| `Preferences.ParseLabel` | proto1.py:85 | a parsed label is the label of the choice returned; text that is no choice's label parses to nothing |
| `Preferences.LabelRoundTrip` | proto1.py:85 | the five choice labels are distinct: reading back the stored label of a choice gives that same choice |
| `Preferences.Contribution` | proto1.py:144-152 | the source's role/choice conditionals equal the tier table times the weight: 本部長クラス/社長クラス get 2w for 絶対行ける and 0 otherwise (たぶん行ける included); 部長クラス gets w for 絶対行ける or たぶん行ける, never 2w; every other role gets 2w / w / 0; no answer is worth more than 2w, and 未定, たぶん行けない and 絶対行けない are worth 0 for every role |
| `Preferences.SourceRoles` | proto1.py:123-129 | the weight table has exactly the five role labels, each with a weight of at least 1; 一般 and リーダークラス fall in the general tier, 部長クラス in the middle tier, 本部長クラス and 社長クラス in the senior tier |
| `Responses.CandidateDates` | proto1.py:41 | the candidate list has end - start + 1 days (none when end precedes start); it begins at start, ends at end and rises by one day per step; a day is listed exactly when it lies in the inclusive range |
| `Responses.CandidateDatesChronological` | proto1.py:41 | the candidate list is strictly ascending, hence free of repeats |
| `Responses.MakeResponse` | proto1.py:105-108 | a submitted record keeps the role and has exactly one entry per candidate date: the participant's answer where given, 未定 otherwise; answers about other dates are dropped |
| `Responses.StoredCells` | proto1.py:110-111 | a stored record has one cell per date it holds, and each cell reads back as that date's choice |
| `Responses.ParseRecord` | proto1.py:132-134 | a record read back keeps the role and has an entry exactly for the cells holding a choice label, each entry being the choice that label names; any other cell text gives no entry |
| `Responses.StoreRoundTrip` | proto1.py:110-134 | writing a record as label cells and reading it back gives the same record |
| `Scoring.FilledResponseGain` | proto1.py:107 | a submitted record adds to a candidate date exactly what its answer is worth; a default-filled 未定 adds nothing, and a date outside the list gets nothing |
| `Scoring.ScoreAppend` | proto1.py:139-152 | storing one more response adds exactly its gain to each date's score; no score ever decreases; a date the new record holds no entry for keeps its score |
| `Scoring.ScoreConcat` | proto1.py:132-152 | the score over two concatenated batches of responses is the sum of the two batches' scores |
| `Scoring.ScoreRemoveAt` | proto1.py:139-152 | taking the response at any position out of the stored sequence lowers each date's score by exactly that response's gain |
| `Scoring.ScoreOrderIrrelevant` | proto1.py:132-152 | any rearrangement of the stored responses (same multiset of records) keeps roles known and gives every date the same score, so the order in which the response files are concatenated does not matter |
| `Scoring.DuplicateCountsTwice` | proto1.py:139-152 | a response stored twice is counted twice: it adds twice its gain |
| `Scoring.ScoreWithoutFavourable` | proto1.py:144-152 | a date for which no stored response holds 絶対行ける or たぶん行ける scores 0 |
| `Scoring.ComputeScores` | proto1.py:137-152 | the score table starts at 0 for every date and ends with one entry per candidate date equal to `Score`; it fails with `UnknownRole` exactly when some response's role has no weight, naming the first such response's role |
| `Scoring.FirstMaxUnique` | proto1.py:155 | at most one date is the earliest date holding the maximum score, so the selected date is determined by the scores |
| `Scoring.UniformScoresPickFirst` | proto1.py:155 | when every date has the same score the first listed date is selected |
| `Scoring.BestDate` | proto1.py:155 | with no dates the selection fails; otherwise the selected date is a listed date whose score is at least every listed date's score, and every date listed before it scores strictly less |
| `Scoring.Schedule` | proto1.py:137-156 | the run fails exactly when a role has no weight or there are no dates, and the unknown role is reported first, naming the role of the first response whose role has no weight; otherwise the scores equal `Score`, the best date is the earliest maximum, and the reported score is the best date's entry; with no responses every score is 0 and the first date is chosen with score 0 |
| `Scoring.TwoDateScenario` | proto1.py:123-155 | under the fixed weight table (一般 = 1, 部長クラス = 3), the responses (一般: day 1 絶対行ける, day 2 未定) and (部長クラス: day 1 たぶん行ける, day 2 絶対行ける) score day 1 at 5 and day 2 at 3, and day 1 is the selected date |

Behaviour worth knowing, as the code has it:

- An empty date list is not checked up front. The scoring loop runs first.
  An unknown role therefore fails the run before the empty list is noticed;
  the empty list only fails at the selection of the maximum. `Schedule`
  reports the errors in that order.
- Answers about dates outside the candidate list are dropped silently. No
  warning is raised.
- The weight table holds natural numbers. Positivity is proved of the fixed
  table (`SourceRoles`), not required of every table.
- The tie is broken by list order. List order is chronological because the
  list comes from `CandidateDates`.

## Left out

- The Streamlit user interface is not modelled: titles, date pickers, radio
  buttons, select boxes, buttons, HTML output and balloons. It is presentation
  only.
- Session-state mode switching (`is_admin`, `response_files`,
  `final_schedule`) is not modelled. Dates, responses and weights are explicit
  inputs instead.
- CSV file I/O is not modelled: `to_csv`, `read_csv`, `pd.concat` and the
  `response_N.csv` file names. A record's cells are modelled
  (`StoredCells`, `ParseRecord`); the stored responses are the input
  sequence, and `ScoreConcat` and `ScoreOrderIrrelevant` cover the
  concatenation's effect on scores.
- A pandas NaN cell can come from concatenating files with different date
  columns. `ParseRecord` reads any cell that is not a choice label as no
  entry for its date, which contributes nothing, as NaN does. The CSV text
  format itself is not modelled.
- The participant form (proto1.py:93-100) shows one radio group per date with
  no explicit default, so Streamlit preselects the first option, 絶対行ける.
  Every submitted record therefore holds an explicit choice for every date,
  and an untouched date counts as 絶対行ける. The 未定 fill of line 107 is
  reached only when the answers miss a date; `MakeResponse` models that
  general case, and the widget default itself is not modelled.
- `datetime.date.today()` defaults and the answer deadline are not modelled.
  They read the wall clock and do not affect scoring.
- The notification e-mail template text is not modelled. It is string
  formatting for display.
- Real calendar dates are modelled as integer day numbers. Day arithmetic is
  integer addition.
- `ComputeScores` requires distinct dates. The source's dates always come from
  the range at line 41, which never repeats a day (`CandidateDatesChronological`).
  A repeated date would be one dictionary key that is added to once per
  occurrence; that case is not modelled.
