/**
 * Participant roles, the five attendance choices, the role weight table and the
 * role-tiered rule that turns one (role, choice) pair into score points.
 */
module Preferences {

  datatype Option<T> = None | Some(value: T)

  /** A participant's willingness to attend on one date, most to least favourable. */
  datatype Choice = DefinitelyCan | ProbablyCan | Undecided | ProbablyCannot | DefinitelyCannot

  /** Only these two choices can ever add points, whatever the role. */
  predicate Favourable(c: Choice) {
    c == DefinitelyCan || c == ProbablyCan
  }

  /** The label the participant form offers and a stored record holds for each choice. */
  function Label(c: Choice): string {
    match c
    case DefinitelyCan => "絶対行ける"
    case ProbablyCan => "たぶん行ける"
    case Undecided => "未定"
    case ProbablyCannot => "たぶん行けない"
    case DefinitelyCannot => "絶対行けない"
  }

  /** Reads a stored label back; any other text (a blank cell, say) is no choice at all. */
  function ParseLabel(s: string): (r: Option<Choice>)
    ensures r.Some? ==> Label(r.value) == s
    ensures r.None? ==> forall c: Choice :: Label(c) != s
  {
    if s == Label(DefinitelyCan) then Some(DefinitelyCan)
    else if s == Label(ProbablyCan) then Some(ProbablyCan)
    else if s == Label(Undecided) then Some(Undecided)
    else if s == Label(ProbablyCannot) then Some(ProbablyCannot)
    else if s == Label(DefinitelyCannot) then Some(DefinitelyCannot)
    else None
  }

  /** The five labels are pairwise distinct, so a stored label names exactly one choice. */
  lemma LabelRoundTrip(c: Choice)
    ensures ParseLabel(Label(c)) == Some(c)
  {
  }

  // Role labels, from the least to the most senior.
  const Staff: string := "一般"
  const TeamLead: string := "リーダークラス"
  const Manager: string := "部長クラス"
  const Director: string := "本部長クラス"
  const Executive: string := "社長クラス"

  /** The fixed weight of each role label. */
  const Weights: map<string, nat> :=
    map[Staff := 1, TeamLead := 2, Manager := 3, Director := 4, Executive := 5]

  /** The three branches of the eligibility rule. */
  datatype Tier = Senior | Middle | General

  /** Director and Executive are senior, Manager is middle, every other label is general. */
  function TierOf(role: string): Tier {
    if role == Director || role == Executive then Senior
    else if role == Manager then Middle
    else General
  }

  /** The eligibility rule as a table: how many times the role weight a choice is worth. */
  function Multiplier(t: Tier, c: Choice): nat {
    match (t, c)
    case (Senior, DefinitelyCan) => 2
    case (Middle, DefinitelyCan) => 1
    case (Middle, ProbablyCan) => 1
    case (General, DefinitelyCan) => 2
    case (General, ProbablyCan) => 1
    case _ => 0
  }

  /**
   * Points one answer adds to its date, written as the source's chain of
   * conditionals on the role label and the choice.
   */
  function Contribution(role: string, w: nat, choice: Choice): (r: nat)
    ensures r == Multiplier(TierOf(role), choice) * w
    ensures r <= 2 * w
    ensures !Favourable(choice) ==> r == 0
  {
    if role in [Director, Executive] && choice == DefinitelyCan then 2 * w
    else if role == Manager && choice in [DefinitelyCan, ProbablyCan] then 1 * w
    else if role !in [Director, Executive, Manager] then
      if choice == DefinitelyCan then 2 * w
      else if choice == ProbablyCan then 1 * w
      else 0
    else 0
  }

  /** The weight table covers the five role labels, each with a positive weight and its tier. */
  lemma SourceRoles()
    ensures Weights.Keys == {Staff, TeamLead, Manager, Director, Executive}
    ensures forall role :: role in Weights ==> Weights[role] >= 1
    ensures TierOf(Staff) == General && TierOf(TeamLead) == General
    ensures TierOf(Manager) == Middle
    ensures TierOf(Director) == Senior && TierOf(Executive) == Senior
  {
  }
}
