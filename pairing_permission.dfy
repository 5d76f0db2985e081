/**
 * The visibility gate of the public pairings endpoint (`PairingViewSet.Permission`).
 * The tournament's `public_draw` preference is looked up in a table of three
 * decisions; the round counts as released when its draw status is "released".
 */
module PairingPermission {
  import opened Outcomes

  type RoundId = int

  /** The draw-release states a round passes through; only `Released` opens the gate. */
  datatype DrawStatus = NoDraw | Draft | Confirmed | Released

  datatype Round = Round(id: RoundId, drawStatus: DrawStatus)

  /** Looking up a preference value outside the table raises a `KeyError`. */
  datatype GateError = UnknownPreference(value: string)

  /** The three documented values of the `public_draw` preference. */
  datatype DrawPreference = Off | Current | AllReleased

  /** `get_round_status`: the round's `draw_status` equals `Round.STATUS_RELEASED`. */
  predicate RoundStatus(round: Round) {
    round.drawStatus == Released
  }

  /**
   * `get_tournament_preference`: the dictionary of decisions, indexed by the
   * tournament's `public_draw` preference. Every entry is computed before the
   * lookup, as a Python dict display does.
   */
  function TournamentPreference(pref: string, currentRoundId: RoundId, round: Round): (r: Result<bool, GateError>)
    ensures r.Failure? <==> pref != "off" && pref != "current" && pref != "all-released"
    ensures r.Failure? ==> r.error == UnknownPreference(pref)
  {
    var decisions := map[
      "off" := false,
      "current" := currentRoundId == round.id && RoundStatus(round),
      "all-released" := RoundStatus(round)
    ];
    if pref in decisions then Success(decisions[pref]) else Failure(UnknownPreference(pref))
  }

  /** The preference value a string names, if any. */
  function ParsePreference(pref: string): (p: Option<DrawPreference>)
    ensures p == Some(Off) <==> pref == "off"
    ensures p == Some(Current) <==> pref == "current"
    ensures p == Some(AllReleased) <==> pref == "all-released"
  {
    if pref == "off" then Some(Off)
    else if pref == "current" then Some(Current)
    else if pref == "all-released" then Some(AllReleased)
    else None
  }

  /**
   * Reference decision table for a public requester, written per preference:
   * nothing, the current round once released, or every released round.
   */
  predicate Visible(pref: DrawPreference, roundIsCurrent: bool, roundReleased: bool) {
    match pref
    case Off => false
    case Current => roundIsCurrent && roundReleased
    case AllReleased => roundReleased
  }

  /** The dictionary lookup agrees with the reference table, and fails exactly on unknown values. */
  lemma TournamentPreferenceMatchesTable(pref: string, currentRoundId: RoundId, round: Round)
    ensures TournamentPreference(pref, currentRoundId, round) ==
      match ParsePreference(pref)
      case None => Failure(UnknownPreference(pref))
      case Some(p) => Success(Visible(p, currentRoundId == round.id, round.drawStatus == Released))
  {
  }

  /** With `off`, no round is visible, whatever its current-ness or draw status. */
  lemma OffDeniesEveryRound(currentRoundId: RoundId, round: Round)
    ensures TournamentPreference("off", currentRoundId, round) == Success(false)
  {
  }

  /** With `current`, a round is visible exactly when it is the current round and its draw is released. */
  lemma CurrentAllowsOnlyReleasedCurrentRound(currentRoundId: RoundId, round: Round)
    ensures TournamentPreference("current", currentRoundId, round).Success?
    ensures TournamentPreference("current", currentRoundId, round).value <==>
      round.id == currentRoundId && round.drawStatus == Released
  {
  }

  /** With `all-released`, a round is visible exactly when its draw is released. */
  lemma AllReleasedAllowsEveryReleasedRound(currentRoundId: RoundId, round: Round)
    ensures TournamentPreference("all-released", currentRoundId, round).Success?
    ensures TournamentPreference("all-released", currentRoundId, round).value <==>
      round.drawStatus == Released
  {
  }

  /** A round whose draw is not released is never shown, under any preference. */
  lemma UnreleasedDrawIsNeverShown(pref: string, currentRoundId: RoundId, round: Round)
    requires !RoundStatus(round)
    ensures TournamentPreference(pref, currentRoundId, round) != Success(true)
  {
  }

  /** The three settings are ordered: `off` admits nothing, `current` admits a part of what `all-released` admits. */
  lemma PreferencesAreNested(currentRoundId: RoundId, round: Round)
    ensures TournamentPreference("current", currentRoundId, round) == Success(true) ==>
      TournamentPreference("all-released", currentRoundId, round) == Success(true)
    ensures TournamentPreference("off", currentRoundId, round) != Success(true)
  {
  }

  /**
   * Two released rounds of one tournament under `current`: the current one is
   * shown, the other is refused although its draw is released.
   */
  lemma ReleasedButNotCurrentIsDenied(r1: Round, r2: Round)
    requires r1.id != r2.id
    requires r1.drawStatus == Released && r2.drawStatus == Released
    ensures TournamentPreference("current", r1.id, r1) == Success(true)
    ensures TournamentPreference("current", r1.id, r2) == Success(false)
  {
  }
}
