/**
 * The two list endpoints whose rows are chosen by request parameters:
 * team and speaker standings (`BaseStandingsView.get_queryset`) and the
 * feedback questions (`FeedbackQuestionViewSet.get_queryset`).
 * A queryset is a sequence of rows; `filter` is `Seqs.Filter`.
 */
module Querysets {
  import opened Outcomes
  import opened Seqs

  type TournamentId = int
  type CategoryId = int

  /**
   * A team or speaker as the standings query sees it: its tournament (reached
   * through `team__tournament` for a speaker) and the categories it is in.
   */
  datatype Competitor = Competitor(pk: Pk, tournament: TournamentId, categories: set<CategoryId>)

  /** `filter(<tournament_field>=tournament)`. */
  function InTournament(tournament: TournamentId): Competitor -> bool {
    (c: Competitor) => c.tournament == tournament
  }

  /** `filter(categories__pk=category)`. */
  function InCategory(category: CategoryId): Competitor -> bool {
    (c: Competitor) => category in c.categories
  }

  /** The single condition a standings row must meet. */
  function StandingsCondition(tournament: TournamentId, category: Option<CategoryId>): Competitor -> bool {
    (c: Competitor) => c.tournament == tournament && (category.Some? ==> category.value in c.categories)
  }

  /**
   * `get_queryset` as the source has it: `self.model.filter(...)` asks the
   * model class, not its manager `objects`, for `filter`. A model class has no
   * such attribute, so every standings request raises before any row is read.
   */
  function StandingsQuerysetAsWritten(rows: seq<Competitor>, tournament: TournamentId, category: Option<CategoryId>): (r: Result<seq<Competitor>, Raised>)
    ensures r.Failure? && r.error == AttributeError
  {
    Failure(AttributeError)
  }

  /**
   * The rows of the request's tournament, then, if `category` is given, those
   * in that category: `get_queryset` read as `self.model.objects.filter(...)`.
   */
  function StandingsQueryset(rows: seq<Competitor>, tournament: TournamentId, category: Option<CategoryId>): (r: seq<Competitor>)
    ensures |r| <= |rows|
    ensures forall c :: c in r <==>
      c in rows && c.tournament == tournament && (category.Some? ==> category.value in c.categories)
  {
    var qs := Filter(InTournament(tournament), rows);
    if category.Some? then Filter(InCategory(category.value), qs) else qs
  }

  /** The standings rows are one filter of the input by a single condition, so order and multiplicity are kept. */
  lemma StandingsIsOneFilter(rows: seq<Competitor>, tournament: TournamentId, category: Option<CategoryId>)
    ensures StandingsQueryset(rows, tournament, category) ==
      Filter(StandingsCondition(tournament, category), rows)
  {
    if category.Some? {
      FilterFilter(InTournament(tournament), InCategory(category.value), rows);
      FilterCongruent(x => InTournament(tournament)(x) && InCategory(category.value)(x),
        StandingsCondition(tournament, category), rows);
    } else {
      FilterCongruent(InTournament(tournament), StandingsCondition(tournament, category), rows);
    }
  }

  /** Without a `category` parameter nothing beyond the tournament restriction is removed. */
  lemma StandingsWithoutCategoryKeepsTournament(rows: seq<Competitor>, tournament: TournamentId)
    ensures StandingsQueryset(rows, tournament, None) == Filter(InTournament(tournament), rows)
    ensures (forall c :: c in rows ==> c.tournament == tournament) ==>
      StandingsQueryset(rows, tournament, None) == rows
  {
    if forall c :: c in rows ==> c.tournament == tournament {
      FilterAll(InTournament(tournament), rows);
    }
  }

  /** Each row is kept as many times as it occurs, or dropped entirely. */
  lemma StandingsKeepsMultiplicity(rows: seq<Competitor>, tournament: TournamentId, category: Option<CategoryId>, c: Competitor)
    ensures multiset(StandingsQueryset(rows, tournament, category))[c] ==
      if c.tournament == tournament && (category.Some? ==> category.value in c.categories)
      then multiset(rows)[c] else 0
  {
    StandingsIsOneFilter(rows, tournament, category);
    FilterMultiset(StandingsCondition(tournament, category), rows, c);
  }

  /** A feedback question and the two sources it may be asked of. */
  datatype Question = Question(pk: Pk, fromAdj: bool, fromTeam: bool)

  predicate AskedOfAdjudicators(q: Question) { q.fromAdj }

  predicate AskedOfTeams(q: Question) { q.fromTeam }

  predicate AnyQuestion(q: Question) { true }

  /** The single condition a listed question must meet. */
  function QuestionCondition(fromAdj: Option<string>, fromTeam: Option<string>): Question -> bool {
    (q: Question) => (Truthy(fromAdj) ==> q.fromAdj) && (Truthy(fromTeam) ==> q.fromTeam)
  }

  /**
   * Python truthiness of `query_params.get(name)`: an absent parameter and an
   * empty value are false, every other value (including "0" and "false") is true.
   */
  predicate Truthy(param: Option<string>) {
    param.Some? && param.value != ""
  }

  /**
   * The tournament's questions, narrowed to those asked of adjudicators when
   * `from_adj` is truthy and to those asked of teams when `from_team` is truthy.
   */
  function FeedbackQuestionQueryset(rows: seq<Question>, fromAdj: Option<string>, fromTeam: Option<string>): (r: seq<Question>)
    ensures |r| <= |rows|
    ensures forall q :: q in r <==>
      q in rows && (Truthy(fromAdj) ==> q.fromAdj) && (Truthy(fromTeam) ==> q.fromTeam)
  {
    var q0 := Filter(AnyQuestion, rows);
    var q1 := if Truthy(fromAdj) then Filter(AskedOfAdjudicators, q0) else q0;
    if Truthy(fromTeam) then Filter(AskedOfTeams, q1) else q1
  }

  /** The two optional filters are conjunctive: the result is one filter by both conditions. */
  lemma FeedbackQuestionsIsOneFilter(rows: seq<Question>, fromAdj: Option<string>, fromTeam: Option<string>)
    ensures FeedbackQuestionQueryset(rows, fromAdj, fromTeam) ==
      Filter(QuestionCondition(fromAdj, fromTeam), rows)
  {
    var keep := QuestionCondition(fromAdj, fromTeam);
    var isAdj, isTeam := AskedOfAdjudicators, AskedOfTeams;
    FilterAll(AnyQuestion, rows);
    if Truthy(fromAdj) && Truthy(fromTeam) {
      FilterFilter(isAdj, isTeam, rows);
      FilterCongruent(x => isAdj(x) && isTeam(x), keep, rows);
    } else if Truthy(fromAdj) {
      FilterCongruent(isAdj, keep, rows);
    } else if Truthy(fromTeam) {
      FilterCongruent(isTeam, keep, rows);
    } else {
      FilterAll(keep, rows);
    }
  }

  /** Without either parameter every question of the tournament is listed, in order. */
  lemma FeedbackQuestionsUnfiltered(rows: seq<Question>, fromAdj: Option<string>, fromTeam: Option<string>)
    requires !Truthy(fromAdj) && !Truthy(fromTeam)
    ensures FeedbackQuestionQueryset(rows, fromAdj, fromTeam) == rows
  {
    FilterAll(AnyQuestion, rows);
  }

  /** With both parameters truthy, swapping which filter is applied first changes nothing. */
  lemma FeedbackQuestionFiltersCommute(rows: seq<Question>, fromAdj: Option<string>, fromTeam: Option<string>)
    requires Truthy(fromAdj) && Truthy(fromTeam)
    ensures FeedbackQuestionQueryset(rows, fromAdj, fromTeam) ==
      Filter(AskedOfAdjudicators, Filter(AskedOfTeams, rows))
  {
    FilterAll(AnyQuestion, rows);
    FilterCommutes(AskedOfAdjudicators, AskedOfTeams, rows);
  }
}
