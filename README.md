# Tabbycat API views: pairing gate, check-in endpoints, list filters

A Dafny model of the decision and state logic in `tabbycat/api/views.py`, the REST API of
Tabbycat, a debate-tournament tabulation system. It has three parts:

- **Pairing visibility gate** (`PairingPermission`). `PairingViewSet.Permission` decides whether
  the public may see a round's pairings. It reads the tournament's `public_draw` preference
  (`off`, `current` or `all-released`), compares the requested round with the tournament's current
  round, and checks whether the round's `draw_status` is "released". Any other preference value
  raises a `KeyError`; the model returns `Failure(UnknownPreference)` for it.
- **Check-in endpoints** (`CheckinLog`, `CheckinViews`). `BaseCheckinsView` and its adjudicator,
  speaker and venue subclasses are modelled as the class `CheckinsView`. It holds the queryset of
  the kind's objects, a map from object to the barcode of its identifier, and the check-in event
  log. `get` reads whether an unexpired check-in exists. `put` checks in, `delete` checks out and
  `patch` toggles. `post` creates a missing identifier. Every answer is a `Response` with exactly
  the fields `object`, `barcode` and `checked`.
- **List filters** (`Querysets`, on top of `Seqs.Filter`). `BaseStandingsView.get_queryset` calls
  `filter` on the model class rather than on its manager `objects`, so as written it raises an
  `AttributeError` on every request (`StandingsQuerysetAsWritten`, see "## Findings"). The model
  also gives the evidently intended query (`StandingsQueryset`): the request tournament's teams or
  speakers, narrowed by an optional `category`. `FeedbackQuestionViewSet.get_queryset` applies the
  optional `from_adj` and `from_team` filters.

Collaborators not part of this model, and how they appear in it:

- `get_unexpired_checkins` (checkins/utils.py) is not part of this model. An event counts as
  unexpired when its time is at or after `now` minus the kind's window preference, read as whole
  hours (`CheckinLog.Cutoff`). This is an assumption.
- `CheckInEventConsumer.receive_json` (checkins/consumers.py) is not part of this model. Its effect
  on the log is assumed to be `CheckinLog.Consume`. A message with status true appends one event
  stamped `now` per barcode. A message with status false deletes those barcodes' unexpired events.
  This is the least the endpoints rely on for `get` to report what `put`, `delete` and `patch`
  recorded.
- `create_identifiers` draws a random barcode. The model takes that barcode as the parameter
  `newBarcode` of `Post`, which requires it to be non-empty and unused (the generator's promise).
- Each check-in event in the source points at its identifier. The model keys events by barcode,
  so `CheckinsView.Valid()` requires every logged barcode to belong to an existing identifier.
- The clock is the parameter `now` (seconds). The tournament's preferences are fields of
  `CheckinViews.Tournament` or plain parameters.

Behaviour of the source that the model keeps as it is:

- A check-in status is whether ANY unexpired event exists for the identifier (`.exists()` at
  views.py:230 and 248), not the state of the newest event.
- `post` for a key that matches no object is not a 404. `post` bypasses `get_object`,
  `create_identifiers` does nothing, and `.get()` raises `DoesNotExist`, which is not an `Http404`.
  The model answers `ServerError(DoesNotExist)`.
- `get_tournament_preference` has no administrator branch. Any administrator override lives in
  parent permission classes outside this file.

## Model

| member | source | states |
|---|---|---|
| `PairingPermission.ParsePreference` | tabbycat/api/views.py:311-316 | exactly the three keys `off`, `current`, `all-released` name a preference, each its own |
| `PairingPermission.TournamentPreferenceMatchesTable` | tabbycat/api/views.py:311-319 | the dictionary lookup fails exactly on an unknown value and otherwise equals the per-preference reference table `Visible` applied to current-ness and `draw_status == STATUS_RELEASED` |
| `PairingPermission.OffDeniesEveryRound` | tabbycat/api/views.py:312-313 | under `off` the gate answers false for every round, current or not, released or not |
| `PairingPermission.CurrentAllowsOnlyReleasedCurrentRound` | tabbycat/api/views.py:314-319 | under `current` the gate answers true if and only if the round is the current round and its draw is released |
| `PairingPermission.AllReleasedAllowsEveryReleasedRound` | tabbycat/api/views.py:315-319 | under `all-released` the gate answers true if and only if the round's draw is released, whatever its current-ness |
| `PairingPermission.TournamentPreference` | tabbycat/api/views.py:311-316 | the gate raises `UnknownPreference` rather than decides if and only if the preference is none of the three keys |
| `PairingPermission.UnreleasedDrawIsNeverShown` | tabbycat/api/views.py:314-319 | `get_round_status` is the only way in: a round whose `draw_status` is not "released" is never shown, under any preference |
| `PairingPermission.PreferencesAreNested` | tabbycat/api/views.py:312-315 | every round shown under `current` is shown under `all-released`; nothing is shown under `off` |
| `PairingPermission.ReleasedButNotCurrentIsDenied` | tabbycat/api/views.py:311-326 | with two released rounds under `current`, the current one is shown and the other is denied |
| `Querysets.StandingsQuerysetAsWritten` | tabbycat/api/views.py:282-287 | as written, every standings request raises `AttributeError`, whatever the rows, tournament or category |
| `Querysets.StandingsQueryset` | tabbycat/api/views.py:282-287 | a row is kept if and only if it is an input row of the request's tournament and, when a category is given, in that category; never more rows than the input |
| `Querysets.StandingsIsOneFilter` | tabbycat/api/views.py:282-287 | the two successive filters equal one order-preserving filter by the conjunction of their conditions |
| `Querysets.StandingsWithoutCategoryKeepsTournament` | tabbycat/api/views.py:283-287 | without `category` the result is the tournament filter alone, and is the whole input when every row is of the tournament |
| `Querysets.StandingsKeepsMultiplicity` | tabbycat/api/views.py:282-287 | each kept row keeps all its occurrences; each removed row keeps none |
| `Querysets.FeedbackQuestionQueryset` | tabbycat/api/views.py:340-346 | a question is kept if and only if it is an input question, asked of adjudicators when `from_adj` is truthy, and asked of teams when `from_team` is truthy |
| `Querysets.FeedbackQuestionsIsOneFilter` | tabbycat/api/views.py:340-346 | the optional filters are conjunctive: one order-preserving filter by both conditions |
| `Querysets.FeedbackQuestionsUnfiltered` | tabbycat/api/views.py:341-346 | with neither parameter truthy every question is listed, in order |
| `Querysets.FeedbackQuestionFiltersCommute` | tabbycat/api/views.py:342-346 | with both parameters truthy, applying the `from_team` filter before `from_adj` gives the same list |
| `CheckinLog.Cutoff` | tabbycat/api/views.py:230 | the unexpired window ends at `now` and is non-empty when the preference is positive |
| `CheckinLog.CheckedIn` | tabbycat/api/views.py:230-231 | true if and only if some event of the barcode in the log is unexpired |
| `CheckinLog.Consume` | tabbycat/api/views.py:204-210 | after a broadcast every barcode of the message has the message's status and every other barcode keeps its status |
| `CheckinLog.CheckedInAntitone` | tabbycat/api/views.py:230 | an event unexpired at a later cutoff is unexpired at every earlier one |
| `CheckinLog.CheckinExpires` | tabbycat/api/views.py:239-243 | for a barcode with no event later than `t`, a check-in recorded at `t` is seen up to `t` plus the window and is expired one second later |
| `CheckinLog.ToggleTwiceRestores` | tabbycat/api/views.py:245-250 | two toggles within one window: the second answers the originally read status and leaves it in place |
| `CheckinViews.WindowPreference` | tabbycat/api/views.py:259-275 | adjudicators and speakers read the people window, and only venues read the venue window |
| `CheckinViews.CheckinsView.GetObject` | tabbycat/api/views.py:191-199 | not found when no object has the key or the object has no identifier; otherwise the object's barcode |
| `CheckinViews.CheckinsView.GetBarcodes` | tabbycat/api/views.py:201-202 | the one barcode of a checkable object's identifier; handing in an identifier raises |
| `CheckinViews.CheckinsView.BroadcastCheckin` | tabbycat/api/views.py:204-210 | the log becomes the consumer's effect of a message for the target's barcodes; unchanged if they cannot be read |
| `CheckinViews.CheckinsView.Get` | tabbycat/api/views.py:227-231 | not found exactly as `get_object`; otherwise the object, its barcode, and `checked` if and only if an unexpired event of that barcode exists |
| `CheckinViews.CheckinsView.Put` | tabbycat/api/views.py:239-243 | answers `checked` true whatever the prior status; the object is then checked in and every other object's status is unchanged |
| `CheckinViews.CheckinsView.Delete` | tabbycat/api/views.py:233-237 | answers `checked` false whatever the prior status; the object is then checked out and every other object's status is unchanged |
| `CheckinViews.CheckinsView.Patch` | tabbycat/api/views.py:245-250 | answers the negation of the status `get` would have read, and that negation is the new status; other objects unchanged |
| `CheckinViews.CheckinsView.PatchAsWritten` | tabbycat/api/views.py:245-250 | as written, every `patch` of a found object ends in a server error and records nothing |
| `CheckinViews.CheckinsView.Post` | tabbycat/api/views.py:252-256 | adds an identifier only to an object of the queryset that lacks one, keeps an existing barcode, answers `checked` false with the barcode, and is `DoesNotExist` for an unknown key; barcodes stay unique and non-empty, every event belongs to an identifier, and a newly created identifier is not checked in at any time |
| `CheckinViews.VenueCheckinSequence` | tabbycat/api/views.py:227-256 | with the corrected `patch`, a fresh venue answers post false with "B1", then get false, put true, patch false, delete false |

## Left out

- The CRUD viewsets (tournaments, rounds, motions, categories, eligibility, participants, venues,
  institutions, feedback) and the API root views: they only wire querysets to serializers.
- The preference viewset: it wraps a library.
- `select_related` and `prefetch_related`: performance hints with no effect on results.
- URL construction by `reverse`: the `object` field is the triple (detail view, tournament slug,
  primary key) the URL is built from.
- Parent permission classes and mixins (`PublicPreferencePermission`, `APIEnabledPermission`,
  `AdministratorAPIMixin`, `TournamentAPIMixin`) are not part of this model. This covers how a
  false gate answer becomes a 403 and `check_object_permissions`. It also covers the tournament
  scoping that `TournamentAPIMixin` applies: the check-in object set and the input feedback
  questions are given already scoped to the tournament. The standings query does its own
  tournament filter, which is modelled.
- Standings computation and all serializers: they are not part of this model.
- The websocket consumer's fan-out to subscribers and its concurrency: only its assumed effect on
  the log is modelled.
- Concurrent requests: the model is sequential, so the unlocked read-then-write of `patch` races
  with nothing.
- `CheckinLog.Cutoff`: fractional-hour window preferences, time zones, and the empty-key branch of
  `get_unexpired_checkins` are not modelled.
- The modelled log is the part of the tournament's check-in log that belongs to this view's
  identifiers; the tournament filter of `get_unexpired_checkins` is implicit. In the source the
  adjudicator and speaker views share one person-identifier table and one event log; the model
  gives each view its own identifiers and events, so a check-in through one view is not seen
  through the other.
- `PairingPermission.TournamentPreference` reads `current_round.id` unconditionally. The model
  takes the current round's id as a given value, so a tournament without a current round (an
  `AttributeError`) is not represented.
- Converting the `category` query string to a primary key (and the error for a malformed one) is
  Django's job. The model takes the category as an optional key.

## Findings

| source | as written | input that shows it | evidently intended | confidence | as-written member | corrected member |
|---|---|---|---|---|---|---|
| tabbycat/api/views.py:249 | `patch` hands `obj.checkin_identifier` to `broadcast_checkin`, and `get_barcodes` then reads `.checkin_identifier.barcode` of that identifier | a PATCH for any object that has an identifier | broadcast `not check` for the object's own barcode, as `put` and `delete` do | medium (identifier models are not part of this model), not executed | `CheckinViews.CheckinsView.PatchAsWritten` | `CheckinViews.CheckinsView.Patch` |
| tabbycat/api/views.py:283 | `get_queryset` calls `self.model.filter(...)` on the model class (`Speaker` at line 297, `Team` at line 305); the same file reaches rows through the manager, `self.model.objects.filter`, at line 225 | any standings request, whatever the tournament or category | `self.model.objects.filter(...)`: the tournament's rows, narrowed by the category when one is given | high (a Django model class has no `filter` attribute), not executed | `Querysets.StandingsQuerysetAsWritten` | `Querysets.StandingsQueryset` |
