# Knockout tournament client, modelled in Dafny

The system is a browser client for a knockout tournament. A user enters how many teams
meet in each match and how many teams play. The client validates the two entries and
builds one round component per round, each holding one match component per game. It asks
a tournament server for the first round's match-ups, then plays the rounds in order. Each
match fetches its match score, builds and initialises its teams, and asks the server for
the winning score. The team with that score and the lowest id wins the match. The winners'
ids, cut into groups of teams-per-match, are the next round's match-ups. The winner of the
last round is shown, and the start button is enabled again.

The model has one module per source file:

- `TournamentService` (`service.dfy`) holds the response shapes and the request strings.
- `TeamComponent` (`team.dfy`) is the team.
- `TournamentCalculator` (`calculator.dfy`) is the bracket arithmetic.
- `MatchComponent` (`match.dfy`), `RoundComponent` (`round.dfy`) and `TournamentComponent`
  (`tournament.dfy`) are the three components.

The components whose fields the source updates in place are classes: `Team`, `Match`,
`Round` and `Tournament`. Their methods carry `modifies` clauses. The server is a value of
type `Server`: a fixed table from each request's arguments to its parsed response. So each
`await fetch...` becomes a lookup.

Beside the objects, the result of a whole tournament is also defined from the server's
answers alone:

- `MatchWinnerId` for one match-up;
- `RoundWinnerIds` for one round;
- `Play` for a run of rounds;
- `TournamentRun` for the `/tournament` request.

The class methods are proved to agree with these functions, in team ids. The tournament's
properties are proved about the functions: it never loops forever, and its winner is an
entrant who played in the last round. It also ends with a winner when three things hold:
the rounds have the planned sizes; the `/tournament` answer carries a `tournamentId` and
at least as many first-round match-ups as the first round has games, none of them empty;
and the server names a winner for every match-up with teams in that tournament. An answer
without a `tournamentId` ends the run with no winner, as `runTournament` returns early.

## Model

| member | source | states |
|---|---|---|
| TournamentService.Lookup | client/services/tournamentService.js:32-36 | a request gets a response exactly when the server has an entry for its arguments, and the response is that entry |
| TournamentService.DropLast | client/services/tournamentService.js:146 | `slice(0, -1)` removes the last character of a non-empty string and leaves "" unchanged |
| TournamentService.ScoreParams | client/services/tournamentService.js:126-130 | one `teamScores` parameter per score, in team order |
| TournamentService.GenerateGetWinnerUrl | client/services/tournamentService.js:121-132 | the URL, then `?tournamentId=`, `&matchScore=`, then one `&teamScores=` per score in order; no trailing trim |
| TournamentService.ScoreFieldsJoined | client/services/tournamentService.js:127-130 | the `&teamScores=` fields are the `&`-joined `teamScores=s` fields, led by one `&`; nothing for no scores |
| TournamentService.WinnerUrlIsParamEncoding | client/services/tournamentService.js:121-132 | the `/winner` URL is the same `?key=value&...` encoding the generic builder makes, with `teamScores` repeated |
| TournamentService.GenerateRequestBodyWithData | client/services/tournamentService.js:138-147 | the body is the `key=value` fields in key order joined by `&`, with no trailing `&`; empty data gives "" |
| TournamentService.GenerateGetUrlWithParamData | client/services/tournamentService.js:154-162 | the URL, `?` and the joined fields; for empty data the trim removes the `?` and the URL comes back as given |
| TournamentService.TournamentService.constructor | client/services/tournamentService.js:12-14 | the service keeps its port |
| TournamentService.TournamentService.TournamentRequestBody | client/services/tournamentService.js:21-22 | the `/tournament` body sends `teamsPerMatch`, then `numberOfTeams` |
| TournamentService.TournamentService.MatchRequestUrl | client/services/tournamentService.js:52-56 | the `/match` URL sends `tournamentId`, `round`, `match`, in that order |
| TournamentService.TournamentService.TeamRequestUrl | client/services/tournamentService.js:77-80 | the `/team` URL sends `tournamentId`, then `teamId` |
| TournamentService.TournamentService.WinnerRequestUrl | client/services/tournamentService.js:103 | the `/winner` URL sends `tournamentId`, `matchScore`, then each team score in order |
| TeamComponent.InitialisedScore | client/components/team.js:28-31 | the score a new team holds once initialised: the `/team` response's score, or none when no data arrived |
| TeamComponent.Team.constructor | client/components/team.js:14-19 | a new team has its id and neither a name nor a score |
| TeamComponent.Team.Initialise | client/components/team.js:25-32 | name and score are copied from the `/team` response when one arrives, and are left unchanged otherwise |
| TournamentCalculator.Pow | client/utility/tournamentCalculator.js:35 | `Math.pow` of integers: non-zero for a non-zero base, at least 1 for a positive base |
| TournamentCalculator.GetBasicValidationResult | client/utility/tournamentCalculator.js:53-57 | an entry is valid exactly when it is present and at least 2; "Please enter …" for a missing one, "You must enter at least 2 …" for one below 2, an empty message when valid |
| TournamentCalculator.PowerOvershoot | client/utility/tournamentCalculator.js:35-43 | once the exponent search passes the number of teams, no exponent at all gives it |
| TournamentCalculator.ValidateEntries | client/utility/tournamentCalculator.js:15-45 | the first failing check, in source order, gives the result, with the source's messages; the result is valid exactly when both entries pass, the count is within the maximum, and the count is a positive power of the teams per match |
| TournamentCalculator.CalculateRounds | client/utility/tournamentCalculator.js:65-71 | the smallest exponent `k >= 1` with `b^k` equal to the number of teams, and the only one for `b >= 2` |
| TournamentCalculator.GetTeamIds | client/utility/tournamentCalculator.js:78-87 | the teams' ids, one per team, in the teams' order |
| TournamentCalculator.RoundMatchesFrom | client/utility/tournamentCalculator.js:100 | as many matches as the ids divided by the match size |
| TournamentCalculator.RoundMatchesFromCover | client/utility/tournamentCalculator.js:104-110 | the matches are numbered on from the first index, each holds `k` ids, and together they hold the ids in order |
| TournamentCalculator.RoundMatchesCover | client/utility/tournamentCalculator.js:95-112 | the next round has `|ids|/k` matches, match `i` is numbered `i` and holds `k` ids, and the concatenated ids are the winners' ids |
| TournamentCalculator.RoundMatchesChunks | client/utility/tournamentCalculator.js:106-107 | match `i` holds exactly the ids at positions `i*k` to `i*k + k` |
| TournamentCalculator.CreateRoundMatches | client/utility/tournamentCalculator.js:95-112 | the splicing loop builds exactly those matches and leaves the caller's id list empty |
| TournamentCalculator.CalculateNumberOfGamesPerRound | client/utility/tournamentCalculator.js:121-131 | one entry per round; the first is `n/b` and each later one is the previous divided by `b`; entry `i` times `b^(i+1)` is `n`; for `n = b^r` the entries are `b^(r-1), …, b, 1` |
| TournamentCalculator.WinnerIndexSelects | client/utility/tournamentCalculator.js:142-159 | none is selected exactly when no entry has the winning score; otherwise the selected entry has that score, the lowest id among those that do, and is the first such (the sort is stable) |
| TournamentCalculator.CalculateWinningTeam | client/utility/tournamentCalculator.js:139-162 | the winning team, when there is one, is one of the given teams and has the winning score |
| TournamentCalculator.CalculateWinningTeamSelects | client/utility/tournamentCalculator.js:139-162 | the winner is one of the teams, has the winning score and the lowest id among the teams that do; there is none exactly when no team has that score |
| MatchComponent.ScoreFromResponse | client/components/match.js:101-102 | no score exactly when the response is absent or its score is missing or 0; otherwise the score unchanged |
| MatchComponent.GetWinnerAsWritten | client/components/match.js:139-140 | getWinner's check as written: an absent response throws, and a present one returns its score unchecked |
| MatchComponent.GetWinnerAsWrittenDiffers | client/components/match.js:139-140 | the check as written never answers null for a missing response or a 0 score, where getMatchScore's check does |
| MatchComponent.TeamScores | client/components/match.js:135 | the team scores, one per team, in team order |
| MatchComponent.PlayedEntries | client/components/match.js:111-123 | each id of a match-up paired with the score its team holds once initialised, in id order |
| MatchComponent.MatchWinnerId | client/components/match.js:63-76 | the winner the server's answers determine for a match-up is, when there is one, one of the match-up's teams |
| MatchComponent.Match.constructor | client/components/match.js:24-37 | a new match knows its round and has no match-up, scores, teams or completion |
| MatchComponent.Match.GetMatchScore | client/components/match.js:96-103 | the `/match` response for the tournament, round and match, with no score when it is absent, missing or 0 |
| MatchComponent.Match.GetWinner | client/components/match.js:132-141 | the `/winner` response for the team scores in team order and the match score, checked the same way |
| MatchComponent.Match.GetTeams | client/components/match.js:111-123 | one new team per id, in id order, each initialised from the `/team` endpoint |
| MatchComponent.Match.SetMatchComplete | client/components/match.js:146-148 | the match is complete |
| MatchComponent.Match.FetchAll | client/components/match.js:65-70 | the match-up's fields are stored, then the checked match score, the initialised teams and the checked winning score |
| MatchComponent.Match.WinnerFromServer | client/components/match.js:70-75 | once everything is fetched, the id of the winning team is the one the server's answers determine |
| MatchComponent.Match.Start | client/components/match.js:63-77 | the match ends fetched and complete, and returns calculateWinningTeam's choice among its teams |
| RoundComponent.Round.CreateChildComponents | client/components/round.js:47-60 | one new, distinct, unstarted match component per game, each carrying the round's number; none for a non-positive count |
| RoundComponent.Round.constructor | client/components/round.js:19-28 | a new round has its number and game count, one new unstarted match per game, and no winners |
| RoundComponent.Round.PlayMatch | client/components/round.js:76-81 | match `i` is started with its match-up and its winner appended; the winner's id is the one the server determines |
| RoundComponent.Round.Start | client/components/round.js:69-84 | match `i` is started with match-up `i`, in order, and the winners are appended with the ids the server determines; a round given fewer match-ups than matches throws at the first match without one, and leaves the later matches untouched |
| TournamentComponent.RoundWinnerIdsAt | client/components/round.js:75-82 | entry `i` of a round's winner ids is the winner of match-up `i` |
| TournamentComponent.NextStep | client/components/tournament.js:167-176 | the loop returns exactly when a round has at most one winner, and then returns the first winner |
| TournamentComponent.NextRoundHoldsWinners | client/components/tournament.js:167-172 | when the loop goes on, every winner was present, the winners fill whole matches, and the next match-ups hold exactly the winners' ids, in order |
| TournamentComponent.Play | client/components/tournament.js:158-178 | the rounds run from the given match-ups, as the server's answers determine them; its properties are stated by the lemmas below |
| TournamentComponent.FinalWinnerPlayed | client/components/tournament.js:173-176 | a round that returns a winner returns one of the teams of its match-ups |
| TournamentComponent.WinnerPlayedLast | client/components/tournament.js:158-178 | a tournament's winner, when it has one, is one of the teams of the last round's match-ups |
| TournamentComponent.WinnerIsEntrant | client/components/tournament.js:158-178 | a tournament's winner, when it has one, is one of the teams of the match-ups the rounds started from |
| TournamentComponent.PlannedRunsNeverHang | client/components/tournament.js:166-172 | with the planned round sizes and at least two teams per match, createRoundMatches never loops forever |
| TournamentComponent.PlannedRunsFinish | client/components/tournament.js:158-178 | with the planned round sizes, enough first-round match-ups, none of them empty, and a server that names a winner for every match-up with teams, the rounds end with a winner |
| TournamentComponent.SilentServerNamesWinners | client/components/match.js:63-76 | with the corrected getWinner, a server that answers every request with `null` names a winner for every match-up with teams, and that winner's id is the lowest of the match-up's ids; as written, a `null` `/winner` body throws at `client/components/match.js:139` |
| TournamentComponent.PairUp | client/utility/tournamentCalculator.js:95-112 | two winners in matches of two make the single match-up `{match: 0, teamIds: [first, second]}` |
| TournamentComponent.FourTeamsInPairs | client/components/tournament.js:158-178 | four teams in pairs: rounds of 2 and 1 games, the first round's two winners meet in match 0, and that match's winner wins the tournament |
| TournamentComponent.TenIsNotAPowerOfThree | client/utility/tournamentCalculator.js:35-43 | ten teams cannot play in matches of three |
| TournamentComponent.TournamentRun | client/components/tournament.js:140-151 | no `/tournament` response throws, and a winner comes only from a response with an id and match-ups |
| TournamentComponent.TournamentRunFinishes | client/components/tournament.js:140-151 | with the planned round sizes, a `/tournament` answer carrying a `tournamentId` and enough non-empty first-round match-ups, and a server that names a winner for every match-up with teams in that tournament, the tournament ends with a winner |
| TournamentComponent.TournamentRunNeverHangs | client/components/tournament.js:140-151 | running a validated tournament never loops forever, and its winner, when there is one, is among the teams of the `/tournament` match-ups |
| TournamentComponent.PlannedSizes | client/components/tournament.js:113-131 | the planned game count of round `j` of `r` rounds is `b^(r-1-j)` |
| TournamentComponent.DisplayedName | client/components/tournament.js:186 | a team's name is shown as it is, and a missing name as "null" |
| TournamentComponent.Tournament.constructor | client/components/tournament.js:28-40 | a new tournament has no id, rounds or match-ups, is not complete, and start is enabled |
| TournamentComponent.Tournament.Reset | client/components/tournament.js:61-75 | rounds, id, round count, teams per match, match-ups and winner display are cleared; completion is untouched |
| TournamentComponent.Tournament.AddRound | client/components/tournament.js:122-129 | a new round with the given number and game count is appended, with new match components and no winners |
| TournamentComponent.Tournament.GenerateRounds | client/components/tournament.js:113-131 | the round count is the exponent; one new round per round is appended, round `i` numbered `i` with `b^(r-1-i)` games |
| TournamentComponent.Tournament.PlayRound | client/components/tournament.js:163-165 | round `i` throws exactly when it has more matches than match-ups; otherwise its winners' ids are the ones the server determines |
| TournamentComponent.Tournament.Advance | client/components/tournament.js:166-176 | at most one winner returns the first; a missing winner throws; winners that do not fill whole matches loop forever; otherwise the next match-ups replace the current ones |
| TournamentComponent.Tournament.PlayTurn | client/components/tournament.js:162-177 | one turn of the loop ends the run, or continues it, as the run of the remaining rounds determines |
| TournamentComponent.Tournament.ProcessRounds | client/components/tournament.js:158-178 | the outcome, in team ids, and the last match-ups are the ones the server's answers determine for the rounds |
| TournamentComponent.Tournament.RunTournament | client/components/tournament.js:140-151 | no response throws; no usable id or match-ups returns nothing and changes nothing; otherwise id and match-ups are stored and the outcome is the determined run's |
| TournamentComponent.Tournament.TournamentWinnerHandler | client/components/tournament.js:185-189 | the winner's name is shown with " is the Winner.", the tournament is complete and start is enabled; without a winner nothing changes |
| TournamentComponent.Tournament.Prepare | client/components/tournament.js:96-100 | start is disabled, the teams per match is set, and the new rounds have the planned sizes |
| TournamentComponent.Tournament.Launch | client/components/tournament.js:94-104 | the rounds are the planned ones; the outcome is the determined run's and never loops forever; the id and match-ups are stored as runTournament stores them; a winner is shown, completes the tournament and enables start again, and without one the display is untouched and start stays disabled |
| TournamentComponent.Tournament.Start | client/components/tournament.js:81-105 | a complete tournament is reset first; the entries are valid exactly as validateEntries says; invalid entries leave start enabled, run nothing, and leave every field as the reset (if any) left it; valid entries launch the tournament, with id, match-ups, display and button as Launch states |

## Left out

- The DOM is not modelled: elements, CSS classes, the validation message display and the `destroy` methods. The start button's disabled flag is the field `startDisabled`. The winner display's text is the field `winnerDisplay`.
- The network and serialisation are not modelled. Each `fetch` and `response.json()` is a lookup in a fixed `Server` table, so the server gives the same answer to the same request. A missing entry is a response body that parses to `null`: getMatchScore and initialise, at `client/components/match.js:101` and `client/components/team.js:29`, check for it and go on.
- Failed requests are not modelled. A `fetch` or `response.json()` that rejects makes the `await` in `client/components/match.js:99`, `client/components/team.js:28`, `client/components/match.js:137` or `client/components/tournament.js:141` throw, and the whole run rejects. The model has no such failure.
- MatchComponent.Match.GetWinner: uses the corrected `||` check of the Findings row, and so do MatchComponent.MatchWinnerId, MatchComponent.Match.Start, RoundComponent.Round.Start, TournamentComponent.Play and TournamentComponent.Tournament.ProcessRounds. Everything proved about matches, rounds and the tournament is about that corrected program. As written, a `/winner` body of `null` throws and the run rejects, and a `{score: 0}` answer picks a team whose score is 0; the model picks a team without a score then, or none. The check as written is modelled on its own by MatchComponent.GetWinnerAsWritten.
- Asynchrony is not modelled. Every `await` runs to completion in order, and `runTournament(...).then(handler)` is a call of the handler after the run. `asyncIterator` is not used by the core and is left out; `client/client.js` is not part of this model.
- JavaScript's number coercions are not modelled. The two entries are whole numbers or absent. Fractional entries, and strings compared with numbers, are outside the model. A division by zero producing `NaN` is outside it too.
- `null` and `undefined` are one value, `None`. `isNaN(null)` is false, so a `tournamentId` of `null` passes the source's check; the model treats it as absent, and runTournament then returns nothing.
- TournamentCalculator.CalculateWinningTeam: compares scores as `Option` values, so a team without a score matches a winning score of none. In the source, a team whose `/team` answer has no `score` field keeps `score` undefined, and `undefined === null` is false, so calculateWinningTeam never selects it against a `null` winning score. The model selects it; the same holds for TournamentCalculator.CalculateWinningTeamSelects and MatchComponent.MatchWinnerId.
- TournamentComponent.DisplayedName: shows "null" for a team without a name; the source shows "undefined" when the `/team` response had no `name` field, which the model does not tell apart.
- Thrown errors are outcomes, `Crashed` or `Threw`, rather than exceptions. A loop that never ends is the outcome `Diverged`. Only what the tournament does up to that point is modelled.
- RoundComponent.Round.Start: states the winners' ids, not which team objects they are. The teams are new objects built inside each match.
- RoundComponent.Round.Start: states, for each started match, its match-up, tournament and completion (`HasMatchUp`). The full fetched state is stated by MatchComponent.Match.Start alone.
- RoundComponent.Round.PlayMatch: states the same `HasMatchUp` facts, not the full fetched state.
- TournamentComponent.Tournament.ProcessRounds: states the outcome and the last match-ups. The rounds' and matches' own states afterwards are stated by RoundComponent.Round.Start and MatchComponent.Match.Start only.
- TournamentComponent.Tournament.ProcessRounds: requires that no round has recorded a winner yet. The rounds are new when a tournament is launched, and this is what makes round `i`'s winners exactly the ones it plays.
- TournamentComponent.Tournament.Start: requires start to be enabled and the state to be `Ready()`, the state the constructor and every click leave. The button is disabled while a tournament runs.
- TournamentCalculator.CreateRoundMatches: requires the match size to divide the number of ids; otherwise the source loops forever. The tournament's model of this case is the `Hang` step, and PlannedRunsNeverHang shows it does not happen.
- TournamentCalculator.CalculateRounds: requires the count to be a power of the base; otherwise the source loops forever. Its only caller runs it after validation.
- TournamentCalculator.CalculateNumberOfGamesPerRound: requires `b^rounds` to divide the count, so every entry is whole; other inputs would give fractions.

## Findings

| source | as written | input that shows it | evidently intended | confidence | as-written member | corrected member |
|---|---|---|---|---|---|---|
| client/components/match.js:139 | `if (!winnerResponse && !winnerResponse.score) return null;` | an absent `/winner` response throws a TypeError on `.score`; a response `{score: 0}` returns 0 instead of null | `!winnerResponse \|\| !winnerResponse.score`, the check getMatchScore makes | not executed | MatchComponent.GetWinnerAsWritten, MatchComponent.GetWinnerAsWrittenDiffers | MatchComponent.ScoreFromResponse, MatchComponent.Match.GetWinner |
