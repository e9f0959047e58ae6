/**
 * The bracket arithmetic (client/utility/tournamentCalculator.js): validating the two form
 * entries, the number of rounds, the games per round, the next round's matches, and the
 * winner of a match.
 *
 * Numbers are unbounded integers; `Math.pow` on integers is `Pow`. Where the source would
 * divide into a fraction or loop forever, a `requires` states the exactness it relies on.
 */
module TournamentCalculator {
  import opened Wrappers
  import opened TournamentService
  import opened TeamComponent

  /** `Math.pow(b, e)` for integer arguments. */
  function Pow(b: int, e: nat): (p: int)
    ensures b != 0 ==> p != 0
    ensures b >= 1 ==> p >= 1
  {
    if e == 0 then 1 else b * Pow(b, e - 1)
  }

  /** With `b >= 2` each further power is at least twice the previous one. */
  lemma PowDoubles(b: int, e: nat)
    requires b >= 2
    ensures Pow(b, e + 1) >= 2 * Pow(b, e)
  {
    assert Pow(b, e + 1) == b * Pow(b, e);
  }

  /** With `b >= 2` the powers strictly increase. */
  lemma {:induction false} PowIncreasing(b: int, i: nat, j: nat)
    requires b >= 2 && i < j
    ensures Pow(b, i) < Pow(b, j)
    decreases j - i
  {
    PowDoubles(b, i);
    if i + 1 < j {
      PowIncreasing(b, i + 1, j);
    }
  }

  /** `Pow(b, i + j) == Pow(b, i) * Pow(b, j)`. */
  lemma {:induction false} PowAdd(b: int, i: nat, j: nat)
    ensures Pow(b, i + j) == Pow(b, i) * Pow(b, j)
    decreases j
  {
    if j > 0 {
      PowAdd(b, i, j - 1);
      assert Pow(b, i + j) == b * Pow(b, i + j - 1);
      assert Pow(b, i) * Pow(b, j) == Pow(b, i) * (b * Pow(b, j - 1));
    }
  }

  /** Dividing an exact multiple of `b` by `b` gives the factor back. */
  lemma DivExact(x: int, b: int)
    requires b != 0
    ensures (x * b) / b == x
  {
    var y := x * b;
    var d := y / b - x;
    assert y == b * (y / b) + y % b;
    assert d * b == -(y % b);
    if b > 0 {
      assert -b < d * b <= 0;
    } else {
      assert b < d * b <= 0;
    }
  }

  /** `n` is `b` to the power of a positive integer. */
  ghost predicate IsPowerOf(n: int, b: int)
  {
    exists k: nat :: 1 <= k && Pow(b, k) == n
  }

  /** The outcome of validating the form entries. */
  datatype ValidationResult = ValidationResult(valid: bool, message: string)

  const ExceedsMaximumMessage := "The number of teams per tournament exceeds the maximum allowed"
  const NotAPowerMessage := "The number of teams per tournament must be equal to the value of teams per match to the power of a positive integer"

  /** A form entry passes the basic check: it was entered, is numeric, and is at least 2. */
  predicate Entered(value: Option<int>)
  {
    value.Some? && value.value >= 2
  }

  /** getBasicValidationResult. The entry is the text of a form field: None when it is empty
      or not numeric, otherwise its number (a non-empty text, even "0", is truthy). */
  function GetBasicValidationResult(value: Option<int>, nameOfField: string): (r: ValidationResult)
    ensures r.valid <==> Entered(value)
    ensures r.valid ==> r.message == ""
    ensures value.None? ==> r.message == "Please enter " + nameOfField
    ensures value.Some? && value.value < 2 ==> r.message == "You must enter at least 2 " + nameOfField
  {
    if value.None? then ValidationResult(false, "Please enter " + nameOfField)
    else if value.value < 2 then ValidationResult(false, "You must enter at least 2 " + nameOfField)
    else ValidationResult(true, "")
  }

  /** A smallest exponent `i >= 1` with `b^i >= n` that overshoots `n` rules out every exponent. */
  lemma PowerOvershoot(b: int, n: int, i: nat)
    requires b >= 2 && 1 <= i
    requires forall j :: 1 <= j < i ==> Pow(b, j) < n
    requires Pow(b, i) > n
    ensures !IsPowerOf(n, b)
  {
    forall k: nat | 1 <= k
      ensures Pow(b, k) != n
    {
      if k > i {
        PowIncreasing(b, i, k);
      }
    }
  }

  /** validateEntries: the checks run in order and the first failure is the result: the
      teams-per-match basic check, the number-of-teams basic check, the maximum, and last the
      exponent search, which is sound because `b >= 2` has been established. */
  method ValidateEntries(teamsPerMatch: Option<int>, numberOfTeams: Option<int>, maximumNumberOfTeamPerTournament: int)
    returns (validationResult: ValidationResult)
    ensures !Entered(teamsPerMatch) ==> validationResult == GetBasicValidationResult(teamsPerMatch, "teams")
    ensures Entered(teamsPerMatch) && !Entered(numberOfTeams) ==>
      validationResult == GetBasicValidationResult(numberOfTeams, "tournament teams")
    ensures Entered(teamsPerMatch) && Entered(numberOfTeams) && numberOfTeams.value > maximumNumberOfTeamPerTournament ==>
      validationResult == ValidationResult(false, ExceedsMaximumMessage)
    ensures Entered(teamsPerMatch) && Entered(numberOfTeams) && numberOfTeams.value <= maximumNumberOfTeamPerTournament ==>
      validationResult == if IsPowerOf(numberOfTeams.value, teamsPerMatch.value) then ValidationResult(true, "")
                          else ValidationResult(false, NotAPowerMessage)
    ensures validationResult.valid <==>
      Entered(teamsPerMatch) && Entered(numberOfTeams) && numberOfTeams.value <= maximumNumberOfTeamPerTournament
      && IsPowerOf(numberOfTeams.value, teamsPerMatch.value)
  {
    validationResult := GetBasicValidationResult(teamsPerMatch, "teams");
    if !validationResult.valid {
      return;
    }
    validationResult := GetBasicValidationResult(numberOfTeams, "tournament teams");
    if !validationResult.valid {
      return;
    }
    var b, n := teamsPerMatch.value, numberOfTeams.value;
    if n > maximumNumberOfTeamPerTournament {
      validationResult := ValidationResult(false, ExceedsMaximumMessage);
      return;
    }
    var i: nat := 1;
    while Pow(b, i) < n
      invariant 1 <= i
      invariant forall j :: 1 <= j < i ==> Pow(b, j) < n
      decreases n - Pow(b, i)
    {
      PowDoubles(b, i);
      i := i + 1;
    }
    if Pow(b, i) != n {
      PowerOvershoot(b, n, i);
      validationResult := ValidationResult(false, NotAPowerMessage);
      return;
    }
  }

  /** calculateRounds: the exponent `k >= 1` with `b^k == n`, found by counting up from 1. The
      loop ends only if such a `k` exists, hence the requires; for `b >= 2` it is unique. */
  method CalculateRounds(teamsPerMatch: int, numberOfTeams: int) returns (rounds: int)
    requires IsPowerOf(numberOfTeams, teamsPerMatch)
    ensures rounds >= 1 && Pow(teamsPerMatch, rounds) == numberOfTeams
    ensures forall j :: 1 <= j < rounds ==> Pow(teamsPerMatch, j) != numberOfTeams
    ensures teamsPerMatch >= 2 ==> forall k: nat :: Pow(teamsPerMatch, k) == numberOfTeams ==> k == rounds
  {
    ghost var k: nat :| 1 <= k && Pow(teamsPerMatch, k) == numberOfTeams;
    var r: nat := 1;
    while Pow(teamsPerMatch, r) != numberOfTeams
      invariant 1 <= r <= k
      invariant forall j :: 1 <= j < r ==> Pow(teamsPerMatch, j) != numberOfTeams
      decreases k - r
    {
      r := r + 1;
    }
    rounds := r;
    if teamsPerMatch >= 2 {
      forall k': nat | Pow(teamsPerMatch, k') == numberOfTeams
        ensures k' == rounds
      {
        if k' < r {
          PowIncreasing(teamsPerMatch, k', r);
        } else if k' > r {
          PowIncreasing(teamsPerMatch, r, k');
        }
      }
    }
  }

  /** getTeamIds: the teams' ids, in the teams' order. */
  method GetTeamIds(teams: seq<Team>) returns (teamsIds: seq<int>)
    ensures |teamsIds| == |teams|
    ensures forall i :: 0 <= i < |teams| ==> teamsIds[i] == teams[i].id
  {
    teamsIds := [];
    var i := 0;
    while i < |teams|
      invariant 0 <= i <= |teams|
      invariant |teamsIds| == i
      invariant forall j :: 0 <= j < i ==> teamsIds[j] == teams[j].id
    {
      teamsIds := teamsIds + [teams[i].id];
      i := i + 1;
    }
  }

  /** The team ids of a list of matches, concatenated in match order. */
  function AllTeamIds(matches: seq<MatchData>): seq<int>
  {
    if matches == [] then [] else matches[0].teamIds + AllTeamIds(matches[1..])
  }

  /** Removing one whole chunk of `k` from a multiple of `k` leaves a multiple of `k`. */
  lemma ChunkStep(m: int, k: int)
    requires k > 0 && m > 0 && m % k == 0
    ensures m >= k && (m - k) % k == 0 && (m - k) / k == m / k - 1
  {
    var q := m / k;
    assert m == q * k;
    assert q >= 1;
    assert m - k == (q - 1) * k;
    DivExact(q - 1, k);
    assert (m - k) / k == q - 1;
    assert (m - k) % k == (m - k) - k * ((m - k) / k);
  }

  /** The matches that consecutive chunks of `k` ids make, numbered from `first`. */
  function RoundMatchesFrom(ids: seq<int>, k: int, first: int): (matches: seq<MatchData>)
    requires k > 0 && |ids| % k == 0
    ensures |matches| == |ids| / k
    decreases |ids|
  {
    if |ids| == 0 then []
    else
      ChunkStep(|ids|, k);
      [MatchData(first, ids[..k])] + RoundMatchesFrom(ids[k..], k, first + 1)
  }

  /** The matches are numbered on from `first`, each holds `k` ids, and together they hold
      the ids in their order. */
  lemma {:induction false} RoundMatchesFromCover(ids: seq<int>, k: int, first: int)
    requires k > 0 && |ids| % k == 0
    ensures var matches := RoundMatchesFrom(ids, k, first);
      (forall i :: 0 <= i < |matches| ==> matches[i].matchIndex == first + i && |matches[i].teamIds| == k)
      && AllTeamIds(matches) == ids
    decreases |ids|
  {
    if |ids| > 0 {
      ChunkStep(|ids|, k);
      var rest := RoundMatchesFrom(ids[k..], k, first + 1);
      RoundMatchesFromCover(ids[k..], k, first + 1);
      assert ([MatchData(first, ids[..k])] + rest)[1..] == rest;
      assert ids[..k] + ids[k..] == ids;
    }
  }

  /** The next round's matches: the ids cut into consecutive chunks of `k`, numbered from 0. */
  function RoundMatches(ids: seq<int>, k: int): seq<MatchData>
    requires k > 0 && |ids| % k == 0
  {
    RoundMatchesFrom(ids, k, 0)
  }

  /** The next round has `|ids| / k` matches; match `i` is numbered `i` and holds `k` ids, and
      the matches' ids, concatenated in match order, are the winners' ids. */
  lemma RoundMatchesCover(ids: seq<int>, k: int)
    requires k > 0 && |ids| % k == 0
    ensures var matches := RoundMatches(ids, k);
      |matches| == |ids| / k
      && (forall i :: 0 <= i < |matches| ==> matches[i].matchIndex == i && |matches[i].teamIds| == k)
      && AllTeamIds(matches) == ids
  {
    RoundMatchesFromCover(ids, k, 0);
  }

  /** The first match of a non-empty list of ids and the matches after it. */
  lemma RoundMatchesFromUnfold(ids: seq<int>, k: int, first: int)
    requires k > 0 && |ids| % k == 0 && |ids| > 0
    ensures k <= |ids| && |ids[k..]| % k == 0 && |ids[k..]| / k == |ids| / k - 1
    ensures RoundMatchesFrom(ids, k, first) == [MatchData(first, ids[..k])] + RoundMatchesFrom(ids[k..], k, first + 1)
  {
    ChunkStep(|ids|, k);
  }

  /** `i * k`, counted up one `k` at a time. */
  function Offset(i: nat, k: int): int
  {
    if i == 0 then 0 else Offset(i - 1, k) + k
  }

  lemma {:induction false} OffsetIsProduct(i: nat, k: int)
    ensures Offset(i, k) == i * k
  {
    if i > 0 {
      OffsetIsProduct(i - 1, k);
    }
  }

  /** A slice of a suffix is the slice of the whole, shifted by the suffix's start. */
  lemma SliceShift(s: seq<int>, k: nat, a: nat, b: nat)
    requires k <= |s| && a <= b <= |s| - k
    ensures s[k..][a..b] == s[a + k..b + k]
  {
  }

  /** Chunk `i` of the round is the ids at `Offset(i, k) .. Offset(i, k) + k`. */
  lemma {:induction false} RoundMatchesChunkAt(ids: seq<int>, k: int, first: int, i: nat)
    requires k > 0 && |ids| % k == 0 && i < |ids| / k
    ensures 0 <= Offset(i, k) && Offset(i, k) + k <= |ids|
    ensures RoundMatchesFrom(ids, k, first)[i] == MatchData(first + i, ids[Offset(i, k)..Offset(i, k) + k])
    decreases i
  {
    RoundMatchesFromUnfold(ids, k, first);
    if i > 0 {
      var tail := ids[k..];
      RoundMatchesChunkAt(tail, k, first + 1, i - 1);
      var lo := Offset(i - 1, k);
      assert 0 <= lo && lo + k <= |tail| == |ids| - k;
      SliceShift(ids, k, lo, lo + k);
    }
  }

  /** Match `i` of the round holds the ids at positions `i*k .. i*k + k`. */
  lemma RoundMatchesChunks(ids: seq<int>, k: int)
    requires k > 0 && |ids| % k == 0
    ensures forall i :: 0 <= i < |RoundMatches(ids, k)| ==>
      i * k + k <= |ids| && RoundMatches(ids, k)[i] == MatchData(i, ids[i * k..i * k + k])
  {
    var matches := RoundMatches(ids, k);
    forall i | 0 <= i < |matches|
      ensures i * k + k <= |ids| && matches[i] == MatchData(i, ids[i * k..i * k + k])
    {
      RoundMatchesChunkAt(ids, k, 0, i);
      OffsetIsProduct(i, k);
    }
  }

  /** createRoundMatches: cut the ids into `|ids| / k` matches of `k` ids each, match `i`
      holding the ids at positions `i*k .. (i+1)*k`, by splicing chunks off the front of the
      list until the count is reached. The count is reached only when `k` divides the list,
      hence the requires. `remaining` is what the caller's array holds afterwards: nothing. */
  method CreateRoundMatches(winningTeamIds: seq<int>, maxNumberOfTeamsPerMatch: int)
    returns (matches: seq<MatchData>, remaining: seq<int>)
    requires maxNumberOfTeamsPerMatch > 0 && |winningTeamIds| % maxNumberOfTeamsPerMatch == 0
    ensures matches == RoundMatches(winningTeamIds, maxNumberOfTeamsPerMatch)
    ensures remaining == []
  {
    var k := maxNumberOfTeamsPerMatch;
    matches := [];
    remaining := winningTeamIds;
    var maxNumberOfGamesForRound := |winningTeamIds| / k;
    var numberOfGamesForRoundCounter := 0;
    while numberOfGamesForRoundCounter != maxNumberOfGamesForRound
      invariant |remaining| % k == 0
      invariant numberOfGamesForRoundCounter == |matches|
      invariant matches + RoundMatchesFrom(remaining, k, numberOfGamesForRoundCounter) == RoundMatches(winningTeamIds, k)
      decreases |remaining|
    {
      RoundMatchesFromUnfold(remaining, k, numberOfGamesForRoundCounter);
      var nextMatch := MatchData(numberOfGamesForRoundCounter, remaining[..k]);
      ghost var rest := RoundMatchesFrom(remaining[k..], k, numberOfGamesForRoundCounter + 1);
      assert (matches + [nextMatch]) + rest == matches + ([nextMatch] + rest);
      remaining := remaining[k..];
      matches := matches + [nextMatch];
      numberOfGamesForRoundCounter := numberOfGamesForRoundCounter + 1;
    }
    if remaining != [] {
      RoundMatchesFromUnfold(remaining, k, numberOfGamesForRoundCounter);
    }
  }

  /** Multiplication regroups. */
  lemma MulAssoc(x: int, y: int, z: int)
    ensures (x * y) * z == x * (y * z)
  {
  }

  /** One more factor `b` in `q * b^e`, and dividing it out again. */
  lemma PowStep(q: int, b: int, e: nat)
    requires b != 0
    ensures (q * Pow(b, e)) * b == q * Pow(b, e + 1)
    ensures (q * Pow(b, e + 1)) / b == q * Pow(b, e)
  {
    var p := Pow(b, e);
    assert Pow(b, e + 1) == b * p;
    assert q * (b * p) == (q * p) * b;
    DivExact(q * p, b);
  }

  /** calculateNumberOfGamesPerRound: `numberOfRounds` entries, the first `n / b` and each later
      one the previous divided by `b`. The requires keeps every entry whole: `b^numberOfRounds`
      divides `n`. When `n == b^numberOfRounds` the entries are `b^(r-1), ..., b, 1`. */
  method CalculateNumberOfGamesPerRound(teamsPerMatch: int, numberOfTeams: int, numberOfRounds: nat)
    returns (gamePerRound: seq<int>)
    requires teamsPerMatch != 0 && numberOfTeams % Pow(teamsPerMatch, numberOfRounds) == 0
    ensures |gamePerRound| == numberOfRounds
    ensures numberOfRounds > 0 ==> gamePerRound[0] == numberOfTeams / teamsPerMatch
    ensures forall i :: 0 < i < numberOfRounds ==>
      gamePerRound[i] == gamePerRound[i - 1] / teamsPerMatch && gamePerRound[i] * teamsPerMatch == gamePerRound[i - 1]
    ensures forall i :: 0 <= i < numberOfRounds ==> gamePerRound[i] * Pow(teamsPerMatch, i + 1) == numberOfTeams
    ensures numberOfTeams == Pow(teamsPerMatch, numberOfRounds) ==>
      forall i :: 0 <= i < numberOfRounds ==> gamePerRound[i] == Pow(teamsPerMatch, numberOfRounds - 1 - i)
    ensures numberOfTeams == Pow(teamsPerMatch, numberOfRounds) && numberOfRounds > 0 ==>
      gamePerRound[numberOfRounds - 1] == 1
  {
    var b, r := teamsPerMatch, numberOfRounds;
    ghost var q := numberOfTeams / Pow(b, r);
    assert numberOfTeams == q * Pow(b, r);
    gamePerRound := [];
    var previousRoundAmountOfGames := numberOfTeams / b;
    if r > 0 {
      PowStep(q, b, r - 1);
    }
    for i := 0 to r
      invariant |gamePerRound| == i
      invariant forall j :: 0 <= j < i ==> gamePerRound[j] == q * Pow(b, r - 1 - j)
      invariant i < r ==> previousRoundAmountOfGames == q * Pow(b, r - 1 - i)
    {
      gamePerRound := gamePerRound + [previousRoundAmountOfGames];
      if i + 1 < r {
        PowStep(q, b, r - 2 - i);
      }
      previousRoundAmountOfGames := previousRoundAmountOfGames / b;
    }
    forall i | 0 < i < r
      ensures gamePerRound[i] == gamePerRound[i - 1] / b && gamePerRound[i] * b == gamePerRound[i - 1]
    {
      PowStep(q, b, r - 1 - i);
    }
    forall i | 0 <= i < r
      ensures gamePerRound[i] * Pow(b, i + 1) == numberOfTeams
    {
      PowAdd(b, r - 1 - i, i + 1);
      MulAssoc(q, Pow(b, r - 1 - i), Pow(b, i + 1));
    }
    if numberOfTeams == Pow(b, r) {
      assert q == 1 by {
        DivExact(1, Pow(b, r));
      }
    }
  }

  /** The id and the score of each team, in team order: what calculateWinningTeam compares. */
  function Entries(teams: seq<Team>): (entries: seq<(int, Option<int>)>)
    reads teams
    ensures |entries| == |teams|
    ensures forall i :: 0 <= i < |teams| ==> entries[i] == (teams[i].id, teams[i].score)
  {
    if teams == [] then [] else [(teams[0].id, teams[0].score)] + Entries(teams[1..])
  }

  /** The position calculateWinningTeam's filter-then-sort selects among `(id, score)`
      entries, -1 when no entry has the winning score; what it selects is stated by
      WinnerIndexSelects. */
  function WinnerIndex(winningScore: Option<int>, entries: seq<(int, Option<int>)>): (k: int)
    ensures -1 <= k < |entries|
  {
    if entries == [] then -1
    else
      var rest := WinnerIndex(winningScore, entries[1..]);
      if entries[0].1 == winningScore && (rest == -1 || entries[0].0 <= entries[rest + 1].0) then 0
      else if rest == -1 then -1
      else rest + 1
  }

  /** Among the entries whose score is exactly `winningScore`, WinnerIndex picks one of lowest
      id, and of those the earliest (the sort is stable); -1 exactly when no entry has that
      score. */
  lemma {:induction false} WinnerIndexSelects(winningScore: Option<int>, entries: seq<(int, Option<int>)>)
    ensures var k := WinnerIndex(winningScore, entries);
      (k == -1 <==> forall i :: 0 <= i < |entries| ==> entries[i].1 != winningScore)
      && (k >= 0 ==> entries[k].1 == winningScore)
      && (k >= 0 ==> forall i :: 0 <= i < |entries| && entries[i].1 == winningScore ==> entries[k].0 <= entries[i].0)
      && (k >= 0 ==> forall i :: 0 <= i < k && entries[i].1 == winningScore ==> entries[k].0 < entries[i].0)
  {
    if entries != [] {
      WinnerIndexSelects(winningScore, entries[1..]);
      var tail := entries[1..];
      assert forall i :: 1 <= i < |entries| ==> entries[i] == tail[i - 1];
    }
  }

  /** calculateWinningTeam: the team at WinnerIndex, none (`teamsWithWinningScores[0]` of an
      empty list) when no team has the winning score. The filter and the sort work on a copy,
      and a function has no effect, so the order of `teams` is not disturbed. */
  function CalculateWinningTeam(winningScore: Option<int>, teams: seq<Team>): (winningTeam: Option<Team>)
    reads teams
    ensures winningTeam.Some? ==> winningTeam.value in teams && winningTeam.value.score == winningScore
  {
    WinnerIndexSelects(winningScore, Entries(teams));
    var k := WinnerIndex(winningScore, Entries(teams));
    if k == -1 then None else Some(teams[k])
  }

  /** The winning team is one of the given teams whose score equals the winning score, with
      the lowest id among them; there is none exactly when no team has that score. */
  lemma CalculateWinningTeamSelects(winningScore: Option<int>, teams: seq<Team>)
    ensures var winningTeam := CalculateWinningTeam(winningScore, teams);
      (winningTeam.None? <==> forall i :: 0 <= i < |teams| ==> teams[i].score != winningScore)
      && (winningTeam.Some? ==> winningTeam.value in teams && winningTeam.value.score == winningScore)
      && (winningTeam.Some? ==>
            forall i :: 0 <= i < |teams| && teams[i].score == winningScore ==> winningTeam.value.id <= teams[i].id)
  {
    WinnerIndexSelects(winningScore, Entries(teams));
    var k := WinnerIndex(winningScore, Entries(teams));
    if k != -1 {
      assert teams[k] in teams;
    }
  }
}
