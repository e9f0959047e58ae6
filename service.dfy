/**
 * The remote tournament service (client/services/tournamentService.js): the shapes of
 * its responses, the responses themselves, and the request strings the client builds.
 *
 * The transport is not modelled. What each endpoint answers is a `Server`: a fixed table
 * from the arguments the client sends to the parsed response, so every `await fetch...`
 * of the source becomes a lookup in one of its fields; arguments without an entry get a
 * response body that parses to `null`. A request that fails outright is not modelled.
 * Numbers inside request strings are taken as already formatted strings.
 */
module TournamentService {
  import opened Wrappers

  /** One match-up `{match, teamIds}` (the source field `match` is `matchIndex` here, `match` being a Dafny keyword): as the `/tournament` endpoint sends it for the
      first round, and as the client builds it for every later round. */
  datatype MatchData = MatchData(matchIndex: int, teamIds: seq<int>)

  /** The `/tournament` response. `tournamentId` is None when `isNaN` rejects it;
      `matchUps` is None when it is missing or not an array. */
  datatype TournamentData = TournamentData(tournamentId: Option<int>, matchUps: Option<seq<MatchData>>)

  /** A `{score}` response of the `/match` and `/winner` endpoints; None is a missing score. */
  datatype ScoreResponse = ScoreResponse(score: Option<int>)

  /** A `{name, score}` response of the `/team` endpoint. */
  datatype TeamData = TeamData(name: Option<string>, score: Option<int>)

  /** The server's answers, keyed by the request's arguments. */
  datatype Server = Server(
    tournament: map<(int, int), TournamentData>,                   // (teamsPerMatch, numberOfTeams)
    matchScore: map<(int, int, int), ScoreResponse>,               // (tournamentId, round, match)
    team: map<(int, int), TeamData>,                               // (tournamentId, teamId)
    winner: map<(int, seq<Option<int>>, Option<int>), ScoreResponse>)  // (tournamentId, teamScores, matchScore)

  /** The response a table gives to a request: None when the response body is `null`. */
  function Lookup<K, V>(table: map<K, V>, request: K): (response: Option<V>)
    ensures response.Some? <==> request in table
    ensures response.Some? ==> response.value == table[request]
  {
    if request in table then Some(table[request]) else None
  }

  /** One `key=value` field of a query string or form body, both parts verbatim. */
  function Field(pair: (string, string)): string
  {
    pair.0 + "=" + pair.1
  }

  /** The fields of `pairs` in order, separated by `&`, with none before the first or after
      the last. This is the reference the loop-and-trim builders below are proved against. */
  function Joined(pairs: seq<(string, string)>): string
  {
    if |pairs| == 0 then ""
    else if |pairs| == 1 then Field(pairs[0])
    else Joined(pairs[..|pairs| - 1]) + "&" + Field(pairs[|pairs| - 1])
  }

  /** Joining two non-empty lists of fields puts one `&` between their joins. */
  lemma {:induction false} JoinedAppend(a: seq<(string, string)>, b: seq<(string, string)>)
    requires a != [] && b != []
    ensures Joined(a + b) == Joined(a) + "&" + Joined(b)
    decreases |b|
  {
    var ab := a + b;
    if |b| == 1 {
      assert ab[..|ab| - 1] == a;
    } else {
      var b' := b[..|b| - 1];
      assert ab[..|ab| - 1] == a + b';
      JoinedAppend(a, b');
      assert b[..|b| - 1] == b';
    }
  }

  /** `String.prototype.slice(0, -1)`: the string without its last character; "" stays "". */
  function DropLast(s: string): (r: string)
    ensures s == [] ==> r == []
    ensures s != [] ==> s == r + [s[|s| - 1]]
  {
    if |s| == 0 then s else s[..|s| - 1]
  }

  /** The repeated `teamScores` parameters of the `/winner` request, in team order. */
  function ScoreParams(teamScores: seq<string>): (r: seq<(string, string)>)
    ensures |r| == |teamScores|
    ensures forall i :: 0 <= i < |r| ==> r[i] == ("teamScores", teamScores[i])
  {
    seq(|teamScores|, i requires 0 <= i < |teamScores| => ("teamScores", teamScores[i]))
  }

  /** One step of the `key=value&` loops: after the fields of `pairs[..i]` comes the `&` that
      the next field, and the final trim, rely on. */
  lemma JoinedStep(pairs: seq<(string, string)>, i: nat)
    requires i < |pairs|
    ensures Joined(pairs[..i + 1]) == (if i == 0 then "" else Joined(pairs[..i]) + "&") + Field(pairs[i])
  {
    assert pairs[..i + 1][..i] == pairs[..i];
  }

  /** One `&teamScores=` field per score, in order. */
  function ScoreFields(teamScores: seq<string>): string
  {
    if |teamScores| == 0 then ""
    else ScoreFields(teamScores[..|teamScores| - 1]) + ("&teamScores=" + teamScores[|teamScores| - 1])
  }

  /** generateGetWinnerUrl: the URL, `?tournamentId=`, `&matchScore=`, then one
      `&teamScores=` per score, in order; no trim, so no scores add nothing. */
  method GenerateGetWinnerUrl(url: string, tournamentId: string, teamScores: seq<string>, matchScore: string)
    returns (generatedUrl: string)
    ensures generatedUrl == url + ("?tournamentId=" + tournamentId + "&matchScore=" + matchScore) + ScoreFields(teamScores)
  {
    generatedUrl := url;
    generatedUrl := generatedUrl + ("?tournamentId=" + tournamentId + "&matchScore=" + matchScore);
    ghost var head := generatedUrl;
    var i := 0;
    while i < |teamScores|
      invariant 0 <= i <= |teamScores|
      invariant generatedUrl == head + ScoreFields(teamScores[..i])
    {
      assert teamScores[..i + 1][..i] == teamScores[..i];
      generatedUrl := generatedUrl + ("&teamScores=" + teamScores[i]);
      i := i + 1;
    }
    assert teamScores[..i] == teamScores;
  }

  /** String concatenation regroups. */
  lemma Assoc(a: string, b: string, c: string)
    ensures (a + b) + c == a + (b + c)
  {
  }

  /** The source's `&teamScores=` literal is the separator and the field `teamScores=s`. */
  lemma TeamScoreField(s: string)
    ensures "&teamScores=" + s == "&" + Field(("teamScores", s))
  {
    assert "&teamScores=" == "&" + "teamScores" + "=";
    Assoc("&" + "teamScores", "=", s);
    Assoc("&", "teamScores", "=" + s);
    Assoc("teamScores", "=", s);
  }

  /** The `teamScores` fields are the generic joined encoding of one `("teamScores", s)` pair
      per score, preceded by the `&` that separates them from `matchScore`. */
  lemma {:induction false} ScoreFieldsJoined(teamScores: seq<string>)
    ensures ScoreFields(teamScores) == if teamScores == [] then "" else "&" + Joined(ScoreParams(teamScores))
    decreases |teamScores|
  {
    var n := |teamScores|;
    if n > 0 {
      var init, last := teamScores[..n - 1], teamScores[n - 1];
      var params := ScoreParams(teamScores);
      var f := Field(params[n - 1]);
      TeamScoreField(last);
      if n == 1 {
        assert ScoreFields(teamScores) == "" + ("&" + f);
        assert "" + ("&" + f) == "&" + f;
      } else {
        ScoreFieldsJoined(init);
        var j := Joined(ScoreParams(init));
        assert params[..n - 1] == ScoreParams(init);
        assert Joined(params) == (j + "&") + f;
        assert ScoreFields(teamScores) == ("&" + j) + ("&" + f);
        Assoc("&", j, "&" + f);
        Assoc(j, "&", f);
      }
    }
  }

  /** The source's `?tournamentId=...&matchScore=...` literal is `?` and the two joined fields. */
  lemma HeadLiteral(tournamentId: string, matchScore: string)
    ensures "?tournamentId=" + tournamentId + "&matchScore=" + matchScore
         == "?" + Joined([("tournamentId", tournamentId), ("matchScore", matchScore)])
  {
    var head := [("tournamentId", tournamentId), ("matchScore", matchScore)];
    assert head[..1] == [head[0]];
    assert Joined(head) == Field(head[0]) + "&" + Field(head[1]);
    assert "?tournamentId=" == "?" + "tournamentId" + "=";
    assert "&matchScore=" == "&" + "matchScore" + "=";
  }

  /** The `/winner` URL is the generic `?key=value&...` encoding of its parameters, with
      `teamScores` repeated once per score: the same shape as generateGetUrlWithParamData. */
  lemma WinnerUrlIsParamEncoding(url: string, tournamentId: string, teamScores: seq<string>, matchScore: string)
    ensures url + ("?tournamentId=" + tournamentId + "&matchScore=" + matchScore) + ScoreFields(teamScores)
         == url + "?" + Joined([("tournamentId", tournamentId), ("matchScore", matchScore)] + ScoreParams(teamScores))
  {
    var head := [("tournamentId", tournamentId), ("matchScore", matchScore)];
    var jh := Joined(head);
    HeadLiteral(tournamentId, matchScore);
    ScoreFieldsJoined(teamScores);
    if teamScores == [] {
      assert head + ScoreParams(teamScores) == head;
      assert ScoreFields(teamScores) == "";
      assert (url + ("?" + jh)) + "" == url + ("?" + jh);
      Assoc(url, "?", jh);
    } else {
      var js := Joined(ScoreParams(teamScores));
      JoinedAppend(head, ScoreParams(teamScores));
      Assoc(url, "?" + jh, "&" + js);
      Assoc("?", jh, "&" + js);
      Assoc(jh, "&", js);
      Assoc(url, "?", (jh + "&") + js);
    }
  }

  /** generateRequestBodyWithData: the `key=value` fields in key order joined by `&`;
      empty data gives "". */
  method GenerateRequestBodyWithData(data: seq<(string, string)>) returns (body: string)
    ensures body == Joined(data)
    ensures data == [] ==> body == ""
  {
    var generatedBody := "";
    var i := 0;
    while i < |data|
      invariant 0 <= i <= |data|
      invariant generatedBody == if i == 0 then "" else Joined(data[..i]) + "&"
    {
      JoinedStep(data, i);
      generatedBody := generatedBody + Field(data[i]) + "&";
      i := i + 1;
    }
    assert data[..i] == data;
    body := DropLast(generatedBody);
  }

  /** generateGetUrlWithParamData: the URL, `?`, and the joined fields; for empty data the
      trim removes the `?` and the URL comes back unchanged. */
  method GenerateGetUrlWithParamData(url: string, data: seq<(string, string)>) returns (generatedUrl: string)
    ensures data == [] ==> generatedUrl == url
    ensures data != [] ==> generatedUrl == url + "?" + Joined(data)
  {
    var building := url + "?";
    var i := 0;
    while i < |data|
      invariant 0 <= i <= |data|
      invariant building == url + "?" + (if i == 0 then "" else Joined(data[..i]) + "&")
    {
      JoinedStep(data, i);
      building := building + Field(data[i]) + "&";
      i := i + 1;
    }
    assert data[..i] == data;
    generatedUrl := DropLast(building);
    if data == [] {
      assert building == url + "?";
    }
  }

  /** The request side of the TournamentService class: each `fetch...` method's request,
      with its parameters in the order the source lists them. */
  class TournamentService {
    const serverPort: string

    constructor (serverPort: string)
      ensures this.serverPort == serverPort
    {
      this.serverPort := serverPort;
    }

    /** The address of an endpoint on the local server. */
    function Endpoint(path: string): string
    {
      "http://localhost:" + serverPort + path
    }

    /** fetchTournament's POST body: `teamsPerMatch` first, then `numberOfTeams`. */
    method TournamentRequestBody(teamsPerMatch: string, numberOfTeams: string) returns (body: string)
      ensures body == Joined([("teamsPerMatch", teamsPerMatch), ("numberOfTeams", numberOfTeams)])
    {
      body := GenerateRequestBodyWithData([("teamsPerMatch", teamsPerMatch), ("numberOfTeams", numberOfTeams)]);
    }

    /** fetchMatch's URL: `tournamentId`, `round`, `match`, in that order. */
    method MatchRequestUrl(tournamentId: string, round: string, matchIndex: string) returns (url: string)
      ensures url == Endpoint("/match") + "?" + Joined([("tournamentId", tournamentId), ("round", round), ("match", matchIndex)])
    {
      url := GenerateGetUrlWithParamData(Endpoint("/match"), [("tournamentId", tournamentId), ("round", round), ("match", matchIndex)]);
    }

    /** fetchTeam's URL: `tournamentId`, then `teamId`. */
    method TeamRequestUrl(tournamentId: string, teamId: string) returns (url: string)
      ensures url == Endpoint("/team") + "?" + Joined([("tournamentId", tournamentId), ("teamId", teamId)])
    {
      url := GenerateGetUrlWithParamData(Endpoint("/team"), [("tournamentId", tournamentId), ("teamId", teamId)]);
    }

    /** fetchWinner's URL: `tournamentId`, `matchScore`, then each team score in order. */
    method WinnerRequestUrl(tournamentId: string, teamScores: seq<string>, matchScore: string) returns (url: string)
      ensures url == Endpoint("/winner") + "?"
                     + Joined([("tournamentId", tournamentId), ("matchScore", matchScore)] + ScoreParams(teamScores))
    {
      url := GenerateGetWinnerUrl(Endpoint("/winner"), tournamentId, teamScores, matchScore);
      WinnerUrlIsParamEncoding(Endpoint("/winner"), tournamentId, teamScores, matchScore);
    }
  }
}
