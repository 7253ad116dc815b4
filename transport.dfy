/**
 * The HTTP client the services talk to. Its network exchange is not modelled: the client
 * records every form it is asked to POST and every query it is asked to GET, and a
 * `failure` switch decides whether an exchange fails (and with which message). A GET that
 * succeeds returns the reply the client currently holds, standing for the decoded JSON body.
 */
module Transport {
  import opened Wrappers
  import opened Settings

  /** A WWWForm: its fields in the order AddField was called */
  type Form = seq<(string, string)>

  /** GET query parameters in insertion order; a value may be null */
  type Query = seq<(string, Option<string>)>

  datatype RankingEntry = RankingEntry(name: string, score: int)

  /** Top-N reply: entries as the remote service orders them */
  datatype RankingResponse = RankingResponse(ranking: seq<RankingEntry>)

  /** Rank-of-score reply: the score echoed back, and its rank (0 when unranked) */
  datatype ScoreRankResponse = ScoreRankResponse(score: int, rank: int)

  class GasHttpClient {
    const settings: GasSettings?   // null when the settings asset could not be loaded
    var posted: seq<Form>
    var queried: seq<Query>
    var failure: Option<string>
    var rankingReply: RankingResponse
    var scoreRankReply: ScoreRankResponse

    constructor (settings: GasSettings?)
      ensures this.settings == settings
      ensures posted == [] && queried == [] && failure == None
    {
      this.settings := settings;
      posted, queried, failure := [], [], None;
      rankingReply := RankingResponse([]);
      scoreRankReply := ScoreRankResponse(0, 0);
    }

    /** POSTs a form; returns the failure message when the exchange fails */
    method PostGas(form: Form) returns (err: Option<string>)
      modifies this
      ensures posted == old(posted) + [form] && err == failure
      ensures queried == old(queried) && failure == old(failure)
      ensures rankingReply == old(rankingReply) && scoreRankReply == old(scoreRankReply)
    {
      posted := posted + [form];
      err := failure;
    }

    /** GetGas<RankingResponse>: GETs a query and decodes a top-N reply */
    method GetRanking(query: Query) returns (r: Result<RankingResponse, string>)
      modifies this
      ensures queried == old(queried) + [query]
      ensures r == if failure.Some? then Err(failure.value) else Ok(rankingReply)
      ensures posted == old(posted) && failure == old(failure)
      ensures rankingReply == old(rankingReply) && scoreRankReply == old(scoreRankReply)
    {
      queried := queried + [query];
      r := if failure.Some? then Err(failure.value) else Ok(rankingReply);
    }

    /** GetGas<ScoreRankResponse>: GETs a query and decodes a rank-of-score reply */
    method GetScoreRank(query: Query) returns (r: Result<ScoreRankResponse, string>)
      modifies this
      ensures queried == old(queried) + [query]
      ensures r == if failure.Some? then Err(failure.value) else Ok(scoreRankReply)
      ensures posted == old(posted) && failure == old(failure)
      ensures rankingReply == old(rankingReply) && scoreRankReply == old(scoreRankReply)
    {
      queried := queried + [query];
      r := if failure.Some? then Err(failure.value) else Ok(scoreRankReply);
    }
  }
}
