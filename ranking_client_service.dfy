/**
 * RankingClientService: builds the GET parameters of the two ranking queries and hands them
 * to the HTTP client. Nothing is validated and nothing is caught: a transport failure
 * reaches the caller. The score is an arbitrary-precision integer and travels as its exact
 * decimal text.
 */
module RankingClient {
  import opened Wrappers
  import opened Exceptions
  import opened Transport
  import Decimal

  /** C#'s int */
  newtype int32 = x: int | -0x8000_0000 <= x < 0x8000_0000

  /** `{ {"sheetName", sheetName}, {"topCount", n.ToString()} }` */
  function TopNQuery(n: int32, sheetName: Option<string>): (q: Query)
    ensures |q| == 2 && q[0] == ("sheetName", sheetName) && q[1].0 == "topCount"
    ensures q[1].1.Some? && Decimal.Parse(q[1].1.value) == Some(n as int)
    ensures q[1].1.Some? && Decimal.Canonical(q[1].1.value)
  {
    Decimal.ShowParse(Decimal.Show(n as int), n as int);
    [("sheetName", sheetName), ("topCount", Some(Decimal.Show(n as int)))]
  }

  /** `{ {"score", score.ToString()}, {"sheetName", sheetName} }` */
  function ScoreRankQuery(score: int, sheetName: Option<string>): (q: Query)
    ensures |q| == 2 && q[0].0 == "score" && q[1] == ("sheetName", sheetName)
    ensures q[0].1.Some? && Decimal.Parse(q[0].1.value) == Some(score)
    ensures q[0].1.Some? && Decimal.Canonical(q[0].1.value)
  {
    Decimal.ShowParse(Decimal.Show(score), score);
    [("score", Some(Decimal.Show(score))), ("sheetName", sheetName)]
  }

  /**
   * The score parameter is the one canonical decimal text of the score: any text that is
   * canonical and reads back as the score is exactly the text sent, so two queries carry
   * the same score text only when they ask about the same score.
   */
  lemma ScoreTextExact(score: int, other: int, sheetName: Option<string>, text: string)
    ensures Decimal.Canonical(text) && Decimal.Parse(text) == Some(score)
      <==> text == ScoreRankQuery(score, sheetName)[0].1.value
    ensures ScoreRankQuery(score, sheetName)[0] == ScoreRankQuery(other, sheetName)[0] ==> score == other
  {
    Decimal.ShowParse(text, score);
    if ScoreRankQuery(score, sheetName)[0] == ScoreRankQuery(other, sheetName)[0] {
      Decimal.ShowInjective(score, other);
    }
  }

  /** A non-negative score is sent as digits only, without sign or leading zero */
  lemma NonNegativeScoreText(score: int, sheetName: Option<string>)
    requires score >= 0
    ensures var t := ScoreRankQuery(score, sheetName)[0].1.value;
      Decimal.CanonicalDigits(t) && (t[0] == '0' ==> t == "0")
  {
    Decimal.ShowNonNegative(score);
  }

  lemma TopNQueryExample()
    ensures TopNQuery(5, Some("RankingSheet")) == [("sheetName", Some("RankingSheet")), ("topCount", Some("5"))]
  {
  }

  class RankingClientService {
    const client: GasHttpClient

    constructor (client: GasHttpClient)
      ensures this.client == client
    {
      this.client := client;
    }

    /** Queries the top n entries; a failure of the client propagates */
    method GetTopNRanking(n: int32, sheetName: Option<string>) returns (r: Result<RankingResponse, Exception>)
      modifies client
      ensures client.queried == old(client.queried) + [TopNQuery(n, sheetName)]
      ensures r == if client.failure.Some? then Err(TransportException(client.failure.value))
                   else Ok(client.rankingReply)
      ensures client.posted == old(client.posted) && client.failure == old(client.failure)
      ensures client.rankingReply == old(client.rankingReply)
      ensures client.scoreRankReply == old(client.scoreRankReply)
    {
      var queryParams := TopNQuery(n, sheetName);
      var reply := client.GetRanking(queryParams);
      r := match reply
        case Ok(response) => Ok(response)
        case Err(message) => Err(TransportException(message));
    }

    /** Queries the rank of a score; a failure of the client propagates */
    method GetScoreRank(score: int, sheetName: Option<string>) returns (r: Result<ScoreRankResponse, Exception>)
      modifies client
      ensures client.queried == old(client.queried) + [ScoreRankQuery(score, sheetName)]
      ensures r == if client.failure.Some? then Err(TransportException(client.failure.value))
                   else Ok(client.scoreRankReply)
      ensures client.posted == old(client.posted) && client.failure == old(client.failure)
      ensures client.rankingReply == old(client.rankingReply)
      ensures client.scoreRankReply == old(client.scoreRankReply)
    {
      var queryParams := ScoreRankQuery(score, sheetName);
      var reply := client.GetScoreRank(queryParams);
      r := match reply
        case Ok(response) => Ok(response)
        case Err(message) => Err(TransportException(message));
    }
  }
}
