/**
 * GasServiceManager: the scene object through which the application logs and queries
 * rankings. The first manager to wake becomes the process-wide instance; a later one
 * destroys its own game object. Every manager, on waking, builds one HTTP client and binds
 * the logger and the ranking service to it. The public calls guard against null data and
 * otherwise forward to the services; the sheet name defaults to null.
 */
module ServiceManager {
  import opened Wrappers
  import opened Exceptions
  import opened Transport
  import opened Settings
  import opened GasLogger
  import opened RankingClient

  /** The static field GasServiceManager.Instance, shared by every manager */
  class InstanceSlot {
    var instance: GasServiceManager?

    constructor ()
      ensures instance == null
    {
      instance := null;
    }
  }

  const NullDataMessage := "datas is null. so can not send log."

  class GasServiceManager {
    var destroyed: bool    // Destroy(gameObject) has been called
    var persistent: bool   // DontDestroyOnLoad(gameObject) has been called
    var loggerService: GasLoggerService?
    var rankingService: RankingClientService?

    constructor ()
      ensures !destroyed && !persistent && loggerService == null && rankingService == null
    {
      destroyed, persistent := false, false;
      loggerService, rankingService := null, null;
    }

    /** The client the logger service sends through, when the logger is wired */
    function LoggerFrame(): set<object>
      reads this
    {
      if loggerService == null then {} else {loggerService.client}
    }

    /** The client the ranking service queries through, when the ranking service is wired */
    function RankingFrame(): set<object>
      reads this
    {
      if rankingService == null then {} else {rankingService.client}
    }

    /**
     * Claims the instance slot when it is empty, otherwise destroys this object (which still
     * finishes waking); then wires both services to one new client built from settings, which
     * is passed on unchecked even when loading found no asset and it is null.
     */
    method Awake(slot: InstanceSlot, settings: GasSettings?)
      modifies this, slot
      ensures old(slot.instance) == null ==>
        slot.instance == this && persistent && destroyed == old(destroyed)
      ensures old(slot.instance) != null ==>
        slot.instance == old(slot.instance) && destroyed && persistent == old(persistent)
      ensures loggerService != null && rankingService != null
      ensures fresh(loggerService) && fresh(rankingService) && fresh(loggerService.client)
      ensures loggerService.client == rankingService.client
      ensures loggerService.client.settings == settings
      ensures loggerService.client.posted == [] && loggerService.client.queried == []
      ensures loggerService.client.failure == None
    {
      if slot.instance == null {
        slot.instance := this;
        persistent := true;
      } else {
        destroyed := true;
      }
      var httpClient := new GasHttpClient(settings);
      loggerService := new GasLoggerService(httpClient);
      rankingService := new RankingClientService(httpClient);
    }

    /** SendLog<T>: a null record is reported and dropped; anything else goes to the logger */
    method SendLog(datas: Option<TypedRecord>, sheetName: Option<string> := None)
      returns (r: Outcome, logs: seq<LogLine>)
      modifies LoggerFrame()
      ensures datas.None? ==> r == Completed && logs == [LogError(NullDataMessage)]
      ensures datas.Some? && loggerService == null ==> r == Threw(NullReferenceException) && logs == []
      ensures datas.Some? && loggerService != null ==>
        var p := TypedPayload(datas, sheetName);
        if p.Err? then r == Threw(p.error) && logs == []
        else r == Completed && logs == PostLogs(p.value, loggerService.client.failure)
      ensures loggerService != null ==>
        var p := TypedPayload(datas, sheetName);
        && loggerService.client.posted == old(loggerService.client.posted)
             + (if datas.Some? && p.Ok? then [FormOf(p.value, sheetName)] else [])
        && loggerService.client.queried == old(loggerService.client.queried)
        && loggerService.client.failure == old(loggerService.client.failure)
        && loggerService.client.rankingReply == old(loggerService.client.rankingReply)
        && loggerService.client.scoreRankReply == old(loggerService.client.scoreRankReply)
    {
      if datas.None? {
        return Completed, [LogError(NullDataMessage)];
      }
      if loggerService == null {
        return Threw(NullReferenceException), [];
      }
      r, logs := loggerService.SendLog(datas, sheetName);
    }

    /** SendLog(Dictionary): a null dictionary is reported and dropped; anything else goes to the logger */
    method SendLogDictionary(datas: Option<Dict>, sheetName: Option<string> := None)
      returns (r: Outcome, logs: seq<LogLine>)
      requires datas.Some? ==> DistinctKeys(datas.value)
      modifies LoggerFrame()
      ensures datas.None? ==> r == Completed && logs == [LogError(NullDataMessage)]
      ensures datas.Some? && loggerService == null ==> r == Threw(NullReferenceException) && logs == []
      ensures datas.Some? && loggerService != null ==>
        var p := DictionaryPayload(datas);
        if p.Err? then r == Threw(p.error) && logs == []
        else r == Completed && logs == PostLogs(p.value, loggerService.client.failure)
      ensures loggerService != null ==>
        var p := DictionaryPayload(datas);
        && loggerService.client.posted == old(loggerService.client.posted)
             + (if p.Ok? then [FormOf(p.value, sheetName)] else [])
        && loggerService.client.queried == old(loggerService.client.queried)
        && loggerService.client.failure == old(loggerService.client.failure)
        && loggerService.client.rankingReply == old(loggerService.client.rankingReply)
        && loggerService.client.scoreRankReply == old(loggerService.client.scoreRankReply)
    {
      if datas.None? {
        return Completed, [LogError(NullDataMessage)];
      }
      if loggerService == null {
        return Threw(NullReferenceException), [];
      }
      r, logs := loggerService.SendLogDictionary(datas, sheetName);
    }

    /** Forwards to the ranking service and returns its result as is */
    method GetTopNRanking(n: int32, sheetName: Option<string> := None)
      returns (r: Result<RankingResponse, Exception>)
      modifies RankingFrame()
      ensures rankingService == null ==> r == Err(NullReferenceException)
      ensures rankingService != null ==>
        var c := rankingService.client;
        && c.queried == old(c.queried) + [TopNQuery(n, sheetName)]
        && r == (if c.failure.Some? then Err(TransportException(c.failure.value)) else Ok(c.rankingReply))
        && c.posted == old(c.posted) && c.failure == old(c.failure)
        && c.rankingReply == old(c.rankingReply) && c.scoreRankReply == old(c.scoreRankReply)
    {
      if rankingService == null {
        return Err(NullReferenceException);
      }
      r := rankingService.GetTopNRanking(n, sheetName);
    }

    /** Forwards to the ranking service and returns its result as is */
    method GetScoreRanking(score: int, sheetName: Option<string> := None)
      returns (r: Result<ScoreRankResponse, Exception>)
      modifies RankingFrame()
      ensures rankingService == null ==> r == Err(NullReferenceException)
      ensures rankingService != null ==>
        var c := rankingService.client;
        && c.queried == old(c.queried) + [ScoreRankQuery(score, sheetName)]
        && r == (if c.failure.Some? then Err(TransportException(c.failure.value)) else Ok(c.scoreRankReply))
        && c.posted == old(c.posted) && c.failure == old(c.failure)
        && c.rankingReply == old(c.rankingReply) && c.scoreRankReply == old(c.scoreRankReply)
    {
      if rankingService == null {
        return Err(NullReferenceException);
      }
      r := rankingService.GetScoreRank(score, sheetName);
    }
  }
}
