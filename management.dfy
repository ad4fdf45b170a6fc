/** The account quota query. */
module Management {

  import opened Wrappers
  import opened Params
  import opened Errors
  import opened Image

  /** The GET to /point with the API key as its only query parameter. */
  function PointRequest(cli: Client): (req: HttpRequest)
    ensures req.verb == Get && req.url == cli.baseUrl + "/point"
    ensures req.contentType == Some(ApplicationJson) && req.body == NoBody
    ensures req.query == [("api_token", cli.apiKey)]
  {
    HttpRequest(Get, cli.baseUrl + "/point", Some(ApplicationJson), [("api_token", cli.apiKey)], NoBody)
  }

  /**
   * GetPoint: build the request, adding the key to its (empty) query, send it
   * and check the outcome. Its envelope errors do not include MsgString.
   */
  method GetPoint(cli: Client, transport: HttpRequest -> TransportOutcome) returns (r: Outcome)
    ensures Classified(PointOp, transport(PointRequest(cli)), None, r)
  {
    var req := HttpRequest(Get, cli.baseUrl + "/point", None, [], NoBody);
    req := req.(contentType := Some(ApplicationJson));
    var q := req.query;
    q := q + [("api_token", cli.apiKey)];
    req := req.(query := q);
    assert req == PointRequest(cli);
    r := Settle(PointOp, transport(req), None);
  }

  /** On success the quota counters come back as the strings the service sent. */
  lemma PointQuotaVerbatim(cli: Client, transport: HttpRequest -> TransportOutcome, r: Outcome)
    requires Classified(PointOp, transport(PointRequest(cli)), None, r)
    requires r.err.None?
    ensures transport(PointRequest(cli)).Got?
    ensures r.resp.data.maxNum == transport(PointRequest(cli)).decoded.data.maxNum
    ensures r.resp.data.usedNum == transport(PointRequest(cli)).decoded.data.usedNum
  {
  }
}
