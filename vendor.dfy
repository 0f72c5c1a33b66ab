/**
 * The App Store Connect reporting API as the connector sees it: a request is
 * a set of text filters sent to one of two download endpoints, and the
 * answer is an API error, a JSON object, or the tab-separated report text.
 * What the service answers is a fixed function of the request; the client
 * keeps the history of the requests made through it.
 */
module Vendor {

  /** The request filters: `reportDate`, `vendorNumber` and the template fields. */
  type Filters = map<string, string>

  /** `download_sales_and_trends_reports` or `download_finance_reports`. */
  datatype Endpoint = SalesAndTrends | Finance

  /** What a successful call returns: a decoded JSON object or the report text. */
  datatype Reply = JsonReply(body: map<string, string>) | TsvReply(text: string)

  /** An `APIError` raised by the client, or a reply. */
  datatype Response = ApiError(message: string) | Replied(reply: Reply)

  /** One request as observed. */
  datatype Request = Request(endpoint: Endpoint, filters: Filters)

  class Client {
    /** The service's answer to each request. */
    const respond: (Endpoint, Filters) -> Response
    ghost var requests: seq<Request>

    constructor (respond: (Endpoint, Filters) -> Response)
      ensures this.respond == respond && requests == []
    {
      this.respond := respond;
      requests := [];
    }

    method Download(endpoint: Endpoint, filters: Filters) returns (r: Response)
      modifies this
      ensures r == respond(endpoint, filters)
      ensures requests == old(requests) + [Request(endpoint, filters)]
    {
      r := respond(endpoint, filters);
      requests := requests + [Request(endpoint, filters)];
    }
  }
}
