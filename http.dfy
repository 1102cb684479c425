/** The request and response vocabulary the route handlers share. */
module Http {
  import opened Wrappers
  import opened Store

  /** Header names as the runtime stores them: lower case. */
  type Headers = map<string, string>

  const UserIdHeader: string := "x-user-id"
  const ForwardedForHeader: string := "x-forwarded-for"

  /**
   * `headers.get(name)` or `searchParams.get(name)` read the way the handlers
   * test it (`if (!value)`): a missing entry and an empty string are both absent.
   */
  function Get(entries: map<string, string>, name: string): Option<string>
  {
    if name in entries && entries[name] != "" then Some(entries[name]) else None
  }

  /** `s.substring(0, n)` for n >= 0: the first n characters, or all of a shorter string. */
  function Prefix(s: string, n: nat): (r: string)
    ensures |r| <= n && r <= s
    ensures |s| <= n ==> r == s
    ensures |s| >= n ==> |r| == n
  {
    if |s| <= n then s else s[..n]
  }

  /** One row of the conversation listing. */
  datatype Summary = Summary(id: ConversationId, createdAt: int, title: string)

  /** The JSON body of a response. */
  datatype Payload =
    | ErrorJson(error: string)
    | MessagesJson(messages: seq<Message>)
    | ReplyJson(reply: string, conversationId: ConversationId)
    | SummariesJson(items: seq<Summary>)
    | SuccessJson

  datatype Response = Response(status: int, payload: Payload)

  const Unauthorized: Response := Response(401, ErrorJson("Unauthorized"))
  const NotFoundOrUnauthorized: Response := Response(404, ErrorJson("Not found or Unauthorized"))
  const InternalServerError: Response := Response(500, ErrorJson("Internal Server Error"))
  const Ok: Response := Response(200, SuccessJson)
}
