/** The remote Graph API as the client sees it: the requests it issues, the
    replies it gets back, and the oracle that stands for the remote service. */
module Http {
  import opened Values
  import Pages

  datatype Verb = Get | Post | Delete

  /** The edge a URL names after its node: `/{node}` alone (the profile at
      `/me`, a post at `/{post_id}`) or `/{node}/accounts`, `/feed`, ... */
  datatype Edge = Node | Accounts | Feed | Photos | Videos | Posts

  /** An opened photo or video file, opaque to the client. */
  datatype Media = Media(path: string)

  /** One issued request: verb, node id, edge, query parameters (access token
      included) and the file sent as the multipart `source` part, if any. */
  datatype Request = Request(verb: Verb, target: string, edge: Edge, params: Dict, upload: Option<Media>)

  /** What one round trip yields: the decoded JSON body, or a transport failure
      (connection error, timeout, non-2xx status, undecodable body) with its
      description. */
  datatype Reply = Result(body: Dict) | Error(reason: string)

  /** The remote service: the reply to a request, given every request this
      client issued before it. The remote is assumed to list pages in the shape
      the client reads (otherwise the client raises, which is not modelled). */
  type Oracle = respond: (seq<Request>, Request) -> Reply
    | forall history: seq<Request>, q: Request :: q.edge == Accounts ==> Pages.Listable(Answer(respond(history, q)))
    witness (history: seq<Request>, q: Request) => Error("")

  const TokenKey := "access_token"
  const ProfileFields := "id,name,email,gender,birthday,picture"
  const NotFoundMessage := "Page ID or user account not found"

  /** The error contract of `_requester`: a failure becomes exactly
      `{'error': reason}`, a success is the decoded body. */
  function Answer(reply: Reply): Dict
  {
    match reply
    case Result(body) => body
    case Error(reason) => map["error" := JStr(reason)]
  }

  /** `_requester`'s token choice: the override when it is non-empty, the root
      token otherwise. */
  function ChooseToken(override: string, root: string): string
  {
    if override != "" then override else root
  }

  /** The parameters with the token written under `access_token`. */
  function Stamp(params: Dict, token: string): Dict
  {
    params[TokenKey := JStr(token)]
  }

  function FeedParams(message: string, link: Option<string>): Dict
  {
    map["message" := JStr(message), "link" := OptionalString(link)]
  }

  // The requests the client issues, each with the token it finally carries.

  function ProfileRequest(token: string): Request
  {
    Request(Get, "me", Node, Stamp(map["fields" := JStr(ProfileFields)], token), None)
  }

  function AccountsRequest(token: string): Request
  {
    Request(Get, "me", Accounts, Stamp(map[], token), None)
  }

  function FeedRequest(target: string, token: string, message: string, link: Option<string>): (q: Request)
    ensures SentAs(q, target, token)
  {
    Request(Post, target, Feed, Stamp(FeedParams(message, link), token), None)
  }

  function PhotoRequest(target: string, token: string, caption: string, photo: Media): (q: Request)
    ensures SentAs(q, target, token)
  {
    Request(Post, target, Photos, Stamp(map["caption" := JStr(caption)], token), Some(photo))
  }

  function VideoRequest(target: string, token: string, description: string, video: Media): (q: Request)
    ensures SentAs(q, target, token)
  {
    Request(Post, target, Videos, Stamp(map["description" := JStr(description)], token), Some(video))
  }

  function PostsRequest(target: string, token: string, limit: int): Request
  {
    Request(Get, target, Posts, Stamp(map["limit" := JInt(limit)], token), None)
  }

  function EditRequest(postId: string, token: string, message: string): Request
  {
    Request(Post, postId, Node, Stamp(map["message" := JStr(message)], token), None)
  }

  function DeleteRequest(postId: string, token: string): Request
  {
    Request(Delete, postId, Node, Stamp(map[], token), None)
  }

  /** `q` goes to node `target` and carries `token` as its access token. */
  predicate SentAs(q: Request, target: string, token: string)
  {
    q.target == target && TokenKey in q.params && q.params[TokenKey] == JStr(token)
  }
}
