/** What every operation of the client does, as functions of the client's state
    and of the requests issued so far: the answer it returns and the requests it
    adds to the trace. The `Facebook` class in module Client is proved to follow
    these definitions step by step. */
module Operations {
  import opened Values
  import opened Pages
  import opened Http
  import opened Resolution

  /** What a constructed client holds: its root token, the remote it talks to,
      the profile fetched at construction and the page cache. */
  datatype Session = Session(token: string, respond: Oracle, me: Dict, pages: map<string, PageRef>)

  /** A result together with the request trace after it was produced. */
  datatype Step<+T> = Step(value: T, trace: seq<Request>)

  /** One item of `post_bulk`, by the keys its dict has. */
  datatype Content = Content(message: Option<string>, link: Option<string>,
                             photos: Option<seq<Media>>, videos: Option<seq<Media>>)

  /** `content.get('message', '')` */
  function MessageOf(c: Content): string
  {
    if c.message.Some? then c.message.value else ""
  }

  /** An item `post_bulk` handles without raising: one routed to the video
      upload names at least one video (only the first one is used). */
  predicate Dispatchable(c: Content)
  {
    c.photos.None? && c.videos.Some? ==> |c.videos.value| > 0
  }

  /** `_requester`: the chosen token is written into the parameters, exactly one
      request is issued, and a failure comes back as `{'error': reason}` rather
      than being raised. */
  function Send(s: Session, trace: seq<Request>, verb: Verb, target: string, edge: Edge,
                params: Dict, upload: Option<Media>, newToken: string): (out: Step<Dict>)
    ensures out.trace ==
      trace + [Request(verb, target, edge, params[TokenKey := JStr(if newToken != "" then newToken else s.token)], upload)]
    ensures match s.respond(trace, out.trace[|trace|])
      case Error(reason) => out.value == map["error" := JStr(reason)]
      case Result(body) => out.value == body
  {
    var q := Request(verb, target, edge, Stamp(params, ChooseToken(newToken, s.token)), upload);
    Step(Answer(s.respond(trace, q)), trace + [q])
  }

  /** The pages the remote lists in answer to `/me/accounts` after `trace`. */
  function Listing(s: Session, trace: seq<Request>): seq<Page>
  {
    ListedPages(Answer(s.respond(trace, AccountsRequest(s.token))))
  }

  /** `get_pages_list`: one `/me/accounts` request with the root token; its
      listing, or `[]` when the request failed. */
  function PagesListRun(s: Session, trace: seq<Request>): (out: Step<seq<Page>>)
    ensures out.trace == trace + [AccountsRequest(s.token)]
    ensures out.value == Listing(s, trace)
    ensures s.respond(trace, AccountsRequest(s.token)).Error? ==> out.value == []
  {
    var st := Send(s, trace, Get, "me", Accounts, map[], None, "");
    Step(ListedPages(st.value), st.trace)
  }

  /** `select_page`: a fresh listing and the first page in it named exactly
      `name`; the cache is not involved. */
  function SelectPageRun(s: Session, trace: seq<Request>, name: string): (out: Step<Option<PageRef>>)
    ensures out.trace == trace + [AccountsRequest(s.token)]
    ensures out.value == FirstMatch(Listing(s, trace), name)
  {
    var listed := PagesListRun(s, trace);
    Step(FirstMatch(listed.value, name), listed.trace)
  }

  /** The constructor: the profile request, then the page listing, whose pages
      become the cache (empty when the listing failed). */
  function Boot(token: string, respond: Oracle): (out: Step<Session>)
    ensures out.trace == [ProfileRequest(token), AccountsRequest(token)]
    ensures out.value.token == token && out.value.respond == respond
    ensures out.value.me == Answer(respond([], ProfileRequest(token)))
    ensures IsCacheOf(out.value.pages, ListedPages(Answer(respond([ProfileRequest(token)], AccountsRequest(token)))))
    ensures respond([ProfileRequest(token)], AccountsRequest(token)).Error? ==> out.value.pages == map[]
  {
    var profile := Send(Session(token, respond, map[], map[]), [], Get, "me", Node,
                        map["fields" := JStr(ProfileFields)], None, "");
    assert profile.trace == [ProfileRequest(token)];
    var listed := PagesListRun(Session(token, respond, profile.value, map[]), profile.trace);
    assert listed.value == ListedPages(Answer(respond([ProfileRequest(token)], AccountsRequest(token))));
    Step(Session(token, respond, profile.value, BuildCache(listed.value)), listed.trace)
  }

  /** `post_text`: `'me'` before the cache before a fresh scan; the feed request
      carries the resolved id and token, and an unknown name costs one listing
      request and yields the not-found error without any feed request. */
  function PostTextRun(s: Session, trace: seq<Request>, pageId: string, message: string,
                       link: Option<string>): (out: Step<Dict>)
    requires pageId == "me" ==> HasId(s.me)
    ensures pageId == "me" ==>
      var feed := FeedRequest(MeId(s.me), s.token, message, link);
      out == Step(Answer(s.respond(trace, feed)), trace + [feed])
    ensures pageId != "me" && pageId in s.pages ==>
      var feed := FeedRequest(s.pages[pageId].id, ChooseToken(s.pages[pageId].token, s.token), message, link);
      out == Step(Answer(s.respond(trace, feed)), trace + [feed])
    ensures pageId != "me" && pageId !in s.pages ==>
      var listed := trace + [AccountsRequest(s.token)];
      match FirstMatch(Listing(s, trace), pageId)
      case None =>
        out == Step(map["error" := JStr(NotFoundMessage)], listed)
      case Some(page) =>
        var feed := FeedRequest(page.id, ChooseToken(page.token, s.token), message, link);
        out == Step(Answer(s.respond(listed, feed)), listed + [feed])
  {
    var scanned := if pageId == "me" || pageId in s.pages then Step(None, trace) else SelectPageRun(s, trace, pageId);
    match PostTextTarget(pageId, s.me, s.token, s.pages, scanned.value)
    case None => Step(map["error" := JStr(NotFoundMessage)], scanned.trace)
    case Some(t) => Send(s, scanned.trace, Post, t.id, Feed, FeedParams(message, link), None, t.token)
  }

  /** The `{'photos': [...]}` answer of `post_text_with_images`. */
  function ImagesReply(rs: seq<Dict>): (d: Dict)
    ensures d.Keys == {"photos"}
    ensures d["photos"].JList? && |d["photos"].items| == |rs|
    ensures forall i :: 0 <= i < |rs| ==> d["photos"].items[i] == JObject(rs[i])
  {
    map["photos" := JList(seq(|rs|, i requires 0 <= i < |rs| => JObject(rs[i])))]
  }

  /** The upload loop of `post_text_with_images`: one upload per photo, in input
      order, each to the raw `pageId` with the root token; the i-th answer is
      the reply to the i-th upload. No photos, no request. */
  function ImagesRun(s: Session, trace: seq<Request>, pageId: string, message: string,
                     photos: seq<Media>): (out: Step<seq<Dict>>)
    ensures |out.value| == |photos|
    ensures |out.trace| == |trace| + |photos| && out.trace[..|trace|] == trace
    ensures forall k :: |trace| <= k < |out.trace| ==>
      out.trace[k] == PhotoRequest(pageId, s.token, message, photos[k - |trace|])
    ensures forall k :: |trace| <= k < |out.trace| ==>
      out.value[k - |trace|] == Answer(s.respond(out.trace[..k], out.trace[k]))
    decreases |photos|
  {
    if photos == [] then Step([], trace)
    else
      var n := |photos| - 1;
      var prev := ImagesRun(s, trace, pageId, message, photos[..n]);
      var st := Send(s, prev.trace, Post, pageId, Photos, map["caption" := JStr(message)], Some(photos[n]), "");
      assert forall k :: 0 <= k < |prev.trace| ==> st.trace[k] == prev.trace[k] && st.trace[..k] == prev.trace[..k];
      assert st.trace[..|prev.trace|] == prev.trace;
      Step(prev.value + [st.value], st.trace)
  }

  /** Uploading one more photo extends the run of the photos before it. */
  lemma ImagesRunSnoc(s: Session, trace: seq<Request>, pageId: string, message: string, photos: seq<Media>, i: nat)
    requires i < |photos|
    ensures var done := ImagesRun(s, trace, pageId, message, photos[..i]);
      var st := Send(s, done.trace, Post, pageId, Photos, map["caption" := JStr(message)], Some(photos[i]), "");
      ImagesRun(s, trace, pageId, message, photos[..i + 1]) == Step(done.value + [st.value], st.trace)
  {
    assert photos[..i + 1][..i] == photos[..i];
  }

  /** `post_text_with_video`: a single upload to the raw `pageId` with the root
      token, answered unchanged. */
  function VideoRun(s: Session, trace: seq<Request>, pageId: string, message: string, video: Media): (out: Step<Dict>)
    ensures out.trace == trace + [VideoRequest(pageId, s.token, message, video)]
    ensures out.value == Answer(s.respond(trace, VideoRequest(pageId, s.token, message, video)))
  {
    Send(s, trace, Post, pageId, Videos, map["description" := JStr(message)], Some(video), "")
  }

  /** One item of `post_bulk`: a `photos` key wins over a `videos` key, which
      wins over a plain feed post; nothing is resolved, every request goes to
      the raw `pageId` with the root token. */
  function ItemRun(s: Session, trace: seq<Request>, pageId: string, c: Content): (out: Step<Dict>)
    requires Dispatchable(c)
    ensures |trace| <= |out.trace| && out.trace[..|trace|] == trace
    ensures c.photos.Some? ==>
      && |out.trace| == |trace| + |c.photos.value|
      && (forall i :: 0 <= i < |c.photos.value| ==>
            out.trace[|trace| + i] == PhotoRequest(pageId, s.token, MessageOf(c), c.photos.value[i]))
      && "photos" in out.value
    ensures c.photos.Some? ==>
      out.value == ImagesReply(ImagesRun(s, trace, pageId, MessageOf(c), c.photos.value).value)
    ensures c.photos.None? && c.videos.Some? ==>
      var video := VideoRequest(pageId, s.token, MessageOf(c), c.videos.value[0]);
      out == Step(Answer(s.respond(trace, video)), trace + [video])
    ensures c.photos.None? && c.videos.None? ==>
      var feed := FeedRequest(pageId, s.token, MessageOf(c), c.link);
      out == Step(Answer(s.respond(trace, feed)), trace + [feed])
    ensures forall k :: |trace| <= k < |out.trace| ==> SentAs(out.trace[k], pageId, s.token)
  {
    if c.photos.Some? then
      var run := ImagesRun(s, trace, pageId, MessageOf(c), c.photos.value);
      Step(ImagesReply(run.value), run.trace)
    else if c.videos.Some? then
      VideoRun(s, trace, pageId, MessageOf(c), c.videos.value[0])
    else
      Send(s, trace, Post, pageId, Feed, FeedParams(MessageOf(c), c.link), None, "")
  }

  /** The loop of `post_bulk`: one answer per item, in input order, whatever each
      item's outcome; the requests of earlier items stay in place and every new
      one goes to the raw `pageId` with the root token. */
  function BulkRun(s: Session, trace: seq<Request>, pageId: string, contents: seq<Content>): (out: Step<seq<Dict>>)
    requires forall i :: 0 <= i < |contents| ==> Dispatchable(contents[i])
    ensures |out.value| == |contents|
    ensures |trace| <= |out.trace| && out.trace[..|trace|] == trace
    ensures forall k :: |trace| <= k < |out.trace| ==> SentAs(out.trace[k], pageId, s.token)
    decreases |contents|
  {
    if contents == [] then Step([], trace)
    else
      var n := |contents| - 1;
      var prev := BulkRun(s, trace, pageId, contents[..n]);
      var item := ItemRun(s, prev.trace, pageId, contents[n]);
      ExtendsTrans(trace, prev.trace, item.trace);
      Step(prev.value + [item.value], item.trace)
  }

  /** A trace that extends one extending `a` extends `a`, and keeps every
      request of the middle one in place. */
  lemma ExtendsTrans(a: seq<Request>, b: seq<Request>, c: seq<Request>)
    requires |a| <= |b| <= |c| && b[..|a|] == a && c[..|b|] == b
    ensures c[..|a|] == a
    ensures forall k :: 0 <= k < |b| ==> c[k] == b[k]
  {
    assert c[..|a|] == c[..|b|][..|a|];
    forall k | 0 <= k < |b| ensures c[k] == b[k] {
      assert c[..|b|][k] == c[k];
    }
  }

  /** Running one more item extends the run of the items before it. */
  lemma BulkRunSnoc(s: Session, trace: seq<Request>, pageId: string, contents: seq<Content>, i: nat)
    requires forall k :: 0 <= k < |contents| ==> Dispatchable(contents[k])
    requires i < |contents|
    ensures var done := BulkRun(s, trace, pageId, contents[..i]);
      var item := ItemRun(s, done.trace, pageId, contents[i]);
      BulkRun(s, trace, pageId, contents[..i + 1]) == Step(done.value + [item.value], item.trace)
  {
    assert contents[..i + 1][..i] == contents[..i];
  }

  /** The i-th answer of `post_bulk` is what item i alone yields once the items
      before it have run. */
  lemma {:induction false} BulkRunAt(s: Session, trace: seq<Request>, pageId: string, contents: seq<Content>, i: nat)
    requires forall k :: 0 <= k < |contents| ==> Dispatchable(contents[k])
    requires i < |contents|
    ensures BulkRun(s, trace, pageId, contents).value[i] ==
            ItemRun(s, BulkRun(s, trace, pageId, contents[..i]).trace, pageId, contents[i]).value
  {
    var n := |contents| - 1;
    assert forall k :: 0 <= k < n ==> contents[..n][k] == contents[k];
    var prev := BulkRun(s, trace, pageId, contents[..n]);
    var item := ItemRun(s, prev.trace, pageId, contents[n]);
    assert BulkRun(s, trace, pageId, contents).value == prev.value + [item.value];
    if i == n {
      assert contents[..i] == contents[..n];
    } else {
      assert contents[..n][..i] == contents[..i];
      BulkRunAt(s, trace, pageId, contents[..n], i);
    }
  }

  /** The `data` of a `get_posts_list` answer, `[]` for an error or a missing
      `data` field. */
  function PostsData(d: Dict): Json
  {
    if "error" in d then JList([]) else if "data" in d then d["data"] else JList([])
  }

  /** `get_posts_list`: the cache before `'me'`; with an empty id or token no
      request is issued, and a name that is neither cached nor `'me'` costs one
      listing request and always yields `[]`. */
  function PostsListRun(s: Session, trace: seq<Request>, pageName: string, limit: int): (out: Step<Json>)
    requires pageName !in s.pages && pageName == "me" ==> HasId(s.me)
    ensures pageName !in s.pages && pageName != "me" ==>
      out == Step(JList([]), trace + [AccountsRequest(s.token)])
    ensures pageName in s.pages || pageName == "me" ==>
      match PostsTarget(pageName, s.me, s.token, s.pages)
      case None => out == Step(JList([]), trace)
      case Some(t) =>
        && out.trace == trace + [PostsRequest(t.id, t.token, limit)]
        && var d := Answer(s.respond(trace, PostsRequest(t.id, t.token, limit)));
           && ("error" in d || "data" !in d ==> out.value == JList([]))
           && ("error" !in d && "data" in d ==> out.value == d["data"])
  {
    var fetched := if pageName in s.pages || pageName == "me" then trace else SelectPageRun(s, trace, pageName).trace;
    match PostsTarget(pageName, s.me, s.token, s.pages)
    case None => Step(JList([]), fetched)
    case Some(t) =>
      var st := Send(s, fetched, Get, t.id, Posts, map["limit" := JInt(limit)], None, t.token);
      Step(PostsData(st.value), st.trace)
  }

  /** `edit_post`: only a cached name or `'me'` is accepted; otherwise `{}` and
      no request. Accepted, one POST of `{message}` to the post id with the
      cached or root token, answered unchanged. */
  function EditRun(s: Session, trace: seq<Request>, postId: string, message: string, pageName: string): (out: Step<Dict>)
    ensures pageName !in s.pages && pageName != "me" ==> out == Step(map[], trace)
    ensures pageName in s.pages ==>
      out.trace == trace + [EditRequest(postId, ChooseToken(s.pages[pageName].token, s.token), message)]
    ensures pageName !in s.pages && pageName == "me" ==>
      out.trace == trace + [EditRequest(postId, s.token, message)]
    ensures pageName in s.pages || pageName == "me" ==>
      out.value == Answer(s.respond(trace, out.trace[|trace|]))
  {
    match NarrowToken(pageName, s.token, s.pages)
    case None => Step(map[], trace)
    case Some(token) => Send(s, trace, Post, postId, Node, map["message" := JStr(message)], None, token)
  }

  /** `delete_post`: the same narrow resolution as `edit_post`, then one DELETE
      of the post id, answered unchanged. */
  function DeleteRun(s: Session, trace: seq<Request>, postId: string, pageName: string): (out: Step<Dict>)
    ensures pageName !in s.pages && pageName != "me" ==> out == Step(map[], trace)
    ensures pageName in s.pages ==>
      out.trace == trace + [DeleteRequest(postId, ChooseToken(s.pages[pageName].token, s.token))]
    ensures pageName !in s.pages && pageName == "me" ==>
      out.trace == trace + [DeleteRequest(postId, s.token)]
    ensures pageName in s.pages || pageName == "me" ==>
      out.value == Answer(s.respond(trace, out.trace[|trace|]))
  {
    match NarrowToken(pageName, s.token, s.pages)
    case None => Step(map[], trace)
    case Some(token) => Send(s, trace, Delete, postId, Node, map[], None, token)
  }
}
