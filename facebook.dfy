/** The client object: it keeps the root token, the profile and the page cache
    it fetched when it was built, and issues every request through
    `Requester`. Each method follows the Python method branch by branch and is
    proved to do what module Operations says of it. Two departures in form:
    the body of the `post_bulk` loop is its own method, `PostItem`, and the
    `get_posts_list` fallback leaves the id and token empty instead of binding
    the scan's answer. */
module Client {
  import opened Values
  import opened Pages
  import opened Http
  import opened Resolution
  import opened Operations

  class Facebook {
    const accessToken: string
    /** The remote service every request goes to. */
    const respond: Oracle
    /** The profile fetched at construction (`self.me`). */
    var me: Dict
    /** The name -> {id, access_token} cache built at construction (`self.pages`). */
    var pages: map<string, PageRef>
    /** Every request issued so far, oldest first. */
    var trace: seq<Request>

    /** The state the operations read; the trace is not part of it. */
    function State(): Session
      reads this`me, this`pages
    {
      Session(accessToken, respond, me, pages)
    }

    constructor (accessToken: string, respond: Oracle)
      ensures this.accessToken == accessToken && this.respond == respond
      ensures var boot := Boot(accessToken, respond);
        && trace == boot.trace && me == boot.value.me && pages == boot.value.pages
    {
      this.accessToken := accessToken;
      this.respond := respond;
      me := map[];
      pages := map[];
      trace := [];
      new;
      me := Requester(Get, "me", Node, map["fields" := JStr(ProfileFields)], None, "");
      var listed := GetPagesList();
      pages := BuildCache(listed);
    }

    /** `_requester`: the token (override if non-empty, else the root one) is
        written into `params` under `access_token`, one request is issued, and
        a failure comes back as `{'error': reason}`. */
    method Requester(verb: Verb, target: string, edge: Edge, params: Dict, files: Option<Media>,
                     newAccessToken: string) returns (r: Dict)
      modifies this`trace
      ensures var st := Send(State(), old(trace), verb, target, edge, params, files, newAccessToken);
        r == st.value && trace == st.trace
    {
      var token := if newAccessToken != "" then newAccessToken else accessToken;
      var stamped := params[TokenKey := JStr(token)];
      var request := Request(verb, target, edge, stamped, files);
      var reply := respond(trace, request);
      trace := trace + [request];
      match reply {
        case Result(body) => r := body;
        case Error(reason) => r := map["error" := JStr(reason)];
      }
    }

    method PostText(pageId: string, message: string, link: Option<string> := None) returns (r: Dict)
      requires pageId == "me" ==> HasId(me)
      modifies this`trace
      ensures var run := PostTextRun(State(), old(trace), pageId, message, link);
        r == run.value && trace == run.trace
    {
      var target := pageId;
      var token := accessToken;
      if pageId == "me" {
        target := MeId(me);
      } else if pageId in pages {
        token := pages[pageId].token;
        target := pages[pageId].id;
      } else {
        var pageInfo := SelectPage(pageId);
        if pageInfo.Some? {
          target := pageInfo.value.id;
          token := pageInfo.value.token;
        } else {
          return map["error" := JStr(NotFoundMessage)];
        }
      }
      r := Requester(Post, target, Feed, FeedParams(message, link), None, token);
    }

    method PostTextWithImages(pageId: string, message: string, photos: seq<Media>) returns (r: Dict)
      modifies this`trace
      ensures var run := ImagesRun(State(), old(trace), pageId, message, photos);
        r == ImagesReply(run.value) && trace == run.trace
    {
      var responses: seq<Dict> := [];
      var i := 0;
      while i < |photos|
        invariant 0 <= i <= |photos|
        invariant var run := ImagesRun(State(), old(trace), pageId, message, photos[..i]);
          responses == run.value && trace == run.trace
      {
        var response := Requester(Post, pageId, Photos, map["caption" := JStr(message)], Some(photos[i]), "");
        responses := responses + [response];
        ImagesRunSnoc(State(), old(trace), pageId, message, photos, i);
        i := i + 1;
      }
      assert photos[..i] == photos;
      r := ImagesReply(responses);
    }

    method PostTextWithVideo(pageId: string, message: string, video: Media) returns (r: Dict)
      modifies this`trace
      ensures var run := VideoRun(State(), old(trace), pageId, message, video);
        r == run.value && trace == run.trace
    {
      r := Requester(Post, pageId, Videos, map["description" := JStr(message)], Some(video), "");
    }

    method PostBulk(pageId: string, contents: seq<Content>) returns (r: seq<Dict>)
      requires forall i :: 0 <= i < |contents| ==> Dispatchable(contents[i])
      modifies this`trace
      ensures var run := BulkRun(State(), old(trace), pageId, contents);
        r == run.value && trace == run.trace
    {
      var responses: seq<Dict> := [];
      var i := 0;
      while i < |contents|
        invariant 0 <= i <= |contents|
        invariant var run := BulkRun(State(), old(trace), pageId, contents[..i]);
          responses == run.value && trace == run.trace
      {
        var response := PostItem(pageId, contents[i]);
        responses := responses + [response];
        BulkRunSnoc(State(), old(trace), pageId, contents, i);
        i := i + 1;
      }
      assert contents[..i] == contents;
      r := responses;
    }

    /** The body of the `post_bulk` loop for one item. */
    method PostItem(pageId: string, content: Content) returns (response: Dict)
      requires Dispatchable(content)
      modifies this`trace
      ensures var item := ItemRun(State(), old(trace), pageId, content);
        response == item.value && trace == item.trace
    {
      if content.photos.Some? {
        response := PostTextWithImages(pageId, MessageOf(content), content.photos.value);
      } else if content.videos.Some? {
        response := PostTextWithVideo(pageId, MessageOf(content), content.videos.value[0]);
      } else {
        response := Requester(Post, pageId, Feed, FeedParams(MessageOf(content), content.link), None, "");
      }
    }

    method GetPostsList(pageName: string, limit: int := 10) returns (r: Json)
      requires pageName !in pages && pageName == "me" ==> HasId(me)
      modifies this`trace
      ensures var run := PostsListRun(State(), old(trace), pageName, limit);
        r == run.value && trace == run.trace
    {
      var pageId := "";
      var token := "";
      if pageName in pages {
        pageId := pages[pageName].id;
        token := pages[pageName].token;
      } else if pageName == "me" {
        pageId := MeId(me);
        token := accessToken;
      } else {
        // The answer of `select_page` is bound to `page_id` as a whole dict and
        // the token is read from the cache, in which `pageName` is absent: the
        // token stays '' and the guard below always rejects.
        var selected := SelectPage(pageName);
      }
      if pageId == "" || token == "" {
        return JList([]);
      }
      var posts := Requester(Get, pageId, Posts, map["limit" := JInt(limit)], None, token);
      if "error" in posts {
        return JList([]);
      }
      r := if "data" in posts then posts["data"] else JList([]);
    }

    method GetPagesList() returns (r: seq<Page>)
      modifies this`trace
      ensures var run := PagesListRun(State(), old(trace));
        r == run.value && trace == run.trace
    {
      var response := Requester(Get, "me", Accounts, map[], None, "");
      if "error" in response {
        return [];
      }
      r := ListedPages(response);
    }

    method EditPost(postId: string, message: string, pageName: string) returns (r: Dict)
      modifies this`trace
      ensures var run := EditRun(State(), old(trace), postId, message, pageName);
        r == run.value && trace == run.trace
    {
      var token: string;
      if pageName in pages {
        token := pages[pageName].token;
      } else if pageName == "me" {
        token := accessToken;
      } else {
        return map[];
      }
      r := Requester(Post, postId, Node, map["message" := JStr(message)], None, token);
    }

    method DeletePost(postId: string, pageName: string) returns (r: Dict)
      modifies this`trace
      ensures var run := DeleteRun(State(), old(trace), postId, pageName);
        r == run.value && trace == run.trace
    {
      var token: string;
      if pageName in pages {
        token := pages[pageName].token;
      } else if pageName == "me" {
        token := accessToken;
      } else {
        return map[];
      }
      r := Requester(Delete, postId, Node, map[], None, token);
    }

    /** `select_page`: a fresh listing, scanned in order for the first page
        named exactly `pageName`. */
    method SelectPage(pageName: string) returns (r: Option<PageRef>)
      modifies this`trace
      ensures var run := SelectPageRun(State(), old(trace), pageName);
        r == run.value && trace == run.trace
    {
      var listed := GetPagesList();
      var i := 0;
      while i < |listed|
        invariant 0 <= i <= |listed|
        invariant FirstMatch(listed[i..], pageName) == FirstMatch(listed, pageName)
      {
        if listed[i].name == pageName {
          return Some(RefOf(listed[i]));
        }
        assert listed[i..][1..] == listed[i + 1..];
        i := i + 1;
      }
      r := None;
    }
  }
}
