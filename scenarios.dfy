/** Two concrete sessions against a fixed remote: a post to a cached page goes
    out under that page's id and token, and an edit naming an unknown page
    issues nothing. */
module Scenarios {
  import opened Values
  import opened Pages
  import opened Http
  import opened Operations
  import opened Client

  /** A remote whose profile is `{id: "100", name: "Alice"}` and whose page
      listing is `[{id: "200", name: "Shop", access_token: "tok2"}]`; any other
      request succeeds with an empty body. */
  function ShopRemote(history: seq<Request>, q: Request): Reply
  {
    if q.edge == Accounts then
      Result(map["data" := JList([JObject(map["id" := JStr("200"), "name" := JStr("Shop"), "access_token" := JStr("tok2")])])])
    else if q.edge == Node && q.target == "me" then
      Result(map["id" := JStr("100"), "name" := JStr("Alice")])
    else
      Result(map[])
  }

  const Shop: Oracle := ShopRemote

  /** A client built against `ShopRemote` caches the one listed page. */
  lemma ShopBoot()
    ensures Boot("root", Shop).value.pages == map["Shop" := PageRef("200", "tok2")]
  {
    var listing := ListedPages(Answer(Shop([ProfileRequest("root")], AccountsRequest("root"))));
    assert listing == [Page("Shop", "200", "tok2")];
    assert LastNamed(listing, 0);
    var pages := Boot("root", Shop).value.pages;
    assert IsCacheOf(pages, listing);
    assert pages.Keys == {"Shop"};
  }

  /** A fresh client built with root token "root" against `ShopRemote`. */
  method ShopClient() returns (client: Facebook)
    ensures fresh(client)
    ensures client.accessToken == "root" && client.respond == Shop
    ensures client.pages == map["Shop" := PageRef("200", "tok2")]
  {
    ShopBoot();
    client := new Facebook("root", Shop);
  }

  /** A client built against `ShopRemote` that posts "Hello" to "Shop" issues
      exactly one request, the feed post against id "200" with token "tok2"
      (the page's token, not the root one). */
  method PostToCachedPage() returns (feed: Request, issued: int)
    ensures feed == FeedRequest("200", "tok2", "Hello", None)
    ensures issued == 1
  {
    var client := ShopClient();
    var before := |client.trace|;
    var answer := client.PostText("Shop", "Hello", None);
    issued := |client.trace| - before;
    feed := client.trace[|client.trace| - 1];
  }

  /** Editing a post on behalf of a page the cache does not hold returns `{}`
      without issuing any request: no fallback listing is fetched. */
  method EditOnUnknownPage() returns (answer: Dict, issued: int)
    ensures answer == map[]
    ensures issued == 0
  {
    var client := ShopClient();
    var before := |client.trace|;
    answer := client.EditPost("500", "new text", "Unknown");
    issued := |client.trace| - before;
  }
}
