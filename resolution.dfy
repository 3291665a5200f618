/** How a caller-supplied page name becomes the node id and token of a request.
    The operations do it in three different ways: `post_text` looks at the
    `'me'` sentinel before the cache and falls back to a fresh scan;
    `get_posts_list` looks at the cache before `'me'` and its fallback never
    yields a target; `edit_post` and `delete_post` accept only the cache or
    `'me'`. */
module Resolution {
  import opened Values
  import opened Pages

  /** A resolved (node id, access token) pair. */
  datatype Target = Target(id: string, token: string)

  /** The profile fetched at construction carries a string `id`; reading
      `me['id']` raises otherwise. */
  predicate HasId(me: Dict)
  {
    "id" in me && me["id"].JStr?
  }

  function MeId(me: Dict): string
    requires HasId(me)
  {
    me["id"].s
  }

  /** `post_text`: `'me'` first, then the cache, then the page `scan` found in a
      fresh listing, if any. */
  function PostTextTarget(name: string, me: Dict, root: string, cache: map<string, PageRef>,
                          scan: Option<PageRef>): (t: Option<Target>)
    requires name == "me" ==> HasId(me)
    ensures name == "me" ==> t == Some(Target(MeId(me), root))
    ensures name != "me" && name in cache ==> t == Some(Target(cache[name].id, cache[name].token))
    ensures name != "me" && name !in cache ==>
      t == (if scan.Some? then Some(Target(scan.value.id, scan.value.token)) else None)
  {
    if name == "me" then Some(Target(MeId(me), root))
    else if name in cache then Some(Target(cache[name].id, cache[name].token))
    else match scan
      case Some(page) => Some(Target(page.id, page.token))
      case None => None
  }

  /** `get_posts_list`: the cache first, then `'me'`; both the id and the token
      must be non-empty. The fallback binds the whole `select_page` answer as
      the id and reads the token from the cache, where the name is absent, so
      the token is always '' and no target results. */
  function PostsTarget(name: string, me: Dict, root: string, cache: map<string, PageRef>): (t: Option<Target>)
    requires name !in cache && name == "me" ==> HasId(me)
    ensures t.Some? ==> t.value.id != "" && t.value.token != ""
    ensures name !in cache && name != "me" ==> t.None?
    ensures name in cache ==>
      t == (if cache[name].id != "" && cache[name].token != "" then Some(Target(cache[name].id, cache[name].token)) else None)
    ensures name !in cache && name == "me" ==>
      t == (if MeId(me) != "" && root != "" then Some(Target(MeId(me), root)) else None)
  {
    var (id, token) :=
      if name in cache then (cache[name].id, cache[name].token)
      else if name == "me" then (MeId(me), root)
      else ("", "");
    if id == "" || token == "" then None else Some(Target(id, token))
  }

  /** `edit_post` and `delete_post`: the token of the cached page, else the root
      token for `'me'`, else nothing (no fallback scan). */
  function NarrowToken(name: string, root: string, cache: map<string, PageRef>): (token: Option<string>)
    ensures token.Some? <==> name in cache || name == "me"
    ensures name in cache ==> token == Some(cache[name].token)
    ensures name !in cache && name == "me" ==> token == Some(root)
  {
    if name in cache then Some(cache[name].token)
    else if name == "me" then Some(root)
    else None
  }

  /** A page literally named `me` shadows the principal for `get_posts_list`,
      `edit_post` and `delete_post`, but not for `post_text`. */
  lemma MeSentinelPrecedence(me: Dict, root: string, cache: map<string, PageRef>, scan: Option<PageRef>)
    requires "me" in cache && HasId(me)
    requires cache["me"].id != "" && cache["me"].token != ""
    ensures PostTextTarget("me", me, root, cache, scan) == Some(Target(MeId(me), root))
    ensures PostsTarget("me", me, root, cache) == Some(Target(cache["me"].id, cache["me"].token))
    ensures NarrowToken("me", root, cache) == Some(cache["me"].token)
  {
  }

  /** For a cached name other than `me`, the three policies pick the same page
      (`get_posts_list` only when its id and token are non-empty). */
  lemma CachedNamesAgree(name: string, me: Dict, root: string, cache: map<string, PageRef>, scan: Option<PageRef>)
    requires name in cache && name != "me"
    ensures PostTextTarget(name, me, root, cache, scan) == Some(Target(cache[name].id, cache[name].token))
    ensures NarrowToken(name, root, cache) == Some(PostTextTarget(name, me, root, cache, scan).value.token)
    ensures PostsTarget(name, me, root, cache).Some? ==>
      PostsTarget(name, me, root, cache) == PostTextTarget(name, me, root, cache, scan)
  {
  }

  /** An uncached name other than `'me'` that a fresh scan does find resolves
      for `post_text` but never for `get_posts_list`, `edit_post` or
      `delete_post`. */
  lemma FallbackOnlyInPostText(name: string, me: Dict, root: string, cache: map<string, PageRef>, page: PageRef)
    requires name !in cache && name != "me"
    ensures PostTextTarget(name, me, root, cache, Some(page)) == Some(Target(page.id, page.token))
    ensures PostsTarget(name, me, root, cache).None?
    ensures NarrowToken(name, root, cache).None?
  {
  }
}
