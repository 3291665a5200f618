/** The pages the principal administers: how a `/me/accounts` answer becomes a
    page list, how the construction-time cache is built from it, and how a
    fresh listing is scanned for a name. */
module Pages {
  import opened Values

  /** One entry of the `/me/accounts` listing. */
  datatype Page = Page(name: string, id: string, token: string)

  /** What the cache and `select_page` keep of a page: `{'id': ..., 'access_token': ...}`. */
  datatype PageRef = PageRef(id: string, token: string)

  function RefOf(p: Page): PageRef
  {
    PageRef(p.id, p.token)
  }

  /** A listing entry carrying the three string fields the client reads. */
  predicate IsPage(j: Json)
  {
    && j.JObject?
    && "name" in j.fields && j.fields["name"].JStr?
    && "id" in j.fields && j.fields["id"].JStr?
    && "access_token" in j.fields && j.fields["access_token"].JStr?
  }

  function PageOf(j: Json): Page
    requires IsPage(j)
  {
    Page(j.fields["name"].s, j.fields["id"].s, j.fields["access_token"].s)
  }

  predicate IsPageList(j: Json)
  {
    j.JList? && forall i :: 0 <= i < |j.items| ==> IsPage(j.items[i])
  }

  /** An answer `get_pages_list` turns into a page list without raising: an
      error answer, an answer without `data`, or one whose `data` is a list of
      well-formed pages. */
  predicate Listable(d: Dict)
  {
    "error" in d || "data" !in d || IsPageList(d["data"])
  }

  /** `get_pages_list` after its request: `[]` for an error answer or a missing
      `data` field, otherwise the listed pages in the remote's order. */
  function ListedPages(d: Dict): (ps: seq<Page>)
    requires Listable(d)
    ensures "error" in d || "data" !in d ==> ps == []
    ensures "error" !in d && "data" in d ==>
      && |ps| == |d["data"].items|
      && forall i :: 0 <= i < |ps| ==> ps[i] == PageOf(d["data"].items[i])
  {
    if "error" in d then []
    else if "data" in d then
      var items := d["data"].items;
      seq(|items|, i requires 0 <= i < |items| => PageOf(items[i]))
    else []
  }

  /** Page `i` is the last entry of `ps` named `ps[i].name`. */
  ghost predicate LastNamed(ps: seq<Page>, i: int)
    requires 0 <= i < |ps|
  {
    forall j :: i < j < |ps| ==> ps[j].name != ps[i].name
  }

  /** `cache` is what the constructor's dict comprehension builds from `ps`:
      its keys are exactly the listed names, and a name listed more than once
      maps to the id and token of its last entry. */
  ghost predicate IsCacheOf(cache: map<string, PageRef>, ps: seq<Page>)
  {
    && (forall name :: name in cache <==> exists i :: 0 <= i < |ps| && ps[i].name == name)
    && (forall i :: 0 <= i < |ps| && LastNamed(ps, i) ==> cache[ps[i].name] == RefOf(ps[i]))
  }

  /** The name -> {id, access_token} cache of the constructor, built entry by
      entry in listing order so that a later entry overwrites an earlier one. */
  function BuildCache(ps: seq<Page>): (cache: map<string, PageRef>)
    ensures IsCacheOf(cache, ps)
  {
    if ps == [] then map[]
    else
      var prev := BuildCache(ps[..|ps| - 1]);
      CacheStep(ps, prev);
      prev[ps[|ps| - 1].name := RefOf(ps[|ps| - 1])]
  }

  /** Writing the last listed page into the cache of the pages before it gives
      the cache of the whole listing. */
  lemma CacheStep(ps: seq<Page>, prev: map<string, PageRef>)
    requires |ps| > 0 && IsCacheOf(prev, ps[..|ps| - 1])
    ensures IsCacheOf(prev[ps[|ps| - 1].name := RefOf(ps[|ps| - 1])], ps)
  {
    var init, last := ps[..|ps| - 1], ps[|ps| - 1];
    var cache := prev[last.name := RefOf(last)];
    forall name
      ensures name in cache <==> exists i :: 0 <= i < |ps| && ps[i].name == name
    {
      if name in prev {
        var i :| 0 <= i < |init| && init[i].name == name;
        assert ps[i].name == name;
      } else if name == last.name {
        assert ps[|init|].name == name;
      } else {
        forall i | 0 <= i < |ps| ensures ps[i].name != name {
          if i < |init| {
            assert ps[i] == init[i];
          }
        }
      }
    }
    forall i | 0 <= i < |ps| && LastNamed(ps, i)
      ensures cache[ps[i].name] == RefOf(ps[i])
    {
      if i < |init| {
        assert ps[i] == init[i];
        assert forall j :: i < j < |init| ==> ps[j] == init[j];
        assert LastNamed(init, i);
      }
    }
  }

  /** The scan of `select_page`: the first listed page whose name is exactly
      `name`, or nothing when no page has that name. */
  function FirstMatch(ps: seq<Page>, name: string): (r: Option<PageRef>)
    ensures r.None? <==> forall i :: 0 <= i < |ps| ==> ps[i].name != name
    ensures r.Some? ==>
      exists i :: && 0 <= i < |ps| && ps[i].name == name && r.value == RefOf(ps[i])
                  && forall j :: 0 <= j < i ==> ps[j].name != name
  {
    if ps == [] then None
    else if ps[0].name == name then Some(RefOf(ps[0]))
    else
      assert forall i :: 1 <= i < |ps| ==> ps[1..][i - 1] == ps[i];
      FirstMatch(ps[1..], name)
  }

  /** When every listed name is distinct, a fresh scan of the same listing finds
      exactly the pages the cache holds, with the same id and token. */
  lemma ScanAgreesWithCache(ps: seq<Page>, name: string)
    requires forall i, j :: 0 <= i < j < |ps| ==> ps[i].name != ps[j].name
    ensures FirstMatch(ps, name).Some? <==> name in BuildCache(ps)
    ensures name in BuildCache(ps) ==> FirstMatch(ps, name) == Some(BuildCache(ps)[name])
  {
    var r := FirstMatch(ps, name);
    if r.Some? {
      var i :| && 0 <= i < |ps| && ps[i].name == name && r.value == RefOf(ps[i])
               && forall j :: 0 <= j < i ==> ps[j].name != name;
      assert LastNamed(ps, i);
    }
  }

  /** With a name listed more than once the two resolution paths part ways:
      the cache keeps the last page of that name, the scan returns the first. */
  lemma DuplicateNamesDisagree(ps: seq<Page>, name: string, i: nat, j: nat)
    requires i < j < |ps| && ps[i].name == name && ps[j].name == name
    requires forall k :: 0 <= k < i ==> ps[k].name != name
    requires LastNamed(ps, j)
    ensures name in BuildCache(ps) && BuildCache(ps)[name] == RefOf(ps[j])
    ensures FirstMatch(ps, name) == Some(RefOf(ps[i]))
  {
    var cache := BuildCache(ps);
    assert cache[ps[j].name] == RefOf(ps[j]);
    var r := FirstMatch(ps, name);
    assert r.Some?;
    var m :| && 0 <= m < |ps| && ps[m].name == name && r.value == RefOf(ps[m])
             && forall k :: 0 <= k < m ==> ps[k].name != name;
    assert m == i;
  }

  /** An instance: "Shop" listed as id 1 and then as id 2 is cached as id 2
      but found by the scan as id 1. */
  lemma DuplicateShop()
    ensures var ps := [Page("Shop", "1", "a"), Page("Shop", "2", "b")];
      && BuildCache(ps)["Shop"] == PageRef("2", "b")
      && FirstMatch(ps, "Shop") == Some(PageRef("1", "a"))
  {
    var ps := [Page("Shop", "1", "a"), Page("Shop", "2", "b")];
    DuplicateNamesDisagree(ps, "Shop", 0, 1);
  }
}
