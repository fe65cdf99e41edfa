/** `Crawler.crawl` (chat/backend/crawler.py): a breadth-first crawl of one host with a FIFO
    queue, a visited set, a result list and a page limit. The network and the HTML parser are
    the oracles of a `Web` value. */
module Crawler {
  import opened Wrappers
  import opened Text
  import opened Urls
  import Config

  /** What `requests.get` hands back: the status, the URL after redirects, the Content-Type
      header when present, and the decoded body. */
  datatype Response = Response(status: int, url: string, contentType: Option<string>, text: string)

  datatype FetchOutcome = FetchRaised(message: string) | Fetched(response: Response)

  /** The oracles the crawl consults: the HTTP fetch, the `href` of every `<a href>` of a page in
      document order, and `urljoin`, which is None where it raises. */
  datatype Web = Web(
    fetch: string -> FetchOutcome,
    anchors: string -> seq<string>,
    join: (string, string) -> Option<string>)

  /** One entry of the returned list: `{"url": ..., "html": ...}`. */
  datatype Page = Page(url: string, html: string)

  /** The ValueErrors `crawl` raises before its loop. */
  datatype CrawlError =
    | EmptyStartUrl     // "URL cannot be empty"
    | MalformedStartUrl // "Invalid IPv6 URL", from urlparse of the start URL

  function Elements(s: seq<string>): set<string> {
    set u | u in s
  }

  lemma ElementsSnoc(s: seq<string>, x: string)
    ensures Elements(s + [x]) == Elements(s) + {x}
  {
    assert forall u :: u in s + [x] <==> u in s || u == x;
  }

  predicate Distinct(s: seq<string>) {
    forall i, j :: 0 <= i < j < |s| ==> s[i] != s[j]
  }

  lemma DistinctCons(x: string, s: seq<string>)
    requires x !in s && Distinct(s)
    ensures Distinct([x] + s)
  {
    var t := [x] + s;
    forall i, j | 0 <= i < j < |t| ensures t[i] != t[j] {
      assert t[j] == s[j - 1];
      if i > 0 {
        assert t[i] == s[i - 1];
      }
    }
  }

  /** The page is kept: status 200, its final URL on the start host, and a Content-Type that,
      lower-cased, contains "text/html" (a missing header counts as ""). */
  predicate Accepts(outcome: FetchOutcome, base: string) {
    && outcome.Fetched?
    && outcome.response.status == 200
    && Netloc(outcome.response.url) == Some(base)
    && Contains(Lower(outcome.response.contentType.GetOr("")), "text/html")
  }

  /** What fetching `u` adds to the results: its page under the post-redirect URL when it is
      accepted, nothing otherwise. */
  function Kept(u: string, web: Web, base: string): (r: seq<Page>)
    ensures |r| <= 1 && (r != [] <==> Accepts(web.fetch(u), base))
    ensures r != [] ==> r[0].url == web.fetch(u).response.url && Netloc(r[0].url) == Some(base)
  {
    var outcome := web.fetch(u);
    if Accepts(outcome, base) then [Page(outcome.response.url, outcome.response.text)] else []
  }

  /** The pages kept from the URLs dequeued so far, in dequeue order. */
  function Pages(order: seq<string>, web: Web, base: string): (pages: seq<Page>)
    ensures |pages| <= |order|
    ensures forall p :: p in pages ==> Netloc(p.url) == Some(base)
    decreases |order|
  {
    if order == [] then [] else Pages(order[..|order| - 1], web, base) + Kept(order[|order| - 1], web, base)
  }

  /** `urljoin(current, href)` succeeds and, without its fragment, is `u`. */
  predicate Resolves(current: string, href: string, join: (string, string) -> Option<string>, u: string) {
    join(current, href).Some? && StripFragment(join(current, href).value) == u
  }

  /** The links the harvest of one page enqueues, in anchor order: each anchor is resolved
      against the requested URL, its fragment dropped, and it is taken when its netloc is the
      start host and it has not been seen. An exception from `urljoin` or `urlparse` ends the
      harvest. */
  function NewLinks(current: string, hrefs: seq<string>, base: string,
                    join: (string, string) -> Option<string>, visited: set<string>): (added: seq<string>)
    ensures forall k :: 0 <= k < |added| ==>
      added[k] !in visited && '#' !in added[k] && Netloc(added[k]) == Some(base)
    ensures Distinct(added)
    decreases |hrefs|
  {
    if hrefs == [] then []
    else match join(current, hrefs[0])
      case None => []
      case Some(absolute) =>
        match Netloc(absolute)
        case None => []
        case Some(host) =>
          var clean := StripFragment(absolute);
          NetlocStripFragment(absolute);
          if host == base && clean !in visited then
            var rest := NewLinks(current, hrefs[1..], base, join, visited + {clean});
            DistinctCons(clean, rest);
            [clean] + rest
          else
            NewLinks(current, hrefs[1..], base, join, visited)
  }

  /** Every enqueued link comes from one of the page's anchors. */
  lemma {:induction false} NewLinksResolve(current: string, hrefs: seq<string>, base: string,
                                           join: (string, string) -> Option<string>, visited: set<string>)
    ensures forall u :: u in NewLinks(current, hrefs, base, join, visited) ==>
      exists h :: h in hrefs && Resolves(current, h, join, u)
    decreases |hrefs|
  {
    if hrefs != [] && join(current, hrefs[0]).Some? && Netloc(join(current, hrefs[0]).value).Some? {
      var absolute := join(current, hrefs[0]).value;
      var clean := StripFragment(absolute);
      var v := if Netloc(absolute).value == base && clean !in visited then visited + {clean} else visited;
      NewLinksResolve(current, hrefs[1..], base, join, v);
      forall u | u in NewLinks(current, hrefs[1..], base, join, v)
        ensures exists h :: h in hrefs && Resolves(current, h, join, u)
      {
        var h :| h in hrefs[1..] && Resolves(current, h, join, u);
        assert h in hrefs;
      }
      assert Resolves(current, hrefs[0], join, clean);
    }
  }

  /** Moving one element across a concatenation. */
  lemma Shift(a: seq<string>, x: string, b: seq<string>)
    ensures a + ([x] + b) == (a + [x]) + b
    ensures (a + b) + [x] == a + (b + [x])
  {
  }

  /** An anchor at position `i` whose `urljoin` or `urlparse` raises ends the harvest there. */
  lemma NewLinksStop(current: string, hrefs: seq<string>, i: nat, base: string,
                     join: (string, string) -> Option<string>, visited: set<string>)
    requires i < |hrefs|
    requires join(current, hrefs[i]).None? || Netloc(join(current, hrefs[i]).value).None?
    ensures NewLinks(current, hrefs[i..], base, join, visited) == []
  {
    assert hrefs[i..][0] == hrefs[i];
  }

  /** An anchor at position `i` that resolves to an unseen link on the start host contributes
      that link in front of the rest. */
  lemma NewLinksTake(current: string, hrefs: seq<string>, i: nat, base: string,
                     join: (string, string) -> Option<string>, visited: set<string>, clean: string)
    requires i < |hrefs| && join(current, hrefs[i]).Some?
    requires Netloc(join(current, hrefs[i]).value) == Some(base)
    requires clean == StripFragment(join(current, hrefs[i]).value) && clean !in visited
    ensures NewLinks(current, hrefs[i..], base, join, visited)
         == [clean] + NewLinks(current, hrefs[i + 1..], base, join, visited + {clean})
  {
    assert hrefs[i..][0] == hrefs[i] && hrefs[i..][1..] == hrefs[i + 1..];
  }

  /** Any other anchor at position `i` contributes nothing. */
  lemma NewLinksSkip(current: string, hrefs: seq<string>, i: nat, base: string,
                     join: (string, string) -> Option<string>, visited: set<string>)
    requires i < |hrefs| && join(current, hrefs[i]).Some?
    requires Netloc(join(current, hrefs[i]).value).Some?
    requires Netloc(join(current, hrefs[i]).value) != Some(base)
      || StripFragment(join(current, hrefs[i]).value) in visited
    ensures NewLinks(current, hrefs[i..], base, join, visited)
         == NewLinks(current, hrefs[i + 1..], base, join, visited)
  {
    assert hrefs[i..][0] == hrefs[i] && hrefs[i..][1..] == hrefs[i + 1..];
  }

  /** The `for link in soup.find_all('a', href=True)` loop: appends the new links to the queue
      and adds them to the visited set, stopping at the first exception. */
  method Harvest(current: string, hrefs: seq<string>, base: string,
                 join: (string, string) -> Option<string>, queue: seq<string>, visited: set<string>)
    returns (queue': seq<string>, visited': set<string>)
    ensures queue' == queue + NewLinks(current, hrefs, base, join, visited)
    ensures visited' == visited + Elements(NewLinks(current, hrefs, base, join, visited))
  {
    queue', visited' := queue, visited;
    ghost var added: seq<string> := [];
    var i := 0;
    while i < |hrefs|
      invariant 0 <= i <= |hrefs| && queue' == queue + added
      invariant added + NewLinks(current, hrefs[i..], base, join, visited')
             == NewLinks(current, hrefs, base, join, visited)
      invariant visited' == visited + Elements(added)
    {
      var absolute := join(current, hrefs[i]);
      if absolute.None? || Netloc(absolute.value).None? {
        NewLinksStop(current, hrefs, i, base, join, visited');
        assert added + [] == added;
        break; // urljoin or urlparse raised
      }
      var host := Netloc(absolute.value);
      var clean := StripFragment(absolute.value);
      if host.value == base && clean !in visited' {
        NewLinksTake(current, hrefs, i, base, join, visited', clean);
        Shift(added, clean, NewLinks(current, hrefs[i + 1..], base, join, visited' + {clean}));
        Shift(queue, clean, added);
        ElementsSnoc(added, clean);
        visited' := visited' + {clean};
        queue' := queue' + [clean];
        added := added + [clean];
      } else {
        NewLinksSkip(current, hrefs, i, base, join, visited');
      }
      i := i + 1;
    }
    assert added == NewLinks(current, hrefs, base, join, visited);
  }

  /** Page `j` of the dequeue order was kept while the result count stayed below the limit, and
      one of its anchors resolves to `u`. */
  ghost predicate HarvestedFrom(u: string, order: seq<string>, j: nat, web: Web, base: string, limit: int) {
    && j < |order|
    && Accepts(web.fetch(order[j]), base)
    && |Pages(order[..j + 1], web, base)| < limit
    && exists h :: h in web.anchors(web.fetch(order[j]).response.text) && Resolves(order[j], h, web.join, u)
  }

  /** `u`, enqueued as the `k`-th URL, was harvested from a page dequeued before it. */
  ghost predicate HasParent(u: string, k: nat, order: seq<string>, web: Web, base: string, limit: int) {
    exists j: nat :: j < k && HarvestedFrom(u, order, j, web, base, limit)
  }

  /** The links one dequeued URL contributes to the queue: none unless its page is kept and the
      result count, `count` after the append, is still below the limit. */
  function Discovered(current: string, web: Web, base: string, limit: int, count: int,
                      visited: set<string>): seq<string>
  {
    if Accepts(web.fetch(current), base) && count < limit then
      NewLinks(current, web.anchors(web.fetch(current).response.text), base, web.join, visited)
    else []
  }

  /** Every URL enqueued once the URLs of `order` have been dequeued, in the order they were
      enqueued: the start URL, then the links each dequeued URL contributed. */
  function Enqueued(start: string, base: string, limit: int, web: Web, order: seq<string>): (all: seq<string>)
    ensures all != [] && all[0] == start
    decreases |order|
  {
    if order == [] then [start]
    else
      var before := Enqueued(start, base, limit, web, order[..|order| - 1]);
      before + Discovered(order[|order| - 1], web, base, limit, |Pages(order, web, base)|, Elements(before))
  }

  /** The `k`-th URL dequeued was at the head of the queue then: the queue was not empty, the
      URL is the next one enqueued, and the result count was still below the limit. */
  predicate DequeuedAt(start: string, base: string, limit: int, web: Web, order: seq<string>, k: nat)
    requires k < |order|
  {
    var enqueued := Enqueued(start, base, limit, web, order[..k]);
    k < |enqueued| && order[k] == enqueued[k] && |Pages(order[..k], web, base)| < limit
  }

  /** Every URL of `order` was dequeued in FIFO order while the loop condition held. */
  predicate Dequeues(start: string, base: string, limit: int, web: Web, order: seq<string>) {
    forall k :: 0 <= k < |order| ==> DequeuedAt(start, base, limit, web, order, k)
  }

  /** The loop condition fails once `order` is dequeued: the queue is empty or the limit is
      reached. */
  predicate Finished(start: string, base: string, limit: int, web: Web, order: seq<string>) {
    |order| == |Enqueued(start, base, limit, web, order)| || |Pages(order, web, base)| >= limit
  }

  /** `pages` is what `crawl(start, limit)` returns, and `order` the URLs it dequeued: a
      breadth-first run that stops exactly when the queue is empty or the limit is reached. */
  predicate Crawled(start: string, limit: int, web: Web, pages: seq<Page>, order: seq<string>) {
    && Netloc(start).Some?
    && Dequeues(start, Netloc(start).value, limit, web, order)
    && Finished(start, Netloc(start).value, limit, web, order)
    && pages == Pages(order, web, Netloc(start).value)
  }

  /** Two breadth-first runs agree on every prefix they share. */
  lemma {:induction false} DequeuesAgree(start: string, base: string, limit: int, web: Web,
                                         o1: seq<string>, o2: seq<string>, k: nat)
    requires Dequeues(start, base, limit, web, o1) && Dequeues(start, base, limit, web, o2)
    requires k <= |o1| && k <= |o2|
    ensures o1[..k] == o2[..k]
    decreases k
  {
    if k > 0 {
      DequeuesAgree(start, base, limit, web, o1, o2, k - 1);
      assert DequeuedAt(start, base, limit, web, o1, k - 1);
      assert DequeuedAt(start, base, limit, web, o2, k - 1);
      assert o1[..k] == o1[..k - 1] + [o1[k - 1]];
      assert o2[..k] == o2[..k - 1] + [o2[k - 1]];
    }
  }

  /** A run that dequeues a further URL had not finished before it. */
  lemma StillRunning(start: string, base: string, limit: int, web: Web, order: seq<string>, m: nat)
    requires Dequeues(start, base, limit, web, order) && m < |order|
    ensures !Finished(start, base, limit, web, order[..m])
  {
    assert DequeuedAt(start, base, limit, web, order, m);
  }

  /** The crawl is determined by the start URL, the limit and the web: `Crawled` has one
      solution. */
  lemma CrawledUnique(start: string, limit: int, web: Web, p1: seq<Page>, o1: seq<string>,
                      p2: seq<Page>, o2: seq<string>)
    requires Crawled(start, limit, web, p1, o1) && Crawled(start, limit, web, p2, o2)
    ensures o1 == o2 && p1 == p2
  {
    var base := Netloc(start).value;
    if |o1| <= |o2| {
      DequeuesAgree(start, base, limit, web, o1, o2, |o1|);
      assert o1 == o2[..|o1|];
      if |o1| < |o2| {
        StillRunning(start, base, limit, web, o2, |o1|);
        assert false;
      }
      assert o2[..|o2|] == o2;
    } else {
      DequeuesAgree(start, base, limit, web, o1, o2, |o2|);
      assert o2 == o1[..|o2|];
      StillRunning(start, base, limit, web, o1, |o2|);
      assert false;
    }
  }

  /** Every URL enqueued after a prefix of the run is still enqueued after the whole run. */
  lemma {:induction false} EnqueuedGrows(start: string, base: string, limit: int, web: Web,
                                         order: seq<string>, j: nat)
    requires j <= |order|
    ensures forall u :: u in Enqueued(start, base, limit, web, order[..j]) ==>
      u in Enqueued(start, base, limit, web, order)
    decreases |order| - j
  {
    if j == |order| {
      assert order[..j] == order;
    } else {
      EnqueuedGrows(start, base, limit, web, order, j + 1);
      assert order[..j + 1][..j] == order[..j];
    }
  }

  /** Every on-host link of a page that the harvest reaches (no earlier anchor made `urljoin`
      or `urlparse` raise) ends up visited: seen before, or taken now. */
  lemma {:induction false} NewLinksComplete(current: string, hrefs: seq<string>, base: string,
                                            join: (string, string) -> Option<string>,
                                            visited: set<string>, i: nat)
    requires i < |hrefs|
    requires forall j :: 0 <= j <= i ==>
      join(current, hrefs[j]).Some? && Netloc(join(current, hrefs[j]).value).Some?
    requires Netloc(join(current, hrefs[i]).value) == Some(base)
    ensures StripFragment(join(current, hrefs[i]).value) in visited
      || StripFragment(join(current, hrefs[i]).value) in NewLinks(current, hrefs, base, join, visited)
    decreases i
  {
    var absolute := join(current, hrefs[0]).value;
    var clean := StripFragment(absolute);
    var taken := Netloc(absolute) == Some(base) && clean !in visited;
    var v := if taken then visited + {clean} else visited;
    var rest := NewLinks(current, hrefs[1..], base, join, v);
    if taken {
      assert NewLinks(current, hrefs, base, join, visited) == [clean] + rest;
    } else {
      assert NewLinks(current, hrefs, base, join, visited) == rest;
    }
    if i > 0 {
      TailJoins(current, hrefs, join, i);
      assert hrefs[1..][i - 1] == hrefs[i];
      NewLinksComplete(current, hrefs[1..], base, join, v, i - 1);
    }
  }

  /** The anchors after the first still all resolve, up to the `i`-th. */
  lemma TailJoins(current: string, hrefs: seq<string>, join: (string, string) -> Option<string>, i: nat)
    requires 0 < i < |hrefs|
    requires forall j :: 0 <= j <= i ==>
      join(current, hrefs[j]).Some? && Netloc(join(current, hrefs[j]).value).Some?
    ensures forall j :: 0 <= j <= i - 1 ==>
      join(current, hrefs[1..][j]).Some? && Netloc(join(current, hrefs[1..][j]).value).Some?
  {
    forall j | 0 <= j <= i - 1
      ensures join(current, hrefs[1..][j]).Some? && Netloc(join(current, hrefs[1..][j]).value).Some?
    {
      assert hrefs[1..][j] == hrefs[j + 1];
    }
  }

  /** Every on-host link of a page the crawl keeps while below the limit is enqueued, unless
      an earlier anchor of that page made `urljoin` or `urlparse` raise. */
  lemma EnqueuedComplete(start: string, base: string, limit: int, web: Web, order: seq<string>,
                         k: nat, i: nat)
    requires k < |order|
    requires Accepts(web.fetch(order[k]), base) && |Pages(order[..k + 1], web, base)| < limit
    requires var hrefs := web.anchors(web.fetch(order[k]).response.text);
      && i < |hrefs|
      && (forall j :: 0 <= j <= i ==>
            web.join(order[k], hrefs[j]).Some? && Netloc(web.join(order[k], hrefs[j]).value).Some?)
      && Netloc(web.join(order[k], hrefs[i]).value) == Some(base)
    ensures var hrefs := web.anchors(web.fetch(order[k]).response.text);
      StripFragment(web.join(order[k], hrefs[i]).value) in Enqueued(start, base, limit, web, order)
  {
    var hrefs := web.anchors(web.fetch(order[k]).response.text);
    var prefix := order[..k + 1];
    assert prefix[..k] == order[..k] && prefix[k] == order[k];
    var before := Enqueued(start, base, limit, web, order[..k]);
    NewLinksComplete(order[k], hrefs, base, web.join, Elements(before), i);
    EnqueuedGrows(start, base, limit, web, order, k + 1);
  }

  /** The `try` block for one dequeued URL: the fetch, the three tests that skip the page, the
      append, and the link harvest while the count is still below the limit. */
  method Visit(current: string, base: string, limit: int, web: Web,
               results: seq<Page>, queue: seq<string>, visited: set<string>)
    returns (results': seq<Page>, queue': seq<string>, visited': set<string>)
    ensures results' == results + Kept(current, web, base)
    ensures var added := Discovered(current, web, base, limit, |results'|, visited);
      queue' == queue + added && visited' == visited + Elements(added)
  {
    results', queue', visited' := results, queue, visited;
    var outcome := web.fetch(current);
    if outcome.FetchRaised? {
      assert queue + [] == queue && Elements([]) == {};
      return;
    }
    var response := outcome.response;
    if response.status != 200 {
      assert queue + [] == queue && Elements([]) == {};
      return;
    }
    if Netloc(response.url) != Some(base) {
      assert queue + [] == queue && Elements([]) == {};
      return; // off-host redirect, or urlparse raised on the final URL
    }
    if !Contains(Lower(response.contentType.GetOr("")), "text/html") {
      assert queue + [] == queue && Elements([]) == {};
      return;
    }
    results' := results + [Page(response.url, response.text)];
    if |results'| < limit {
      queue', visited' := Harvest(current, web.anchors(response.text), base, web.join, queue, visited);
    } else {
      assert queue + [] == queue && Elements([]) == {};
    }
  }

  /** Every URL enqueued after the start URL is fragment-free and on the start host. */
  predicate OnHost(discovered: seq<string>, base: string) {
    forall k :: 1 <= k < |discovered| ==> '#' !in discovered[k] && Netloc(discovered[k]) == Some(base)
  }

  /** Every URL enqueued after the start URL was harvested from a page dequeued before it. */
  ghost predicate Parented(discovered: seq<string>, order: seq<string>, web: Web, base: string, limit: int) {
    forall k :: 1 <= k < |discovered| ==> HasParent(discovered[k], k, order, web, base, limit)
  }

  /** The loop invariant of `crawl`: the URLs ever enqueued are the dequeued ones followed by the
      queue, start with the start URL, are distinct and are exactly the visited set; the results
      are the pages kept from the dequeued URLs. */
  ghost predicate CrawlState(start: string, base: string, limit: int, web: Web, order: seq<string>,
                             queue: seq<string>, visited: set<string>, results: seq<Page>,
                             discovered: seq<string>) {
    && discovered == order + queue && discovered != [] && discovered[0] == start
    && visited == Elements(discovered) && Distinct(discovered)
    && results == Pages(order, web, base)
    && (limit <= 0 ==> order == [])
    && (order != [] ==> |results| <= limit)
    && OnHost(discovered, base)
    && Parented(discovered, order, web, base, limit)
    && discovered == Enqueued(start, base, limit, web, order)
    && Dequeues(start, base, limit, web, order)
  }

  /** Dequeuing the head of the queue while below the limit extends the breadth-first run, and
      the URLs enqueued grow by the links of that URL. */
  lemma StepKeepsRun(start: string, base: string, limit: int, web: Web, order: seq<string>,
                     discovered: seq<string>, current: string)
    requires discovered == Enqueued(start, base, limit, web, order)
    requires Dequeues(start, base, limit, web, order)
    requires |order| < |discovered| && current == discovered[|order|]
    requires |Pages(order, web, base)| < limit
    ensures Dequeues(start, base, limit, web, order + [current])
    ensures Enqueued(start, base, limit, web, order + [current])
         == discovered + Discovered(current, web, base, limit, |Pages(order + [current], web, base)|,
                                    Elements(discovered))
  {
    var o := order + [current];
    assert o[..|order|] == order;
    forall k | 0 <= k < |o| ensures DequeuedAt(start, base, limit, web, o, k) {
      if k < |order| {
        assert o[..k] == order[..k];
        assert DequeuedAt(start, base, limit, web, order, k);
      }
    }
  }

  /** The part of the invariant about the queue and the visited set survives one iteration. */
  lemma StepKeepsQueue(order: seq<string>, queue: seq<string>, visited: set<string>,
                       discovered: seq<string>, current: string, added: seq<string>)
    requires discovered == order + queue && queue != [] && current == queue[0]
    requires visited == Elements(discovered)
    ensures discovered + added == (order + [current]) + (queue[1..] + added)
    ensures visited + Elements(added) == Elements(discovered + added)
  {
    assert queue == [current] + queue[1..];
  }

  /** The results still are the pages of the dequeued URLs after one more visit. */
  lemma StepKeepsPages(order: seq<string>, current: string, web: Web, base: string, limit: int,
                       results: seq<Page>)
    requires results == Pages(order, web, base) && |results| < limit
    ensures results + Kept(current, web, base) == Pages(order + [current], web, base)
    ensures |results + Kept(current, web, base)| <= limit
  {
    assert (order + [current])[..|order|] == order;
  }

  /** Links harvested from the URL just dequeued keep every enqueued URL on the start host. */
  lemma StepKeepsOnHost(discovered: seq<string>, base: string, added: seq<string>)
    requires OnHost(discovered, base)
    requires forall k :: 0 <= k < |added| ==> '#' !in added[k] && Netloc(added[k]) == Some(base)
    ensures OnHost(discovered + added, base)
  {
    var all := discovered + added;
    forall k | 1 <= k < |all| ensures '#' !in all[k] && Netloc(all[k]) == Some(base) {
      if k >= |discovered| {
        assert all[k] == added[k - |discovered|];
      } else {
        assert all[k] == discovered[k];
      }
    }
  }

  /** One iteration of the `while` loop keeps its invariant. */
  lemma StepKeepsState(start: string, base: string, limit: int, web: Web, order: seq<string>,
                       queue: seq<string>, visited: set<string>, results: seq<Page>,
                       discovered: seq<string>)
    requires CrawlState(start, base, limit, web, order, queue, visited, results, discovered)
    requires queue != [] && |results| < limit
    ensures var current := queue[0];
      var results' := results + Kept(current, web, base);
      var added := Discovered(current, web, base, limit, |results'|, visited);
      CrawlState(start, base, limit, web, order + [current], queue[1..] + added,
                 visited + Elements(added), results', discovered + added)
  {
    var current := queue[0];
    var order' := order + [current];
    var results' := results + Kept(current, web, base);
    var added := Discovered(current, web, base, limit, |results'|, visited);
    StepKeepsQueue(order, queue, visited, discovered, current, added);
    StepKeepsPages(order, current, web, base, limit, results);
    StepKeepsRun(start, base, limit, web, order, discovered, current);
    HarvestedFromExtend(discovered, order, current, web, base, limit);
    if Accepts(web.fetch(current), base) && |results'| < limit {
      var hrefs := web.anchors(web.fetch(current).response.text);
      NewLinksResolve(current, hrefs, base, web.join, visited);
      DiscoverLinks(discovered, order', current, added, web, base, limit);
    } else {
      assert discovered + added == discovered;
    }
    StepKeepsOnHost(discovered, base, added);
  }

  /** The invariant holds before the first iteration. */
  lemma CrawlStart(start: string, base: string, limit: int, web: Web)
    ensures CrawlState(start, base, limit, web, [], [start], {start}, [], [start])
  {
    assert Elements([start]) == {start};
  }

  /** What the invariant gives once the loop stops. */
  lemma CrawlDone(start: string, base: string, limit: int, web: Web, order: seq<string>,
                  queue: seq<string>, visited: set<string>, results: seq<Page>, discovered: seq<string>)
    requires CrawlState(start, base, limit, web, order, queue, visited, results, discovered)
    requires queue == [] || |results| >= limit
    ensures results == Pages(order, web, base)
      && (limit <= 0 ==> order == [])
      && |results| <= (if limit < 0 then 0 else limit)
      && (limit > 0 ==> |results| == limit || order == discovered)
      && |order| <= |discovered| && order == discovered[..|order|]
      && discovered != [] && discovered[0] == start && Distinct(discovered)
      && OnHost(discovered, base)
      && Parented(discovered, order, web, base, limit)
  {
    assert discovered[..|order|] == order;
    if queue == [] {
      assert order == discovered;
    }
  }

  /** When the loop stops, the breadth-first run has finished. */
  lemma CrawlStops(start: string, base: string, limit: int, web: Web, order: seq<string>,
                   queue: seq<string>, results: seq<Page>, discovered: seq<string>)
    requires discovered == order + queue && discovered == Enqueued(start, base, limit, web, order)
    requires results == Pages(order, web, base)
    requires queue == [] || |results| >= limit
    ensures Finished(start, base, limit, web, order)
  {
    if queue == [] {
      assert discovered == order;
    }
  }

  /** The crawl. `order` is every URL dequeued (and so fetched), `discovered` every URL ever
      enqueued; the queue left over is the rest of `discovered`. */
  method Crawl(start: string, limit: int, web: Web)
    returns (r: Result<seq<Page>, CrawlError>, ghost order: seq<string>, ghost discovered: seq<string>)
    ensures start == [] <==> r == Failure(EmptyStartUrl)
    ensures r == Failure(MalformedStartUrl) <==> start != [] && Netloc(start).None?
    ensures r.Failure? ==> order == []
    ensures r.Success? ==> Crawled(start, limit, web, r.value, order)
    ensures r.Success? ==> Netloc(start).Some? && var base := Netloc(start).value;
      && discovered == Enqueued(start, base, limit, web, order)
      && (limit <= 0 ==> order == [])
      && |r.value| <= (if limit < 0 then 0 else limit)
      && (limit > 0 ==> |r.value| == limit || order == discovered)
      && |order| <= |discovered| && order == discovered[..|order|]
      && discovered != [] && discovered[0] == start && Distinct(discovered)
      && OnHost(discovered, base)
      && Parented(discovered, order, web, base, limit)
  {
    order, discovered := [], [];
    if start == [] {
      return Failure(EmptyStartUrl), order, discovered;
    }
    var startHost := Netloc(start);
    if startHost.None? {
      return Failure(MalformedStartUrl), order, discovered;
    }
    var results;
    results, order, discovered := Explore(start, startHost.value, limit, web);
    return Success(results), order, discovered;
  }

  /** The breadth-first loop of `crawl` over the host `base` of `start`. */
  method Explore(start: string, base: string, limit: int, web: Web)
    returns (results: seq<Page>, ghost order: seq<string>, ghost discovered: seq<string>)
    requires Netloc(start) == Some(base)
    ensures Dequeues(start, base, limit, web, order) && Finished(start, base, limit, web, order)
    ensures results == Pages(order, web, base)
    ensures discovered == Enqueued(start, base, limit, web, order)
      && (limit <= 0 ==> order == [])
      && |results| <= (if limit < 0 then 0 else limit)
      && (limit > 0 ==> |results| == limit || order == discovered)
      && |order| <= |discovered| && order == discovered[..|order|]
      && discovered != [] && discovered[0] == start && Distinct(discovered)
      && OnHost(discovered, base)
      && Parented(discovered, order, web, base, limit)
  {
    var queue := [start];
    var visited := {start};
    results, order, discovered := [], [], [start];
    CrawlStart(start, base, limit, web);
    while queue != [] && |results| < limit
      invariant CrawlState(start, base, limit, web, order, queue, visited, results, discovered)
      decreases limit - |results|, |queue|
    {
      order, queue, visited, results, discovered :=
        Step(start, base, limit, web, order, queue, visited, results, discovered);
    }
    CrawlDone(start, base, limit, web, order, queue, visited, results, discovered);
    CrawlStops(start, base, limit, web, order, queue, results, discovered);
  }

  /** One iteration of the loop of `crawl`: dequeue the head, fetch it, keep the page and
      enqueue its new links. Either a page is kept or the queue gets shorter. */
  method Step(start: string, base: string, limit: int, web: Web, ghost order: seq<string>,
              queue: seq<string>, visited: set<string>, results: seq<Page>, ghost discovered: seq<string>)
    returns (ghost order': seq<string>, queue': seq<string>, visited': set<string>,
             results': seq<Page>, ghost discovered': seq<string>)
    requires CrawlState(start, base, limit, web, order, queue, visited, results, discovered)
    requires queue != [] && |results| < limit
    ensures CrawlState(start, base, limit, web, order', queue', visited', results', discovered')
    ensures order' == order + [queue[0]]
    ensures |results'| > |results| || (results' == results && |queue'| < |queue|)
  {
    StepKeepsState(start, base, limit, web, order, queue, visited, results, discovered);
    var current := queue[0];
    order' := order + [current];
    results', queue', visited' := Visit(current, base, limit, web, results, queue[1..], visited);
    discovered' := discovered + Discovered(current, web, base, limit, |results'|, visited);
  }

  /** Dequeuing one more URL keeps every recorded parent. */
  lemma HarvestedFromExtend(discovered: seq<string>, before: seq<string>, current: string,
                            web: Web, base: string, limit: int)
    requires Parented(discovered, before, web, base, limit)
    ensures Parented(discovered, before + [current], web, base, limit)
  {
    forall k | 1 <= k < |discovered|
      ensures HasParent(discovered[k], k, before + [current], web, base, limit)
    {
      var j: nat :| j < k && HarvestedFrom(discovered[k], before, j, web, base, limit);
      var order := before + [current];
      assert order[..j + 1] == before[..j + 1] && order[j] == before[j];
      assert HarvestedFrom(discovered[k], order, j, web, base, limit);
    }
  }

  /** Appending the links harvested from the last dequeued page keeps the crawl invariants. */
  lemma DiscoverLinks(discovered: seq<string>, order: seq<string>, current: string, added: seq<string>,
                      web: Web, base: string, limit: int)
    requires order != [] && |order| <= |discovered| && order[|order| - 1] == current
    requires Accepts(web.fetch(current), base)
    requires |Pages(order, web, base)| < limit
    requires forall u :: u in added ==>
      exists h :: h in web.anchors(web.fetch(current).response.text) && Resolves(current, h, web.join, u)
    requires forall k :: 0 <= k < |added| ==> added[k] !in Elements(discovered)
    requires Parented(discovered, order, web, base, limit)
    requires Distinct(discovered) && Distinct(added)
    ensures Distinct(discovered + added)
    ensures Parented(discovered + added, order, web, base, limit)
  {
    var all := discovered + added;
    var last := |order| - 1;
    assert order[..last + 1] == order;
    forall k | 1 <= k < |all|
      ensures HasParent(all[k], k, order, web, base, limit)
    {
      if k >= |discovered| {
        assert all[k] == added[k - |discovered|];
        assert all[k] in added;
        assert HarvestedFrom(all[k], order, last, web, base, limit);
      } else {
        assert all[k] == discovered[k];
      }
    }
    forall i, j | 0 <= i < j < |all| ensures all[i] != all[j] {
      if j >= |discovered| && i < |discovered| {
        assert all[i] in Elements(discovered);
        assert all[j] == added[j - |discovered|];
      }
    }
  }

  /** `crawl(start_url)` with the default limit, `Config.MAX_PAGES_CRAWL`; `order` is the URLs it
      dequeued. */
  method CrawlDefault(start: string, web: Web) returns (r: Result<seq<Page>, CrawlError>, ghost order: seq<string>)
    ensures start == [] <==> r == Failure(EmptyStartUrl)
    ensures r == Failure(MalformedStartUrl) <==> start != [] && Netloc(start).None?
    ensures r.Success? ==> Crawled(start, Config.MaxPagesCrawl, web, r.value, order)
    ensures r.Success? ==> |r.value| <= Config.MaxPagesCrawl
    ensures r.Success? ==> forall p :: p in r.value ==> Netloc(p.url) == Netloc(start)
  {
    ghost var discovered;
    r, order, discovered := Crawl(start, Config.MaxPagesCrawl, web);
  }
}
