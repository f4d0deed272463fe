/**
 The persistent state the controller works on, with the I/O stripped away:
 the link collection (the `Url` model), the key-value cache (Redis) and the
 visit log (the `Analytics` model). Collections are in the store's natural
 order, which is the order `find` and `findOne` scan them in.
 */
module Store {
  import opened Wrappers

  /**
   A shortened link. `owner` is the authenticated creator's id; see the
   ownership module for why the controller as written never fills it.
   */
  datatype ShortLink = ShortLink(
    shortId: string,
    redirectUrl: string,
    topic: Option<string>,
    owner: Option<string>,
    createdAt: int)

  datatype Location = Location(country: Option<string>, region: Option<string>, city: Option<string>)

  /** One recorded redirect. A missing user-agent header is None. */
  datatype VisitEvent = VisitEvent(
    shortId: string,
    timestamp: int,
    userAgent: Option<string>,
    ipAddress: string,
    location: Location)

  /**
   A cached value: the bare target URL written at creation time, or a JSON
   snapshot of the link written when a redirect repopulates the cache.
   */
  datatype CacheValue = Raw(url: string) | Snapshot(link: ShortLink)

  /** A cache entry with its time-to-live in seconds (None: no expiry). */
  datatype CacheEntry = CacheEntry(value: CacheValue, ttl: Option<nat>)

  datatype State = State(
    links: seq<ShortLink>,
    cache: map<string, CacheEntry>,
    visits: seq<VisitEvent>)

  const Empty: State := State([], map[], [])

  /** `Url.findOne({ shortId: id })`: the first link with that id. */
  function FindById(links: seq<ShortLink>, id: string): (r: Option<ShortLink>)
    ensures r.Some? ==> r.value in links && r.value.shortId == id
    ensures r.None? <==> forall i :: 0 <= i < |links| ==> links[i].shortId != id
  {
    if |links| == 0 then None
    else if links[0].shortId == id then Some(links[0])
    else FindById(links[1..], id)
  }

  /** `Url.findOne({ redirectUrl: url })`: the first link with that target. */
  function FindByUrl(links: seq<ShortLink>, url: string): (r: Option<ShortLink>)
    ensures r.Some? ==> r.value in links && r.value.redirectUrl == url
    ensures r.None? <==> forall i :: 0 <= i < |links| ==> links[i].redirectUrl != url
  {
    if |links| == 0 then None
    else if links[0].redirectUrl == url then Some(links[0])
    else FindByUrl(links[1..], url)
  }

  /** Appending a link leaves every earlier lookup as it was. */
  lemma {:induction false} FindByIdAppend(links: seq<ShortLink>, l: ShortLink, id: string)
    ensures FindById(links + [l], id) ==
              if FindById(links, id).Some? then FindById(links, id)
              else if l.shortId == id then Some(l) else None
  {
    if |links| > 0 {
      assert (links + [l])[1..] == links[1..] + [l];
      FindByIdAppend(links[1..], l, id);
    }
  }

  lemma {:induction false} FindByUrlAppend(links: seq<ShortLink>, l: ShortLink, url: string)
    ensures FindByUrl(links + [l], url) ==
              if FindByUrl(links, url).Some? then FindByUrl(links, url)
              else if l.redirectUrl == url then Some(l) else None
  {
    if |links| > 0 {
      assert (links + [l])[1..] == links[1..] + [l];
      FindByUrlAppend(links[1..], l, url);
    }
  }

  /** With unique ids, the link found for an id is the only one carrying it. */
  lemma FindByIdUnique(links: seq<ShortLink>, i: nat)
    requires UniqueIds(links) && i < |links|
    ensures FindById(links, links[i].shortId) == Some(links[i])
  {
    if i > 0 {
      assert UniqueIds(links[1..]) by {
        forall a, b | 0 <= a < b < |links[1..]|
          ensures links[1..][a].shortId != links[1..][b].shortId
        {
          assert links[1..][a] == links[a + 1] && links[1..][b] == links[b + 1];
        }
      }
      FindByIdUnique(links[1..], i - 1);
    }
  }

  /** `Analytics.find({ shortId: id })`: the visits of one link, in log order. */
  function Events(visits: seq<VisitEvent>, id: string): (r: seq<VisitEvent>)
    ensures |r| <= |visits|
    ensures forall e :: e in r <==> e in visits && e.shortId == id
  {
    if |visits| == 0 then []
    else
      var last := visits[|visits| - 1];
      Events(visits[..|visits| - 1], id) + (if last.shortId == id then [last] else [])
  }

  /** Each event of the link is selected as many times as the log holds it: none is merged or dropped. */
  lemma {:induction false} EventsCount(visits: seq<VisitEvent>, id: string, e: VisitEvent)
    ensures multiset(Events(visits, id))[e] == if e.shortId == id then multiset(visits)[e] else 0
    decreases |visits|
  {
    if |visits| > 0 {
      assert visits == visits[..|visits| - 1] + [visits[|visits| - 1]];
      EventsCount(visits[..|visits| - 1], id, e);
    }
  }

  /** One step of an induction over a snoc list: a shared tail is moved outside. */
  lemma SnocStep<T>(ab: seq<T>, ab': seq<T>, a: seq<T>, b': seq<T>, b: seq<T>, t: seq<T>)
    requires ab == ab' + t && b == b' + t && ab' == a + b'
    ensures ab == a + b
  {
  }

  /**
   An event on its own is kept exactly when it has the shortId, and
   appending it extends the selection by it or by nothing.
   */
  lemma EventsSnoc(xs: seq<VisitEvent>, x: VisitEvent, id: string)
    ensures Events([x], id) == if x.shortId == id then [x] else []
    ensures Events(xs + [x], id) == Events(xs, id) + Events([x], id)
  {
    assert [x][..0] == [];
    assert (xs + [x])[..|xs|] == xs;
  }

  /**
   The alias's events come in log order: filtering a concatenation
   concatenates the filtered parts. With `EventsSnoc` for single events
   this fixes the result, order included.
   */
  lemma {:induction false} EventsOrder(a: seq<VisitEvent>, b: seq<VisitEvent>, id: string)
    ensures Events(a + b, id) == Events(a, id) + Events(b, id)
    decreases |b|
  {
    if |b| == 0 {
      assert a + b == a;
    } else {
      var b', last := b[..|b| - 1], b[|b| - 1];
      assert b == b' + [last];
      assert a + b == (a + b') + [last];
      EventsOrder(a, b', id);
      EventsSnoc(a + b', last, id);
      EventsSnoc(b', last, id);
      var f := (xs: seq<VisitEvent>) => Events(xs, id);
      SnocStep(f(a + b), f(a + b'), f(a), f(b'), f(b), f([last]));
    }
  }

  predicate UniqueIds(links: seq<ShortLink>) {
    forall i, j :: 0 <= i < j < |links| ==> links[i].shortId != links[j].shortId
  }

  predicate UniqueUrls(links: seq<ShortLink>) {
    forall i, j :: 0 <= i < j < |links| ==> links[i].redirectUrl != links[j].redirectUrl
  }

  /**
   A cache value agrees with the store when it names the stored link's
   target: a raw URL equal to it, or a snapshot equal to the link.
   */
  predicate CacheAgrees(links: seq<ShortLink>, key: string, v: CacheValue) {
    match v
    case Raw(url) => FindById(links, key).Some? && FindById(links, key).value.redirectUrl == url
    case Snapshot(l) => FindById(links, key) == Some(l)
  }

  ghost predicate Coherent(s: State) {
    forall k :: k in s.cache ==> CacheAgrees(s.links, k, s.cache[k].value)
  }

  /**
   The state invariant: ids are unique (the schema's unique index), targets
   are unique (dedup-on-create), and the cache never disagrees with the store.
   */
  ghost predicate Inv(s: State) {
    UniqueIds(s.links) && UniqueUrls(s.links) && Coherent(s)
  }

  /** The empty store, where the server starts, satisfies the invariant. */
  lemma EmptyInv()
    ensures Inv(Empty)
  {
  }

  /** Dropping a cache entry (expiry, eviction) keeps the invariant. */
  lemma EvictionKeepsInv(s: State, k: string)
    requires Inv(s)
    ensures Inv(s.(cache := s.cache - {k}))
  {
  }

}
