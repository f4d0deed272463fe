/**
 redirecturl: a cache-aside lookup with store fallback and cache
 repopulation, followed by the recording of one visit event. The geo lookup
 and the clock are inputs.
 */
module Redirector {
  import opened Wrappers
  import opened Store

  /** What the request supplies: the user-agent header, the client IP, the time. */
  datatype Request = Request(userAgent: Option<string>, ip: string, timestamp: int)

  /** The ip-api answer's fields (absent when the service reports a failure status). */
  datatype GeoReply = GeoReply(country: Option<string>, regionName: Option<string>, city: Option<string>)

  /** The geo HTTP call either answers or throws (network error, non-2xx status). */
  datatype GeoLookup = GeoAnswered(reply: GeoReply) | GeoFailed

  /** Where the target came from. */
  datatype Resolution = CacheHit(target: string) | StoreHit(link: ShortLink) | Unresolved

  datatype RedirectOutcome =
    | RedirectTo(target: string) // 302
    | NotFound                   // 404 "Short URL not found"
    | InternalError              // 500

  datatype RedirectStep = RedirectStep(outcome: RedirectOutcome, state: State)

  /** Expiry, in seconds, of an entry written back after a cache miss. */
  const RepopulateTtl: nat := 3600

  /**
   A cached value is used only when the stored text is truthy: the empty
   string reads as a miss. A snapshot's JSON text is never empty.
   */
  predicate Usable(v: CacheValue) {
    !(v.Raw? && v.url == "")
  }

  /** The target a cached value names, parsed as JSON or taken verbatim. */
  function CachedTarget(v: CacheValue): string {
    match v
    case Raw(url) => url
    case Snapshot(l) => l.redirectUrl
  }

  /** Cache first, then the store. */
  function Resolve(s: State, alias: string): (r: Resolution)
    ensures r.CacheHit? <==> alias in s.cache && Usable(s.cache[alias].value)
    ensures r.Unresolved? <==>
              !(alias in s.cache && Usable(s.cache[alias].value)) && FindById(s.links, alias).None?
    ensures r.StoreHit? ==> r.link in s.links && r.link.shortId == alias
    ensures r.StoreHit? ==> Some(r.link) == FindById(s.links, alias)
    ensures r.CacheHit? && s.cache[alias].value.Raw? ==> r.target == s.cache[alias].value.url
    ensures r.CacheHit? && s.cache[alias].value.Snapshot? ==>
              r.target == s.cache[alias].value.link.redirectUrl
  {
    if alias in s.cache && Usable(s.cache[alias].value) then
      CacheHit(CachedTarget(s.cache[alias].value))
    else
      match FindById(s.links, alias)
      case None => Unresolved
      case Some(l) => StoreHit(l)
  }

  function TargetOf(r: Resolution): string
    requires !r.Unresolved?
  {
    match r
    case CacheHit(t) => t
    case StoreHit(l) => l.redirectUrl
  }

  /** The visit event saved for a request. */
  function Visit(alias: string, req: Request, g: GeoReply): VisitEvent {
    VisitEvent(alias, req.timestamp, req.userAgent, req.ip, Location(g.country, g.regionName, g.city))
  }

  /**
   Redirect `alias`. The repopulating cache write happens before the geo
   lookup, so it survives a geo failure; the visit is appended only when the
   lookup answered, and only then is the redirect issued.
   */
  function Redirect(s: State, alias: string, req: Request, geo: GeoLookup): (r: RedirectStep)
    ensures r.state.links == s.links
    ensures r.outcome.NotFound? <==> Resolve(s, alias).Unresolved?
    ensures r.outcome.NotFound? ==> r.state == s
    ensures r.outcome.InternalError? <==> !Resolve(s, alias).Unresolved? && geo.GeoFailed?
    ensures r.outcome.RedirectTo? ==>
              && r.outcome.target == TargetOf(Resolve(s, alias))
              && r.state.visits == s.visits + [Visit(alias, req, geo.reply)]
    ensures !r.outcome.RedirectTo? ==> r.state.visits == s.visits
    ensures Resolve(s, alias).StoreHit? ==>
              r.state.cache == s.cache[alias := CacheEntry(Snapshot(Resolve(s, alias).link), Some(RepopulateTtl))]
    ensures !Resolve(s, alias).StoreHit? ==> r.state.cache == s.cache
  {
    match Resolve(s, alias)
    case Unresolved => RedirectStep(NotFound, s)
    case CacheHit(t) => Record(s, alias, t, req, geo)
    case StoreHit(l) =>
      var s1 := s.(cache := s.cache[alias := CacheEntry(Snapshot(l), Some(RepopulateTtl))]);
      Record(s1, alias, l.redirectUrl, req, geo)
  }

  /**
   The visit-recording tail of the handler: the geo lookup either answers,
   and then the visit is saved and the redirect issued, or it throws and the
   request ends in a 500 with nothing recorded. Links and cache are untouched.
   */
  function Record(s: State, alias: string, target: string, req: Request, geo: GeoLookup): (r: RedirectStep)
    ensures r.state.links == s.links && r.state.cache == s.cache
    ensures r.outcome.RedirectTo? <==> geo.GeoAnswered?
    ensures r.outcome.InternalError? <==> geo.GeoFailed?
    ensures geo.GeoAnswered? ==>
              && r.outcome.target == target
              && r.state.visits == s.visits + [Visit(alias, req, geo.reply)]
              && r.state.visits[|s.visits|].ipAddress == req.ip
              && r.state.visits[|s.visits|].userAgent == req.userAgent
              && r.state.visits[|s.visits|].location.region == geo.reply.regionName
    ensures geo.GeoFailed? ==> r.state == s
  {
    match geo
    case GeoFailed => RedirectStep(InternalError, s)
    case GeoAnswered(g) => RedirectStep(RedirectTo(target), s.(visits := s.visits + [Visit(alias, req, g)]))
  }

  /**
   The cache is transparent: in a coherent state the resolution finds the
   alias exactly when the store has it, and names the stored target.
   */
  lemma ResolveAgreesWithStore(s: State, alias: string)
    requires Inv(s)
    ensures Resolve(s, alias).Unresolved? <==> FindById(s.links, alias).None?
    ensures !Resolve(s, alias).Unresolved? ==>
              TargetOf(Resolve(s, alias)) == FindById(s.links, alias).value.redirectUrl
  {
    if alias in s.cache {
      assert CacheAgrees(s.links, alias, s.cache[alias].value);
    }
  }

  /** What a redirect answers depends on the store alone, whatever the cache holds. */
  lemma RedirectFollowsStore(s: State, alias: string, req: Request, g: GeoReply)
    requires Inv(s)
    ensures Redirect(s, alias, req, GeoAnswered(g)).outcome ==
              match FindById(s.links, alias)
              case None => NotFound
              case Some(l) => RedirectTo(l.redirectUrl)
  {
    ResolveAgreesWithStore(s, alias);
  }

  /** A redirect keeps the invariant: a repopulated entry is the stored link itself. */
  lemma RedirectKeepsInv(s: State, alias: string, req: Request, geo: GeoLookup)
    requires Inv(s)
    ensures Inv(Redirect(s, alias, req, geo).state)
  {
    var s' := Redirect(s, alias, req, geo).state;
    forall k | k in s'.cache
      ensures CacheAgrees(s'.links, k, s'.cache[k].value)
    {
      if k != alias || !Resolve(s, alias).StoreHit? {
        assert CacheAgrees(s.links, k, s.cache[k].value);
      }
    }
  }

  /**
   After a store fallback the alias is cached, so the next resolution is a
   cache hit naming the same target, whether or not the geo lookup failed.
   */
  lemma SecondResolutionHitsCache(s: State, alias: string, req: Request, geo: GeoLookup)
    requires Resolve(s, alias).StoreHit?
    ensures Resolve(Redirect(s, alias, req, geo).state, alias)
            == CacheHit(Resolve(s, alias).link.redirectUrl)
  {
  }

}
