/**
 generateShortUrl as a state transition: validate the target, deduplicate by
 target, reject a taken custom alias, then insert the link and write the bare
 target URL into the cache with no expiry.
 */
module Shortener {
  import opened Wrappers
  import opened Store

  /** The request body; JavaScript falsy values (missing, null, "") are None or "". */
  datatype ShortenRequest = ShortenRequest(
    longUrl: Option<string>,
    customAlias: Option<string>,
    topic: Option<string>)

  datatype ShortenOutcome =
    | MissingLongUrl                       // 400 "longUrl is required"
    | AlreadyShortened(existing: ShortLink) // 200, the existing link
    | AliasInUse                           // 400 "Custom alias is already in use"
    | DuplicateKey                         // 500: save() hits the unique index
    | Created(link: ShortLink)             // 201

  datatype ShortenStep = ShortenStep(outcome: ShortenOutcome, state: State)

  /** JavaScript truthiness of an optional string field. */
  predicate Truthy(o: Option<string>) {
    o.Some? && o.value != ""
  }

  predicate UrlSafeChar(c: char) {
    'A' <= c <= 'Z' || 'a' <= c <= 'z' || '0' <= c <= '9' || c == '_' || c == '-'
  }

  /** What `nanoid(8)` returns: eight characters of the URL-safe alphabet. */
  predicate IsNanoId(id: string) {
    |id| == 8 && forall i :: 0 <= i < |id| ==> UrlSafeChar(id[i])
  }

  /**
   The id the new link gets: the custom alias when one is given, otherwise
   the generated id (the code has no collision retry).
   */
  function ChosenId(req: ShortenRequest, generatedId: string): string {
    if Truthy(req.customAlias) then req.customAlias.value else generatedId
  }

  /**
   Shorten `req.longUrl`. `generatedId` is the value `nanoid(8)` would return,
   `now` the creation time, and `owner` the authenticated creator recorded on
   the link (None reproduces the controller as written).
   */
  function Shorten(s: State, req: ShortenRequest, generatedId: string, now: int,
                   owner: Option<string>): (r: ShortenStep)
    requires IsNanoId(generatedId)
    ensures !r.outcome.Created? ==> r.state == s
    ensures r.outcome.MissingLongUrl? <==> !Truthy(req.longUrl)
    ensures r.outcome.AlreadyShortened? <==>
              Truthy(req.longUrl) && FindByUrl(s.links, req.longUrl.value).Some?
    ensures r.outcome.AlreadyShortened? ==>
              r.outcome.existing in s.links && r.outcome.existing.redirectUrl == req.longUrl.value
    ensures r.outcome.AliasInUse? <==>
              Truthy(req.longUrl) && FindByUrl(s.links, req.longUrl.value).None?
              && Truthy(req.customAlias) && FindById(s.links, req.customAlias.value).Some?
    ensures r.outcome.DuplicateKey? <==>
              Truthy(req.longUrl) && FindByUrl(s.links, req.longUrl.value).None?
              && !Truthy(req.customAlias) && FindById(s.links, generatedId).Some?
    ensures r.outcome.Created? ==>
              var l := r.outcome.link;
              && l.shortId == ChosenId(req, generatedId)
              && l.redirectUrl == req.longUrl.value
              && l.topic == (if Truthy(req.topic) then req.topic else None)
              && l.owner == owner
              && l.createdAt == now
              && FindById(s.links, l.shortId).None?
              && FindByUrl(s.links, l.redirectUrl).None?
              && r.state.links == s.links + [l]
              && r.state.cache == s.cache[l.shortId := CacheEntry(Raw(l.redirectUrl), None)]
              && r.state.visits == s.visits
  {
    if !Truthy(req.longUrl) then ShortenStep(MissingLongUrl, s)
    else
      var url := req.longUrl.value;
      match FindByUrl(s.links, url)
      case Some(existing) => ShortenStep(AlreadyShortened(existing), s)
      case None =>
        if Truthy(req.customAlias) && FindById(s.links, req.customAlias.value).Some? then
          ShortenStep(AliasInUse, s)
        else
          var id := ChosenId(req, generatedId);
          if FindById(s.links, id).Some? then ShortenStep(DuplicateKey, s)
          else
            var link := ShortLink(id, url, if Truthy(req.topic) then req.topic else None, owner, now);
            ShortenStep(Created(link),
                        s.(links := s.links + [link],
                           cache := s.cache[id := CacheEntry(Raw(url), None)]))
  }

  /** A successful shorten adds exactly one link and one cache key; every other lookup is unchanged. */
  lemma ShortenFrame(s: State, req: ShortenRequest, generatedId: string, now: int,
                     owner: Option<string>, k: string)
    requires IsNanoId(generatedId)
    requires Shorten(s, req, generatedId, now, owner).outcome.Created?
    ensures var r := Shorten(s, req, generatedId, now, owner);
            var l := r.outcome.link;
            && |r.state.links| == |s.links| + 1
            && FindById(r.state.links, l.shortId) == Some(l)
            && (k != l.shortId ==> FindById(r.state.links, k) == FindById(s.links, k))
            && r.state.cache.Keys == s.cache.Keys + {l.shortId}
            && (k != l.shortId && k in s.cache ==> r.state.cache[k] == s.cache[k])
  {
    var r := Shorten(s, req, generatedId, now, owner);
    FindByIdAppend(s.links, r.outcome.link, k);
    FindByIdAppend(s.links, r.outcome.link, r.outcome.link.shortId);
  }

  /** Shorten keeps ids unique, targets unique and the cache coherent. */
  lemma ShortenKeepsInv(s: State, req: ShortenRequest, generatedId: string, now: int,
                        owner: Option<string>)
    requires IsNanoId(generatedId) && Inv(s)
    ensures Inv(Shorten(s, req, generatedId, now, owner).state)
  {
    var r := Shorten(s, req, generatedId, now, owner);
    if r.outcome.Created? {
      var l := r.outcome.link;
      var s' := r.state;
      assert UniqueIds(s'.links) by {
        forall i, j | 0 <= i < j < |s'.links|
          ensures s'.links[i].shortId != s'.links[j].shortId
        {
          if j == |s.links| {
            assert s'.links[i] == s.links[i];
          }
        }
      }
      assert UniqueUrls(s'.links) by {
        forall i, j | 0 <= i < j < |s'.links|
          ensures s'.links[i].redirectUrl != s'.links[j].redirectUrl
        {
          if j == |s.links| {
            assert s'.links[i] == s.links[i];
          }
        }
      }
      forall k | k in s'.cache
        ensures CacheAgrees(s'.links, k, s'.cache[k].value)
      {
        FindByIdAppend(s.links, l, k);
        if k != l.shortId {
          assert CacheAgrees(s.links, k, s.cache[k].value);
        }
      }
    }
  }

  /**
   Dedup runs before the alias check: an already-shortened target is returned
   unchanged even when the request also names a taken alias.
   */
  lemma DedupBeforeAliasCheck(s: State, req: ShortenRequest, generatedId: string, now: int,
                              owner: Option<string>)
    requires IsNanoId(generatedId)
    requires Truthy(req.longUrl) && FindByUrl(s.links, req.longUrl.value).Some?
    requires Truthy(req.customAlias) && FindById(s.links, req.customAlias.value).Some?
    ensures Shorten(s, req, generatedId, now, owner)
            == ShortenStep(AlreadyShortened(FindByUrl(s.links, req.longUrl.value).value), s)
  {
  }

  /**
   Idempotence by target: shortening the same target again returns the link
   created first and changes nothing, and the store holds exactly one link
   for that target.
   */
  lemma ShortenIdempotent(s: State, req: ShortenRequest, generatedId: string, now: int,
                          owner: Option<string>, req2: ShortenRequest, generatedId2: string,
                          now2: int, owner2: Option<string>)
    requires IsNanoId(generatedId) && IsNanoId(generatedId2)
    requires Shorten(s, req, generatedId, now, owner).outcome.Created?
    requires req2.longUrl == req.longUrl
    ensures var r := Shorten(s, req, generatedId, now, owner);
            var r2 := Shorten(r.state, req2, generatedId2, now2, owner2);
            && r2 == ShortenStep(AlreadyShortened(r.outcome.link), r.state)
            && forall i :: 0 <= i < |r.state.links| && r.state.links[i].redirectUrl == req.longUrl.value
                 ==> r.state.links[i] == r.outcome.link
  {
    var r := Shorten(s, req, generatedId, now, owner);
    FindByUrlAppend(s.links, r.outcome.link, req.longUrl.value);
  }

  /**
   Without a custom alias the new id is an eight-character nanoid distinct
   from every id already in the store.
   */
  lemma GeneratedIdIsFresh(s: State, req: ShortenRequest, generatedId: string, now: int,
                           owner: Option<string>)
    requires IsNanoId(generatedId) && !Truthy(req.customAlias)
    requires Shorten(s, req, generatedId, now, owner).outcome.Created?
    ensures var l := Shorten(s, req, generatedId, now, owner).outcome.link;
            IsNanoId(l.shortId) && forall i :: 0 <= i < |s.links| ==> s.links[i].shortId != l.shortId
  {
  }

}
