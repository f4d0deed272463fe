/**
 Who owns a link. getOverallAnalytics selects the caller's links with
 `Url.find({ userId })`, but the link schema has no `userId` field and
 generateShortUrl never records the caller, so no stored link ever matches:
 the overall report is NotFound for every user, even one who has just
 created links. The corrected shorten (Shortener.Shorten with an owner)
 records the creator, and the overall report then covers the new link.
 */
module Ownership {
  import opened Wrappers
  import opened Store
  import opened Shortener
  import opened Redirector
  import opened Analytics

  /** generateShortUrl as written: nothing about the caller is stored on the link. */
  function ShortenAsWritten(s: State, req: ShortenRequest, generatedId: string, now: int): (r: ShortenStep)
    requires IsNanoId(generatedId)
    ensures r.outcome.Created? ==> r.outcome.link.owner.None?
    ensures !r.outcome.Created? ==> r.state == s
  {
    Shorten(s, req, generatedId, now, None)
  }

  predicate Ownerless(links: seq<ShortLink>) {
    forall i :: 0 <= i < |links| ==> links[i].owner.None?
  }

  /** As written, neither shorten nor redirect ever gives a link an owner. */
  lemma AsWrittenStaysOwnerless(s: State, req: ShortenRequest, generatedId: string, now: int,
                                alias: string, visit: Request, geo: GeoLookup)
    requires IsNanoId(generatedId) && Ownerless(s.links)
    ensures Ownerless(ShortenAsWritten(s, req, generatedId, now).state.links)
    ensures Ownerless(Redirect(s, alias, visit, geo).state.links)
  {
  }

  lemma {:induction false} NoOwnedLinks(links: seq<ShortLink>, user: string)
    requires Ownerless(links)
    ensures OwnedLinks(links, user) == []
    decreases |links|
  {
    if |links| > 0 {
      NoOwnedLinks(links[..|links| - 1], user);
    }
  }

  /** As written, the overall report is NotFound for every user. */
  lemma OverallNeverFindsLinksAsWritten(s: State, user: string, day: int -> string)
    requires Ownerless(s.links)
    ensures OverallAnalytics(s, user, day) == NoLinksForUser
  {
    NoOwnedLinks(s.links, user);
  }

  /**
   The concrete case: a user shortens https://example.com into an empty
   store, and the overall report for that same user is still NotFound.
   */
  lemma OverallMissesNewLinkAsWritten(user: string, day: int -> string)
    ensures var req := ShortenRequest(Some("https://example.com"), None, None);
            var r := ShortenAsWritten(Empty, req, "k3Yb9QzT", 0);
            && r.outcome.Created?
            && OverallAnalytics(r.state, user, day) == NoLinksForUser
  {
    var req := ShortenRequest(Some("https://example.com"), None, None);
    var r := ShortenAsWritten(Empty, req, "k3Yb9QzT", 0);
    assert r.state.links == [r.outcome.link];
    OverallNeverFindsLinksAsWritten(r.state, user, day);
  }

  /**
   Corrected: a link created on behalf of `user` is counted by that user's
   overall report, which lists one more link than before.
   */
  lemma OverallSeesOwnLink(s: State, req: ShortenRequest, generatedId: string, now: int,
                           user: string, day: int -> string)
    requires IsNanoId(generatedId)
    requires Shorten(s, req, generatedId, now, Some(user)).outcome.Created?
    ensures var s' := Shorten(s, req, generatedId, now, Some(user)).state;
            && OverallAnalytics(s', user, day).OverallSummary?
            && OverallAnalytics(s', user, day).report.totalUrls == |OwnedLinks(s.links, user)| + 1
  {
    var r := Shorten(s, req, generatedId, now, Some(user));
    OwnedLinksSnoc(s.links, r.outcome.link, user);
  }

}
