/**
 Properties that relate several operations: a created link resolves to its
 target on the cache path and on the store path, and one shorten, one
 redirect and one analytics query give the counts one visit should give.
 */
module Scenarios {
  import opened Wrappers
  import opened Store
  import opened UserAgent
  import opened Counting
  import opened Shortener
  import opened Redirector
  import opened Analytics

  /**
   A freshly created link redirects to the exact target it was created
   with: straight from the write-through cache entry, and from the store once
   that entry has expired or been evicted.
   */
  lemma CreatedLinkResolves(s: State, req: ShortenRequest, generatedId: string, now: int,
                            owner: Option<string>, visit: Request, g: GeoReply)
    requires IsNanoId(generatedId) && Inv(s)
    requires Shorten(s, req, generatedId, now, owner).outcome.Created?
    ensures var r := Shorten(s, req, generatedId, now, owner);
            var id := r.outcome.link.shortId;
            var evicted := r.state.(cache := r.state.cache - {id});
            && Resolve(r.state, id) == CacheHit(req.longUrl.value)
            && Redirect(r.state, id, visit, GeoAnswered(g)).outcome == RedirectTo(req.longUrl.value)
            && Resolve(evicted, id) == StoreHit(r.outcome.link)
            && Redirect(evicted, id, visit, GeoAnswered(g)).outcome == RedirectTo(req.longUrl.value)
  {
    var r := Shorten(s, req, generatedId, now, owner);
    FindByIdAppend(s.links, r.outcome.link, r.outcome.link.shortId);
  }

  /**
   One shorten into an empty store, one redirect, one per-alias query: the
   redirect goes to the target, exactly one visit is recorded, the state
   invariant holds throughout, and the
   summary reports one click from one client, on the visit's day when that
   day is inside the window, under the visit's OS and device.
   */
  lemma ShortenRedirectReport(url: string, generatedId: string, now: int, visit: Request, g: GeoReply,
                              day: int -> string, dayStart: string -> int, cutoff: int)
    requires url != "" && IsNanoId(generatedId)
    ensures var r1 := Shorten(Empty, ShortenRequest(Some(url), None, None), generatedId, now, None);
            var r2 := Redirect(r1.state, generatedId, visit, GeoAnswered(g));
            var os := GetOS(UaText(visit.userAgent));
            var device := GetDeviceType(UaText(visit.userAgent));
            var recent := dayStart(day(visit.timestamp)) > cutoff;
            && r1.outcome.Created?
            && r2.outcome == RedirectTo(url)
            && r2.state.visits == [Visit(generatedId, visit, g)]
            && Inv(r2.state)
            && AliasAnalytics(r2.state, generatedId, day, dayStart, cutoff)
               == AliasSummary(AliasReport(
                    1, 1,
                    if recent then [DateClicks(day(visit.timestamp), 1)] else [],
                    [CategoryStat(os, 1, 1)],
                    [CategoryStat(device, 1, 1)]))
  {
    var r1 := Shorten(Empty, ShortenRequest(Some(url), None, None), generatedId, now, None);
    var r2 := Redirect(r1.state, generatedId, visit, GeoAnswered(g));
    assert r1.state.links == [r1.outcome.link];
    EmptyInv();
    ShortenKeepsInv(Empty, ShortenRequest(Some(url), None, None), generatedId, now, None);
    RedirectKeepsInv(r1.state, generatedId, visit, GeoAnswered(g));
    SingleVisitReport(r2.state, generatedId, visit, g, day, dayStart, cutoff);
  }

  /** The per-alias summary of a known alias whose log is one visit. */
  lemma SingleVisitReport(s: State, alias: string, visit: Request, g: GeoReply,
                          day: int -> string, dayStart: string -> int, cutoff: int)
    requires FindById(s.links, alias).Some? && s.visits == [Visit(alias, visit, g)]
    ensures AliasAnalytics(s, alias, day, dayStart, cutoff)
            == AliasSummary(AliasReport(
                 1, 1,
                 if dayStart(day(visit.timestamp)) > cutoff then [DateClicks(day(visit.timestamp), 1)] else [],
                 [CategoryStat(GetOS(UaText(visit.userAgent)), 1, 1)],
                 [CategoryStat(GetDeviceType(UaText(visit.userAgent)), 1, 1)]))
  {
    var v := Visit(alias, visit, g);
    assert [v][..0] == [];
    assert Events([v], alias) == [v];
    assert Ips([v]) == {visit.ip};
    SingleVisitBreakdowns(v);
    SingleVisitDates(v, day, dayStart, cutoff);
  }

  /**
   As written, the per-alias report of a link visited once from an iPhone
   files the visit under macOS, as a mobile device.
   */
  lemma IPhoneVisitReportedAsMacOS(s: State, alias: string, visit: Request, g: GeoReply,
                                   day: int -> string, dayStart: string -> int, cutoff: int)
    requires FindById(s.links, alias).Some? && s.visits == [Visit(alias, visit, g)]
    requires visit.userAgent == Some(IPhoneUa)
    ensures AliasAnalytics(s, alias, day, dayStart, cutoff).AliasSummary?
    ensures AliasAnalytics(s, alias, day, dayStart, cutoff).report.osType == [CategoryStat(MacOS, 1, 1)]
    ensures AliasAnalytics(s, alias, day, dayStart, cutoff).report.deviceType == [CategoryStat(Mobile, 1, 1)]
  {
    SingleVisitReport(s, alias, visit, g, day, dayStart, cutoff);
    IPhoneReadAsMacOS();
    IPhoneUaMentionsMobile();
  }

  /** One visit gives one OS and one device category, each with one click from one client. */
  lemma SingleVisitBreakdowns(v: VisitEvent)
    ensures Stats(Tally(OsObs([v]))) == [CategoryStat(GetOS(UaText(v.userAgent)), 1, 1)]
    ensures Stats(Tally(DeviceObs([v]))) == [CategoryStat(GetDeviceType(UaText(v.userAgent)), 1, 1)]
  {
    StatsOne(Obs(GetOS(UaText(v.userAgent)), v.ipAddress));
    StatsOne(Obs(GetDeviceType(UaText(v.userAgent)), v.ipAddress));
    assert OsObs([v]) == [Obs(GetOS(UaText(v.userAgent)), v.ipAddress)];
    assert DeviceObs([v]) == [Obs(GetDeviceType(UaText(v.userAgent)), v.ipAddress)];
  }

  /** One visit gives one date with one click when its day is in the window, and none otherwise. */
  lemma SingleVisitDates(v: VisitEvent, day: int -> string, dayStart: string -> int, cutoff: int)
    ensures Dates(Tally(DayObs(Recent([v], day, dayStart, cutoff), day))) ==
              if dayStart(day(v.timestamp)) > cutoff then [DateClicks(day(v.timestamp), 1)] else []
  {
    assert [v][..0] == [];
    TallyOne(Obs(day(v.timestamp), v.ipAddress));
    assert DayObs(Recent([v], day, dayStart, cutoff), day) ==
             if dayStart(day(v.timestamp)) > cutoff then [Obs(day(v.timestamp), v.ipAddress)] else [];
  }

  lemma StatsOne<K>(o: Obs<K>)
    ensures Stats(Tally([o])) == [CategoryStat(o.key, 1, 1)]
  {
    TallyOne(o);
  }

  lemma TallyOne<K>(o: Obs<K>)
    ensures Tally([o]) == [Bucket(o.key, 1, {o.ip})]
  {
    assert [o][..0] == [];
  }

}
