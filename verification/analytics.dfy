/**
 The three analytics handlers as folds over the visit log: per alias (with a
 seven-day window on the date histogram), per topic and per owner (both with
 an unrestricted histogram). Date formatting is the abstract `day` function
 (timestamp to "YYYY-MM-DD"); `dayStart` parses such a date back to an
 instant and `cutoff` is the instant seven days before now.
 */
module Analytics {
  import opened Wrappers
  import opened Store
  import opened UserAgent
  import opened Counting

  /** `{ date, clicks }` */
  datatype DateClicks = DateClicks(date: string, clicks: nat)

  /** `{ osName | deviceName, uniqueClicks, uniqueUsers }`: `clicks` counts events. */
  datatype CategoryStat<K> = CategoryStat(name: K, clicks: nat, users: nat)

  datatype AliasReport = AliasReport(
    totalClicks: nat,
    uniqueClicks: nat,
    clicksByDate: seq<DateClicks>,
    osType: seq<CategoryStat<OS>>,
    deviceType: seq<CategoryStat<Device>>)

  datatype AliasOutcome =
    | AliasNotFound            // 404
    | NoDataYet                // 200 "No analytics data available yet"
    | AliasSummary(report: AliasReport)

  /** Per-link entry of the topic report; `shortId` stands for the short URL built from it. */
  datatype UrlStat = UrlStat(shortId: string, totalClicks: nat, uniqueClicks: nat)

  datatype TopicReport = TopicReport(
    totalClicks: nat,
    uniqueClicks: nat,
    clicksByDate: seq<DateClicks>,
    urls: seq<UrlStat>)

  datatype TopicOutcome = NoLinksForTopic | TopicSummary(report: TopicReport)

  datatype OverallReport = OverallReport(
    totalUrls: nat,
    totalClicks: nat,
    uniqueClicks: nat,
    clicksByDate: seq<DateClicks>,
    osType: seq<CategoryStat<OS>>,
    deviceType: seq<CategoryStat<Device>>)

  datatype OverallOutcome = NoLinksForUser | OverallSummary(report: OverallReport)

  // ---------------------------------------------------------------------
  // Event streams and what is observed of them

  /** `new Set(events.map(e => e.ipAddress))` */
  function Ips(evs: seq<VisitEvent>): set<string> {
    if |evs| == 0 then {} else Ips(evs[..|evs| - 1]) + {evs[|evs| - 1].ipAddress}
  }

  function OsObs(evs: seq<VisitEvent>): seq<Obs<OS>> {
    seq(|evs|, i requires 0 <= i < |evs| => Obs(GetOS(UaText(evs[i].userAgent)), evs[i].ipAddress))
  }

  function DeviceObs(evs: seq<VisitEvent>): seq<Obs<Device>> {
    seq(|evs|, i requires 0 <= i < |evs| => Obs(GetDeviceType(UaText(evs[i].userAgent)), evs[i].ipAddress))
  }

  function DayObs(evs: seq<VisitEvent>, day: int -> string): seq<Obs<string>> {
    seq(|evs|, i requires 0 <= i < |evs| => Obs(day(evs[i].timestamp), evs[i].ipAddress))
  }

  /** The events whose calendar day starts after the cutoff (`moment(date).isAfter(sevenDaysAgo)`). */
  function Recent(evs: seq<VisitEvent>, day: int -> string, dayStart: string -> int, cutoff: int)
    : (r: seq<VisitEvent>)
    ensures |r| <= |evs|
    ensures forall e :: e in r <==> e in evs && dayStart(day(e.timestamp)) > cutoff
  {
    if |evs| == 0 then []
    else
      var last := evs[|evs| - 1];
      Recent(evs[..|evs| - 1], day, dayStart, cutoff)
        + (if dayStart(day(last.timestamp)) > cutoff then [last] else [])
  }

  /**
   An event on its own is kept exactly when its day is in the window, and
   appending it extends the window by it or by nothing.
   */
  lemma RecentSnoc(xs: seq<VisitEvent>, x: VisitEvent, day: int -> string, dayStart: string -> int,
                   cutoff: int)
    ensures Recent([x], day, dayStart, cutoff) == if dayStart(day(x.timestamp)) > cutoff then [x] else []
    ensures Recent(xs + [x], day, dayStart, cutoff)
            == Recent(xs, day, dayStart, cutoff) + Recent([x], day, dayStart, cutoff)
  {
    assert [x][..0] == [];
    assert (xs + [x])[..|xs|] == xs;
  }

  /**
   The windowed events come in log order: windowing a concatenation
   concatenates the windows. With `RecentSnoc` for single events this fixes
   the result, order included.
   */
  lemma {:induction false} RecentOrder(a: seq<VisitEvent>, b: seq<VisitEvent>, day: int -> string,
                                       dayStart: string -> int, cutoff: int)
    ensures Recent(a + b, day, dayStart, cutoff)
            == Recent(a, day, dayStart, cutoff) + Recent(b, day, dayStart, cutoff)
    decreases |b|
  {
    if |b| == 0 {
      assert a + b == a;
    } else {
      var b', last := b[..|b| - 1], b[|b| - 1];
      assert b == b' + [last];
      assert a + b == (a + b') + [last];
      RecentOrder(a, b', day, dayStart, cutoff);
      RecentSnoc(a + b', last, day, dayStart, cutoff);
      RecentSnoc(b', last, day, dayStart, cutoff);
      var f := (xs: seq<VisitEvent>) => Recent(xs, day, dayStart, cutoff);
      SnocStep(f(a + b), f(a + b'), f(a), f(b'), f(b), f([last]));
    }
  }

  function Dates(t: seq<Bucket<string>>): seq<DateClicks> {
    seq(|t|, i requires 0 <= i < |t| => DateClicks(t[i].key, t[i].clicks))
  }

  function Stats<K>(t: seq<Bucket<K>>): seq<CategoryStat<K>> {
    seq(|t|, i requires 0 <= i < |t| => CategoryStat(t[i].key, t[i].clicks, |t[i].users|))
  }

  function SumDates(d: seq<DateClicks>): nat {
    if |d| == 0 then 0 else d[0].clicks + SumDates(d[1..])
  }

  function SumStats<K>(d: seq<CategoryStat<K>>): nat {
    if |d| == 0 then 0 else d[0].clicks + SumStats(d[1..])
  }

  /** A link's entry in the topic report: its visits and their distinct IPs. */
  function LinkStat(l: ShortLink, visits: seq<VisitEvent>): UrlStat {
    UrlStat(l.shortId, |Events(visits, l.shortId)|, |Ips(Events(visits, l.shortId))|)
  }

  /** The per-link entries of the topic report, in store order. */
  function LinkStats(links: seq<ShortLink>, visits: seq<VisitEvent>): seq<UrlStat> {
    seq(|links|, i requires 0 <= i < |links| => LinkStat(links[i], visits))
  }

  function SumUnique(urls: seq<UrlStat>): nat {
    if |urls| == 0 then 0 else SumUnique(urls[..|urls| - 1]) + urls[|urls| - 1].uniqueClicks
  }

  function SumTotals(urls: seq<UrlStat>): nat {
    if |urls| == 0 then 0 else SumTotals(urls[..|urls| - 1]) + urls[|urls| - 1].totalClicks
  }

  /** `Url.find({ topic })`, in store order. */
  function TopicLinks(links: seq<ShortLink>, topic: string): (r: seq<ShortLink>)
    ensures forall l :: l in r <==> l in links && l.topic == Some(topic)
  {
    if |links| == 0 then []
    else
      var last := links[|links| - 1];
      TopicLinks(links[..|links| - 1], topic) + (if last.topic == Some(topic) then [last] else [])
  }

  /** `Url.find({ userId })`, in store order. */
  function OwnedLinks(links: seq<ShortLink>, user: string): (r: seq<ShortLink>)
    ensures forall l :: l in r <==> l in links && l.owner == Some(user)
  {
    if |links| == 0 then []
    else
      var last := links[|links| - 1];
      OwnedLinks(links[..|links| - 1], user) + (if last.owner == Some(user) then [last] else [])
  }

  /**
   A link on its own is kept exactly when it passes the filter, and
   appending it extends the result by it or by nothing.
   */
  lemma TopicLinksSnoc(xs: seq<ShortLink>, x: ShortLink, topic: string)
    ensures TopicLinks([x], topic) == if x.topic == Some(topic) then [x] else []
    ensures TopicLinks(xs + [x], topic) == TopicLinks(xs, topic) + TopicLinks([x], topic)
  {
    assert [x][..0] == [];
    assert (xs + [x])[..|xs|] == xs;
  }

  /**
   The topic's links come in store order: filtering a concatenation
   concatenates the filtered parts. With `TopicLinksSnoc` for single links
   this fixes the result, order included.
   */
  lemma {:induction false} TopicLinksOrder(a: seq<ShortLink>, b: seq<ShortLink>, topic: string)
    ensures TopicLinks(a + b, topic) == TopicLinks(a, topic) + TopicLinks(b, topic)
    decreases |b|
  {
    if |b| == 0 {
      assert a + b == a;
    } else {
      var b', last := b[..|b| - 1], b[|b| - 1];
      assert b == b' + [last];
      assert a + b == (a + b') + [last];
      TopicLinksOrder(a, b', topic);
      TopicLinksSnoc(a + b', last, topic);
      TopicLinksSnoc(b', last, topic);
      var f := (xs: seq<ShortLink>) => TopicLinks(xs, topic);
      SnocStep(f(a + b), f(a + b'), f(a), f(b'), f(b), f([last]));
    }
  }

  /**
   A link on its own is kept exactly when it passes the filter, and
   appending it extends the result by it or by nothing.
   */
  lemma OwnedLinksSnoc(xs: seq<ShortLink>, x: ShortLink, user: string)
    ensures OwnedLinks([x], user) == if x.owner == Some(user) then [x] else []
    ensures OwnedLinks(xs + [x], user) == OwnedLinks(xs, user) + OwnedLinks([x], user)
  {
    assert [x][..0] == [];
    assert (xs + [x])[..|xs|] == xs;
  }

  /**
   The user's links come in store order: filtering a concatenation
   concatenates the filtered parts. With `OwnedLinksSnoc` for single links
   this fixes the result, order included.
   */
  lemma {:induction false} OwnedLinksOrder(a: seq<ShortLink>, b: seq<ShortLink>, user: string)
    ensures OwnedLinks(a + b, user) == OwnedLinks(a, user) + OwnedLinks(b, user)
    decreases |b|
  {
    if |b| == 0 {
      assert a + b == a;
    } else {
      var b', last := b[..|b| - 1], b[|b| - 1];
      assert b == b' + [last];
      assert a + b == (a + b') + [last];
      OwnedLinksOrder(a, b', user);
      OwnedLinksSnoc(a + b', last, user);
      OwnedLinksSnoc(b', last, user);
      var f := (xs: seq<ShortLink>) => OwnedLinks(xs, user);
      SnocStep(f(a + b), f(a + b'), f(a), f(b'), f(b), f([last]));
    }
  }

  /** The events of every link in scope, link by link, each in log order. */
  function ScopeEvents(links: seq<ShortLink>, visits: seq<VisitEvent>): seq<VisitEvent> {
    if |links| == 0 then []
    else ScopeEvents(links[..|links| - 1], visits) + Events(visits, links[|links| - 1].shortId)
  }

  /** The handlers' running total: per-link event counts added up. */
  function SumEventCounts(links: seq<ShortLink>, visits: seq<VisitEvent>): nat {
    if |links| == 0 then 0
    else SumEventCounts(links[..|links| - 1], visits) + |Events(visits, links[|links| - 1].shortId)|
  }

  // ---------------------------------------------------------------------
  // The handlers

  /**
   getAnalytics: an unknown alias is NotFound, a known alias without visits
   is "no data yet", anything else a summary whose unique count is at most
   the click count.
   */
  function AliasAnalytics(s: State, alias: string, day: int -> string, dayStart: string -> int,
                          cutoff: int): (r: AliasOutcome)
    ensures r.AliasNotFound? <==> FindById(s.links, alias).None?
    ensures r.NoDataYet? <==> FindById(s.links, alias).Some? && Events(s.visits, alias) == []
    ensures r.AliasSummary? ==> r.report.totalClicks == |Events(s.visits, alias)|
  {
    if FindById(s.links, alias).None? then AliasNotFound
    else
      var evs := Events(s.visits, alias);
      if |evs| == 0 then NoDataYet
      else
        AliasSummary(AliasReport(
          |evs|,
          |Ips(evs)|,
          Dates(Tally(DayObs(Recent(evs, day, dayStart, cutoff), day))),
          Stats(Tally(OsObs(evs))),
          Stats(Tally(DeviceObs(evs)))))
  }

  /**
   Reference definition of getTopicAnalytics, in one expression: the topic's
   links in store order, the combined stream of their visits, and the per-link
   entries.
   */
  function TopicReference(s: State, topic: string, day: int -> string): (r: TopicOutcome)
    ensures r.NoLinksForTopic? <==> TopicLinks(s.links, topic) == []
    ensures r.TopicSummary? ==> r.report.totalClicks == |ScopeEvents(TopicLinks(s.links, topic), s.visits)|
  {
    var links := TopicLinks(s.links, topic);
    if |links| == 0 then NoLinksForTopic
    else
      var evs := ScopeEvents(links, s.visits);
      TopicSummary(TopicReport(|evs|, |Ips(evs)|, Dates(Tally(DayObs(evs, day))), LinkStats(links, s.visits)))
  }

  /** The running values of the topic loop. */
  datatype TopicAcc = TopicAcc(
    total: nat,
    users: set<string>,
    hist: seq<Bucket<string>>,
    urls: seq<UrlStat>)

  /** The accumulator after processing `done`, the links handled so far. */
  ghost predicate Accounts(acc: TopicAcc, done: seq<ShortLink>, visits: seq<VisitEvent>, day: int -> string) {
    var evs := ScopeEvents(done, visits);
    && acc.total == |evs|
    && acc.users == Ips(evs)
    && acc.hist == Tally(DayObs(evs, day))
    && acc.urls == LinkStats(done, visits)
  }

  /** getTopicAnalytics: look up the topic's links, then run the loop over them. */
  method TopicAnalytics(s: State, topic: string, day: int -> string) returns (r: TopicOutcome)
    ensures r == TopicReference(s, topic, day)
  {
    var links := TopicLinks(s.links, topic);
    if |links| == 0 {
      return NoLinksForTopic;
    }
    var acc := TopicLoop(links, s.visits, day);
    r := TopicSummary(TopicReport(acc.total, |acc.users|, Dates(acc.hist), acc.urls));
  }

  /** The controller's loop over the topic's links, in store order. */
  method TopicLoop(links: seq<ShortLink>, visits: seq<VisitEvent>, day: int -> string) returns (acc: TopicAcc)
    ensures Accounts(acc, links, visits, day)
  {
    acc := TopicAcc(0, {}, [], []);
    var i := 0;
    while i < |links|
      invariant 0 <= i <= |links|
      invariant Accounts(acc, links[..i], visits, day)
    {
      assert links[..i + 1] == links[..i] + [links[i]];
      acc := AddLink(acc, links[..i], links[i], visits, day);
      i := i + 1;
    }
    assert links[..|links|] == links;
  }

  /** One iteration of the topic loop: fold in link `l`'s visits. */
  method AddLink(acc: TopicAcc, ghost done: seq<ShortLink>, l: ShortLink, visits: seq<VisitEvent>,
                 day: int -> string) returns (acc': TopicAcc)
    requires Accounts(acc, done, visits, day)
    ensures Accounts(acc', done + [l], visits, day)
  {
    var evs := Events(visits, l.shortId);
    var ips := Ips(evs);
    ghost var before := ScopeEvents(done, visits);
    ScopeSnoc(done, l, visits);
    IpsAppend(before, evs);
    var hist := AddDays(acc.hist, before, evs, day);
    acc' := TopicAcc(acc.total + |evs|, acc.users + ips, hist, acc.urls + [UrlStat(l.shortId, |evs|, |ips|)]);
  }

  /** Adding a link to the scope appends its events to the stream and its entry to the list. */
  lemma ScopeSnoc(done: seq<ShortLink>, l: ShortLink, visits: seq<VisitEvent>)
    ensures ScopeEvents(done + [l], visits) == ScopeEvents(done, visits) + Events(visits, l.shortId)
    ensures LinkStats(done + [l], visits) == LinkStats(done, visits) + [LinkStat(l, visits)]
  {
    assert (done + [l])[..|done|] == done;
  }

  /** Bumping one more visit's day extends the histogram to one more visit. */
  lemma DayStep(before: seq<VisitEvent>, evs: seq<VisitEvent>, j: nat, day: int -> string)
    requires j < |evs|
    ensures Tally(DayObs(before + evs[..j + 1], day))
            == Bump(Tally(DayObs(before + evs[..j], day)), Obs(day(evs[j].timestamp), evs[j].ipAddress))
  {
    assert before + evs[..j + 1] == (before + evs[..j]) + [evs[j]];
    DayObsAppend(before + evs[..j], evs[j], day);
    TallyAppend(DayObs(before + evs[..j], day), Obs(day(evs[j].timestamp), evs[j].ipAddress));
  }

  /** The controller's inner `forEach`: bump each visit's day into the histogram. */
  method AddDays(hist: seq<Bucket<string>>, ghost before: seq<VisitEvent>, evs: seq<VisitEvent>,
                 day: int -> string) returns (h: seq<Bucket<string>>)
    requires hist == Tally(DayObs(before, day))
    ensures h == Tally(DayObs(before + evs, day))
  {
    h := hist;
    var j := 0;
    assert before + evs[..0] == before;
    while j < |evs|
      invariant 0 <= j <= |evs|
      invariant h == Tally(DayObs(before + evs[..j], day))
    {
      DayStep(before, evs, j, day);
      h := Bump(h, Obs(day(evs[j].timestamp), evs[j].ipAddress));
      j := j + 1;
    }
    assert evs[..|evs|] == evs;
  }

  /** getOverallAnalytics, over the links the store associates with `user`. */
  function OverallAnalytics(s: State, user: string, day: int -> string): (r: OverallOutcome)
    ensures r.NoLinksForUser? <==> OwnedLinks(s.links, user) == []
    ensures r.OverallSummary? ==>
              && r.report.totalUrls == |OwnedLinks(s.links, user)|
              && r.report.totalClicks == |ScopeEvents(OwnedLinks(s.links, user), s.visits)|
              && r.report.uniqueClicks == |Ips(ScopeEvents(OwnedLinks(s.links, user), s.visits))|
  {
    var links := OwnedLinks(s.links, user);
    if |links| == 0 then NoLinksForUser
    else
      var evs := ScopeEvents(links, s.visits);
      SumEventCountsIsSize(links, s.visits);
      OverallSummary(OverallReport(
        |links|,
        SumEventCounts(links, s.visits),
        |Ips(evs)|,
        Dates(Tally(DayObs(evs, day))),
        Stats(Tally(OsObs(evs))),
        Stats(Tally(DeviceObs(evs)))))
  }

  // ---------------------------------------------------------------------
  // Facts about the folds

  lemma {:induction false} IpsBound(evs: seq<VisitEvent>)
    ensures |Ips(evs)| <= |evs|
    ensures |evs| > 0 ==> |Ips(evs)| > 0
    decreases |evs|
  {
    if |evs| > 0 {
      IpsBound(evs[..|evs| - 1]);
    }
  }

  /** Ips is the set of addresses occurring in the stream. */
  lemma {:induction false} IpsMembers(evs: seq<VisitEvent>, ip: string)
    ensures ip in Ips(evs) <==> exists i :: 0 <= i < |evs| && evs[i].ipAddress == ip
    decreases |evs|
  {
    if |evs| > 0 {
      var init := evs[..|evs| - 1];
      IpsMembers(init, ip);
      if ip in Ips(init) {
        var i :| 0 <= i < |init| && init[i].ipAddress == ip;
        assert evs[i] == init[i];
      }
      if exists i :: 0 <= i < |evs| && evs[i].ipAddress == ip {
        var i :| 0 <= i < |evs| && evs[i].ipAddress == ip;
        if i < |init| {
          assert init[i] == evs[i];
        }
      }
    }
  }

  lemma {:induction false} IpsAppend(a: seq<VisitEvent>, b: seq<VisitEvent>)
    ensures Ips(a + b) == Ips(a) + Ips(b)
    decreases |b|
  {
    if |b| > 0 {
      assert (a + b)[..|a + b| - 1] == a + b[..|b| - 1];
      IpsAppend(a, b[..|b| - 1]);
    } else {
      assert a + b == a;
    }
  }

  lemma DayObsAppend(evs: seq<VisitEvent>, e: VisitEvent, day: int -> string)
    ensures DayObs(evs + [e], day) == DayObs(evs, day) + [Obs(day(e.timestamp), e.ipAddress)]
  {
  }

  /** A link of the topic is listed as many times as the store holds it. */
  lemma {:induction false} TopicLinksCount(links: seq<ShortLink>, topic: string, l: ShortLink)
    ensures multiset(TopicLinks(links, topic))[l] == if l.topic == Some(topic) then multiset(links)[l] else 0
    decreases |links|
  {
    if |links| > 0 {
      assert links == links[..|links| - 1] + [links[|links| - 1]];
      TopicLinksCount(links[..|links| - 1], topic, l);
    }
  }

  /** A link of the user is listed as many times as the store holds it. */
  lemma {:induction false} OwnedLinksCount(links: seq<ShortLink>, user: string, l: ShortLink)
    ensures multiset(OwnedLinks(links, user))[l] == if l.owner == Some(user) then multiset(links)[l] else 0
    decreases |links|
  {
    if |links| > 0 {
      assert links == links[..|links| - 1] + [links[|links| - 1]];
      OwnedLinksCount(links[..|links| - 1], user, l);
    }
  }

  /** A visit inside the window is kept as many times as it occurs; the others not at all. */
  lemma {:induction false} RecentCount(evs: seq<VisitEvent>, day: int -> string, dayStart: string -> int,
                                       cutoff: int, e: VisitEvent)
    ensures multiset(Recent(evs, day, dayStart, cutoff))[e]
            == if dayStart(day(e.timestamp)) > cutoff then multiset(evs)[e] else 0
    decreases |evs|
  {
    if |evs| > 0 {
      assert evs == evs[..|evs| - 1] + [evs[|evs| - 1]];
      RecentCount(evs[..|evs| - 1], day, dayStart, cutoff, e);
    }
  }

  /** The summed per-link counts are the size of the combined event stream. */
  lemma {:induction false} SumEventCountsIsSize(links: seq<ShortLink>, visits: seq<VisitEvent>)
    ensures SumEventCounts(links, visits) == |ScopeEvents(links, visits)|
    decreases |links|
  {
    if |links| > 0 {
      SumEventCountsIsSize(links[..|links| - 1], visits);
    }
  }

  lemma {:induction false} SumDatesIsClicks(t: seq<Bucket<string>>)
    ensures SumDates(Dates(t)) == SumClicks(t)
    decreases |t|
  {
    if |t| > 0 {
      assert Dates(t)[1..] == Dates(t[1..]);
      SumDatesIsClicks(t[1..]);
    }
  }

  lemma {:induction false} SumStatsIsClicks<K>(t: seq<Bucket<K>>)
    ensures SumStats(Stats(t)) == SumClicks(t)
    decreases |t|
  {
    if |t| > 0 {
      assert Stats(t)[1..] == Stats(t[1..]);
      SumStatsIsClicks(t[1..]);
    }
  }

  /**
   A category breakdown built from observations: one entry per category seen,
   each counting that category's events and distinct clients (at least one,
   at most the count), the counts adding up to the number of events.
   */
  lemma Breakdown<K>(obs: seq<Obs<K>>)
    ensures var st := Stats(Tally(obs));
            && SumStats(st) == |obs|
            && (forall i, j :: 0 <= i < j < |st| ==> st[i].name != st[j].name)
            && (forall i :: 0 <= i < |st| ==>
                  st[i].clicks == Count(obs, st[i].name)
                  && st[i].users == |Clients(obs, st[i].name)|
                  && 1 <= st[i].users <= st[i].clicks)
  {
    TallyCorrect(obs);
    SumStatsIsClicks(Tally(obs));
  }

  lemma Histogram(obs: seq<Obs<string>>)
    ensures var h := Dates(Tally(obs));
            && SumDates(h) == |obs|
            && (forall i, j :: 0 <= i < j < |h| ==> h[i].date != h[j].date)
            && (forall i :: 0 <= i < |h| ==> h[i].clicks == Count(obs, h[i].date) >= 1)
  {
    TallyCorrect(obs);
    SumDatesIsClicks(Tally(obs));
  }

  /** Only observed days appear, and each counts the observations of that day. */
  lemma {:induction false} CountDayObs(evs: seq<VisitEvent>, day: int -> string, d: string)
    ensures Count(DayObs(evs, day), d) > 0 ==> exists e :: e in evs && day(e.timestamp) == d
    decreases |evs|
  {
    if |evs| > 0 {
      var init := evs[..|evs| - 1];
      assert DayObs(evs, day)[..|evs| - 1] == DayObs(init, day);
      CountDayObs(init, day, d);
    }
  }

  /**
   The per-link entries add up to the combined stream; the distinct IPs of
   the whole topic are at most the per-link distinct counts added up, which
   are at most the number of visits.
   */
  lemma {:induction false} LinkStatSums(links: seq<ShortLink>, visits: seq<VisitEvent>)
    ensures SumTotals(LinkStats(links, visits)) == |ScopeEvents(links, visits)|
    ensures |Ips(ScopeEvents(links, visits))| <= SumUnique(LinkStats(links, visits))
    ensures SumUnique(LinkStats(links, visits)) <= |ScopeEvents(links, visits)|
    decreases |links|
  {
    if |links| > 0 {
      var init := links[..|links| - 1];
      var evs := Events(visits, links[|links| - 1].shortId);
      LinkStatSums(init, visits);
      assert LinkStats(links, visits)[..|links| - 1] == LinkStats(init, visits);
      IpsAppend(ScopeEvents(init, visits), evs);
      IpsBound(evs);
    }
  }

  /**
   getTopicAnalytics: NotFound exactly when the topic has no links; otherwise
   one entry per link in store order with that link's visits and distinct
   IPs, totals that add up, at most as many distinct IPs as visits, and an
   unwindowed histogram with one entry per date that adds up to the total.
   */
  lemma TopicFacts(s: State, topic: string, day: int -> string)
    ensures TopicReference(s, topic, day).NoLinksForTopic? <==> TopicLinks(s.links, topic) == []
    ensures TopicReference(s, topic, day).TopicSummary? ==>
              var rep := TopicReference(s, topic, day).report;
              var links := TopicLinks(s.links, topic);
              && |rep.urls| == |links|
              && (forall i :: 0 <= i < |links| ==>
                    && rep.urls[i].shortId == links[i].shortId
                    && rep.urls[i].totalClicks == |Events(s.visits, links[i].shortId)|
                    && rep.urls[i].uniqueClicks == |Ips(Events(s.visits, links[i].shortId))|)
              && SumTotals(rep.urls) == rep.totalClicks
              && rep.uniqueClicks <= SumUnique(rep.urls)
              && SumUnique(rep.urls) <= rep.totalClicks
              && SumDates(rep.clicksByDate) == rep.totalClicks
              && (forall i, j :: 0 <= i < j < |rep.clicksByDate| ==>
                    rep.clicksByDate[i].date != rep.clicksByDate[j].date)
  {
    var links := TopicLinks(s.links, topic);
    var evs := ScopeEvents(links, s.visits);
    LinkStatSums(links, s.visits);
    Histogram(DayObs(evs, day));
  }

  /**
   Summary counts: total clicks is the number of the alias's visits, unique
   clicks the number of distinct client IPs, at least one and at most the
   total.
   */
  lemma AliasClicks(s: State, alias: string, day: int -> string, dayStart: string -> int, cutoff: int)
    requires AliasAnalytics(s, alias, day, dayStart, cutoff).AliasSummary?
    ensures var rep := AliasAnalytics(s, alias, day, dayStart, cutoff).report;
            var evs := Events(s.visits, alias);
            && rep.totalClicks == |evs| > 0
            && (forall ip :: ip in Ips(evs) <==> exists e :: e in evs && e.ipAddress == ip)
            && rep.uniqueClicks == |Ips(evs)|
            && 1 <= rep.uniqueClicks <= rep.totalClicks
  {
    var evs := Events(s.visits, alias);
    IpsBound(evs);
    forall ip ensures ip in Ips(evs) <==> exists e :: e in evs && e.ipAddress == ip {
      IpsMembers(evs, ip);
    }
  }

  /**
   The per-alias histogram holds only days that start after the cutoff, one
   entry per day, each counting that day's recent visits; it adds up to the
   number of recent visits, so never exceeds the total.
   */
  lemma AliasHistogram(s: State, alias: string, day: int -> string, dayStart: string -> int, cutoff: int)
    requires AliasAnalytics(s, alias, day, dayStart, cutoff).AliasSummary?
    ensures var rep := AliasAnalytics(s, alias, day, dayStart, cutoff).report;
            var recent := Recent(Events(s.visits, alias), day, dayStart, cutoff);
            && SumDates(rep.clicksByDate) == |recent| <= rep.totalClicks
            && (forall i, j :: 0 <= i < j < |rep.clicksByDate| ==>
                  rep.clicksByDate[i].date != rep.clicksByDate[j].date)
            && (forall i :: 0 <= i < |rep.clicksByDate| ==>
                  rep.clicksByDate[i].clicks == Count(DayObs(recent, day), rep.clicksByDate[i].date)
                  && dayStart(rep.clicksByDate[i].date) > cutoff)
  {
    WindowedHistogram(Events(s.visits, alias), day, dayStart, cutoff);
  }

  /** The date histogram of the visits inside the window. */
  lemma WindowedHistogram(evs: seq<VisitEvent>, day: int -> string, dayStart: string -> int, cutoff: int)
    ensures var recent := Recent(evs, day, dayStart, cutoff);
            var h := Dates(Tally(DayObs(recent, day)));
            && SumDates(h) == |recent| <= |evs|
            && (forall i, j :: 0 <= i < j < |h| ==> h[i].date != h[j].date)
            && (forall i :: 0 <= i < |h| ==>
                  h[i].clicks == Count(DayObs(recent, day), h[i].date) && dayStart(h[i].date) > cutoff)
  {
    var recent := Recent(evs, day, dayStart, cutoff);
    var h := Dates(Tally(DayObs(recent, day)));
    Histogram(DayObs(recent, day));
    forall i | 0 <= i < |h|
      ensures dayStart(h[i].date) > cutoff
    {
      CountDayObs(recent, day, h[i].date);
    }
  }

  /**
   Summary breakdowns: per OS and per device, one entry per category seen,
   counting the visits classified that way and their distinct IPs; each
   breakdown adds up to the total.
   */
  lemma AliasBreakdowns(s: State, alias: string, day: int -> string, dayStart: string -> int, cutoff: int)
    requires AliasAnalytics(s, alias, day, dayStart, cutoff).AliasSummary?
    ensures var rep := AliasAnalytics(s, alias, day, dayStart, cutoff).report;
            var evs := Events(s.visits, alias);
            && SumStats(rep.osType) == rep.totalClicks
            && SumStats(rep.deviceType) == rep.totalClicks
            && (forall i :: 0 <= i < |rep.osType| ==>
                  rep.osType[i].clicks == Count(OsObs(evs), rep.osType[i].name)
                  && rep.osType[i].users == |Clients(OsObs(evs), rep.osType[i].name)|
                  && 1 <= rep.osType[i].users <= rep.osType[i].clicks)
            && (forall i :: 0 <= i < |rep.deviceType| ==>
                  rep.deviceType[i].clicks == Count(DeviceObs(evs), rep.deviceType[i].name)
                  && rep.deviceType[i].users == |Clients(DeviceObs(evs), rep.deviceType[i].name)|
                  && 1 <= rep.deviceType[i].users <= rep.deviceType[i].clicks)
            && (forall i, j :: 0 <= i < j < |rep.osType| ==> rep.osType[i].name != rep.osType[j].name)
            && (forall i, j :: 0 <= i < j < |rep.deviceType| ==>
                  rep.deviceType[i].name != rep.deviceType[j].name)
  {
    var evs := Events(s.visits, alias);
    Breakdown(OsObs(evs));
    Breakdown(DeviceObs(evs));
  }

  /**
   getOverallAnalytics: NotFound exactly when the user has no links;
   otherwise the link count, a total equal to the size of the combined
   stream, distinct IPs at most the total, and an unrestricted histogram and
   OS and device breakdowns that each add up to the total.
   */
  lemma OverallFacts(s: State, user: string, day: int -> string)
    ensures OverallAnalytics(s, user, day).NoLinksForUser? <==> OwnedLinks(s.links, user) == []
    ensures OverallAnalytics(s, user, day).OverallSummary? ==>
              var rep := OverallAnalytics(s, user, day).report;
              var links := OwnedLinks(s.links, user);
              var evs := ScopeEvents(links, s.visits);
              && rep.totalUrls == |links|
              && rep.totalClicks == |evs|
              && rep.uniqueClicks == |Ips(evs)| <= rep.totalClicks
              && SumDates(rep.clicksByDate) == rep.totalClicks
              && SumStats(rep.osType) == rep.totalClicks
              && SumStats(rep.deviceType) == rep.totalClicks
              && (forall i :: 0 <= i < |rep.osType| ==> 1 <= rep.osType[i].users <= rep.osType[i].clicks)
              && (forall i :: 0 <= i < |rep.deviceType| ==>
                    1 <= rep.deviceType[i].users <= rep.deviceType[i].clicks)
  {
    var links := OwnedLinks(s.links, user);
    var evs := ScopeEvents(links, s.visits);
    SumEventCountsIsSize(links, s.visits);
    IpsBound(evs);
    Histogram(DayObs(evs, day));
    Breakdown(OsObs(evs));
    Breakdown(DeviceObs(evs));
  }

}
