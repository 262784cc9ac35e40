/**
 The robots.txt cache and its refresh policy (src/tarkka/domain/robots_cache.py,
 src/tarkka/application/robots_refresh.py, src/tarkka/infrastructure/storage/json_robots_cache.py),
 following section 2.4 of RFC 9309. Times are whole microseconds.
 */
module RobotsRefresh {
  import opened Wrappers
  import opened Identities

  const MINUTE: int := 60_000_000
  const HOUR: int := 60 * MINUTE
  const DAY: int := 24 * HOUR
  const MAX_ROBOTS_BYTES: nat := 512 * 1024

  datatype RobotsOutcome = Success | Unavailable | Unreachable | RedirectLimitExceeded

  datatype RobotsResult = RobotsResult(uri: Uri, outcome: RobotsOutcome, content: Option<string>, status: Option<int>) {
    predicate Valid() {
      && (content.Some? <==> outcome.Success?)
      && (status.Some? ==>
            match outcome
            case Success => 200 <= status.value <= 299
            case Unavailable => 400 <= status.value <= 499
            case Unreachable => 500 <= status.value <= 599
            case RedirectLimitExceeded => 300 <= status.value <= 399)
    }
  }

  datatype Provenance = Provenance(observation: Uuid, artifact: Sha)

  datatype Entry = Entry(result: RobotsResult, fetchedAt: int, expiresAt: int, provenance: Option<Provenance>) {
    predicate Valid() {
      result.Valid() && fetchedAt < expiresAt <= fetchedAt + DAY
    }

    /** `is_fresh`. */
    predicate IsFresh(now: int) {
      fetchedAt <= now < expiresAt
    }

    /** `may_reuse_after_unreachable`. */
    predicate MayReuse(now: int) {
      result.outcome.Success? && fetchedAt <= now < fetchedAt + DAY
    }

    /** The same fetch, whatever its expiry. */
    predicate SameFetch(other: Entry) {
      result == other.result && fetchedAt == other.fetchedAt && provenance == other.provenance
    }
  }

  /** UTF-8 decoding, which may fail. */
  type Decoder = Bytes -> Option<string>

  /** What the bounded policy fetch reports for one robots URI. */
  datatype Fetch =
    | Responded(status: int, body: Bytes, observedAt: int, provenance: Provenance)
    | RedirectLimitHit
    | FetchFailed
    | OtherError

  /** `_entry_from_http_fetch`. */
  function EntryFromResponse(uri: Uri, f: Fetch, decode: Decoder): Entry
    requires f.Responded?
  {
    var content := if 200 <= f.status <= 299 && |f.body| <= MAX_ROBOTS_BYTES then decode(f.body) else None;
    var (result, ttl) :=
      if content.Some? then (RobotsResult(uri, Success, content, Some(f.status)), 6 * HOUR)
      else if 400 <= f.status <= 499 then (RobotsResult(uri, Unavailable, None, Some(f.status)), HOUR)
      else if 500 <= f.status <= 599 then (RobotsResult(uri, Unreachable, None, Some(f.status)), 15 * MINUTE)
      else (RobotsResult(uri, Unreachable, None, None), 15 * MINUTE);
    Entry(result, f.observedAt, f.observedAt + ttl, Some(f.provenance))
  }

  /** `_failure_entry`. */
  function FailureEntry(uri: Uri, outcome: RobotsOutcome, now: int, ttl: int): Entry {
    Entry(RobotsResult(uri, outcome, None, None), now, now + ttl, None)
  }

  /** What this attempt itself learned: the `refresh_entry`. */
  function Learned(uri: Uri, now: int, f: Fetch, decode: Decoder): Option<Entry> {
    match f
    case Responded(_, _, _, _) => Some(EntryFromResponse(uri, f, decode))
    case RedirectLimitHit => Some(FailureEntry(uri, RedirectLimitExceeded, now, HOUR))
    case FetchFailed => Some(FailureEntry(uri, Unreachable, now, 15 * MINUTE))
    case OtherError => None
  }

  /** The attempts after which an earlier success may stand in. */
  predicate IsOutage(f: Fetch) {
    f.FetchFailed? || (f.Responded? && 500 <= f.status <= 599)
  }

  /** The copy kept through an outage. */
  function Extended(previous: Entry, now: int): Entry {
    var hardExpiry := previous.fetchedAt + DAY;
    previous.(expiresAt := if now + 15 * MINUTE < hardExpiry then now + 15 * MINUTE else hardExpiry)
  }

  datatype Refreshed =
    | Selected(entry: Entry, learned: Entry, usedStale: bool)
    | CacheConflict
    | Raised

  /** The entry an attempt chooses. */
  function Choice(previous: Option<Entry>, uri: Uri, now: int, f: Fetch, decode: Decoder): Refreshed {
    var learned := Learned(uri, now, f, decode);
    if learned.None? then Raised
    else if IsOutage(f) && previous.Some? && previous.value.MayReuse(now) then
      Selected(Extended(previous.value, now), learned.value, true)
    else Selected(learned.value, learned.value, false)
  }

  /** The cache refuses to roll back, to rewrite a fetch, or to shorten its expiry. */
  predicate Accepts(existing: Option<Entry>, e: Entry) {
    || existing.None?
    || existing.value.fetchedAt < e.fetchedAt
    || (existing.value.SameFetch(e) && existing.value.expiresAt <= e.expiresAt)
  }

  type Entries = map<Uri, Entry>

  function Lookup(cache: Entries, uri: Uri): Option<Entry> {
    if uri in cache then Some(cache[uri]) else None
  }

  datatype Attempt = Attempt(uri: Uri, now: int, fetch: Fetch)

  /** The outcome of one refresh, and the cache after it. */
  function Outcome(cache: Entries, a: Attempt, decode: Decoder): Refreshed {
    var choice := Choice(Lookup(cache, a.uri), a.uri, a.now, a.fetch, decode);
    if choice.Selected? && !Accepts(Lookup(cache, a.uri), choice.entry) then CacheConflict else choice
  }

  function After(cache: Entries, a: Attempt, decode: Decoder): Entries {
    var o := Outcome(cache, a, decode);
    if o.Selected? then cache[a.uri := o.entry] else cache
  }

  /** The durable latest-entry cache. */
  class RobotsCache {
    var entries: Entries

    constructor ()
      ensures entries == map[]
    {
      entries := map[];
    }

    method Get(uri: Uri) returns (e: Option<Entry>)
      ensures e == Lookup(entries, uri)
    {
      e := if uri in entries then Some(entries[uri]) else None;
    }

    /** `save`, or a conflict. */
    method Save(e: Entry) returns (ok: bool)
      modifies this
      ensures ok == Accepts(Lookup(old(entries), e.result.uri), e)
      ensures entries == if ok then old(entries)[e.result.uri := e] else old(entries)
    {
      if e.result.uri in entries {
        var existing := entries[e.result.uri];
        if e.fetchedAt < existing.fetchedAt {
          return false;
        }
        if e.fetchedAt == existing.fetchedAt {
          if e == existing {
            return true;
          }
          if !existing.SameFetch(e) || e.expiresAt < existing.expiresAt {
            return false;
          }
        }
      }
      entries := entries[e.result.uri := e];
      ok := true;
    }
  }

  /** `refresh`, given what the policy fetch reported. */
  method Refresh(cache: RobotsCache, decode: Decoder, uri: Uri, now: int, f: Fetch) returns (o: Refreshed)
    requires forall u :: u in cache.entries ==> cache.entries[u].result.uri == u
    modifies cache
    ensures o == Outcome(old(cache.entries), Attempt(uri, now, f), decode)
    ensures cache.entries == After(old(cache.entries), Attempt(uri, now, f), decode)
  {
    var previous := cache.Get(uri);
    match f
    case OtherError =>
      o := Raised;
    case RedirectLimitHit =>
      var learned := FailureEntry(uri, RedirectLimitExceeded, now, HOUR);
      var ok := cache.Save(learned);
      o := if ok then Selected(learned, learned, false) else CacheConflict;
    case FetchFailed =>
      o := FinishUnreachable(cache, previous, FailureEntry(uri, Unreachable, now, 15 * MINUTE), now);
    case Responded(status, _, _, _) =>
      var learned := EntryFromResponse(uri, f, decode);
      if learned.result.outcome.Unreachable? && 500 <= status <= 599 {
        o := FinishUnreachable(cache, previous, learned, now);
      } else {
        var ok := cache.Save(learned);
        o := if ok then Selected(learned, learned, false) else CacheConflict;
      }
  }

  /** `_finish_unreachable`. */
  method FinishUnreachable(cache: RobotsCache, previous: Option<Entry>, learned: Entry, now: int) returns (o: Refreshed)
    requires previous == Lookup(cache.entries, learned.result.uri)
    requires previous.Some? ==> previous.value.result.uri == learned.result.uri
    modifies cache
    ensures var reuse := previous.Some? && previous.value.MayReuse(now);
            var entry := if reuse then Extended(previous.value, now) else learned;
            if Accepts(previous, entry) then
              o == Selected(entry, learned, reuse) && cache.entries == old(cache.entries)[learned.result.uri := entry]
            else o == CacheConflict && cache.entries == old(cache.entries)
  {
    if previous.Some? && previous.value.MayReuse(now) {
      var selected := Extended(previous.value, now);
      var ok := cache.Save(selected);
      o := if ok then Selected(selected, learned, true) else CacheConflict;
    } else {
      var ok := cache.Save(learned);
      o := if ok then Selected(learned, learned, false) else CacheConflict;
    }
  }

  /** The cache after any sequence of refreshes. */
  function Run(attempts: seq<Attempt>, decode: Decoder): Entries {
    if attempts == [] then map[]
    else After(Run(attempts[..|attempts| - 1], decode), attempts[|attempts| - 1], decode)
  }

  /** `e` is what attempt `a` learned about its URI, with at most its expiry changed. */
  predicate StemsFrom(e: Entry, a: Attempt, decode: Decoder) {
    var learned := Learned(a.uri, a.now, a.fetch, decode);
    learned.Some? && learned.value.SameFetch(e) && learned.value.expiresAt <= e.expiresAt
    && (learned.value.expiresAt < e.expiresAt ==> e.result.outcome.Success?)
  }

  ghost predicate Traced(cache: Entries, attempts: seq<Attempt>, decode: Decoder) {
    forall uri :: uri in cache ==>
                    && cache[uri].Valid() && cache[uri].result.uri == uri
                    && exists a :: a in attempts && StemsFrom(cache[uri], a, decode)
  }

  /** What an attempt learns is a well-formed entry for its own URI. */
  lemma LearnedIsValid(uri: Uri, now: int, f: Fetch, decode: Decoder)
    ensures var learned := Learned(uri, now, f, decode);
            learned.Some? ==> learned.value.Valid() && learned.value.result.uri == uri
    ensures f.Responded? ==>
              var e, fits := EntryFromResponse(uri, f, decode), 200 <= f.status <= 299 && |f.body| <= MAX_ROBOTS_BYTES;
              && (e.result.outcome.Success? <==> fits && decode(f.body).Some?)
              && (e.result.outcome.Success? ==> e.result.content == decode(f.body))
              && (e.result.outcome.Unavailable? <==> 400 <= f.status <= 499)
              && (e.result.outcome.Unreachable? <==> !e.result.outcome.Success? && !e.result.outcome.Unavailable?)
              && e.result.status ==
                   (if e.result.outcome.Success? || 400 <= f.status <= 599 then Some(f.status) else None)
              && e.fetchedAt == f.observedAt && e.provenance == Some(f.provenance)
              && e.expiresAt == e.fetchedAt + (if e.result.outcome.Success? then 6 * HOUR
                                               else if e.result.outcome.Unavailable? then HOUR else 15 * MINUTE)
    ensures IsOutage(f) ==>
              Learned(uri, now, f, decode).Some? && Learned(uri, now, f, decode).value.result.outcome.Unreachable?
  {
  }

  /** What an attempt without a response learns. */
  lemma FailureIsLearned(uri: Uri, now: int, f: Fetch, decode: Decoder)
    ensures Learned(uri, now, f, decode).None? <==> f.OtherError?
    ensures f.RedirectLimitHit? || f.FetchFailed? ==>
              var e := Learned(uri, now, f, decode).value;
              && (if f.FetchFailed? then e.result.outcome.Unreachable? else e.result.outcome.RedirectLimitExceeded?)
              && e.fetchedAt == now && e.expiresAt == now + (if f.FetchFailed? then 15 * MINUTE else HOUR)
              && e.result.content.None? && e.result.status.None? && e.provenance.None?
  {
  }

  /**
   An earlier copy stands in exactly if the site is out - an error, or a status from 500 to 599 - and the copy is a
   success fetched less than 24 hours ago that expires within 15 minutes; then it expires after 15 minutes, or after
   those 24 hours if that is earlier. Without it, what the attempt learned is chosen.
   */
  lemma FallsBackExactly(cache: Entries, a: Attempt, decode: Decoder)
    requires a.uri in cache ==> cache[a.uri].Valid()
    ensures var o := Outcome(cache, a, decode);
            && (o.Raised? <==> a.fetch.OtherError?)
            && (o.Selected? && o.usedStale <==>
                  && (a.fetch.FetchFailed? || (a.fetch.Responded? && 500 <= a.fetch.status <= 599))
                  && a.uri in cache && cache[a.uri].result.outcome.Success?
                  && cache[a.uri].fetchedAt <= a.now < cache[a.uri].fetchedAt + DAY
                  && cache[a.uri].expiresAt <= a.now + 15 * MINUTE)
            && (o.Selected? && o.usedStale ==>
                  var e := o.entry;
                  && e.SameFetch(cache[a.uri])
                  && e.expiresAt <= a.now + 15 * MINUTE && e.expiresAt <= e.fetchedAt + DAY
                  && (e.expiresAt == a.now + 15 * MINUTE || e.expiresAt == e.fetchedAt + DAY))
            && (o.Selected? && !o.usedStale ==> Some(o.entry) == Learned(a.uri, a.now, a.fetch, decode))
  {
    hide EntryFromResponse;
  }

  /** Every cached entry, after any run, is a valid copy of something one attempt really fetched. */
  lemma {:induction false} RunIsTraced(attempts: seq<Attempt>, decode: Decoder)
    ensures Traced(Run(attempts, decode), attempts, decode)
  {
    if attempts != [] {
      var earlier, a := attempts[..|attempts| - 1], attempts[|attempts| - 1];
      RunIsTraced(earlier, decode);
      AttemptIsTraced(Run(earlier, decode), earlier, a, decode);
      assert attempts == earlier + [a];
    }
  }

  lemma AttemptIsTraced(cache: Entries, earlier: seq<Attempt>, a: Attempt, decode: Decoder)
    requires Traced(cache, earlier, decode)
    ensures Traced(After(cache, a, decode), earlier + [a], decode)
  {
    hide Learned, Choice;
    var after := After(cache, a, decode);
    LearnedIsValid(a.uri, a.now, a.fetch, decode);
    ChoiceCases(cache, a, decode);
    forall uri | uri in after
      ensures after[uri].Valid() && after[uri].result.uri == uri
      ensures exists b :: b in earlier + [a] && StemsFrom(after[uri], b, decode)
    {
      assert a in earlier + [a];
      if uri in cache {
        var b :| b in earlier && StemsFrom(cache[uri], b, decode);
        assert b in earlier + [a];
        if after[uri] != cache[uri] && Outcome(cache, a, decode).usedStale {
          assert StemsFrom(after[uri], b, decode);
        }
      }
    }
  }

  lemma ChoiceCases(cache: Entries, a: Attempt, decode: Decoder)
    ensures var o := Outcome(cache, a, decode);
            o.Selected? ==>
              && Some(o.learned) == Learned(a.uri, a.now, a.fetch, decode)
              && Accepts(Lookup(cache, a.uri), o.entry)
              && if o.usedStale then
                   a.uri in cache && IsOutage(a.fetch) && cache[a.uri].MayReuse(a.now) &&
                   o.entry == Extended(cache[a.uri], a.now)
                 else o.entry == o.learned
  {
    hide Learned;
  }

  /**
   Main result. After any run, whatever is used at `now` - a cached entry still fresh, or the copy an
   outage falls back on - stems from a real fetch less than 24 hours earlier; the fallback is a valid
   success, fresh when chosen.
   */
  lemma {:induction false} NeverStalerThanADay(attempts: seq<Attempt>, a: Attempt, decode: Decoder)
    ensures var cache := Run(attempts, decode);
            var o := Outcome(cache, a, decode);
            && (forall uri, now :: uri in cache && cache[uri].IsFresh(now) ==>
                                     exists b :: b in attempts && b.uri == uri && StemsFrom(cache[uri], b, decode) &&
                                                 0 <= now - Learned(b.uri, b.now, b.fetch,
                                                                    decode).value.fetchedAt < DAY)
            && (o.Selected? && o.usedStale ==>
                  && o.entry.Valid() && o.entry.IsFresh(a.now) && o.entry.result.outcome.Success?
                  && o.learned.result.outcome.Unreachable?
                  && exists b :: b in attempts && b.uri == a.uri && StemsFrom(o.entry, b, decode) &&
                                 0 <= a.now - Learned(b.uri, b.now, b.fetch, decode).value.fetchedAt < DAY)
  {
    hide Learned, Choice;
    var cache := Run(attempts, decode);
    RunIsTraced(attempts, decode);
    ChoiceCases(cache, a, decode);
    LearnedIsValid(a.uri, a.now, a.fetch, decode);
    forall uri, now | uri in cache && cache[uri].IsFresh(now)
      ensures exists b :: b in attempts && b.uri == uri && StemsFrom(cache[uri], b, decode) &&
                          0 <= now - Learned(b.uri, b.now, b.fetch, decode).value.fetchedAt < DAY
    {
      var b :| b in attempts && StemsFrom(cache[uri], b, decode);
      LearnedIsValid(b.uri, b.now, b.fetch, decode);
    }
    var o := Outcome(cache, a, decode);
    if o.Selected? && o.usedStale {
      var b :| b in attempts && StemsFrom(cache[a.uri], b, decode);
      LearnedIsValid(b.uri, b.now, b.fetch, decode);
      assert StemsFrom(o.entry, b, decode);
    }
  }

  /** No refresh, of any kind, replaces a fetch by an older one or shortens the one it keeps. */
  lemma FetchTimesNeverFall(cache: Entries, a: Attempt, decode: Decoder, uri: Uri)
    requires uri in cache
    ensures var after := After(cache, a, decode);
            && uri in after
            && (cache[uri].fetchedAt < after[uri].fetchedAt ||
                (cache[uri].SameFetch(after[uri]) && cache[uri].expiresAt <= after[uri].expiresAt))
  {
    hide Learned, Choice;
    ChoiceCases(cache, a, decode);
  }

  /**
   Falling back on a copy conflicts with the cache exactly when the copy would still be fresh for
   longer than the retry window: never for a caller that refreshes only what is not fresh.
   */
  lemma FallbackConflicts(cache: Entries, a: Attempt, decode: Decoder)
    requires a.uri in cache && cache[a.uri].Valid() && cache[a.uri].MayReuse(a.now) && IsOutage(a.fetch)
    ensures Outcome(cache, a, decode).CacheConflict? <==> a.now + 15 * MINUTE < cache[a.uri].expiresAt
    ensures !cache[a.uri].IsFresh(a.now) ==> Outcome(cache, a, decode).Selected? && Outcome(cache, a, decode).usedStale
  {
  }

  /** A conflict: a success fetched at 0 stays fresh for 6 hours, and a refresh one hour later finds the site out. */
  lemma EarlyRefreshConflicts(uri: Uri, body: Bytes, p: Provenance, decode: Decoder)
    requires |body| <= MAX_ROBOTS_BYTES && decode(body).Some?
    ensures var cache := Run([Attempt(uri, 0, Responded(200, body, 0, p))], decode);
            && uri in cache && cache[uri].result.outcome.Success? && cache[uri].expiresAt == 6 * HOUR
            && Outcome(cache, Attempt(uri, HOUR, FetchFailed), decode).CacheConflict?
  {
    var first := Attempt(uri, 0, Responded(200, body, 0, p));
    assert [first][..|[first]| - 1] == [];
    assert Run([], decode) == map[];
    assert Run([first], decode) == After(map[], first, decode);
  }

  /** The cache after refreshes that all fail, starting from `cache`. */
  function Outages(cache: Entries, attempts: seq<Attempt>, decode: Decoder): Entries {
    if attempts == [] then cache
    else After(Outages(cache, attempts[..|attempts| - 1], decode), attempts[|attempts| - 1], decode)
  }

  /** The attempt finds the copy too old (or not yet fetched), and its own result is newer. */
  predicate Displaces(a: Attempt, copy: Entry, decode: Decoder) {
    var learned := Learned(a.uri, a.now, a.fetch, decode);
    !copy.MayReuse(a.now) && learned.Some? && copy.fetchedAt < learned.value.fetchedAt
  }

  /**
   Main result. Through any series of outages, at any times, the success copy stays - same content,
   same provenance, same fetch time - exactly until an outage finds it outside its 24-hour window and
   has newer news; from then on no success is served until one is fetched.
   */
  lemma {:induction false} OutagesKeepTheCopy(cache: Entries, uri: Uri, attempts: seq<Attempt>, decode: Decoder)
    requires uri in cache && cache[uri].Valid() && cache[uri].result.outcome.Success?
    requires forall a :: a in attempts ==> a.uri == uri && IsOutage(a.fetch)
    ensures var after := Outages(cache, attempts, decode);
            && uri in after && after[uri].Valid()
            && if exists a :: a in attempts && Displaces(a, cache[uri], decode)
               then after[uri].result.outcome.Unreachable? && cache[uri].fetchedAt < after[uri].fetchedAt
               else after[uri].SameFetch(cache[uri]) && cache[uri].expiresAt <= after[uri].expiresAt
  {
    hide Learned;
    if attempts != [] {
      var earlier, a := attempts[..|attempts| - 1], attempts[|attempts| - 1];
      assert attempts == earlier + [a];
      OutagesKeepTheCopy(cache, uri, earlier, decode);
      LearnedIsValid(a.uri, a.now, a.fetch, decode);
      var before := Outages(cache, earlier, decode);
      OneOutage(before, a, decode);
      if exists b :: b in earlier && Displaces(b, cache[uri], decode) {
        var b :| b in earlier && Displaces(b, cache[uri], decode);
        assert b in attempts;
      } else if Displaces(a, cache[uri], decode) {
        assert a in attempts;
      }
    }
  }

  lemma OneOutage(cache: Entries, a: Attempt, decode: Decoder)
    requires a.uri in cache && cache[a.uri].Valid() && IsOutage(a.fetch)
    requires cache[a.uri].result.outcome.Success? || cache[a.uri].result.outcome.Unreachable?
    ensures var before := cache[a.uri];
            var after := After(cache, a, decode);
            && a.uri in after && after[a.uri].Valid()
            && (before.result.outcome.Success? ==>
                  if Displaces(a, before, decode) then
                    after[a.uri].result.outcome.Unreachable? && before.fetchedAt < after[a.uri].fetchedAt
                  else after[a.uri].SameFetch(before) && before.expiresAt <= after[a.uri].expiresAt)
            && (before.result.outcome.Unreachable? ==>
                  after[a.uri].result.outcome.Unreachable? && before.fetchedAt <= after[a.uri].fetchedAt)
  {
    hide Learned;
    LearnedIsValid(a.uri, a.now, a.fetch, decode);
  }

  /** The crawl gate asks for a refresh only when there is no fresh entry. */
  predicate NeedsRefresh(cache: Entries, uri: Uri, now: int) {
    uri !in cache || !cache[uri].IsFresh(now)
  }

  /**
   A target evaluated at `now`, and what a policy fetch reports if one is needed: by a call to the site, or
   recovered from the journal of an earlier one without a call.
   */
  datatype Visit = Visit(now: int, fetch: Fetch, recovered: bool)
  {
    /** A response is observed after the call that asked for it. */
    predicate Timely() {
      if recovered then fetch.Responded? && fetch.observedAt <= now else fetch.Responded? ==> now <= fetch.observedAt
    }

    /** When the visit is over. */
    function End(): int {
      if fetch.Responded? && !recovered then fetch.observedAt else now
    }
  }

  /** Visits one after the other between `from` and `last`, while every fetch is an outage. */
  predicate InOutage(visits: seq<Visit>, from: int, last: int) {
    && from <= last
    && (forall v :: v in visits ==> IsOutage(v.fetch) && v.Timely() && from <= v.now && v.End() <= last)
    && (forall i, j :: 0 <= i < j < |visits| ==> visits[i].End() <= visits[j].now)
  }

  /** How many calls the visits make. */
  function CallsInOutage(cache: Entries, uri: Uri, visits: seq<Visit>, decode: Decoder): nat
    decreases |visits|
  {
    if visits == [] then 0
    else if NeedsRefresh(cache, uri, visits[0].now) then
      (if visits[0].recovered then 0 else 1)
      + CallsInOutage(After(cache, Attempt(uri, visits[0].now, visits[0].fetch), decode), uri, visits[1..], decode)
    else CallsInOutage(cache, uri, visits[1..], decode)
  }

  /** The time a cached entry leaves for calls between `from` and `last`, counted in retry windows. */
  function Allowance(e: Entry, from: int, last: int): nat {
    var slack := if e.result.outcome.Success? && e.expiresAt < e.fetchedAt + DAY then 30 * MINUTE else 15 * MINUTE;
    var start := if e.expiresAt < from then from else e.expiresAt;
    if last + slack < start then 0 else last + slack - start
  }

  /** An entry that can be cached while the site is out, none of it observed after `now`. */
  predicate Outlasts(cache: Entries, uri: Uri, now: int) {
    && uri in cache && cache[uri].Valid() && cache[uri].fetchedAt <= now
    && (cache[uri].result.outcome.Success? || cache[uri].result.outcome.Unreachable?)
  }

  /**
   Main result. During an outage targets share one call per 15 minutes: however many are evaluated, the
   number of calls is bounded by the time that passes (one extra where the 24-hour limit cuts a window),
   whether the outage shows as errors or as 5xx responses, and whatever is recovered in between.
   */
  lemma {:induction false} OutageFetchesArePaced(cache: Entries, uri: Uri, visits: seq<Visit>, from: int, last: int,
                                                 decode: Decoder)
    requires Outlasts(cache, uri, from) && InOutage(visits, from, last)
    ensures 15 * MINUTE * CallsInOutage(cache, uri, visits, decode) <= Allowance(cache[uri], from, last)
    decreases |visits|
  {
    hide After, Allowance, IsOutage, Visit.Timely, Outlasts;
    if visits != [] {
      var v, rest := visits[0], visits[1..];
      assert v in visits;
      assert InOutage(rest, v.End(), last) by {
        assert forall i :: 0 <= i < |rest| ==> rest[i] == visits[i + 1];
      }
      LaterOutlasts(cache, uri, from, v, last);
      if NeedsRefresh(cache, uri, v.now) {
        FailedRefresh(cache, uri, v, last, decode);
        OutageFetchesArePaced(After(cache, Attempt(uri, v.now, v.fetch), decode), uri, rest, v.End(), last, decode);
      } else {
        OutageFetchesArePaced(cache, uri, rest, v.End(), last, decode);
      }
    }
  }

  lemma LaterOutlasts(cache: Entries, uri: Uri, from: int, v: Visit, last: int)
    requires Outlasts(cache, uri, from) && v.Timely() && from <= v.now
    ensures Outlasts(cache, uri, v.now) && Outlasts(cache, uri, v.End())
    ensures Allowance(cache[uri], v.End(), last) <= Allowance(cache[uri], v.now, last) <= Allowance(cache[uri], from,
                                                                                                    last)
  {
  }

  lemma FailedRefresh(cache: Entries, uri: Uri, v: Visit, last: int, decode: Decoder)
    requires Outlasts(cache, uri, v.now) && v.Timely() && IsOutage(v.fetch) && v.End() <= last
    requires NeedsRefresh(cache, uri, v.now)
    ensures var after := After(cache, Attempt(uri, v.now, v.fetch), decode);
            && Outlasts(after, uri, v.End())
            && Allowance(after[uri], v.End(), last) + (if v.recovered then 0 else 15 * MINUTE)
               <= Allowance(cache[uri], v.now, last)
  {
  }
}
