/**
 * The campaign store and the event aggregator of `core/campaign_manager.py`.
 *
 * The campaigns directory (one sub-directory per campaign holding a
 * `config.json`) is a map from campaign name to the record that its
 * `config.json` yields; the `multiprocessing.Queue` of events is a sequence.
 * The monitor thread's inner `while not empty: get; process` loop is
 * `DrainEvents`, run sequentially.
 */
module CampaignManagement {
  import opened Common

  /** `campaign['stats']`. The counters are Python ints; a `stats` dict supplied at creation may hold any. */
  datatype Stats = Stats(
    emailsSent: int,
    clicks: int,
    credentialsCaptured: int,
    becReplies: int,
    becTransfers: int,
    successRate: real)

  /** The contents of a campaign's `config.json`. */
  datatype Campaign = Campaign(
    name: string,
    campaignType: string,
    created: Timestamp,
    status: string,
    started: Option<Timestamp>,
    stats: Stats)

  /** The top-level keys a `config` argument of `create_campaign` may override. */
  datatype Overrides = Overrides(
    name: Option<string>,
    campaignType: Option<string>,
    created: Option<Timestamp>,
    status: Option<string>,
    stats: Option<Stats>)

  /**
   * What a campaign directory holds: a `config.json` that loads, or one that
   * does not (missing, malformed, or an empty object, which every caller
   * treats as absent).
   */
  datatype Record = Loaded(campaign: Campaign) | Unreadable

  type Store = map<string, Record>

  /** An event on the queue: the campaign it names and its `type`. */
  datatype Event = Event(campaign: string, eventType: string)

  const ZeroStats := Stats(0, 0, 0, 0, 0, 0.0)
  const NoOverrides := Overrides(None, None, None, None, None)
  const EmailSent := "email_sent"

  // ---------------------------------------------------------------------------
  // Specification functions

  /** `get_campaign(name)` returns a campaign exactly when the directory exists and its record loads. */
  predicate Loads(store: Store, name: string) {
    name in store && store[name].Loaded?
  }

  /**
   * The derived success rate: transfers over replies for type exactly "BEC",
   * captured credentials over sent mails for any other type; 0 when the
   * chosen total is not positive.
   */
  function SuccessRate(s: Stats, campaignType: string): (rate: real)
    ensures campaignType == "BEC" ==> RateBounds(rate, s.becTransfers, s.becReplies)
    ensures campaignType != "BEC" ==> RateBounds(rate, s.credentialsCaptured, s.emailsSent)
  {
    var total := if campaignType == "BEC" then s.becReplies else s.emailsSent;
    var successes := if campaignType == "BEC" then s.becTransfers else s.credentialsCaptured;
    if total <= 0 then 0.0
    else if 0 <= successes <= total then
      RatioWithinUnit(successes as real, total as real);
      successes as real / total as real
    else successes as real / total as real
  }

  /**
   * What a rate of `successes` out of `total` must satisfy: 0 without a
   * positive total or without successes, 1 when every one succeeded, and
   * within [0, 1] while the successes are a part of the total.
   */
  predicate RateBounds(rate: real, successes: int, total: int) {
    && (total <= 0 || successes == 0 ==> rate == 0.0)
    && (0 < total == successes ==> rate == 1.0)
    && (0 <= successes <= total ==> 0.0 <= rate <= 1.0)
  }

  /** The five counters an event can bump. */
  const EventTypes := {"email_sent", "click", "credential", "bec_reply", "bec_transfer"}

  /** The sum of the five counters. */
  function Counters(s: Stats): int {
    s.emailsSent + s.clicks + s.credentialsCaptured + s.becReplies + s.becTransfers
  }

  /** No counter is lower in `t` than in `s`. */
  predicate NoCounterDrops(s: Stats, t: Stats) {
    s.emailsSent <= t.emailsSent && s.clicks <= t.clicks && s.credentialsCaptured <= t.credentialsCaptured &&
    s.becReplies <= t.becReplies && s.becTransfers <= t.becTransfers
  }

  /** The `if/elif` chain that bumps the counter an event type names (none for other types). */
  function Count(s: Stats, eventType: string): (r: Stats)
    ensures NoCounterDrops(s, r)
    ensures Counters(r) == Counters(s) + (if eventType in EventTypes then 1 else 0)
    ensures r.successRate == s.successRate
  {
    if eventType == "email_sent" then s.(emailsSent := s.emailsSent + 1)
    else if eventType == "click" then s.(clicks := s.clicks + 1)
    else if eventType == "credential" then s.(credentialsCaptured := s.credentialsCaptured + 1)
    else if eventType == "bec_reply" then s.(becReplies := s.becReplies + 1)
    else if eventType == "bec_transfer" then s.(becTransfers := s.becTransfers + 1)
    else s
  }

  /** One event folded into the stats: bump, then recompute the rate. */
  function Tally(s: Stats, campaignType: string, eventType: string): (r: Stats)
    ensures r.successRate == SuccessRate(r, campaignType)
  {
    var counted := Count(s, eventType);
    counted.(successRate := SuccessRate(counted, campaignType))
  }

  /** `_process_event` on the store: events for a campaign that does not load are dropped. */
  function ApplyEvent(store: Store, e: Event): (r: Store)
    ensures r.Keys == store.Keys
  {
    if Loads(store, e.campaign) then
      var c := store[e.campaign].campaign;
      store[e.campaign := Loaded(c.(stats := Tally(c.stats, c.campaignType, e.eventType)))]
    else store
  }

  /** Draining the queue: the events folded into the store front to back. */
  function Drain(store: Store, events: seq<Event>): (r: Store)
    ensures r.Keys == store.Keys
    decreases |events|
  {
    if events == [] then store else Drain(ApplyEvent(store, events[0]), events[1..])
  }

  /** The number of events of one type naming one campaign. */
  function Occurrences(events: seq<Event>, name: string, eventType: string): nat {
    multiset(events)[Event(name, eventType)]
  }

  /** Some event names the campaign. */
  predicate Mentions(events: seq<Event>, name: string) {
    exists e :: e in multiset(events) && e.campaign == name
  }

  /** Stats plus the per-type event counts, with the rate derived from the result. */
  function Bumped(s: Stats, campaignType: string, name: string, events: seq<Event>): Stats {
    var t := s.(
      emailsSent := s.emailsSent + Occurrences(events, name, "email_sent"),
      clicks := s.clicks + Occurrences(events, name, "click"),
      credentialsCaptured := s.credentialsCaptured + Occurrences(events, name, "credential"),
      becReplies := s.becReplies + Occurrences(events, name, "bec_reply"),
      becTransfers := s.becTransfers + Occurrences(events, name, "bec_transfer"));
    t.(successRate := SuccessRate(t, campaignType))
  }

  /** The record a campaign ends with after a drain, stated without any order of events. */
  function Expected(r: Record, name: string, events: seq<Event>): Record {
    if r.Loaded? && Mentions(events, name) then
      Loaded(r.campaign.(stats := Bumped(r.campaign.stats, r.campaign.campaignType, name, events)))
    else r
  }

  /** The record `create_campaign` writes: the defaults, shallowly overridden by `config`. */
  function NewCampaign(name: string, campaignType: string, config: Overrides, now: Timestamp): (c: Campaign)
    ensures config == NoOverrides ==>
      c.name == name && c.campaignType == campaignType && c.status == "draft" && c.started == None &&
      c.stats == ZeroStats && c.stats.successRate == SuccessRate(c.stats, c.campaignType)
    ensures config.name.Some? ==> c.name == config.name.value
    ensures config.name.None? ==> c.name == name
    ensures config.campaignType.Some? ==> c.campaignType == config.campaignType.value
    ensures config.campaignType.None? ==> c.campaignType == campaignType
    ensures config.created.Some? ==> c.created == config.created.value
    ensures config.created.None? ==> c.created == now
    ensures config.status.Some? ==> c.status == config.status.value
    ensures config.status.None? ==> c.status == "draft"
    ensures config.stats.Some? ==> c.stats == config.stats.value
    ensures config.stats.None? ==> c.stats == ZeroStats
    ensures c.started == None
  {
    Campaign(
      config.name.GetOr(name),
      config.campaignType.GetOr(campaignType),
      config.created.GetOr(now),
      config.status.GetOr("draft"),
      None,
      config.stats.GetOr(ZeroStats))
  }

  /**
   * A name whose directory already exists: a stored campaign, or one that
   * resolves to the campaigns directory itself or its parent.
   */
  predicate Collides(store: Store, name: string): (c: bool)
    ensures name in store ==> c
    ensures c && name !in store ==> |name| <= 2 && forall i :: 0 <= i < |name| ==> name[i] == '.'
  {
    name in store || name == "" || name == "." || name == ".."
  }

  /** The number of sends that returned True. */
  function SuccessCount(results: seq<bool>): (k: nat)
    ensures k <= |results|
  {
    if results == [] then 0
    else SuccessCount(results[..|results| - 1]) + (if results[|results| - 1] then 1 else 0)
  }

  /** Campaign types for which `run_campaign` sends anything. */
  predicate Sends(campaignType: string) {
    campaignType == "PHISHING" || campaignType == "BEC"
  }

  /** `k` copies of the `email_sent` event for one campaign. */
  function SentEvents(name: string, k: nat): (r: seq<Event>)
    ensures |r| == k
    ensures forall i :: 0 <= i < |r| ==> r[i] == Event(name, EmailSent)
    ensures multiset(r) == multiset{}[Event(name, EmailSent) := k]
  {
    if k == 0 then [] else SentEvents(name, k - 1) + [Event(name, EmailSent)]
  }

  /** The record `run_campaign` saves: running, started now, and `k` sends added directly. */
  function Started(c: Campaign, now: Timestamp, k: nat): (r: Campaign)
    ensures r.status == "running" && r.started == Some(now)
    ensures r.name == c.name && r.campaignType == c.campaignType && r.created == c.created
    ensures r.stats.emailsSent == c.stats.emailsSent + k
    ensures r.stats.clicks == c.stats.clicks && r.stats.credentialsCaptured == c.stats.credentialsCaptured &&
      r.stats.becReplies == c.stats.becReplies && r.stats.becTransfers == c.stats.becTransfers
    ensures r.stats.successRate == c.stats.successRate
  {
    c.(status := "running", started := Some(now), stats := c.stats.(emailsSent := c.stats.emailsSent + k))
  }

  /** One more send: the count grows by one exactly on a success, and so does the saved `emails_sent`. */
  lemma SendStep(c: Campaign, now: Timestamp, results: seq<bool>, i: nat)
    requires i < |results|
    ensures var k := SuccessCount(results[..i]);
      SuccessCount(results[..i + 1]) == k + (if results[i] then 1 else 0) &&
      Started(c, now, k + 1) == Started(c, now, k).(stats := Started(c, now, k).stats.(emailsSent := Started(c, now, k).stats.emailsSent + 1))
  {
    assert results[..i + 1][..i] == results[..i];
  }

  /** The names whose records load, among `keys`. */
  function LoadedNames(store: Store, keys: set<string>): set<string> {
    set n | n in keys && Loads(store, n)
  }

  /** The campaigns whose records load, among `keys`. */
  function LoadedCampaigns(store: Store, keys: set<string>): set<Campaign> {
    set n | n in keys && Loads(store, n) :: store[n].campaign
  }

  // ---------------------------------------------------------------------------
  // The manager

  class CampaignManager {
    /** The campaigns directory. */
    var store: Store
    /** `event_queue`. */
    var events: seq<Event>

    /** `existing` holds the campaigns directory's sub-directories, which `iterdir` never names "", "." or "..". */
    constructor (existing: Store)
      requires forall n :: n in existing ==> n != "" && n != "." && n != ".."
      ensures store == existing && events == []
    {
      store := existing;
      events := [];
    }

    /** `get_campaign`. */
    function GetCampaign(name: string): (r: Option<Campaign>)
      reads this
      ensures r.Some? <==> Loads(store, name)
      ensures r.Some? ==> store[name] == Loaded(r.value)
    {
      if name in store && store[name].Loaded? then Some(store[name].campaign) else None
    }

    /** `_process_event`: bump one counter, recompute the rate, save. */
    method ProcessEvent(e: Event)
      modifies this`store
      ensures store == ApplyEvent(old(store), e)
    {
      var found := GetCampaign(e.campaign);
      if found.Some? {
        var campaign := found.value;
        var stats := campaign.stats;
        if e.eventType == "email_sent" {
          stats := stats.(emailsSent := stats.emailsSent + 1);
        } else if e.eventType == "click" {
          stats := stats.(clicks := stats.clicks + 1);
        } else if e.eventType == "credential" {
          stats := stats.(credentialsCaptured := stats.credentialsCaptured + 1);
        } else if e.eventType == "bec_reply" {
          stats := stats.(becReplies := stats.becReplies + 1);
        } else if e.eventType == "bec_transfer" {
          stats := stats.(becTransfers := stats.becTransfers + 1);
        }
        var total := stats.emailsSent;
        var successes := stats.credentialsCaptured;
        if campaign.campaignType == "BEC" {
          total := stats.becReplies;
          successes := stats.becTransfers;
        }
        stats := stats.(successRate := if total > 0 then successes as real / total as real else 0.0);
        store := store[e.campaign := Loaded(campaign.(stats := stats))];
      }
    }

    /** The monitor's inner loop: take events off the queue until it is empty. */
    method DrainEvents()
      modifies this
      ensures events == []
      ensures store == Drain(old(store), old(events))
    {
      while events != []
        invariant Drain(store, events) == Drain(old(store), old(events))
        decreases |events|
      {
        var e := events[0];
        events := events[1..];
        ProcessEvent(e);
      }
    }

    /** `create_campaign`: `mkdir` without `exist_ok` refuses an existing directory before anything is written. */
    method CreateCampaign(name: string, campaignType: string, config: Overrides, now: Timestamp) returns (ok: bool)
      modifies this`store
      ensures ok <==> !Collides(old(store), name)
      ensures ok ==> store == old(store)[name := Loaded(NewCampaign(name, campaignType, config, now))]
      ensures !ok ==> store == old(store)
    {
      if Collides(store, name) {
        return false;
      }
      var record := Campaign(name, campaignType, now, "draft", None, ZeroStats);
      if config.name.Some? { record := record.(name := config.name.value); }
      if config.campaignType.Some? { record := record.(campaignType := config.campaignType.value); }
      if config.created.Some? { record := record.(created := config.created.value); }
      if config.status.Some? { record := record.(status := config.status.value); }
      if config.stats.Some? { record := record.(stats := config.stats.value); }
      store := store[name := Loaded(record)];
      ok := true;
    }

    /**
     * `run_campaign`. `sendResults` holds, per target, what the send call
     * returned. For a PHISHING campaign the code as written makes every one
     * of them False (`PhishingRunAsWritten`); any results are admitted here,
     * as they are once the call passes `target['email']` and `hashlib` is
     * imported; `mailConfigLoads` says whether the BEC simulator's
     * configuration loads (its constructor raises otherwise).
     */
    method RunCampaign(name: string, sendResults: seq<bool>, mailConfigLoads: bool, now: Timestamp) returns (ok: bool)
      modifies this`store, this`events
      ensures ok <==> Loads(old(store), name) && (old(store)[name].campaign.campaignType == "BEC" ==> mailConfigLoads)
      ensures !ok ==> store == old(store) && events == old(events)
      ensures ok ==>
        var c := old(store)[name].campaign;
        var k := if Sends(c.campaignType) then SuccessCount(sendResults) else 0;
        store == old(store)[name := Loaded(Started(c, now, k))] &&
        events == old(events) + SentEvents(name, k)
    {
      var found := GetCampaign(name);
      if found.None? {
        return false;
      }
      var c := found.value;
      if c.campaignType == "BEC" && !mailConfigLoads {
        return false;
      }
      var config := c.(status := "running", started := Some(now));
      if Sends(c.campaignType) {
        for i := 0 to |sendResults|
          invariant store == old(store)
          invariant config == Started(c, now, SuccessCount(sendResults[..i]))
          invariant events == old(events) + SentEvents(name, SuccessCount(sendResults[..i]))
        {
          SendStep(c, now, sendResults, i);
          if sendResults[i] {
            config := config.(stats := config.stats.(emailsSent := config.stats.emailsSent + 1));
            events := events + [Event(name, EmailSent)];
          }
        }
        assert sendResults[..|sendResults|] == sendResults;
      } else {
        assert config == Started(c, now, 0);
      }
      store := store[name := Loaded(config)];
      ok := true;
    }

    /**
     * `list_campaigns`: one campaign per directory whose `config.json` loads,
     * in whatever order the directory yields them; `names` are those
     * directories, in the same order.
     */
    method ListCampaigns() returns (r: seq<Campaign>, ghost names: seq<string>)
      ensures |names| == |r|
      ensures forall i, j :: 0 <= i < j < |names| ==> names[i] != names[j]
      ensures (set n | n in names) == LoadedNames(store, store.Keys)
      ensures forall i :: 0 <= i < |r| ==> Loads(store, names[i]) && r[i] == store[names[i]].campaign
      ensures (set c | c in r) == LoadedCampaigns(store, store.Keys)
      ensures |r| == |LoadedNames(store, store.Keys)|
    {
      r, names := [], [];
      var pending := store.Keys;
      var done: set<string> := {};
      while pending != {}
        invariant pending !! done && pending + done == store.Keys
        invariant |names| == |r|
        invariant forall i, j :: 0 <= i < j < |names| ==> names[i] != names[j]
        invariant (set n | n in names) == LoadedNames(store, done)
        invariant forall i :: 0 <= i < |r| ==> Loads(store, names[i]) && r[i] == store[names[i]].campaign
        decreases |pending|
      {
        var n :| n in pending;
        var found := GetCampaign(n);
        NamesStep(store, done, names, n);
        if found.Some? {
          r, names := r + [found.value], names + [n];
        }
        pending := pending - {n};
        done := done + {n};
      }
      DistinctCard(names);
      CampaignsOfNames(store, names, r);
    }
  }

  /** Campaigns read from exactly the loading directories are exactly the loaded campaigns. */
  lemma CampaignsOfNames(store: Store, names: seq<string>, r: seq<Campaign>)
    requires |names| == |r|
    requires (set n | n in names) == LoadedNames(store, store.Keys)
    requires forall i :: 0 <= i < |r| ==> Loads(store, names[i]) && r[i] == store[names[i]].campaign
    ensures (set c | c in r) == LoadedCampaigns(store, store.Keys)
  {
    forall c | c in LoadedCampaigns(store, store.Keys)
      ensures c in r
    {
      var n :| n in store.Keys && Loads(store, n) && c == store[n].campaign;
      assert n in LoadedNames(store, store.Keys);
      var i :| 0 <= i < |names| && names[i] == n;
      assert r[i] == c;
    }
  }

  /** Visiting one more directory adds its name exactly when it loads. */
  lemma NamesStep(store: Store, done: set<string>, names: seq<string>, n: string)
    requires (set x | x in names) == LoadedNames(store, done) && n !in done
    ensures Loads(store, n) ==> n !in names && (set x | x in names + [n]) == LoadedNames(store, done + {n})
    ensures !Loads(store, n) ==> (set x | x in names) == LoadedNames(store, done + {n})
  {
    assert Loads(store, n) ==> (set x | x in names + [n]) == (set x | x in names) + {n};
  }

  /** A sequence without repeats has as many elements as its set. */
  lemma {:induction false} DistinctCard(s: seq<string>)
    requires forall i, j :: 0 <= i < j < |s| ==> s[i] != s[j]
    ensures |set x | x in s| == |s|
  {
    if s != [] {
      var t := s[..|s| - 1];
      DistinctCard(t);
      assert (set x | x in s) == (set x | x in t) + {s[|s| - 1]};
      assert s[|s| - 1] !in t;
    }
  }

  // ---------------------------------------------------------------------------
  // Lemmas about the aggregator

  /** Each known event type bumps exactly its own counter by one and no other. */
  lemma EventBumpsOwnCounter(s: Stats, campaignType: string, eventType: string)
    ensures var t := Tally(s, campaignType, eventType);
      t.emailsSent == s.emailsSent + (if eventType == "email_sent" then 1 else 0) &&
      t.clicks == s.clicks + (if eventType == "click" then 1 else 0) &&
      t.credentialsCaptured == s.credentialsCaptured + (if eventType == "credential" then 1 else 0) &&
      t.becReplies == s.becReplies + (if eventType == "bec_reply" then 1 else 0) &&
      t.becTransfers == s.becTransfers + (if eventType == "bec_transfer" then 1 else 0)
  {
  }

  /** An unrecognised event type changes no counter, yet the rate is recomputed and the record re-saved. */
  lemma UnknownEventOnlyRecomputesRate(store: Store, e: Event)
    requires Loads(store, e.campaign)
    requires e.eventType !in EventTypes
    ensures var before := store[e.campaign].campaign;
      ApplyEvent(store, e) ==
        store[e.campaign := Loaded(before.(stats := before.stats.(successRate := SuccessRate(before.stats, before.campaignType))))]
  {
  }

  /** An event naming a campaign that does not load leaves the store as it was. */
  lemma UnknownCampaignDropped(store: Store, e: Event)
    requires !Loads(store, e.campaign)
    ensures ApplyEvent(store, e) == store
  {
  }

  /**
   * The rate after an event is the chosen ratio: zero when the chosen total is
   * zero, and within [0, 1] while the successes are a part of the total.
   */
  lemma RateAfterEvent(s: Stats, campaignType: string, eventType: string)
    ensures var t := Tally(s, campaignType, eventType);
      var total := if campaignType == "BEC" then t.becReplies else t.emailsSent;
      var successes := if campaignType == "BEC" then t.becTransfers else t.credentialsCaptured;
      (total <= 0 ==> t.successRate == 0.0) &&
      (total > 0 ==> t.successRate * total as real == successes as real) &&
      (0 <= successes <= total ==> 0.0 <= t.successRate <= 1.0)
  {
    var t := Tally(s, campaignType, eventType);
    var total := if campaignType == "BEC" then t.becReplies else t.emailsSent;
    var successes := if campaignType == "BEC" then t.becTransfers else t.credentialsCaptured;
    if total > 0 {
      assert t.successRate == successes as real / total as real;
      if 0 <= successes <= total {
        RatioWithinUnit(successes as real, total as real);
      }
    }
  }

  lemma RatioWithinUnit(a: real, b: real)
    requires 0.0 <= a <= b && b > 0.0
    ensures 0.0 <= a / b <= 1.0
  {
    assert a / b * b == a;
  }

  /** The counts after one event, in terms of the counts after the rest. */
  lemma OccurrencesStep(e: Event, rest: seq<Event>, name: string, eventType: string)
    ensures Occurrences([e] + rest, name, eventType) ==
      Occurrences(rest, name, eventType) + (if e == Event(name, eventType) then 1 else 0)
    ensures Mentions([e] + rest, name) <==> e.campaign == name || Mentions(rest, name)
  {
    assert multiset([e] + rest) == multiset{e} + multiset(rest);
    if Mentions([e] + rest, name) && e.campaign != name {
      var x :| x in multiset([e] + rest) && x.campaign == name;
      assert x in multiset(rest);
    }
    if e.campaign == name {
      assert e in multiset([e] + rest);
    }
    if Mentions(rest, name) {
      var x :| x in multiset(rest) && x.campaign == name;
      assert x in multiset([e] + rest);
    }
  }

  /** An event for another campaign changes nothing that campaign's expected record depends on. */
  lemma OtherEventStep(r: Record, e: Event, rest: seq<Event>, name: string)
    requires e.campaign != name
    ensures Expected(r, name, [e] + rest) == Expected(r, name, rest)
  {
    OccurrencesStep(e, rest, name, "email_sent");
    OccurrencesStep(e, rest, name, "click");
    OccurrencesStep(e, rest, name, "credential");
    OccurrencesStep(e, rest, name, "bec_reply");
    OccurrencesStep(e, rest, name, "bec_transfer");
  }

  /** Folding one event first and the rest afterwards gives the counts of all of them. */
  lemma OwnEventStep(c: Campaign, e: Event, rest: seq<Event>, name: string)
    requires e.campaign == name
    ensures Expected(Loaded(c.(stats := Tally(c.stats, c.campaignType, e.eventType))), name, rest) ==
      Expected(Loaded(c), name, [e] + rest)
  {
    OccurrencesStep(e, rest, name, "email_sent");
    if Mentions(rest, name) {
      TallyThenBump(c.stats, c.campaignType, e, rest, name);
    } else {
      TallyAlone(c.stats, c.campaignType, e, rest, name);
    }
  }

  /** When later events name the campaign too, tallying the first event and then bumping by the rest bumps by all. */
  lemma TallyThenBump(s: Stats, campaignType: string, e: Event, rest: seq<Event>, name: string)
    requires e.campaign == name
    ensures Bumped(Tally(s, campaignType, e.eventType), campaignType, name, rest) ==
      Bumped(s, campaignType, name, [e] + rest)
  {
    OccurrencesStep(e, rest, name, "email_sent");
    OccurrencesStep(e, rest, name, "click");
    OccurrencesStep(e, rest, name, "credential");
    OccurrencesStep(e, rest, name, "bec_reply");
    OccurrencesStep(e, rest, name, "bec_transfer");
  }

  /** When no later event names the campaign, tallying its one event is bumping by all events. */
  lemma TallyAlone(s: Stats, campaignType: string, e: Event, rest: seq<Event>, name: string)
    requires e.campaign == name && !Mentions(rest, name)
    ensures Tally(s, campaignType, e.eventType) == Bumped(s, campaignType, name, [e] + rest)
  {
    OccurrencesStep(e, rest, name, "email_sent");
    OccurrencesStep(e, rest, name, "click");
    OccurrencesStep(e, rest, name, "credential");
    OccurrencesStep(e, rest, name, "bec_reply");
    OccurrencesStep(e, rest, name, "bec_transfer");
    assert Event(name, "email_sent") !in multiset(rest);
    assert Event(name, "click") !in multiset(rest);
    assert Event(name, "credential") !in multiset(rest);
    assert Event(name, "bec_reply") !in multiset(rest);
    assert Event(name, "bec_transfer") !in multiset(rest);
  }

  /**
   * After a drain, each campaign's record depends only on which events named
   * it and how many of each type: the counters grow by those counts and the
   * rate is derived from them.
   */
  lemma {:induction false} DrainCharacterization(store: Store, events: seq<Event>, name: string)
    requires name in store
    ensures Drain(store, events)[name] == Expected(store[name], name, events)
    decreases |events|
  {
    if events == [] {
      assert !Mentions(events, name);
    } else {
      var e := events[0];
      var rest := events[1..];
      assert events == [e] + rest;
      var next := ApplyEvent(store, e);
      DrainCharacterization(next, rest, name);
      if e.campaign != name {
        OtherEventStep(store[name], e, rest, name);
      } else if store[name].Loaded? {
        OwnEventStep(store[name].campaign, e, rest, name);
      } else {
        OccurrencesStep(e, rest, name, "");
      }
    }
  }

  /**
   * Draining leaves each counter of a loading campaign equal to its initial
   * value plus the number of events of that type naming it, and changes no
   * other field of the record but the rate.
   */
  lemma DrainCounts(store: Store, events: seq<Event>, name: string)
    requires Loads(store, name)
    ensures Loads(Drain(store, events), name)
    ensures var before := store[name].campaign;
      var after := Drain(store, events)[name].campaign;
      after.stats.emailsSent == before.stats.emailsSent + Occurrences(events, name, "email_sent") &&
      after.stats.clicks == before.stats.clicks + Occurrences(events, name, "click") &&
      after.stats.credentialsCaptured == before.stats.credentialsCaptured + Occurrences(events, name, "credential") &&
      after.stats.becReplies == before.stats.becReplies + Occurrences(events, name, "bec_reply") &&
      after.stats.becTransfers == before.stats.becTransfers + Occurrences(events, name, "bec_transfer") &&
      after == before.(stats := after.stats) &&
      (Mentions(events, name) ==> after.stats.successRate == SuccessRate(after.stats, after.campaignType))
  {
    DrainCharacterization(store, events, name);
  }

  /** Draining a campaign that does not load leaves its directory entry as it was. */
  lemma DrainSkipsUnloadable(store: Store, events: seq<Event>, name: string)
    requires name in store && !Loads(store, name)
    ensures Drain(store, events)[name] == store[name]
  {
    DrainCharacterization(store, events, name);
  }

  /** The order in which the events are drained does not matter. */
  lemma DrainOrderIndependent(store: Store, q1: seq<Event>, q2: seq<Event>)
    requires multiset(q1) == multiset(q2)
    ensures Drain(store, q1) == Drain(store, q2)
  {
    forall name | name in store
      ensures Drain(store, q1)[name] == Drain(store, q2)[name]
    {
      DrainCharacterization(store, q1, name);
      DrainCharacterization(store, q2, name);
      ExpectedOfMultiset(store[name], name, q1, q2);
    }
  }

  /** The expected record depends on the events only through their multiset. */
  lemma ExpectedOfMultiset(r: Record, name: string, q1: seq<Event>, q2: seq<Event>)
    requires multiset(q1) == multiset(q2)
    ensures Expected(r, name, q1) == Expected(r, name, q2)
  {
    assert Mentions(q1, name) == Mentions(q2, name);
  }

  /** No send succeeded exactly when every send call returned False. */
  lemma {:induction false} NoSuccessIffAllFailed(results: seq<bool>)
    ensures SuccessCount(results) == 0 <==> forall i :: 0 <= i < |results| ==> !results[i]
  {
    if results != [] {
      var init := results[..|results| - 1];
      NoSuccessIffAllFailed(init);
      assert forall i :: 0 <= i < |init| ==> init[i] == results[i];
    }
  }

  /**
   * `run_campaign` as written on a PHISHING campaign: it passes each target's
   * whole dictionary as the recipient (campaign_manager.py:126), and the
   * tracking line calls `encode` on it, which a dictionary lacks, so even
   * with `hashlib` imported every send returns False. The run then records no
   * send and queues no event, and the drain leaves `emails_sent` where it
   * was: a PHISHING run never reaches the double counting.
   */
  lemma PhishingRunAsWritten(store: Store, name: string, now: Timestamp, sendResults: seq<bool>)
    requires Loads(store, name) && store[name].campaign.campaignType == "PHISHING"
    requires forall i :: 0 <= i < |sendResults| ==> !sendResults[i]
    ensures var c := store[name].campaign;
      var k := SuccessCount(sendResults);
      var saved := store[name := Loaded(Started(c, now, k))];
      k == 0 && SentEvents(name, k) == [] &&
      Loads(Drain(saved, SentEvents(name, k)), name) &&
      Drain(saved, SentEvents(name, k))[name].campaign.stats.emailsSent == c.stats.emailsSent
  {
    NoSuccessIffAllFailed(sendResults);
    RunThenDrainCountsTwice(store, name, now, 0);
  }

  /**
   * `run_campaign` adds each successful send to `emails_sent` itself and also
   * queues an `email_sent` event for it, so after the drain each success is
   * counted twice. Successes occur in BEC runs; in PHISHING runs only once
   * the recipient is repaired as well (`PhishingRunAsWritten`).
   */
  lemma RunThenDrainCountsTwice(store: Store, name: string, now: Timestamp, k: nat)
    requires Loads(store, name)
    ensures var c := store[name].campaign;
      var saved := store[name := Loaded(Started(c, now, k))];
      Loads(Drain(saved, SentEvents(name, k)), name) &&
      Drain(saved, SentEvents(name, k))[name].campaign.stats.emailsSent == c.stats.emailsSent + 2 * k
  {
    var c := store[name].campaign;
    var saved := store[name := Loaded(Started(c, now, k))];
    DrainCounts(saved, SentEvents(name, k), name);
  }

  /**
   * The source's own test: a new BEC campaign that drains one `email_sent`,
   * one `bec_reply` and one `bec_transfer` ends with 1/1/1 and rate 1.
   */
  lemma BecCampaignEventsTest(store: Store, now: Timestamp)
    requires "test_bec_campaign" !in store
    ensures var name := "test_bec_campaign";
      var created := store[name := Loaded(NewCampaign(name, "BEC", NoOverrides, now))];
      var after := Drain(created, [Event(name, "email_sent"), Event(name, "bec_reply"), Event(name, "bec_transfer")]);
      Loads(after, name) &&
      after[name].campaign.stats.emailsSent == 1 &&
      after[name].campaign.stats.becReplies == 1 &&
      after[name].campaign.stats.becTransfers == 1 &&
      after[name].campaign.stats.successRate == 1.0
  {
    var name := "test_bec_campaign";
    var created := store[name := Loaded(NewCampaign(name, "BEC", NoOverrides, now))];
    var q := [Event(name, "email_sent"), Event(name, "bec_reply"), Event(name, "bec_transfer")];
    assert q[0] in multiset(q);
    assert multiset(q) == multiset{q[0]} + multiset{q[1]} + multiset{q[2]};
    assert Occurrences(q, name, "email_sent") == 1;
    assert Occurrences(q, name, "bec_reply") == 1;
    assert Occurrences(q, name, "bec_transfer") == 1;
    OneOfEachBec(created, q, name);
  }

  /** A loading BEC campaign with zero stats, drained over one send, one reply and one transfer for it. */
  lemma OneOfEachBec(created: Store, q: seq<Event>, name: string)
    requires Loads(created, name) && created[name].campaign.campaignType == "BEC"
    requires created[name].campaign.stats == ZeroStats
    requires Occurrences(q, name, "email_sent") == 1
    requires Occurrences(q, name, "bec_reply") == 1 && Occurrences(q, name, "bec_transfer") == 1
    ensures var after := Drain(created, q);
      Loads(after, name) &&
      after[name].campaign.stats.emailsSent == 1 &&
      after[name].campaign.stats.becReplies == 1 &&
      after[name].campaign.stats.becTransfers == 1 &&
      after[name].campaign.stats.successRate == 1.0
  {
    assert Event(name, "bec_reply") in multiset(q);
    DrainCounts(created, q, name);
  }

  /**
   * A new BEC campaign whose drained queue holds two `bec_reply` and one
   * `bec_transfer` event for it, in any order and among any other events,
   * ends with a success rate of one half.
   */
  lemma BecRateAfterDrain(store: Store, name: string, now: Timestamp, events: seq<Event>)
    requires Occurrences(events, name, "bec_reply") == 2 && Occurrences(events, name, "bec_transfer") == 1
    ensures var created := store[name := Loaded(NewCampaign(name, "BEC", NoOverrides, now))];
      Loads(Drain(created, events), name) &&
      Drain(created, events)[name].campaign.stats.successRate == 0.5
  {
    var created := store[name := Loaded(NewCampaign(name, "BEC", NoOverrides, now))];
    assert Event(name, "bec_reply") in multiset(events);
    DrainCounts(created, events, name);
    var after := Drain(created, events)[name].campaign;
    HalfRate(after.stats);
  }

  lemma HalfRate(s: Stats)
    requires s.becReplies == 2 && s.becTransfers == 1
    ensures SuccessRate(s, "BEC") == 0.5
  {
    assert SuccessRate(s, "BEC") == 1 as real / 2 as real;
  }

  // ---------------------------------------------------------------------------
  // The monitor as written

  /** Where the monitor thread is after it has taken events off the queue. */
  datatype MonitorState = MonitorState(store: Store, pending: seq<Event>, alive: bool)

  /**
   * The drain as written: `_process_event` ends by calling `_save_campaign`,
   * which the class never defines. The first event naming a campaign that
   * loads raises `AttributeError` after it has been taken off the queue; the
   * thread dies and the bumped copy is never written back.
   */
  function MonitorAsWritten(store: Store, events: seq<Event>): (r: MonitorState)
    ensures r.store == store
    ensures !r.alive <==> exists i :: 0 <= i < |events| && Loads(store, events[i].campaign)
    ensures r.alive ==> r.pending == []
    ensures !r.alive ==> exists i :: (0 <= i < |events| && Loads(store, events[i].campaign) &&
      (forall j :: 0 <= j < i ==> !Loads(store, events[j].campaign)) && r.pending == events[i + 1..])
    decreases |events|
  {
    if events == [] then MonitorState(store, [], true)
    else if Loads(store, events[0].campaign) then MonitorState(store, events[1..], false)
    else
      var r := MonitorAsWritten(store, events[1..]);
      assert forall i :: 0 <= i < |events[1..]| ==> events[1..][i] == events[i + 1];
      r
  }

  /**
   * The source's test scenario as written: the monitor dies on the first
   * event, two events stay queued, and `emails_sent` stays 0 where the test
   * expects 1 (which `BecCampaignEventsTest` shows the repaired drain gives).
   */
  lemma SaveCampaignMissing(store: Store, now: Timestamp)
    requires "test_bec_campaign" !in store
    ensures var name := "test_bec_campaign";
      var created := store[name := Loaded(NewCampaign(name, "BEC", NoOverrides, now))];
      var q := [Event(name, "email_sent"), Event(name, "bec_reply"), Event(name, "bec_transfer")];
      var r := MonitorAsWritten(created, q);
      var after := Drain(created, q);
      !r.alive && |r.pending| == 2 && Loads(r.store, name) && r.store[name].campaign.stats.emailsSent == 0 &&
      Loads(after, name) && after[name].campaign.stats.emailsSent == 1
  {
    var name := "test_bec_campaign";
    var created := store[name := Loaded(NewCampaign(name, "BEC", NoOverrides, now))];
    var q := [Event(name, "email_sent"), Event(name, "bec_reply"), Event(name, "bec_transfer")];
    assert Loads(created, q[0].campaign);
    assert MonitorAsWritten(created, q) == MonitorState(created, q[1..], false);
    BecCampaignEventsTest(store, now);
  }
}
