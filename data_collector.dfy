/** The two periodic jobs: the price tick (ingest a market snapshot, then
    notify and mark every alert whose condition the new prices meet) and the
    daily digest (per cadence due today, one message per subscription whose
    currency resolves). */
module DataCollector {
  import opened Common
  import opened ObjectIds
  import opened Tables
  import opened Store

  /** The outcome of fetching the market snapshot: a transport error (caught
      and logged), a response the tick cannot use (a non-success status or a
      body that is not JSON, raised out of the job), or the markets. */
  datatype Fetch = RequestFailed | BadResponse | Markets(markets: seq<MarketEntry>)

  /** The outcome of one message send: delivered, refused because the user
      blocked the bot, or any other failure. */
  datatype SendOutcome = Delivered | Blocked | Failed

  // ----------------------------------------------------------- price tick

  /** An alert id whose notification was delivered during the tick:
      `deliver(i)` is the outcome of the send for the i-th triggered alert. */
  predicate DeliveredIn(id: ObjectId, triggered: seq<Alert>, deliver: nat -> SendOutcome)
  {
    exists i :: 0 <= i < |triggered| && triggered[i].id == id && deliver(i) == Delivered
  }

  /** The alerts after the tick's loop over the first `|triggered|` triggered
      alerts: each delivered one has its status set to triggered. */
  function MarkDelivered(alerts: seq<Alert>, triggered: seq<Alert>, deliver: nat -> SendOutcome): seq<Alert>
    decreases |triggered|
  {
    if triggered == [] then alerts
    else
      var n := |triggered| - 1;
      var before := MarkDelivered(alerts, triggered[..n], deliver);
      if deliver(n) == Delivered then SetAlertStatus(before, triggered[n].id, Triggered) else before
  }

  /** The loop's effect alert by alert: exactly the alerts whose notification
      was delivered are now triggered; an alert whose send failed, for
      whatever reason, and every alert not selected keep their document. */
  lemma {:induction false} MarkDeliveredSpec(alerts: seq<Alert>, triggered: seq<Alert>, deliver: nat -> SendOutcome)
    requires AlertsValid(alerts)
    ensures var r := MarkDelivered(alerts, triggered, deliver);
      && AlertsValid(r)
      && |r| == |alerts|
      && forall j :: 0 <= j < |r| ==>
           r[j] == if DeliveredIn(alerts[j].id, triggered, deliver) then alerts[j].(status := Triggered) else alerts[j]
    decreases |triggered|
  {
    if triggered != [] {
      var n := |triggered| - 1;
      var init := triggered[..n];
      MarkDeliveredSpec(alerts, init, deliver);
      var before := MarkDelivered(alerts, init, deliver);
      DeliveredInSnoc(triggered, deliver);
      if deliver(n) == Delivered {
        SetAlertStatusSpec(before, triggered[n].id, Triggered);
      }
    }
  }

  /** An id is delivered within the alerts walked so far exactly when it was
      delivered before the last one, or is the last one's and that send was
      delivered. */
  lemma DeliveredInSnoc(triggered: seq<Alert>, deliver: nat -> SendOutcome)
    requires triggered != []
    ensures var n := |triggered| - 1;
      forall id :: DeliveredIn(id, triggered, deliver) <==>
        DeliveredIn(id, triggered[..n], deliver) || (triggered[n].id == id && deliver(n) == Delivered)
  {
    var n := |triggered| - 1;
    var init := triggered[..n];
    forall id
      ensures DeliveredIn(id, triggered, deliver) <==>
        DeliveredIn(id, init, deliver) || (triggered[n].id == id && deliver(n) == Delivered)
    {
      if DeliveredIn(id, triggered, deliver) {
        var i :| 0 <= i < |triggered| && triggered[i].id == id && deliver(i) == Delivered;
        if i < n {
          assert init[i] == triggered[i];
        }
      }
      if DeliveredIn(id, init, deliver) {
        var i :| 0 <= i < |init| && init[i].id == id && deliver(i) == Delivered;
        assert triggered[i] == init[i];
      }
    }
  }

  /** An alert that is no longer active is never selected, whatever the prices. */
  lemma TriggeredNeverSelected(alerts: seq<Alert>, prices: seq<PriceRecord>, a: Alert)
    requires a.status == Triggered
    ensures a !in FindTriggeredAlerts(alerts, prices)
  {
  }

  /** At most once: straight after a tick, no alert whose notification that
      tick delivered is selected again, whatever the prices then are
      (`DeliveredNeverReselected` extends this over any run of later ticks). */
  lemma DeliveredNotReselected(alerts: seq<Alert>, triggered: seq<Alert>, deliver: nat -> SendOutcome, prices: seq<PriceRecord>)
    requires AlertsValid(alerts)
    ensures forall a :: a in FindTriggeredAlerts(MarkDelivered(alerts, triggered, deliver), prices) ==>
      !DeliveredIn(a.id, triggered, deliver)
  {
    var r := MarkDelivered(alerts, triggered, deliver);
    MarkDeliveredSpec(alerts, triggered, deliver);
    forall a | a in FindTriggeredAlerts(r, prices)
      ensures !DeliveredIn(a.id, triggered, deliver)
    {
      var j :| 0 <= j < |r| && r[j] == a;
      assert r[j].id == alerts[j].id;
    }
  }

  /** What one later tick sees from outside: the prices it selects against
      and the outcome of each of its sends. */
  datatype Tick = Tick(prices: seq<PriceRecord>, deliver: nat -> SendOutcome)

  /** The alerts after a run of ticks, each selecting against its own prices
      and marking what it delivered, with no other write to the alerts. */
  function AfterTicks(alerts: seq<Alert>, ticks: seq<Tick>): seq<Alert>
    decreases |ticks|
  {
    if ticks == [] then alerts
    else
      var t := ticks[0];
      AfterTicks(MarkDelivered(alerts, FindTriggeredAlerts(alerts, t.prices), t.deliver), ticks[1..])
  }

  /** Ticks keep every document in its place with its id, and never re-arm
      an alert: a triggered alert stays triggered. */
  lemma {:induction false} TriggeredStaysTriggered(alerts: seq<Alert>, ticks: seq<Tick>)
    requires AlertsValid(alerts)
    ensures var r := AfterTicks(alerts, ticks);
      && AlertsValid(r) && |r| == |alerts|
      && forall j :: 0 <= j < |r| ==>
           r[j].id == alerts[j].id && (alerts[j].status == Triggered ==> r[j].status == Triggered)
    decreases |ticks|
  {
    if ticks != [] {
      var t := ticks[0];
      var m := MarkDelivered(alerts, FindTriggeredAlerts(alerts, t.prices), t.deliver);
      MarkDeliveredSpec(alerts, FindTriggeredAlerts(alerts, t.prices), t.deliver);
      TriggeredStaysTriggered(m, ticks[1..]);
    }
  }

  /** At most once, over any number of ticks: an alert whose notification a
      tick delivered is selected by no later tick, whatever the prices of the
      ticks in between and of the selecting one, while nothing but the ticks
      writes the alerts. */
  lemma DeliveredNeverReselected(alerts: seq<Alert>, triggered: seq<Alert>, deliver: nat -> SendOutcome,
                                 later: seq<Tick>, prices: seq<PriceRecord>)
    requires AlertsValid(alerts)
    ensures forall a :: a in FindTriggeredAlerts(AfterTicks(MarkDelivered(alerts, triggered, deliver), later), prices) ==>
      !DeliveredIn(a.id, triggered, deliver)
  {
    var m := MarkDelivered(alerts, triggered, deliver);
    MarkDeliveredSpec(alerts, triggered, deliver);
    var r := AfterTicks(m, later);
    TriggeredStaysTriggered(m, later);
    forall a | a in FindTriggeredAlerts(r, prices)
      ensures !DeliveredIn(a.id, triggered, deliver)
    {
      var j :| 0 <= j < |r| && r[j] == a;
      assert r[j].id == alerts[j].id;
    }
  }

  /** One tick sends at most one notification per alert: the selected alerts
      have distinct ids. */
  lemma SelectedAlertsDistinct(alerts: seq<Alert>, prices: seq<PriceRecord>)
    requires AlertsValid(alerts)
    ensures var t := FindTriggeredAlerts(alerts, prices);
      forall i, j :: 0 <= i < j < |t| ==> t[i].id != t[j].id
  {
    FilterKeepsDistinct(alerts, (a: Alert) => Fires(a, prices), (a: Alert) => a.id);
  }

  // --------------------------------------------------------------- digests

  /** A digest message: to whom, for which cadence, with which price document. */
  datatype Digest = Digest(userId: UserId, frequency: string, info: CurrencyInfo)

  /** The message one subscription gets, if its symbol resolves. */
  function DigestFor(s: Subscription, prices: seq<PriceRecord>, frequency: string): seq<Digest>
  {
    match GetCurrencyInfo(prices, s.symbol)
    case Some(info) => [Digest(s.userId, frequency, info)]
    case None => []
  }

  /** The messages of one cadence over the selected subscriptions, in order. */
  function Digests(subs: seq<Subscription>, prices: seq<PriceRecord>, frequency: string): seq<Digest>
  {
    if subs == [] then [] else DigestFor(subs[0], prices, frequency) + Digests(subs[1..], prices, frequency)
  }

  lemma {:induction false} DigestsAppend(a: seq<Subscription>, b: seq<Subscription>, prices: seq<PriceRecord>, frequency: string)
    ensures Digests(a + b, prices, frequency) == Digests(a, prices, frequency) + Digests(b, prices, frequency)
  {
    if a == [] {
      assert a + b == b;
    } else {
      assert (a + b)[1..] == a[1..] + b;
      DigestsAppend(a[1..], b, prices, frequency);
    }
  }

  /** One more subscription adds its own message, if any, at the end. */
  lemma DigestsSnoc(a: seq<Subscription>, s: Subscription, prices: seq<PriceRecord>, frequency: string)
    ensures Digests(a + [s], prices, frequency) == Digests(a, prices, frequency) + DigestFor(s, prices, frequency)
  {
    DigestsAppend(a, [s], prices, frequency);
    assert [s][1..] == [];
    assert Digests([s], prices, frequency) == DigestFor(s, prices, frequency) + [];
  }

  /** One iteration of the digest loop: the message appended, if any, is the
      next subscription's. */
  lemma DigestsStep(subs: seq<Subscription>, i: nat, prices: seq<PriceRecord>, frequency: string, info: Option<CurrencyInfo>)
    requires i < |subs| && info == GetCurrencyInfo(prices, subs[i].symbol)
    ensures Digests(subs[..i + 1], prices, frequency) ==
      Digests(subs[..i], prices, frequency) + (if info.Some? then [Digest(subs[i].userId, frequency, info.value)] else [])
  {
    assert subs[..i + 1] == subs[..i] + [subs[i]];
    DigestsSnoc(subs[..i], subs[i], prices, frequency);
    match info {
      case Some(v) => assert DigestFor(subs[i], prices, frequency) == [Digest(subs[i].userId, frequency, v)];
      case None => assert DigestFor(subs[i], prices, frequency) == [];
    }
  }

  predicate Resolves(s: Subscription, prices: seq<PriceRecord>)
  {
    GetCurrencyInfo(prices, s.symbol).Some?
  }

  /** The digest run of one cadence sends exactly one message per subscription
      whose symbol resolves, in subscription order, and nothing for the others. */
  lemma {:induction false} DigestsOnePerResolvable(subs: seq<Subscription>, prices: seq<PriceRecord>, frequency: string)
    ensures var d := Digests(subs, prices, frequency);
      var r := Filter(subs, (s: Subscription) => Resolves(s, prices));
      && |d| == |r|
      && forall k :: 0 <= k < |d| ==>
           d[k].userId == r[k].userId && d[k].frequency == frequency && GetCurrencyInfo(prices, r[k].symbol) == Some(d[k].info)
  {
    if subs != [] {
      DigestsOnePerResolvable(subs[1..], prices, frequency);
    }
  }

  /** What the digests of one cadence carry: each goes to the subscriber of a
      subscription with that frequency, with the document its symbol resolves
      to, and there are never more messages than subscriptions. */
  lemma DigestsSound(subs: seq<Subscription>, prices: seq<PriceRecord>, frequency: string)
    ensures var selected := GetSubscriptionsByFrequency(subs, frequency);
      var d := Digests(selected, prices, frequency);
      && |d| <= |selected|
      && forall k :: 0 <= k < |d| ==>
           d[k].frequency == frequency &&
           exists s :: (s in subs && s.frequency == frequency && s.userId == d[k].userId
                        && GetCurrencyInfo(prices, s.symbol) == Some(d[k].info))
  {
    var selected := GetSubscriptionsByFrequency(subs, frequency);
    var r := Filter(selected, (s: Subscription) => Resolves(s, prices));
    DigestsOnePerResolvable(selected, prices, frequency);
    var d := Digests(selected, prices, frequency);
    forall k | 0 <= k < |d|
      ensures exists s :: (s in subs && s.frequency == frequency && s.userId == d[k].userId
                           && GetCurrencyInfo(prices, s.symbol) == Some(d[k].info))
    {
      assert r[k] in r;
    }
  }

  /** The cadences due on a day, from its weekday (Monday = 0) and its day of
      the month, in the order they run. */
  function Cadences(weekday: int, day: int): seq<string>
  {
    ["daily"] + (if weekday == 5 then ["weekly"] else []) + (if day == 1 then ["monthly"] else [])
  }

  /** The daily digest always runs, and runs first; the weekly one runs
      exactly on Saturdays, the monthly one exactly on the first of the
      month; none runs twice and they keep the order daily, weekly, monthly. */
  lemma CadencesDue(weekday: int, day: int)
    ensures var r := Cadences(weekday, day);
      && |r| >= 1 && r[0] == "daily"
      && ("weekly" in r <==> weekday == 5)
      && ("monthly" in r <==> day == 1)
      && forall i, j :: 0 <= i < j < |r| ==> CadenceRank(r[i]) < CadenceRank(r[j])
  {
  }

  /** The order daily, weekly, monthly. */
  function CadenceRank(c: string): nat
  {
    if c == "daily" then 0 else if c == "weekly" then 1 else 2
  }

  /** The messages of a run of cadences, cadence after cadence. */
  function DigestRun(cadences: seq<string>, subs: seq<Subscription>, prices: seq<PriceRecord>): seq<Digest>
  {
    if cadences == [] then []
    else Digests(GetSubscriptionsByFrequency(subs, cadences[0]), prices, cadences[0]) + DigestRun(cadences[1..], subs, prices)
  }

  lemma MarkDeliveredStep(alerts: seq<Alert>, triggered: seq<Alert>, i: nat, deliver: nat -> SendOutcome)
    requires i < |triggered|
    ensures MarkDelivered(alerts, triggered[..i + 1], deliver) ==
      var before := MarkDelivered(alerts, triggered[..i], deliver);
      if deliver(i) == Delivered then SetAlertStatus(before, triggered[i].id, Triggered) else before
  {
    assert triggered[..i + 1][..i] == triggered[..i];
  }

  lemma {:induction false} DigestRunAppend(a: seq<string>, b: seq<string>, subs: seq<Subscription>, prices: seq<PriceRecord>)
    ensures DigestRun(a + b, subs, prices) == DigestRun(a, subs, prices) + DigestRun(b, subs, prices)
  {
    if a == [] {
      assert a + b == b;
    } else {
      assert (a + b)[0] == a[0] && (a + b)[1..] == a[1..] + b;
      DigestRunAppend(a[1..], b, subs, prices);
    }
  }

  /** A run that is due or not: one cadence's digests, or nothing. */
  lemma DigestRunIfDue(due: bool, c: string, subs: seq<Subscription>, prices: seq<PriceRecord>)
    ensures DigestRun(if due then [c] else [], subs, prices)
      == if due then Digests(GetSubscriptionsByFrequency(subs, c), prices, c) else []
  {
    if due {
      assert [c][1..] == [];
    }
  }

  /** The digest run of a day, spelled out cadence by cadence. */
  lemma DigestRunOfCadences(weekday: int, day: int, subs: seq<Subscription>, prices: seq<PriceRecord>)
    ensures DigestRun(Cadences(weekday, day), subs, prices) ==
      Digests(GetSubscriptionsByFrequency(subs, "daily"), prices, "daily")
      + (if weekday == 5 then Digests(GetSubscriptionsByFrequency(subs, "weekly"), prices, "weekly") else [])
      + (if day == 1 then Digests(GetSubscriptionsByFrequency(subs, "monthly"), prices, "monthly") else [])
  {
    var w: seq<string> := if weekday == 5 then ["weekly"] else [];
    var m: seq<string> := if day == 1 then ["monthly"] else [];
    DigestRunAppend(["daily"] + w, m, subs, prices);
    DigestRunAppend(["daily"], w, subs, prices);
    DigestRunIfDue(true, "daily", subs, prices);
    DigestRunIfDue(weekday == 5, "weekly", subs, prices);
    DigestRunIfDue(day == 1, "monthly", subs, prices);
  }

  // ------------------------------------------------------------ the jobs

  class Collector {
    const db: Database

    constructor (db: Database)
      ensures this.db == db
    {
      this.db := db;
    }

    /** `get_currency_price`: a failed fetch changes nothing; otherwise the
        snapshot is ingested first, then the alerts the new prices trigger are
        walked in order: each is notified, and marked triggered only when its
        send succeeded. Users and subscriptions are not touched. */
    method GetCurrencyPrice(fetch: Fetch, parse: FloatParser, now: Stamp, deliver: nat -> SendOutcome)
      returns (notified: seq<Alert>)
      requires db.Valid()
      modifies db
      ensures db.Valid()
      ensures !fetch.Markets? ==> notified == [] && db.prices == old(db.prices) && db.alerts == old(db.alerts)
      ensures fetch.Markets? ==>
        && db.prices == IngestAll(old(db.prices), fetch.markets, parse, now)
        && notified == FindTriggeredAlerts(old(db.alerts), db.prices)
        && db.alerts == MarkDelivered(old(db.alerts), notified, deliver)
      ensures db.users == old(db.users) && db.subscriptions == old(db.subscriptions)
    {
      if !fetch.Markets? {
        return [];
      }
      db.UpdatePrices(fetch.markets, parse, now);
      notified := FindTriggeredAlerts(db.alerts, db.prices);
      Notify(notified, deliver);
    }

    /** The tick's loop over the selected alerts: the i-th is notified, and
        marked triggered exactly when that send was delivered. */
    method Notify(selected: seq<Alert>, deliver: nat -> SendOutcome)
      requires db.Valid()
      modifies db
      ensures db.Valid()
      ensures db.alerts == MarkDelivered(old(db.alerts), selected, deliver)
      ensures db.prices == old(db.prices) && db.users == old(db.users) && db.subscriptions == old(db.subscriptions)
    {
      var i := 0;
      while i < |selected|
        invariant 0 <= i <= |selected|
        invariant db.Valid()
        invariant db.alerts == MarkDelivered(old(db.alerts), selected[..i], deliver)
        invariant db.prices == old(db.prices) && db.users == old(db.users) && db.subscriptions == old(db.subscriptions)
      {
        MarkDeliveredStep(old(db.alerts), selected, i, deliver);
        if deliver(i) == Delivered {
          var changed := db.UpdateAlertStatus(selected[i].id, Triggered);
        }
        i := i + 1;
      }
      assert selected[..|selected|] == selected;
    }

    /** `send_updates_subscription`: the subscriptions of one frequency, each
        sent its currency's document when its symbol resolves; a subscription
        that does not resolve is skipped, and no send stops the batch. */
    method SendUpdatesSubscription(frequency: string) returns (sent: seq<Digest>)
      ensures sent == Digests(GetSubscriptionsByFrequency(db.subscriptions, frequency), db.prices, frequency)
    {
      var subs := GetSubscriptionsByFrequency(db.subscriptions, frequency);
      if subs == [] {
        return [];
      }
      sent := [];
      var i := 0;
      while i < |subs|
        invariant 0 <= i <= |subs|
        invariant sent == Digests(subs[..i], db.prices, frequency)
      {
        var info := Tables.GetCurrencyInfo(db.prices, subs[i].symbol);
        DigestsStep(subs, i, db.prices, frequency, info);
        if info.Some? {
          sent := sent + [Digest(subs[i].userId, frequency, info.value)];
        }
        i := i + 1;
      }
      assert subs[..|subs|] == subs;
    }

    /** `send_all_updates`: the daily digest always, then the weekly one on a
        Saturday (weekday 5) and the monthly one on the first of the month. */
    method SendAllUpdates(weekday: int, day: int) returns (sent: seq<Digest>)
      ensures sent == DigestRun(Cadences(weekday, day), db.subscriptions, db.prices)
    {
      var daily := SendUpdatesSubscription("daily");
      var weekly: seq<Digest> := [];
      if weekday == 5 {
        weekly := SendUpdatesSubscription("weekly");
      }
      var monthly: seq<Digest> := [];
      if day == 1 {
        monthly := SendUpdatesSubscription("monthly");
      }
      sent := daily + weekly + monthly;
      DigestRunOfCadences(weekday, day, db.subscriptions, db.prices);
    }
  }
}
