/** The store as the bot and the collector see it: one object holding the four
    collections, whose methods replace them with the tables the `Tables`
    functions define. The read-only queries are those functions themselves,
    applied to the current fields. */
module Store {
  import opened Common
  import opened ObjectIds
  import opened Tables

  class Database {
    var prices: seq<PriceRecord>
    var users: map<UserId, UserRecord>
    var subscriptions: seq<Subscription>
    var alerts: seq<Alert>

    /** The keys the store enforces: `_id` on every collection, and the
        (user, symbol) pair the upserts of subscriptions and alerts filter on. */
    ghost predicate Valid()
      reads this
    {
      PriceKeysUnique(prices) && SubscriptionsValid(subscriptions) && AlertsValid(alerts)
    }

    constructor ()
      ensures Valid()
      ensures prices == [] && users == map[] && subscriptions == [] && alerts == []
    {
      prices, users, subscriptions, alerts := [], map[], [], [];
    }

    /** `update_prices`: each entry of the snapshot in turn; a null price is
        skipped, a price that does not convert is skipped without stopping the
        loop, and any other entry upserts the document keyed by its market
        symbol. The other collections are not touched. */
    method UpdatePrices(markets: seq<MarketEntry>, parse: FloatParser, now: Stamp)
      requires Valid()
      modifies this
      ensures Valid()
      ensures prices == IngestAll(old(prices), markets, parse, now)
      ensures forall key :: PriceOf(prices, key) == ExpectedPrice(old(prices), markets, key, parse, now)
      ensures users == old(users) && subscriptions == old(subscriptions) && alerts == old(alerts)
    {
      var i := 0;
      while i < |markets|
        invariant 0 <= i <= |markets|
        invariant PriceKeysUnique(prices)
        invariant prices == IngestAll(old(prices), markets[..i], parse, now)
        invariant users == old(users) && subscriptions == old(subscriptions) && alerts == old(alerts)
      {
        var entry := markets[i];
        ghost var before := prices;
        match entry.price {
          case None =>
          case Some(raw) =>
            match parse(raw) {
              case None =>
              case Some(p) =>
                prices := UpsertPrice(prices, EntryRecord(entry, p, now));
            }
        }
        assert prices == IngestEntry(before, entry, parse, now);
        IngestEntryKeepsKeysUnique(before, entry, parse, now);
        assert markets[..i + 1][..i] == markets[..i];
        i := i + 1;
      }
      assert markets[..|markets|] == markets;
      IngestAllLastWriteWins(old(prices), markets, parse, now);
    }

    /** `add_or_update_user`. */
    method AddOrUpdateUser(profile: UserProfile, now: Stamp)
      requires Valid()
      modifies this
      ensures Valid()
      ensures users == UpsertUser(old(users), profile, now)
      ensures prices == old(prices) && subscriptions == old(subscriptions) && alerts == old(alerts)
    {
      users := UpsertUser(users, profile, now);
    }

    /** `add_or_update_subscription`; `newId` is the id the store would give a
        document it inserts. */
    method AddOrUpdateSubscription(userId: UserId, symbol: string, frequency: string, now: Stamp, newId: ObjectId)
      requires Valid() && newId !in SubscriptionIds(subscriptions)
      modifies this
      ensures Valid()
      ensures subscriptions == UpsertSubscription(old(subscriptions), userId, symbol, frequency, now, newId)
      ensures prices == old(prices) && users == old(users) && alerts == old(alerts)
    {
      UpsertSubscriptionSpec(subscriptions, userId, symbol, frequency, now, newId);
      subscriptions := UpsertSubscription(subscriptions, userId, symbol, frequency, now, newId);
    }

    /** `delete_subscription_by_id`: text that is not an id gives false and
        deletes nothing; an id gives true exactly when a subscription had it,
        and that subscription is gone. */
    method DeleteSubscriptionById(idText: string) returns (ok: bool)
      requires Valid()
      modifies this
      ensures Valid()
      ensures match ParseObjectId(idText)
        case None => !ok && subscriptions == old(subscriptions)
        case Some(id) => ok == (id in SubscriptionIds(old(subscriptions)))
                         && subscriptions == RemoveSubscription(old(subscriptions), id)
      ensures prices == old(prices) && users == old(users) && alerts == old(alerts)
    {
      match ParseObjectId(idText) {
        case None =>
          ok := false;
        case Some(id) =>
          RemoveSubscriptionSpec(subscriptions, id);
          ok := id in SubscriptionIds(subscriptions);
          subscriptions := RemoveSubscription(subscriptions, id);
      }
    }

    /** `set_price_alert`. */
    method SetPriceAlert(userId: UserId, symbol: string, target: real, condition: Condition, now: Stamp, newId: ObjectId)
      requires Valid() && newId !in AlertIds(alerts)
      modifies this
      ensures Valid()
      ensures alerts == UpsertAlert(old(alerts), userId, symbol, target, condition, now, newId)
      ensures prices == old(prices) && users == old(users) && subscriptions == old(subscriptions)
    {
      UpsertAlertSpec(alerts, userId, symbol, target, condition, now, newId);
      alerts := UpsertAlert(alerts, userId, symbol, target, condition, now, newId);
    }

    /** `delete_price_alert`, as `DeleteSubscriptionById` on the alerts. */
    method DeletePriceAlert(idText: string) returns (ok: bool)
      requires Valid()
      modifies this
      ensures Valid()
      ensures match ParseObjectId(idText)
        case None => !ok && alerts == old(alerts)
        case Some(id) => ok == (id in AlertIds(old(alerts)))
                         && alerts == RemoveAlert(old(alerts), id)
      ensures prices == old(prices) && users == old(users) && subscriptions == old(subscriptions)
    {
      match ParseObjectId(idText) {
        case None =>
          ok := false;
        case Some(id) =>
          RemoveAlertSpec(alerts, id);
          ok := id in AlertIds(alerts);
          alerts := RemoveAlert(alerts, id);
      }
    }

    /** `update_alert_status`: the status is written whatever it was (no guard
        on the current status); the result reports whether a document was
        actually modified, i.e. it existed with a different status. */
    method UpdateAlertStatus(id: ObjectId, status: AlertStatus) returns (changed: bool)
      requires Valid()
      modifies this
      ensures Valid()
      ensures alerts == SetAlertStatus(old(alerts), id, status)
      ensures changed <==> exists a :: a in old(alerts) && a.id == id && a.status != status
      ensures prices == old(prices) && users == old(users) && subscriptions == old(subscriptions)
    {
      SetAlertStatusSpec(alerts, id, status);
      match AlertIdIndex(alerts, id) {
        case None =>
          changed := false;
        case Some(i) =>
          changed := alerts[i].status != status;
          assert changed ==> alerts[i] in alerts;
          assert forall a :: a in alerts && a.id == id ==> a == alerts[i];
      }
      alerts := SetAlertStatus(alerts, id, status);
    }
  }
}
