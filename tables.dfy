/** The four collections of the store (prices, users, subscriptions, alerts)
    as values, and every read and write the bot and the collector make on them,
    as functions. The `Store.Database` class applies these writes in place. */
module Tables {
  import opened Common
  import opened ObjectIds

  type UserId = int

  /** An opaque timestamp: the wall-clock time at which a write happens. */
  type Stamp = nat

  /** Conversion of a raw value to a floating-point number, `float(...)`:
      `None` where the conversion raises. */
  type FloatParser = string -> Option<real>

  // ---------------------------------------------------------------- prices

  /** One market of the feed's snapshot. `price` is `None` where the feed
      reports a null price; the other fields are carried verbatim. */
  datatype MarketEntry = MarketEntry(
    symbol: string,        // market symbol, the key of the prices collection
    baseAsset: string,
    faBaseAsset: string,
    enBaseAsset: string,
    price: Option<string>,
    change24h: string,
    volume24h: string)

  /** A price document without its key, as a lookup returns it. */
  datatype CurrencyInfo = CurrencyInfo(
    symbol: string,        // the market's base asset
    faSymbol: string,
    enBaseAsset: string,
    price: real,
    change24h: string,
    volume24h: string,
    lastUpdate: Stamp)

  /** A price document: `key` is the market symbol (its `_id`). */
  datatype PriceRecord = PriceRecord(key: string, info: CurrencyInfo)

  predicate PriceKeysUnique(prices: seq<PriceRecord>)
  {
    forall i, j :: 0 <= i < j < |prices| ==> prices[i].key != prices[j].key
  }

  /** Position of the document with key `key`. */
  function PriceIndex(prices: seq<PriceRecord>, key: string): (r: Option<nat>)
    ensures r.Some? ==> r.value < |prices| && prices[r.value].key == key
    ensures r.None? <==> forall j :: 0 <= j < |prices| ==> prices[j].key != key
  {
    FirstWhere(prices, (p: PriceRecord) => p.key == key)
  }

  /** The document with key `key`, if the collection has one. */
  function PriceOf(prices: seq<PriceRecord>, key: string): (r: Option<PriceRecord>)
    ensures r.Some? ==> r.value in prices && r.value.key == key
    ensures r.None? <==> forall j :: 0 <= j < |prices| ==> prices[j].key != key
  {
    match PriceIndex(prices, key)
    case None => None
    case Some(i) => Some(prices[i])
  }

  /** The document an entry with a converted price writes. */
  function EntryRecord(e: MarketEntry, price: real, now: Stamp): PriceRecord
  {
    PriceRecord(e.symbol, CurrencyInfo(e.baseAsset, e.faBaseAsset, e.enBaseAsset, price, e.change24h, e.volume24h, now))
  }

  /** Upsert by key: overwrite the document in place, or append a new one. */
  function UpsertPrice(prices: seq<PriceRecord>, rec: PriceRecord): seq<PriceRecord>
  {
    match PriceIndex(prices, rec.key)
    case Some(i) => prices[i := rec]
    case None => prices + [rec]
  }

  /** One entry of `update_prices`: a null price or a price that does not
      convert leaves the collection as it is. */
  function IngestEntry(prices: seq<PriceRecord>, e: MarketEntry, parse: FloatParser, now: Stamp): seq<PriceRecord>
  {
    match e.price
    case None => prices
    case Some(raw) =>
      match parse(raw)
      case None => prices
      case Some(p) => UpsertPrice(prices, EntryRecord(e, p, now))
  }

  /** `update_prices` over a whole snapshot, entry by entry in order. */
  function IngestAll(prices: seq<PriceRecord>, markets: seq<MarketEntry>, parse: FloatParser, now: Stamp): seq<PriceRecord>
    decreases |markets|
  {
    if markets == [] then prices
    else IngestEntry(IngestAll(prices, markets[..|markets| - 1], parse, now), markets[|markets| - 1], parse, now)
  }

  /** The last entry of `markets` for market `key` whose price is present and
      converts, with the converted price. */
  function LastPriced(markets: seq<MarketEntry>, key: string, parse: FloatParser): Option<(MarketEntry, real)>
    decreases |markets|
  {
    if markets == [] then None
    else
      var e := markets[|markets| - 1];
      if e.symbol == key && e.price.Some? && parse(e.price.value).Some? then Some((e, parse(e.price.value).value))
      else LastPriced(markets[..|markets| - 1], key, parse)
  }

  // ------------------------------------------------------ currency lookup

  /** Characters equal up to ASCII case. */
  predicate SameLetter(a: char, b: char)
  {
    LowerAscii(a) == LowerAscii(b)
  }

  /** The localized-name pattern built from the gap-free query characters `cs`:
      those characters in order, with any run of gaps allowed between two of
      them, anchored at both ends, ASCII case ignored. */
  predicate FaPatternMatches(fa: string, cs: string)
  {
    if cs == [] then fa == []
    else |fa| > 0 && SameLetter(fa[0], cs[0]) && MatchAfterLetter(fa[1..], cs[1..])
  }

  /** The rest of the pattern after one literal: each further literal may be
      preceded by gaps; nothing may follow the last one. */
  predicate MatchAfterLetter(fa: string, cs: string)
    decreases |fa|
  {
    if cs == [] then fa == []
    else if fa == [] then false
    else if IsGap(fa[0]) then MatchAfterLetter(fa[1..], cs)
    else SameLetter(fa[0], cs[0]) && MatchAfterLetter(fa[1..], cs[1..])
  }

  /** The lookup's three alternatives on one document. */
  predicate MatchesQuery(info: CurrencyInfo, query: string)
  {
    || EqualsIgnoreCase(info.symbol, query)
    || EqualsIgnoreCase(info.enBaseAsset, query)
    || FaPatternMatches(info.faSymbol, RemoveGaps(query))
  }

  /** `get_currency_info`: the first document in store order that matches the
      query on any of the three alternatives. */
  function GetCurrencyInfo(prices: seq<PriceRecord>, query: string): (r: Option<CurrencyInfo>)
    ensures r.None? <==> forall j :: 0 <= j < |prices| ==> !MatchesQuery(prices[j].info, query)
    ensures r.Some? ==> exists i :: 0 <= i < |prices| && r.value == prices[i].info && MatchesQuery(prices[i].info, query)
                                      && forall j :: 0 <= j < i ==> !MatchesQuery(prices[j].info, query)
  {
    match FirstWhere(prices, (p: PriceRecord) => MatchesQuery(p.info, query))
    case None => None
    case Some(i) => Some(prices[i].info)
  }

  // ----------------------------------------------------------------- users

  datatype UserProfile = UserProfile(id: UserId, firstName: string, lastName: Option<string>, username: Option<string>)

  datatype UserRecord = UserRecord(firstName: string, lastName: Option<string>, username: Option<string>, lastSeen: Stamp, joinDate: Stamp)

  /** `add_or_update_user`: the profile fields and the last-seen stamp are
      always written; the join date only when the user is new. */
  function UpsertUser(users: map<UserId, UserRecord>, p: UserProfile, now: Stamp): (m: map<UserId, UserRecord>)
    ensures m.Keys == users.Keys + {p.id}
    ensures m[p.id].joinDate == if p.id in users then users[p.id].joinDate else now
    ensures m[p.id].firstName == p.firstName && m[p.id].lastName == p.lastName
    ensures m[p.id].username == p.username && m[p.id].lastSeen == now
    ensures forall u :: u in users && u != p.id ==> m[u] == users[u]
  {
    var join := if p.id in users then users[p.id].joinDate else now;
    users[p.id := UserRecord(p.firstName, p.lastName, p.username, now, join)]
  }

  // --------------------------------------------------------- subscriptions

  /** A digest subscription. `symbol` is the text the user typed and
      `frequency` the callback data chosen, both stored verbatim. */
  datatype Subscription = Subscription(id: ObjectId, userId: UserId, symbol: string, frequency: string, lastUpdate: Stamp, joinDate: Stamp)

  predicate SubscriptionKeyIs(s: Subscription, userId: UserId, symbol: string)
  {
    s.userId == userId && s.symbol == symbol
  }

  /** Ids are unique, and so is the pair (user, symbol). */
  predicate SubscriptionsValid(subs: seq<Subscription>)
  {
    && (forall i, j :: 0 <= i < j < |subs| ==> subs[i].id != subs[j].id)
    && (forall i, j :: 0 <= i < j < |subs| ==> !SubscriptionKeyIs(subs[j], subs[i].userId, subs[i].symbol))
  }

  function SubscriptionIds(subs: seq<Subscription>): set<ObjectId>
  {
    set s | s in subs :: s.id
  }

  function SubscriptionIndex(subs: seq<Subscription>, userId: UserId, symbol: string): (r: Option<nat>)
    ensures r.Some? ==> r.value < |subs| && SubscriptionKeyIs(subs[r.value], userId, symbol)
    ensures r.None? <==> forall j :: 0 <= j < |subs| ==> !SubscriptionKeyIs(subs[j], userId, symbol)
  {
    FirstWhere(subs, (s: Subscription) => SubscriptionKeyIs(s, userId, symbol))
  }

  /** The subscription of `userId` to `symbol`, if there is one. */
  function SubscriptionFor(subs: seq<Subscription>, userId: UserId, symbol: string): Option<Subscription>
  {
    match SubscriptionIndex(subs, userId, symbol)
    case None => None
    case Some(i) => Some(subs[i])
  }

  /** `add_or_update_subscription`: overwrite frequency and stamp of the
      existing (user, symbol) document, or insert one under the id the store
      generates. */
  function UpsertSubscription(subs: seq<Subscription>, userId: UserId, symbol: string, frequency: string, now: Stamp, newId: ObjectId): seq<Subscription>
  {
    match SubscriptionIndex(subs, userId, symbol)
    case Some(i) => subs[i := subs[i].(frequency := frequency, lastUpdate := now)]
    case None => subs + [Subscription(newId, userId, symbol, frequency, now, now)]
  }

  /** `get_subscriptions_by_frequency`: every subscription with that
      frequency, in store order, without a limit. */
  function GetSubscriptionsByFrequency(subs: seq<Subscription>, frequency: string): (r: seq<Subscription>)
    ensures forall s :: s in r <==> s in subs && s.frequency == frequency
  {
    Filter(subs, (s: Subscription) => s.frequency == frequency)
  }

  /** A per-user listing reads at most this many documents. */
  const ListingLimit: nat := 100

  function SubscriptionsOf(subs: seq<Subscription>, userId: UserId): (r: seq<Subscription>)
    ensures forall s :: s in r <==> s in subs && s.userId == userId
  {
    Filter(subs, (s: Subscription) => s.userId == userId)
  }

  /** `get_user_subscriptions`: the user's subscriptions, whatever their
      frequency, the first 100 in store order. */
  function GetUserSubscriptions(subs: seq<Subscription>, userId: UserId): (r: seq<Subscription>)
    ensures |r| <= ListingLimit
    ensures forall s :: s in r ==> s in subs && s.userId == userId
    ensures |SubscriptionsOf(subs, userId)| <= ListingLimit ==> r == SubscriptionsOf(subs, userId)
    ensures r == [] <==> forall s :: s in subs ==> s.userId != userId
  {
    var all := SubscriptionsOf(subs, userId);
    assert all != [] ==> all[0] in all;
    Take(all, ListingLimit)
  }

  function SubscriptionIdIndex(subs: seq<Subscription>, id: ObjectId): (r: Option<nat>)
    ensures r.Some? ==> r.value < |subs| && subs[r.value].id == id
    ensures r.None? <==> id !in SubscriptionIds(subs)
  {
    var r := FirstWhere(subs, (s: Subscription) => s.id == id);
    assert r.None? ==> forall s :: s in subs ==> s.id != id;
    assert r.Some? ==> subs[r.value] in subs;
    r
  }

  /** `delete_one` by id: the first (the only) document with that id goes. */
  function RemoveSubscription(subs: seq<Subscription>, id: ObjectId): seq<Subscription>
  {
    match SubscriptionIdIndex(subs, id)
    case None => subs
    case Some(i) => subs[..i] + subs[i + 1..]
  }

  // ---------------------------------------------------------------- alerts

  datatype Condition = Gte | Lte

  datatype AlertStatus = Active | Triggered

  /** A price alert. `symbol` is the base asset of the currency the user
      chose; it is matched against the market-symbol key of the prices. */
  datatype Alert = Alert(
    id: ObjectId,
    userId: UserId,
    symbol: string,
    targetPrice: real,
    condition: Condition,
    status: AlertStatus,
    lastUpdate: Stamp,
    joinDate: Stamp)

  predicate AlertKeyIs(a: Alert, userId: UserId, symbol: string)
  {
    a.userId == userId && a.symbol == symbol
  }

  predicate AlertsValid(alerts: seq<Alert>)
  {
    && (forall i, j :: 0 <= i < j < |alerts| ==> alerts[i].id != alerts[j].id)
    && (forall i, j :: 0 <= i < j < |alerts| ==> !AlertKeyIs(alerts[j], alerts[i].userId, alerts[i].symbol))
  }

  function AlertIds(alerts: seq<Alert>): set<ObjectId>
  {
    set a | a in alerts :: a.id
  }

  function AlertIndex(alerts: seq<Alert>, userId: UserId, symbol: string): (r: Option<nat>)
    ensures r.Some? ==> r.value < |alerts| && AlertKeyIs(alerts[r.value], userId, symbol)
    ensures r.None? <==> forall j :: 0 <= j < |alerts| ==> !AlertKeyIs(alerts[j], userId, symbol)
  {
    FirstWhere(alerts, (a: Alert) => AlertKeyIs(a, userId, symbol))
  }

  function AlertFor(alerts: seq<Alert>, userId: UserId, symbol: string): Option<Alert>
  {
    match AlertIndex(alerts, userId, symbol)
    case None => None
    case Some(i) => Some(alerts[i])
  }

  /** `set_price_alert`: target, condition and stamp overwritten and the
      status reset to active on the (user, symbol) document, or a new one. */
  function UpsertAlert(alerts: seq<Alert>, userId: UserId, symbol: string, target: real, condition: Condition, now: Stamp, newId: ObjectId): seq<Alert>
  {
    match AlertIndex(alerts, userId, symbol)
    case Some(i) => alerts[i := alerts[i].(targetPrice := target, status := Active, condition := condition, lastUpdate := now)]
    case None => alerts + [Alert(newId, userId, symbol, target, condition, Active, now, now)]
  }

  function AlertsOf(alerts: seq<Alert>, userId: UserId): (r: seq<Alert>)
    ensures forall a :: a in r <==> a in alerts && a.userId == userId
  {
    Filter(alerts, (a: Alert) => a.userId == userId)
  }

  /** `get_user_price_alert`: the user's alerts, active or triggered, the
      first 100 in store order. */
  function GetUserPriceAlert(alerts: seq<Alert>, userId: UserId): (r: seq<Alert>)
    ensures |r| <= ListingLimit
    ensures forall a :: a in r ==> a in alerts && a.userId == userId
    ensures |AlertsOf(alerts, userId)| <= ListingLimit ==> r == AlertsOf(alerts, userId)
    ensures r == [] <==> forall a :: a in alerts ==> a.userId != userId
  {
    var all := AlertsOf(alerts, userId);
    assert all != [] ==> all[0] in all;
    Take(all, ListingLimit)
  }

  function AlertIdIndex(alerts: seq<Alert>, id: ObjectId): (r: Option<nat>)
    ensures r.Some? ==> r.value < |alerts| && alerts[r.value].id == id
    ensures r.None? <==> id !in AlertIds(alerts)
  {
    var r := FirstWhere(alerts, (a: Alert) => a.id == id);
    assert r.None? ==> forall a :: a in alerts ==> a.id != id;
    assert r.Some? ==> alerts[r.value] in alerts;
    r
  }

  function RemoveAlert(alerts: seq<Alert>, id: ObjectId): seq<Alert>
  {
    match AlertIdIndex(alerts, id)
    case None => alerts
    case Some(i) => alerts[..i] + alerts[i + 1..]
  }

  /** `update_alert_status`: the status of the document with that id is set,
      whatever it was. */
  function SetAlertStatus(alerts: seq<Alert>, id: ObjectId, status: AlertStatus): seq<Alert>
  {
    match AlertIdIndex(alerts, id)
    case None => alerts
    case Some(i) => alerts[i := alerts[i].(status := status)]
  }

  /** The trigger rule, boundary included. */
  predicate Meets(condition: Condition, price: real, target: real)
  {
    match condition
    case Gte => price >= target
    case Lte => price <= target
  }

  /** An alert passes the pipeline: it is active, a price document exists
      under its symbol, and that price meets its condition. */
  predicate Fires(a: Alert, prices: seq<PriceRecord>)
  {
    a.status == Active &&
    match PriceOf(prices, a.symbol)
    case None => false
    case Some(rec) => Meets(a.condition, rec.info.price, a.targetPrice)
  }

  /** `find_triggered_alerts`, in store order. */
  function FindTriggeredAlerts(alerts: seq<Alert>, prices: seq<PriceRecord>): (r: seq<Alert>)
    ensures |r| <= |alerts|
  {
    Filter(alerts, (a: Alert) => Fires(a, prices))
  }

  // ============================================================== lemmas

  // ------------------------------------------------------------- prices

  lemma PriceOfMember(prices: seq<PriceRecord>, j: nat)
    requires PriceKeysUnique(prices) && j < |prices|
    ensures PriceOf(prices, prices[j].key) == Some(prices[j])
  {
    assert PriceIndex(prices, prices[j].key).Some?;
  }

  lemma IngestEntryKeepsKeysUnique(prices: seq<PriceRecord>, e: MarketEntry, parse: FloatParser, now: Stamp)
    requires PriceKeysUnique(prices)
    ensures PriceKeysUnique(IngestEntry(prices, e, parse, now))
  {
    if e.price.Some? && parse(e.price.value).Some? {
      var rec := EntryRecord(e, parse(e.price.value).value, now);
      match PriceIndex(prices, rec.key)
      case Some(i) =>
        assert forall j :: 0 <= j < |prices| ==> UpsertPrice(prices, rec)[j].key == prices[j].key;
      case None =>
    }
  }

  /** A keyed upsert keeps keys unique, installs the new document under its
      key, leaves every other key's document alone, keeps the position of an
      existing document and appends a new one at the end. */
  lemma UpsertPriceSpec(prices: seq<PriceRecord>, rec: PriceRecord)
    requires PriceKeysUnique(prices)
    ensures var r := UpsertPrice(prices, rec);
      && PriceKeysUnique(r)
      && PriceOf(r, rec.key) == Some(rec)
      && (forall k :: k != rec.key ==> PriceOf(r, k) == PriceOf(prices, k))
      && |r| == (if PriceOf(prices, rec.key).Some? then |prices| else |prices| + 1)
      && (forall i :: 0 <= i < |prices| ==> r[i].key == prices[i].key)
  {
    var r := UpsertPrice(prices, rec);
    match PriceIndex(prices, rec.key)
    case Some(i) =>
      assert r == prices[i := rec];
      assert forall j :: 0 <= j < |r| ==> r[j].key == prices[j].key;
      assert PriceKeysUnique(r);
      PriceOfMember(r, i);
      forall k | k != rec.key
        ensures PriceOf(r, k) == PriceOf(prices, k)
      {
        match PriceIndex(prices, k)
        case None =>
        case Some(j) =>
          PriceOfMember(r, j);
      }
    case None =>
      assert r == prices + [rec];
      assert PriceKeysUnique(r);
      PriceOfMember(r, |prices|);
      forall k | k != rec.key
        ensures PriceOf(r, k) == PriceOf(prices, k)
      {
        match PriceIndex(prices, k)
        case None =>
          assert forall j :: 0 <= j < |r| ==> r[j].key != k;
        case Some(j) =>
          PriceOfMember(r, j);
          PriceOfMember(prices, j);
      }
  }

  /** The document a key should hold after a snapshot: the last usable entry
      for that market, or what was there before. */
  function ExpectedPrice(prices: seq<PriceRecord>, markets: seq<MarketEntry>, key: string, parse: FloatParser, now: Stamp): Option<PriceRecord>
  {
    match LastPriced(markets, key, parse)
    case Some((e, p)) => Some(EntryRecord(e, p, now))
    case None => PriceOf(prices, key)
  }

  /** `update_prices` is last-write-wins per market: for every key, the stored
      document is built from the last entry of the snapshot for that market
      whose price is present and converts; markets without one keep their
      previous document (or stay absent). Documents keep their positions. */
  lemma {:induction false} IngestAllLastWriteWins(prices: seq<PriceRecord>, markets: seq<MarketEntry>, parse: FloatParser, now: Stamp)
    requires PriceKeysUnique(prices)
    ensures PriceKeysUnique(IngestAll(prices, markets, parse, now))
    ensures forall key :: PriceOf(IngestAll(prices, markets, parse, now), key) == ExpectedPrice(prices, markets, key, parse, now)
    ensures |IngestAll(prices, markets, parse, now)| >= |prices|
    ensures forall i :: 0 <= i < |prices| ==> IngestAll(prices, markets, parse, now)[i].key == prices[i].key
    decreases |markets|
  {
    if markets != [] {
      var init := markets[..|markets| - 1];
      var e := markets[|markets| - 1];
      IngestAllLastWriteWins(prices, init, parse, now);
      var mid := IngestAll(prices, init, parse, now);
      if e.price.Some? && parse(e.price.value).Some? {
        var rec := EntryRecord(e, parse(e.price.value).value, now);
        assert IngestAll(prices, markets, parse, now) == UpsertPrice(mid, rec);
        UpsertPriceSpec(mid, rec);
        forall key
          ensures PriceOf(UpsertPrice(mid, rec), key) == ExpectedPrice(prices, markets, key, parse, now)
        {
          if key == e.symbol {
            assert LastPriced(markets, key, parse) == Some((e, parse(e.price.value).value));
          } else {
            assert LastPriced(markets, key, parse) == LastPriced(init, key, parse);
            assert PriceOf(mid, key) == ExpectedPrice(prices, init, key, parse, now);
          }
        }
      } else {
        assert IngestAll(prices, markets, parse, now) == mid;
        forall key
          ensures PriceOf(mid, key) == ExpectedPrice(prices, markets, key, parse, now)
        {
          assert LastPriced(markets, key, parse) == LastPriced(init, key, parse);
          assert PriceOf(mid, key) == ExpectedPrice(prices, init, key, parse, now);
        }
      }
    }
  }

  // ---------------------------------------------------- currency lookup

  lemma GapLowered(c: char)
    ensures IsGap(LowerAscii(c)) <==> IsGap(c)
  {
  }

  lemma {:induction false} LoweredAppend(a: string, b: string)
    ensures Lowered(a + b) == Lowered(a) + Lowered(b)
  {
    if a != [] {
      assert (a + b)[0] == a[0];
      assert (a + b)[1..] == a[1..] + b;
      LoweredAppend(a[1..], b);
      calc {
        Lowered(a + b);
        [LowerAscii(a[0])] + Lowered(a[1..] + b);
        [LowerAscii(a[0])] + (Lowered(a[1..]) + Lowered(b));
        ([LowerAscii(a[0])] + Lowered(a[1..])) + Lowered(b);
      }
    } else {
      assert a + b == b;
    }
  }

  /** A string whose last character is not a gap keeps a character when its
      gaps are removed. */
  lemma {:induction false} RemoveGapsKeepsLast(s: string)
    requires s != [] && !IsGap(s[|s| - 1])
    ensures RemoveGaps(s) != []
  {
    if IsGap(s[0]) {
      assert |s| > 1;
      assert s[1..][|s[1..]| - 1] == s[|s| - 1];
      RemoveGapsKeepsLast(s[1..]);
    }
  }

  /** The stored name `fa` ends in a non-gap and, once its gaps are removed,
      equals the literals `cs` up to case. */
  predicate NameFits(fa: string, cs: string)
  {
    fa != [] && !IsGap(fa[|fa| - 1]) && Lowered(RemoveGaps(fa)) == Lowered(cs)
  }

  lemma FitsSkipGap(fa: string, cs: string)
    requires fa != [] && IsGap(fa[0]) && cs != []
    ensures NameFits(fa, cs) <==> NameFits(fa[1..], cs)
  {
    assert RemoveGaps(fa) == RemoveGaps(fa[1..]);
    if fa[1..] != [] {
      assert fa[1..][|fa[1..]| - 1] == fa[|fa| - 1];
    }
  }

  lemma FitsTakeLetter(fa: string, cs: string)
    requires fa != [] && !IsGap(fa[0]) && cs != []
    ensures NameFits(fa, cs) <==>
      SameLetter(fa[0], cs[0]) && if cs[1..] == [] then fa[1..] == [] else NameFits(fa[1..], cs[1..])
  {
    var rest := fa[1..];
    assert rest != [] ==> rest[|rest| - 1] == fa[|fa| - 1];
    assert RemoveGaps(fa) == [fa[0]] + RemoveGaps(rest);
    LoweredAppend([fa[0]], RemoveGaps(rest));
    assert Lowered(RemoveGaps(fa)) == [LowerAscii(fa[0])] + Lowered(RemoveGaps(rest));
    assert Lowered(cs) == [LowerAscii(cs[0])] + Lowered(cs[1..]);
    var left, right := Lowered(RemoveGaps(fa)), Lowered(cs);
    if left == right {
      assert left[0] == right[0] && left[1..] == right[1..];
    }
    if cs[1..] == [] && rest != [] && !IsGap(fa[|fa| - 1]) {
      RemoveGapsKeepsLast(rest);
    }
  }

  /** What the pattern after the first literal matches, for gap-free
      literals: a text ending in a non-gap whose gap-free form equals the
      literals up to case. */
  lemma {:induction false} MatchAfterLetterIff(fa: string, cs: string)
    requires forall i :: 0 <= i < |cs| ==> !IsGap(cs[i])
    ensures MatchAfterLetter(fa, cs) <==> if cs == [] then fa == [] else NameFits(fa, cs)
    decreases |fa|
  {
    if cs != [] && fa != [] {
      if IsGap(fa[0]) {
        MatchAfterLetterIff(fa[1..], cs);
        FitsSkipGap(fa, cs);
      } else {
        MatchAfterLetterIff(fa[1..], cs[1..]);
        FitsTakeLetter(fa, cs);
      }
    }
  }

  /** The localized-name alternative of the lookup, in plain terms: with gaps
      (whitespace and ZWNJ) removed from both the stored name and the query,
      the two agree up to case, and the stored name neither starts nor ends
      with a gap; a query of gaps only matches only the empty name. */
  lemma FaPatternIff(fa: string, query: string)
    ensures FaPatternMatches(fa, RemoveGaps(query)) <==>
      if RemoveGaps(query) == [] then fa == []
      else fa != [] && !IsGap(fa[0]) && !IsGap(fa[|fa| - 1]) && EqualsIgnoreCase(RemoveGaps(fa), RemoveGaps(query))
  {
    var cs := RemoveGaps(query);
    if cs != [] && fa != [] {
      GapLowered(fa[0]);
      GapLowered(cs[0]);
      if !IsGap(fa[0]) {
        MatchAfterLetterIff(fa, cs);
      }
    }
  }

  // ------------------------------------------------------ subscriptions

  lemma SubscriptionIndexOf(subs: seq<Subscription>, j: nat)
    requires SubscriptionsValid(subs) && j < |subs|
    ensures SubscriptionIndex(subs, subs[j].userId, subs[j].symbol) == Some(j)
  {
    assert SubscriptionIndex(subs, subs[j].userId, subs[j].symbol).Some?;
  }

  lemma SubscriptionIdsIndex(subs: seq<Subscription>)
    ensures forall id :: id in SubscriptionIds(subs) <==> exists j :: 0 <= j < |subs| && subs[j].id == id
  {
    forall id | id in SubscriptionIds(subs)
      ensures exists j :: 0 <= j < |subs| && subs[j].id == id
    {
      var s :| s in subs && s.id == id;
      var j :| 0 <= j < |subs| && subs[j] == s;
    }
  }

  lemma UpsertSubscriptionValid(subs: seq<Subscription>, userId: UserId, symbol: string, frequency: string, now: Stamp, newId: ObjectId)
    requires SubscriptionsValid(subs) && newId !in SubscriptionIds(subs)
    ensures SubscriptionsValid(UpsertSubscription(subs, userId, symbol, frequency, now, newId))
  {
    var r := UpsertSubscription(subs, userId, symbol, frequency, now, newId);
    match SubscriptionIndex(subs, userId, symbol)
    case Some(i) =>
      assert forall j :: 0 <= j < |r| ==> r[j].id == subs[j].id && r[j].userId == subs[j].userId && r[j].symbol == subs[j].symbol;
    case None =>
      assert forall j :: 0 <= j < |subs| ==> subs[j] in subs;
      assert r == subs + [Subscription(newId, userId, symbol, frequency, now, now)];
  }

  lemma UpsertSubscriptionOthers(subs: seq<Subscription>, userId: UserId, symbol: string, frequency: string, now: Stamp, newId: ObjectId, u: UserId, s: string)
    requires SubscriptionsValid(subs) && newId !in SubscriptionIds(subs)
    requires (u, s) != (userId, symbol)
    ensures SubscriptionFor(UpsertSubscription(subs, userId, symbol, frequency, now, newId), u, s) == SubscriptionFor(subs, u, s)
  {
    var r := UpsertSubscription(subs, userId, symbol, frequency, now, newId);
    UpsertSubscriptionValid(subs, userId, symbol, frequency, now, newId);
    match SubscriptionIndex(subs, u, s)
    case None =>
      if SubscriptionIndex(subs, userId, symbol).Some? {
        assert forall j :: 0 <= j < |r| ==> r[j].userId == subs[j].userId && r[j].symbol == subs[j].symbol;
      } else {
        assert forall j :: 0 <= j < |subs| ==> r[j] == subs[j];
      }
    case Some(j) =>
      assert r[j] == subs[j];
      SubscriptionIndexOf(r, j);
  }

  /** The keyed write of `add_or_update_subscription`: (user, symbol) stays a
      key and ids stay unique; that pair's subscription gets the new frequency
      and stamp and keeps its id and join date, or is created with the fresh
      id; every other pair's subscription is untouched. */
  lemma UpsertSubscriptionSpec(subs: seq<Subscription>, userId: UserId, symbol: string, frequency: string, now: Stamp, newId: ObjectId)
    requires SubscriptionsValid(subs) && newId !in SubscriptionIds(subs)
    ensures var r := UpsertSubscription(subs, userId, symbol, frequency, now, newId);
      && SubscriptionsValid(r)
      && SubscriptionFor(r, userId, symbol) == Some(
           match SubscriptionFor(subs, userId, symbol)
           case Some(prev) => prev.(frequency := frequency, lastUpdate := now)
           case None => Subscription(newId, userId, symbol, frequency, now, now))
      && (forall u, s :: (u, s) != (userId, symbol) ==> SubscriptionFor(r, u, s) == SubscriptionFor(subs, u, s))
      && SubscriptionIds(r) == SubscriptionIds(subs) + {SubscriptionFor(r, userId, symbol).value.id}
  {
    var r := UpsertSubscription(subs, userId, symbol, frequency, now, newId);
    UpsertSubscriptionValid(subs, userId, symbol, frequency, now, newId);
    forall u, s | (u, s) != (userId, symbol)
      ensures SubscriptionFor(r, u, s) == SubscriptionFor(subs, u, s)
    {
      UpsertSubscriptionOthers(subs, userId, symbol, frequency, now, newId, u, s);
    }
    UpsertSubscriptionAt(subs, userId, symbol, frequency, now, newId);
  }

  lemma UpsertSubscriptionAt(subs: seq<Subscription>, userId: UserId, symbol: string, frequency: string, now: Stamp, newId: ObjectId)
    requires SubscriptionsValid(subs) && newId !in SubscriptionIds(subs)
    ensures var r := UpsertSubscription(subs, userId, symbol, frequency, now, newId);
      && SubscriptionFor(r, userId, symbol) == Some(
           match SubscriptionFor(subs, userId, symbol)
           case Some(prev) => prev.(frequency := frequency, lastUpdate := now)
           case None => Subscription(newId, userId, symbol, frequency, now, now))
      && SubscriptionIds(r) == SubscriptionIds(subs) + {SubscriptionFor(r, userId, symbol).value.id}
  {
    var r := UpsertSubscription(subs, userId, symbol, frequency, now, newId);
    UpsertSubscriptionValid(subs, userId, symbol, frequency, now, newId);
    UpsertSubscriptionIds(subs, userId, symbol, frequency, now, newId);
    match SubscriptionIndex(subs, userId, symbol)
    case Some(i) =>
      SubscriptionIndexOf(r, i);
      assert subs[i] in subs;
    case None =>
      SubscriptionIndexOf(r, |subs|);
  }

  /** The ids after a keyed upsert: unchanged when the pair had a document,
      otherwise one more, the fresh one. */
  lemma UpsertSubscriptionIds(subs: seq<Subscription>, userId: UserId, symbol: string, frequency: string, now: Stamp, newId: ObjectId)
    ensures SubscriptionIds(UpsertSubscription(subs, userId, symbol, frequency, now, newId))
      == SubscriptionIds(subs) + (if SubscriptionIndex(subs, userId, symbol).Some? then {} else {newId})
  {
    var r := UpsertSubscription(subs, userId, symbol, frequency, now, newId);
    match SubscriptionIndex(subs, userId, symbol)
    case Some(i) =>
      forall id
        ensures id in SubscriptionIds(r) <==> id in SubscriptionIds(subs)
      {
        if id in SubscriptionIds(r) {
          var s :| s in r && s.id == id;
          var j :| 0 <= j < |r| && r[j] == s;
          assert subs[j] in subs;
        }
        if id in SubscriptionIds(subs) {
          var s :| s in subs && s.id == id;
          var j :| 0 <= j < |subs| && subs[j] == s;
          assert r[j] in r;
        }
      }
    case None =>
      assert r == subs + [Subscription(newId, userId, symbol, frequency, now, now)];
  }


  lemma RemoveSubscriptionMembers(subs: seq<Subscription>, id: ObjectId, i: nat)
    requires i < |subs| && subs[i].id == id
    requires forall j :: 0 <= j < |subs| && j != i ==> subs[j].id != id
    ensures forall s :: s in subs[..i] + subs[i + 1..] <==> s in subs && s.id != id
  {
    var r := subs[..i] + subs[i + 1..];
    assert forall j :: 0 <= j < |r| ==> r[j] == if j < i then subs[j] else subs[j + 1];
    forall s | s in subs && s.id != id
      ensures s in r
    {
      var j :| 0 <= j < |subs| && subs[j] == s;
      if j < i { assert r[j] == s; } else { assert r[j - 1] == s; }
    }
  }

  lemma RemoveSubscriptionOrder(subs: seq<Subscription>, id: ObjectId)
    ensures id !in SubscriptionIds(subs) ==> RemoveSubscription(subs, id) == subs
    ensures id in SubscriptionIds(subs) ==>
      exists i :: 0 <= i < |subs| && subs[i].id == id && RemoveSubscription(subs, id) == subs[..i] + subs[i + 1..]
  {
    match SubscriptionIdIndex(subs, id)
    case None =>
    case Some(i) =>
      assert subs[i].id == id && RemoveSubscription(subs, id) == subs[..i] + subs[i + 1..];
  }

  /** `delete_one` by id: exactly the subscription with that id goes, if there
      is one, and the remaining ones keep their order. */
  lemma RemoveSubscriptionSpec(subs: seq<Subscription>, id: ObjectId)
    requires SubscriptionsValid(subs)
    ensures var r := RemoveSubscription(subs, id);
      && SubscriptionsValid(r)
      && SubscriptionIds(r) == SubscriptionIds(subs) - {id}
      && (forall s :: s in r <==> s in subs && s.id != id)
      && |r| == (if id in SubscriptionIds(subs) then |subs| - 1 else |subs|)
      && (id !in SubscriptionIds(subs) ==> r == subs)
      && (id in SubscriptionIds(subs) ==> exists i :: 0 <= i < |subs| && subs[i].id == id && r == subs[..i] + subs[i + 1..])
  {
    RemoveSubscriptionOrder(subs, id);
    var r := RemoveSubscription(subs, id);
    match SubscriptionIdIndex(subs, id)
    case None =>
      SubscriptionIdsIndex(subs);
    case Some(i) =>
      assert forall j :: 0 <= j < |subs| && j != i ==> subs[j].id != id;
      RemoveSubscriptionMembers(subs, id, i);
      SubscriptionIdsOfMembers(subs, r, id);
      RemoveKeepsSubscriptionsValid(subs, i);
  }

  lemma SubscriptionIdsOfMembers(subs: seq<Subscription>, r: seq<Subscription>, id: ObjectId)
    requires forall s :: s in r <==> s in subs && s.id != id
    ensures SubscriptionIds(r) == SubscriptionIds(subs) - {id}
  {
  }

  lemma RemoveKeepsSubscriptionsValid(subs: seq<Subscription>, i: nat)
    requires SubscriptionsValid(subs) && i < |subs|
    ensures SubscriptionsValid(subs[..i] + subs[i + 1..])
  {
    var r := subs[..i] + subs[i + 1..];
    assert forall j :: 0 <= j < |r| ==> r[j] == if j < i then subs[j] else subs[j + 1];
  }

  // ------------------------------------------------------------- alerts

  lemma AlertIndexOf(alerts: seq<Alert>, j: nat)
    requires AlertsValid(alerts) && j < |alerts|
    ensures AlertIndex(alerts, alerts[j].userId, alerts[j].symbol) == Some(j)
  {
    assert AlertIndex(alerts, alerts[j].userId, alerts[j].symbol).Some?;
  }

  lemma AlertIdsIndex(alerts: seq<Alert>)
    ensures forall id :: id in AlertIds(alerts) <==> exists j :: 0 <= j < |alerts| && alerts[j].id == id
  {
    forall id | id in AlertIds(alerts)
      ensures exists j :: 0 <= j < |alerts| && alerts[j].id == id
    {
      var a :| a in alerts && a.id == id;
      var j :| 0 <= j < |alerts| && alerts[j] == a;
    }
  }

  lemma UpsertAlertValid(alerts: seq<Alert>, userId: UserId, symbol: string, target: real, condition: Condition, now: Stamp, newId: ObjectId)
    requires AlertsValid(alerts) && newId !in AlertIds(alerts)
    ensures AlertsValid(UpsertAlert(alerts, userId, symbol, target, condition, now, newId))
  {
    var r := UpsertAlert(alerts, userId, symbol, target, condition, now, newId);
    match AlertIndex(alerts, userId, symbol)
    case Some(i) =>
      assert forall j :: 0 <= j < |r| ==> r[j].id == alerts[j].id && r[j].userId == alerts[j].userId && r[j].symbol == alerts[j].symbol;
    case None =>
      assert forall j :: 0 <= j < |alerts| ==> alerts[j] in alerts;
      assert r == alerts + [Alert(newId, userId, symbol, target, condition, Active, now, now)];
  }

  lemma UpsertAlertOthers(alerts: seq<Alert>, userId: UserId, symbol: string, target: real, condition: Condition, now: Stamp, newId: ObjectId, u: UserId, s: string)
    requires AlertsValid(alerts) && newId !in AlertIds(alerts)
    requires (u, s) != (userId, symbol)
    ensures AlertFor(UpsertAlert(alerts, userId, symbol, target, condition, now, newId), u, s) == AlertFor(alerts, u, s)
  {
    var r := UpsertAlert(alerts, userId, symbol, target, condition, now, newId);
    UpsertAlertValid(alerts, userId, symbol, target, condition, now, newId);
    match AlertIndex(alerts, u, s)
    case None =>
      if AlertIndex(alerts, userId, symbol).Some? {
        assert forall j :: 0 <= j < |r| ==> r[j].userId == alerts[j].userId && r[j].symbol == alerts[j].symbol;
      } else {
        assert forall j :: 0 <= j < |alerts| ==> r[j] == alerts[j];
      }
    case Some(j) =>
      assert r[j] == alerts[j];
      AlertIndexOf(r, j);
  }

  /** The keyed write of `set_price_alert`: (user, symbol) stays a key and
      ids stay unique; that pair's alert is re-armed (status active) with the
      new target, condition and stamp, keeping its id and join date, or is
      created with the fresh id; every other pair's alert is untouched. */
  lemma UpsertAlertSpec(alerts: seq<Alert>, userId: UserId, symbol: string, target: real, condition: Condition, now: Stamp, newId: ObjectId)
    requires AlertsValid(alerts) && newId !in AlertIds(alerts)
    ensures var r := UpsertAlert(alerts, userId, symbol, target, condition, now, newId);
      && AlertsValid(r)
      && AlertFor(r, userId, symbol) == Some(
           match AlertFor(alerts, userId, symbol)
           case Some(prev) => prev.(targetPrice := target, status := Active, condition := condition, lastUpdate := now)
           case None => Alert(newId, userId, symbol, target, condition, Active, now, now))
      && (forall u, s :: (u, s) != (userId, symbol) ==> AlertFor(r, u, s) == AlertFor(alerts, u, s))
      && AlertIds(r) == AlertIds(alerts) + {AlertFor(r, userId, symbol).value.id}
  {
    var r := UpsertAlert(alerts, userId, symbol, target, condition, now, newId);
    UpsertAlertValid(alerts, userId, symbol, target, condition, now, newId);
    forall u, s | (u, s) != (userId, symbol)
      ensures AlertFor(r, u, s) == AlertFor(alerts, u, s)
    {
      UpsertAlertOthers(alerts, userId, symbol, target, condition, now, newId, u, s);
    }
    UpsertAlertAt(alerts, userId, symbol, target, condition, now, newId);
  }

  lemma UpsertAlertAt(alerts: seq<Alert>, userId: UserId, symbol: string, target: real, condition: Condition, now: Stamp, newId: ObjectId)
    requires AlertsValid(alerts) && newId !in AlertIds(alerts)
    ensures var r := UpsertAlert(alerts, userId, symbol, target, condition, now, newId);
      && AlertFor(r, userId, symbol) == Some(
           match AlertFor(alerts, userId, symbol)
           case Some(prev) => prev.(targetPrice := target, status := Active, condition := condition, lastUpdate := now)
           case None => Alert(newId, userId, symbol, target, condition, Active, now, now))
      && AlertIds(r) == AlertIds(alerts) + {AlertFor(r, userId, symbol).value.id}
  {
    var r := UpsertAlert(alerts, userId, symbol, target, condition, now, newId);
    UpsertAlertValid(alerts, userId, symbol, target, condition, now, newId);
    UpsertAlertIds(alerts, userId, symbol, target, condition, now, newId);
    match AlertIndex(alerts, userId, symbol)
    case Some(i) =>
      AlertIndexOf(r, i);
      assert alerts[i] in alerts;
    case None =>
      AlertIndexOf(r, |alerts|);
  }

  /** The ids after a keyed upsert: unchanged when the pair had a document,
      otherwise one more, the fresh one. */
  lemma UpsertAlertIds(alerts: seq<Alert>, userId: UserId, symbol: string, target: real, condition: Condition, now: Stamp, newId: ObjectId)
    ensures AlertIds(UpsertAlert(alerts, userId, symbol, target, condition, now, newId))
      == AlertIds(alerts) + (if AlertIndex(alerts, userId, symbol).Some? then {} else {newId})
  {
    var r := UpsertAlert(alerts, userId, symbol, target, condition, now, newId);
    match AlertIndex(alerts, userId, symbol)
    case Some(i) =>
      forall id
        ensures id in AlertIds(r) <==> id in AlertIds(alerts)
      {
        if id in AlertIds(r) {
          var a :| a in r && a.id == id;
          var j :| 0 <= j < |r| && r[j] == a;
          assert alerts[j] in alerts;
        }
        if id in AlertIds(alerts) {
          var a :| a in alerts && a.id == id;
          var j :| 0 <= j < |alerts| && alerts[j] == a;
          assert r[j] in r;
        }
      }
    case None =>
      assert r == alerts + [Alert(newId, userId, symbol, target, condition, Active, now, now)];
  }


  lemma RemoveAlertMembers(alerts: seq<Alert>, id: ObjectId, i: nat)
    requires i < |alerts| && alerts[i].id == id
    requires forall j :: 0 <= j < |alerts| && j != i ==> alerts[j].id != id
    ensures forall a :: a in alerts[..i] + alerts[i + 1..] <==> a in alerts && a.id != id
  {
    var r := alerts[..i] + alerts[i + 1..];
    assert forall j :: 0 <= j < |r| ==> r[j] == if j < i then alerts[j] else alerts[j + 1];
    forall a | a in alerts && a.id != id
      ensures a in r
    {
      var j :| 0 <= j < |alerts| && alerts[j] == a;
      if j < i { assert r[j] == a; } else { assert r[j - 1] == a; }
    }
  }

  lemma AlertIdsOfMembers(alerts: seq<Alert>, r: seq<Alert>, id: ObjectId)
    requires forall a :: a in r <==> a in alerts && a.id != id
    ensures AlertIds(r) == AlertIds(alerts) - {id}
  {
  }

  lemma RemoveKeepsAlertsValid(alerts: seq<Alert>, i: nat)
    requires AlertsValid(alerts) && i < |alerts|
    ensures AlertsValid(alerts[..i] + alerts[i + 1..])
  {
    var r := alerts[..i] + alerts[i + 1..];
    assert forall j :: 0 <= j < |r| ==> r[j] == if j < i then alerts[j] else alerts[j + 1];
  }

  lemma RemoveAlertOrder(alerts: seq<Alert>, id: ObjectId)
    ensures id !in AlertIds(alerts) ==> RemoveAlert(alerts, id) == alerts
    ensures id in AlertIds(alerts) ==>
      exists i :: 0 <= i < |alerts| && alerts[i].id == id && RemoveAlert(alerts, id) == alerts[..i] + alerts[i + 1..]
  {
    match AlertIdIndex(alerts, id)
    case None =>
    case Some(i) =>
      assert alerts[i].id == id && RemoveAlert(alerts, id) == alerts[..i] + alerts[i + 1..];
  }

  /** `delete_one` by id on the alerts: exactly the alert with that id goes,
      if there is one, and the remaining ones keep their order. */
  lemma RemoveAlertSpec(alerts: seq<Alert>, id: ObjectId)
    requires AlertsValid(alerts)
    ensures var r := RemoveAlert(alerts, id);
      && AlertsValid(r)
      && AlertIds(r) == AlertIds(alerts) - {id}
      && (forall a :: a in r <==> a in alerts && a.id != id)
      && |r| == (if id in AlertIds(alerts) then |alerts| - 1 else |alerts|)
      && (id !in AlertIds(alerts) ==> r == alerts)
      && (id in AlertIds(alerts) ==> exists i :: 0 <= i < |alerts| && alerts[i].id == id && r == alerts[..i] + alerts[i + 1..])
  {
    RemoveAlertOrder(alerts, id);
    var r := RemoveAlert(alerts, id);
    match AlertIdIndex(alerts, id)
    case None =>
      AlertIdsIndex(alerts);
    case Some(i) =>
      assert forall j :: 0 <= j < |alerts| && j != i ==> alerts[j].id != id;
      RemoveAlertMembers(alerts, id, i);
      AlertIdsOfMembers(alerts, r, id);
      RemoveKeepsAlertsValid(alerts, i);
  }

  /** `update_alert_status`: the alert with that id, and no other, has its
      status set; nothing else about any alert changes. */
  lemma SetAlertStatusSpec(alerts: seq<Alert>, id: ObjectId, status: AlertStatus)
    requires AlertsValid(alerts)
    ensures var r := SetAlertStatus(alerts, id, status);
      && AlertsValid(r)
      && |r| == |alerts|
      && (forall j :: 0 <= j < |r| ==> r[j] == if alerts[j].id == id then alerts[j].(status := status) else alerts[j])
  {
    var r := SetAlertStatus(alerts, id, status);
    match AlertIdIndex(alerts, id)
    case None =>
    case Some(i) =>
      assert forall j :: 0 <= j < |r| ==> r[j].id == alerts[j].id && r[j].userId == alerts[j].userId && r[j].symbol == alerts[j].symbol;
  }

  /** The trigger pipeline in plain terms: an alert is reported exactly when
      it is stored, active, and some price document whose key is the alert's
      symbol has a price meeting the alert's condition against its target. */
  lemma TriggerRule(alerts: seq<Alert>, prices: seq<PriceRecord>, a: Alert)
    requires PriceKeysUnique(prices)
    ensures a in FindTriggeredAlerts(alerts, prices) <==>
      a in alerts && a.status == Active &&
      exists j :: 0 <= j < |prices| && prices[j].key == a.symbol && Meets(a.condition, prices[j].info.price, a.targetPrice)
  {
    match PriceIndex(prices, a.symbol)
    case None =>
    case Some(i) =>
      assert forall j :: 0 <= j < |prices| && prices[j].key == a.symbol ==> j == i;
  }
}
