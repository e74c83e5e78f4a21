/** The offers feed: which stored offers are shown under the selected filter,
    and the sync button that fetches and merges a new batch. */
module OffersFeed {
  import opened Types
  import opened Seqs
  import opened SyncFormat
  import opened OfferStore

  /** The banks of the user's cards. */
  function OwnedBanks(cards: seq<UserCard>): (owned: set<Bank>)
    ensures forall c :: c in cards ==> c.bank in owned
    ensures forall b :: b in owned ==> exists c :: c in cards && c.bank == b
  {
    set c | c in cards :: c.bank
  }

  /** The filter selector. There is no choice for the Points category. */
  datatype FeedFilter = ShowAll | ShowLottery | ShowCashback | ShowCoupon | ShowMatched

  /** The category test: `all` and `matched` accept every category. */
  predicate CategoryMatch(f: FeedFilter, c: Category)
  {
    match f
    case ShowAll => true
    case ShowMatched => true
    case ShowLottery => c == Lottery
    case ShowCashback => c == Cashback
    case ShowCoupon => c == Coupon
  }

  /** The ownership test, applied only under `matched`. */
  predicate CardMatch(f: FeedFilter, owned: set<Bank>, b: Bank)
  {
    f == ShowMatched ==> b in owned
  }

  /** `new Date(expiryDate) < today`, with `today` the current day and `dayOf`
      the date parser. An unparsable date compares as NaN, which is never
      less than anything, so it does not make the offer expired. */
  function PastExpiry(o: Offer, today: int, dayOf: string -> Option<int>): (expired: bool)
    ensures dayOf(o.expiryDate).None? ==> !expired
    ensures dayOf(o.expiryDate).Some? ==> (expired <==> dayOf(o.expiryDate).value < today)
  {
    match dayOf(o.expiryDate)
    case Some(d) => d < today
    case None => false
  }

  /** The exclusions every filter applies: stored status `expired`, or an
      expiry day before today. A claimed offer is not excluded. */
  predicate Live(o: Offer, today: int, dayOf: string -> Option<int>)
  {
    !PastExpiry(o, today, dayOf) && o.status != Expired
  }

  /** The feed's filter callback. */
  predicate Shows(f: FeedFilter, owned: set<Bank>, today: int, dayOf: string -> Option<int>, o: Offer)
  {
    CategoryMatch(f, o.category) && CardMatch(f, owned, o.bank) && Live(o, today, dayOf)
  }

  function ShowsTest(f: FeedFilter, owned: set<Bank>, today: int, dayOf: string -> Option<int>): Offer -> bool
  {
    (o: Offer) => Shows(f, owned, today, dayOf, o)
  }

  function LiveTest(today: int, dayOf: string -> Option<int>): Offer -> bool
  {
    (o: Offer) => Live(o, today, dayOf)
  }

  function OwnedTest(owned: set<Bank>): Offer -> bool
  {
    (o: Offer) => o.bank in owned
  }

  /** The visible list: a subsequence of the store, in store order, that
      holds exactly the stored offers passing the three tests. */
  function FilteredOffers(offers: seq<Offer>, cards: seq<UserCard>, f: FeedFilter,
                          today: int, dayOf: string -> Option<int>): (r: seq<Offer>)
    ensures Subseq(r, offers)
    ensures forall o :: o in r ==> o in offers && o.status != Expired && !PastExpiry(o, today, dayOf)
    ensures f == ShowMatched ==> forall o :: o in r ==> o.bank in OwnedBanks(cards)
    ensures f == ShowLottery ==> forall o :: o in r ==> o.category == Lottery
    ensures f == ShowCashback ==> forall o :: o in r ==> o.category == Cashback
    ensures f == ShowCoupon ==> forall o :: o in r ==> o.category == Coupon
    ensures forall o ::
      (o in offers && Live(o, today, dayOf) && CategoryMatch(f, o.category)
       && (f == ShowMatched ==> o.bank in OwnedBanks(cards))) ==> o in r
    ensures |r| == Count(offers, ShowsTest(f, OwnedBanks(cards), today, dayOf))
  {
    KeepLength(offers, ShowsTest(f, OwnedBanks(cards), today, dayOf));
    Keep(offers, ShowsTest(f, OwnedBanks(cards), today, dayOf))
  }

  /** Under `all` the visible list is exactly the live offers, in order. */
  lemma FilterAllIsLive(offers: seq<Offer>, cards: seq<UserCard>, today: int, dayOf: string -> Option<int>)
    ensures FilteredOffers(offers, cards, ShowAll, today, dayOf) == Keep(offers, LiveTest(today, dayOf))
  {
    KeepCongruent(offers, ShowsTest(ShowAll, OwnedBanks(cards), today, dayOf), LiveTest(today, dayOf));
  }

  /** Under `matched` the visible list is the `all` list narrowed to owned
      banks: the category plays no part. */
  lemma FilterMatchedIsOwnedLive(offers: seq<Offer>, cards: seq<UserCard>, today: int, dayOf: string -> Option<int>)
    ensures FilteredOffers(offers, cards, ShowMatched, today, dayOf)
         == Keep(FilteredOffers(offers, cards, ShowAll, today, dayOf), OwnedTest(OwnedBanks(cards)))
  {
    var owned := OwnedBanks(cards);
    FilterAllIsLive(offers, cards, today, dayOf);
    KeepKeep(offers, LiveTest(today, dayOf), OwnedTest(owned), ShowsTest(ShowMatched, owned, today, dayOf));
  }

  /** The category filters never show an offer of another category, and show
      every live offer of their own, whatever bank it belongs to. */
  lemma FilterCategoryIgnoresBank(offers: seq<Offer>, cards: seq<UserCard>, today: int,
                                  dayOf: string -> Option<int>, o: Offer)
    requires o in offers && Live(o, today, dayOf) && o.category == Cashback
    ensures o in FilteredOffers(offers, cards, ShowCashback, today, dayOf)
    ensures o !in FilteredOffers(offers, cards, ShowLottery, today, dayOf)
    ensures o !in FilteredOffers(offers, cards, ShowCoupon, today, dayOf)
  {
  }

  /** An offer whose date does not parse is treated as not expired. */
  lemma UnparsableDateIsShown(offers: seq<Offer>, cards: seq<UserCard>, today: int,
                              dayOf: string -> Option<int>, o: Offer)
    requires o in offers && o.status != Expired && dayOf(o.expiryDate) == None
    ensures o in FilteredOffers(offers, cards, ShowAll, today, dayOf)
  {
  }

  /** A claimed offer stays visible after the claim under `all` as long as it
      has not expired (the store's claim does not hide it). */
  lemma ClaimedStaysVisible(offers: seq<Offer>, cards: seq<UserCard>, today: int,
                            dayOf: string -> Option<int>, i: nat)
    requires i < |offers| && offers[i].status == Active && !PastExpiry(offers[i], today, dayOf)
    ensures offers[i].(status := Claimed) in FilteredOffers(Claim(offers, offers[i].id), cards, ShowAll, today, dayOf)
  {
    var claimed := Claim(offers, offers[i].id);
    var c := offers[i].(status := Claimed);
    assert claimed[i] == c;
    assert c in claimed;
    assert Live(c, today, dayOf) by {
      assert c.expiryDate == offers[i].expiryDate;
    }
  }

  /** The store of one offer titled "A" on an ICBC card holder's phone:
      `matched` shows it, `Cashback` does not (it is a Lottery offer). */
  lemma ScenarioSingleOffer(a: Offer, today: int, dayOf: string -> Option<int>)
    requires a.title == "A" && a.bank == ICBC && a.status == Active && a.category == Lottery
    requires dayOf(a.expiryDate).Some? && dayOf(a.expiryDate).value >= today
    ensures FilteredOffers([a], InitialCards, ShowMatched, today, dayOf) == [a]
    ensures FilteredOffers([a], InitialCards, ShowCashback, today, dayOf) == []
  {
    assert InitialCards[0].bank == ICBC;
    assert ICBC in OwnedBanks(InitialCards);
  }

  /** The feed's own state around a sync: the busy flag and the time shown as
      the last update. */
  class Feed {
    var syncing: bool
    var lastUpdated: string

    constructor (now: string)
      ensures !syncing && lastUpdated == now
    {
      syncing := false;
      lastUpdated := now;
    }

    /** The sync button: on success the formatted batch goes to the store's
        merge and the time is refreshed; on failure neither happens. The busy
        flag is down again at the end either way. */
    method HandleSync(app: App, fetched: Response<seq<RawOffer>>, idOf: nat -> string, now: string)
      modifies this, app`offers
      ensures !syncing
      ensures fetched.Failed? ==> app.offers == old(app.offers) && lastUpdated == old(lastUpdated)
      ensures fetched.Delivered? ==>
        app.offers == Merge(old(app.offers), FormatBatch(fetched.value, idOf)) && lastUpdated == now
    {
      syncing := true;
      if fetched.Delivered? {
        var formatted := FormatBatch(fetched.value, idOf);
        app.HandleSyncOffers(formatted);
        lastUpdated := now;
      }
      syncing := false;
    }
  }
}
