/** The application root: the offer collection and the card list it owns,
    and the three ways the offer collection is replaced (claim, sync merge,
    adding one analysed offer). Each replacement is computed by a pure
    function below; the class methods install the result. */
module OfferStore {
  import opened Types
  import opened Seqs
  import opened SyncFormat

  /** The two cards the application starts with. */
  const InitialCards: seq<UserCard> := [
    UserCard("c1", ICBC, "8899", "我的工资卡"),
    UserCard("c2", CMB, "1234", "羊毛专用卡")
  ]

  /** Marking every offer with the given id as claimed; nothing else changes. */
  function Claim(offers: seq<Offer>, id: string): (r: seq<Offer>)
    ensures |r| == |offers|
    ensures forall i :: 0 <= i < |r| ==>
      r[i] == if offers[i].id == id then offers[i].(status := Claimed) else offers[i]
  {
    if offers == [] then []
    else [if offers[0].id == id then offers[0].(status := Claimed) else offers[0]]
         + Claim(offers[1..], id)
  }

  /** Claiming twice is claiming once. */
  lemma ClaimIdempotent(offers: seq<Offer>, id: string)
    ensures Claim(Claim(offers, id), id) == Claim(offers, id)
  {
    var once := Claim(offers, id);
    var twice := Claim(once, id);
    assert |twice| == |once|;
    forall i | 0 <= i < |once| ensures twice[i] == once[i] {
      assert once[i].id == offers[i].id;
    }
  }

  /** The titles already in a collection. */
  function Titles(offers: seq<Offer>): set<string>
  {
    set o | o in offers :: o.title
  }

  /** The test an incoming offer must pass to be merged: its exact title is
      not among those of `prev`. */
  function FreshTitle(prev: seq<Offer>): Offer -> bool
  {
    (o: Offer) => o.title !in Titles(prev)
  }

  /** The sync merge: incoming offers whose title is not in `prev`, in arrival
      order, in front of the unchanged `prev`. */
  function Merge(prev: seq<Offer>, incoming: seq<Offer>): (merged: seq<Offer>)
    ensures |merged| == |prev| + Count(incoming, FreshTitle(prev))
    ensures merged[|merged| - |prev|..] == prev
    ensures Subseq(merged[..|merged| - |prev|], incoming)
    ensures forall o :: o in merged[..|merged| - |prev|] <==> o in incoming && o.title !in Titles(prev)
  {
    var uniqueNew := Keep(incoming, FreshTitle(prev));
    KeepLength(incoming, FreshTitle(prev));
    assert (uniqueNew + prev)[..|uniqueNew|] == uniqueNew;
    uniqueNew + prev
  }

  /** Every title of the merged collection's sources is in the merged
      collection. */
  lemma MergeCoversTitles(prev: seq<Offer>, incoming: seq<Offer>)
    ensures Titles(prev) + Titles(incoming) == Titles(Merge(prev, incoming))
  {
    var m := Merge(prev, incoming);
    var k := |m| - |prev|;
    assert m == m[..k] + m[k..];
    forall t | t in Titles(incoming) ensures t in Titles(m) {
      var o :| o in incoming && o.title == t;
      if t !in Titles(prev) {
        assert o in m[..k];
      }
    }
  }

  /** Merging a batch again, or any batch whose titles were all in it, adds
      nothing: the second merge contributes zero offers. */
  lemma MergeAgainAddsNothing(prev: seq<Offer>, batch: seq<Offer>, again: seq<Offer>)
    requires forall o :: o in again ==> o.title in Titles(batch)
    ensures Merge(Merge(prev, batch), again) == Merge(prev, batch)
  {
    var m := Merge(prev, batch);
    MergeCoversTitles(prev, batch);
    KeepNone(again, FreshTitle(m));
    assert [] + m == m;
  }

  /** Syncing the same upstream results twice, each time with freshly drawn
      ids, leaves the store as after the first sync. */
  lemma ResyncAddsNothing(prev: seq<Offer>, results: seq<RawOffer>, ids1: nat -> string, ids2: nat -> string)
    ensures Merge(Merge(prev, FormatBatch(results, ids1)), FormatBatch(results, ids2))
         == Merge(prev, FormatBatch(results, ids1))
  {
    var first := FormatBatch(results, ids1);
    var second := FormatBatch(results, ids2);
    forall o | o in second ensures o.title in Titles(first) {
      var i :| 0 <= i < |second| && second[i] == o;
      assert ToRaw(first[i]) == ToRaw(second[i]);
      assert first[i] in first;
    }
    MergeAgainAddsNothing(prev, first, second);
  }

  /** Duplicates within one batch are not removed: the title set is built from
      `prev` only. */
  lemma MergeKeepsBatchDuplicates(prev: seq<Offer>, a: Offer, b: Offer)
    requires a.title == b.title && a.title !in Titles(prev)
    ensures Merge(prev, [a, b]) == [a, b] + prev
  {
    assert [a, b][1..] == [b];
  }

  /** An incoming offer whose title is already stored is dropped; a new one is
      prepended. */
  lemma MergeDropsKnownTitle(prev: seq<Offer>, a: Offer, b: Offer)
    requires a.title in Titles(prev) && b.title !in Titles(prev)
    ensures Merge(prev, [a, b]) == [b] + prev
  {
    assert [a, b][1..] == [b];
  }

  class App {
    var offers: seq<Offer>
    var userCards: seq<UserCard>

    constructor (seed: seq<Offer>)
      ensures offers == seed && userCards == InitialCards
    {
      offers := seed;
      userCards := InitialCards;
    }

    method HandleClaim(id: string)
      modifies this`offers
      ensures offers == Claim(old(offers), id)
    {
      offers := Claim(offers, id);
    }

    method HandleSyncOffers(newOffers: seq<Offer>)
      modifies this`offers
      ensures offers == Merge(old(offers), newOffers)
    {
      offers := Merge(offers, newOffers);
    }

    /** Prepends unconditionally, with no title check. */
    method AddOffer(newOffer: Offer)
      modifies this`offers
      ensures offers == [newOffer] + old(offers)
      ensures |offers| == |old(offers)| + 1 && offers[1..] == old(offers)
    {
      offers := [newOffer] + offers;
    }

    /** The synchronisation run once at start-up: on success the formatted
        batch is merged; on failure the store is untouched. */
    method AutoSync(fetched: Response<seq<RawOffer>>, idOf: nat -> string)
      modifies this`offers
      ensures fetched.Failed? ==> offers == old(offers)
      ensures fetched.Delivered? ==> offers == Merge(old(offers), FormatBatch(fetched.value, idOf))
    {
      match fetched
      case Delivered(results) =>
        var formatted := FormatBatch(results, idOf);
        HandleSyncOffers(formatted);
      case Failed(_) =>
    }
  }
}
