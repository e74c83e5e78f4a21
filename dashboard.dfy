/** The summary dashboard: the active offers, those on the user's banks and
    their total value, the number of claimed offers, and the short list of
    recommendations that puts the user's banks first. */
module Dashboard {
  import opened Types
  import opened Seqs
  import opened OffersFeed
  import opened OfferStore

  /** How many recommendations the dashboard shows. */
  const RecommendedCount: nat := 4

  function ActiveTest(): Offer -> bool
  {
    (o: Offer) => o.status == Active
  }

  function ClaimedTest(): Offer -> bool
  {
    (o: Offer) => o.status == Claimed
  }

  /** The offers with stored status `active`, in store order. There is no
      expiry check here. */
  function ActiveOffers(offers: seq<Offer>): (r: seq<Offer>)
    ensures Subseq(r, offers)
    ensures forall o :: o in r <==> o in offers && o.status == Active
    ensures |r| == Count(offers, ActiveTest())
  {
    KeepLength(offers, ActiveTest());
    Keep(offers, ActiveTest())
  }

  /** The active offers on a bank the user holds a card of, in store order. */
  function MatchedOffers(offers: seq<Offer>, cards: seq<UserCard>): (r: seq<Offer>)
    ensures Subseq(r, ActiveOffers(offers)) && Subseq(r, offers)
    ensures forall o :: o in r <==> o in offers && o.status == Active && o.bank in OwnedBanks(cards)
    ensures |r| == Count(ActiveOffers(offers), OwnedTest(OwnedBanks(cards)))
  {
    var active := ActiveOffers(offers);
    var matched := Keep(active, OwnedTest(OwnedBanks(cards)));
    SubseqTrans(matched, active, offers);
    KeepLength(active, OwnedTest(OwnedBanks(cards)));
    matched
  }

  /** The active offers on banks the user holds no card of, in store order. */
  function UnmatchedOffers(offers: seq<Offer>, cards: seq<UserCard>): (r: seq<Offer>)
    ensures Subseq(r, ActiveOffers(offers))
    ensures forall o :: o in r <==> o in offers && o.status == Active && o.bank !in OwnedBanks(cards)
    ensures |r| == Count(ActiveOffers(offers), Not(OwnedTest(OwnedBanks(cards))))
  {
    KeepLength(ActiveOffers(offers), Not(OwnedTest(OwnedBanks(cards))));
    Keep(ActiveOffers(offers), Not(OwnedTest(OwnedBanks(cards))))
  }

  /** The sum of the estimated values, as a reference definition. */
  function TotalValue(s: seq<Offer>): nat
  {
    if s == [] then 0 else s[0].estimatedValue + TotalValue(s[1..])
  }

  /** `reduce((acc, curr) => acc + curr.estimatedValue, acc)`: a left fold. */
  function FoldValue(acc: nat, s: seq<Offer>): (v: nat)
    ensures v == acc + TotalValue(s)
    decreases |s|
  {
    if s == [] then acc else FoldValue(acc + s[0].estimatedValue, s[1..])
  }

  /** No single offer is worth more than the total it is part of. */
  lemma {:induction false} TotalValueBounds(s: seq<Offer>, i: nat)
    requires i < |s|
    ensures s[i].estimatedValue <= TotalValue(s)
  {
    if i > 0 {
      TotalValueBounds(s[1..], i - 1);
    }
  }

  /** The value still to collect on the user's own banks: the sum over the
      matched offers, 0 when there are none. */
  function MatchedValue(offers: seq<Offer>, cards: seq<UserCard>): (v: nat)
    ensures v == TotalValue(MatchedOffers(offers, cards))
    ensures MatchedOffers(offers, cards) == [] ==> v == 0
    ensures forall o :: o in MatchedOffers(offers, cards) ==> o.estimatedValue <= v
  {
    var matched := MatchedOffers(offers, cards);
    forall o | o in matched ensures o.estimatedValue <= TotalValue(matched) {
      var i :| 0 <= i < |matched| && matched[i] == o;
      TotalValueBounds(matched, i);
    }
    FoldValue(0, matched)
  }

  /** The number of offers with stored status `claimed`. */
  function ClaimedCount(offers: seq<Offer>): (n: nat)
    ensures n == Count(offers, ClaimedTest())
    ensures n <= |offers|
  {
    KeepLength(offers, ClaimedTest());
    |Keep(offers, ClaimedTest())|
  }

  /** The recommendation order before truncation: matched, then unmatched. */
  function Ranked(offers: seq<Offer>, cards: seq<UserCard>): (r: seq<Offer>)
    ensures multiset(r) == multiset(ActiveOffers(offers))
    ensures |r| == |ActiveOffers(offers)|
  {
    KeepPartition(ActiveOffers(offers), OwnedTest(OwnedBanks(cards)));
    var r := MatchedOffers(offers, cards) + UnmatchedOffers(offers, cards);
    assert |multiset(r)| == |multiset(ActiveOffers(offers))|;
    r
  }

  /** The ranking is a stable partition of the active offers: a permutation of
      them (the contract of `Ranked`) in which both groups keep their relative
      order. */
  lemma RankedIsStablePartition(offers: seq<Offer>, cards: seq<UserCard>)
    ensures multiset(Ranked(offers, cards)) == multiset(ActiveOffers(offers))
    ensures Keep(Ranked(offers, cards), OwnedTest(OwnedBanks(cards))) == MatchedOffers(offers, cards)
    ensures Keep(Ranked(offers, cards), Not(OwnedTest(OwnedBanks(cards)))) == UnmatchedOffers(offers, cards)
  {
    var owned := OwnedTest(OwnedBanks(cards));
    var m, u := MatchedOffers(offers, cards), UnmatchedOffers(offers, cards);
    KeepConcat(m, u, owned);
    KeepAll(m, owned);
    KeepNone(u, owned);
    assert m + [] == m;
    KeepConcat(m, u, Not(owned));
    KeepNone(m, Not(owned));
    KeepAll(u, Not(owned));
  }

  /** Position by position, the ranking holds the matched offers first and
      the unmatched ones after them, all of them active stored offers. */
  lemma RankedMatchedFirst(offers: seq<Offer>, cards: seq<UserCard>, k: nat)
    requires k < |Ranked(offers, cards)|
    ensures Ranked(offers, cards)[k].bank in OwnedBanks(cards) <==> k < |MatchedOffers(offers, cards)|
    ensures Ranked(offers, cards)[k] in offers && Ranked(offers, cards)[k].status == Active
  {
    var m, u := MatchedOffers(offers, cards), UnmatchedOffers(offers, cards);
    if k < |m| {
      assert Ranked(offers, cards)[k] == m[k] && m[k] in m;
    } else {
      assert Ranked(offers, cards)[k] == u[k - |m|] && u[k - |m|] in u;
    }
  }

  /** The dashboard's recommendations: the first four of the ranking. */
  function Recommended(offers: seq<Offer>, cards: seq<UserCard>): (r: seq<Offer>)
    ensures |r| == if |ActiveOffers(offers)| < RecommendedCount then |ActiveOffers(offers)| else RecommendedCount
    ensures |r| <= |Ranked(offers, cards)| && r == Ranked(offers, cards)[..|r|]
    ensures forall i, j :: 0 <= i < j < |r| && r[j].bank in OwnedBanks(cards) ==> r[i].bank in OwnedBanks(cards)
    ensures forall o :: o in r ==> o in offers && o.status == Active
  {
    var ranked := Ranked(offers, cards);
    forall k | 0 <= k < |ranked|
      ensures (ranked[k].bank in OwnedBanks(cards) <==> k < |MatchedOffers(offers, cards)|)
      ensures ranked[k] in offers && ranked[k].status == Active
    {
      RankedMatchedFirst(offers, cards, k);
    }
    if |ranked| < RecommendedCount then ranked else ranked[..RecommendedCount]
  }

  /** The offers a claim of `id` turns from unclaimed into claimed. */
  function NewlyClaimedTest(id: string): Offer -> bool
  {
    (o: Offer) => o.id == id && o.status != Claimed
  }

  /** A claim raises the claimed count by the number of unclaimed offers with
      that id. */
  lemma {:induction false} ClaimRaisesClaimedCount(offers: seq<Offer>, id: string)
    ensures ClaimedCount(Claim(offers, id)) == ClaimedCount(offers) + Count(offers, NewlyClaimedTest(id))
  {
    if offers != [] {
      ClaimRaisesClaimedCount(offers[1..], id);
      var c := Claim(offers, id);
      assert c[1..] == Claim(offers[1..], id);
    }
  }

  /** After a claim no offer with that id is active any more, so none adds to
      the matched value. */
  lemma ClaimLeavesActive(offers: seq<Offer>, id: string)
    ensures forall o :: o in ActiveOffers(Claim(offers, id)) ==> o.id != id
  {
    var c := Claim(offers, id);
    forall o | o in ActiveOffers(c) ensures o.id != id {
      assert o in c && o.status == Active;
      var i :| 0 <= i < |c| && c[i] == o;
      assert offers[i].id != id;
    }
  }
}
