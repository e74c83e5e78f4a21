/** The settings screen's card registry: adding a card after checking the
    length of its last four digits, and removing cards by id. */
module Settings {
  import opened Types
  import opened Seqs
  import opened OfferStore

  /** The nickname a new card gets: the bank's name followed by "new card". */
  function DefaultNickname(bank: Bank): string
  {
    BankName(bank) + "新卡"
  }

  /** The card list after an add: None when the input is not exactly four
      characters long (only the length is checked), otherwise the old list
      with exactly one card appended. */
  function AddCard(cards: seq<UserCard>, bank: Bank, lastFour: string, id: string): (r: Option<seq<UserCard>>)
    ensures r.None? <==> |lastFour| != 4
    ensures r.Some? ==> |r.value| == |cards| + 1 && r.value[..|cards|] == cards
                        && r.value[|cards|] == UserCard(id, bank, lastFour, DefaultNickname(bank))
  {
    if |lastFour| != 4 then None
    else Some(cards + [UserCard(id, bank, lastFour, DefaultNickname(bank))])
  }

  function OtherIdTest(id: string): UserCard -> bool
  {
    (c: UserCard) => c.id != id
  }

  /** The card list without every card carrying `id`, in order. */
  function RemoveCard(cards: seq<UserCard>, id: string): (r: seq<UserCard>)
    ensures Subseq(r, cards)
    ensures forall c :: c in r <==> c in cards && c.id != id
    ensures |r| == Count(cards, OtherIdTest(id))
  {
    KeepLength(cards, OtherIdTest(id));
    Keep(cards, OtherIdTest(id))
  }

  /** Removing an id no card has changes nothing. */
  lemma RemoveAbsentIsNoOp(cards: seq<UserCard>, id: string)
    requires forall c :: c in cards ==> c.id != id
    ensures RemoveCard(cards, id) == cards
  {
    KeepAll(cards, OtherIdTest(id));
  }

  /** Removing twice is removing once. */
  lemma RemoveIdempotent(cards: seq<UserCard>, id: string)
    ensures RemoveCard(RemoveCard(cards, id), id) == RemoveCard(cards, id)
  {
    RemoveAbsentIsNoOp(RemoveCard(cards, id), id);
  }

  /** Adding a card under a fresh id and then removing that id restores the
      original list. */
  lemma AddThenRemoveRestores(cards: seq<UserCard>, bank: Bank, lastFour: string, id: string)
    requires |lastFour| == 4
    requires forall c :: c in cards ==> c.id != id
    ensures AddCard(cards, bank, lastFour, id).Some?
    ensures RemoveCard(AddCard(cards, bank, lastFour, id).value, id) == cards
  {
    var card := UserCard(id, bank, lastFour, DefaultNickname(bank));
    KeepConcat(cards, [card], OtherIdTest(id));
    KeepAll(cards, OtherIdTest(id));
    assert cards + [] == cards;
  }

  /** A four-character suffix that is not a number is accepted. */
  lemma NonNumericSuffixAccepted(cards: seq<UserCard>, id: string)
    ensures AddCard(cards, CMB, "12a4", id) == Some(cards + [UserCard(id, CMB, "12a4", "招商银行新卡")])
  {
    assert |"12a4"| == 4;
    assert DefaultNickname(CMB) == "招商银行新卡" by {
      assert BankName(CMB) + "新卡" == "招商银行" + "新卡";
    }
  }

  /** The settings screen's own input state. */
  class SettingsPanel {
    var newCardBank: Bank
    var newCardLastFour: string

    constructor ()
      ensures newCardBank == ICBC && newCardLastFour == ""
    {
      newCardBank := ICBC;
      newCardLastFour := "";
    }

    /** The add button: with a four-character input the card goes to the end
        of the application's list and the input is cleared; otherwise the
        user is alerted and nothing changes. */
    method AddCardTo(app: App, id: string) returns (added: bool)
      modifies this`newCardLastFour, app`userCards
      ensures added <==> |old(newCardLastFour)| == 4
      ensures added ==> app.userCards == old(app.userCards) + [UserCard(id, newCardBank, old(newCardLastFour), DefaultNickname(newCardBank))]
                        && newCardLastFour == ""
      ensures !added ==> app.userCards == old(app.userCards) && newCardLastFour == old(newCardLastFour)
      ensures AddCard(old(app.userCards), newCardBank, old(newCardLastFour), id)
           == if added then Some(app.userCards) else None
    {
      var next := AddCard(app.userCards, newCardBank, newCardLastFour, id);
      if next.None? {
        added := false;
        return;
      }
      app.userCards := next.value;
      newCardLastFour := "";
      added := true;
    }

    /** The delete button beside each card. */
    method RemoveCardFrom(app: App, id: string)
      modifies app`userCards
      ensures app.userCards == RemoveCard(old(app.userCards), id)
    {
      app.userCards := RemoveCard(app.userCards, id);
    }
  }
}
