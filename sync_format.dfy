/** The shaping applied to every record that a sync with the AI service
    returns, before it is merged into the offer store. The application does
    this identically at start-up and from the feed's sync button. */
module SyncFormat {
  import opened Types

  /** The text shown when a synced record has no usable first step. */
  const DetailsPlaceholder: string := "点击查看详情"

  /** One record as the service returns it: every field of an offer except
      the id, the status and the description. */
  datatype RawOffer = RawOffer(
    bank: Bank,
    title: string,
    category: Category,
    steps: seq<string>,
    expiryDate: string,
    estimatedValue: nat)

  /** `steps[0] || placeholder`: a missing first step and an empty one are
      both falsy. */
  function SyncDescription(steps: seq<string>): (d: string)
    ensures d != ""
    ensures |steps| > 0 && steps[0] != "" ==> d == steps[0]
    ensures (|steps| == 0 || steps[0] == "") ==> d == DetailsPlaceholder
  {
    if |steps| > 0 && steps[0] != "" then steps[0] else DetailsPlaceholder
  }

  /** The part of an offer that came from the service. */
  function ToRaw(o: Offer): RawOffer
  {
    RawOffer(o.bank, o.title, o.category, o.steps, o.expiryDate, o.estimatedValue)
  }

  /** A synced record: the fresh id, status active, the derived description
      and the "new" flag; every field the service supplied is copied. */
  function FormatSynced(r: RawOffer, id: string): (o: Offer)
    ensures o.id == id && o.status == Active && o.isNew
    ensures o.description == SyncDescription(r.steps)
    ensures o.searchKeyword == None
    ensures ToRaw(o) == r
  {
    Offer(id, r.bank, r.title, None, SyncDescription(r.steps), r.category,
          Active, r.expiryDate, r.estimatedValue, r.steps, true)
  }

  /** The whole batch, in arrival order; `idOf(i)` is the random id drawn for
      the i-th record. */
  function FormatBatch(results: seq<RawOffer>, idOf: nat -> string): (batch: seq<Offer>)
    ensures |batch| == |results|
    ensures forall i :: 0 <= i < |batch| ==>
      batch[i].id == idOf(i) && batch[i].status == Active && ToRaw(batch[i]) == results[i]
    ensures forall i :: 0 <= i < |batch| ==> batch[i].description == SyncDescription(results[i].steps)
    ensures forall o :: o in batch ==> o.isNew && o.searchKeyword == None
  {
    seq(|results|, i requires 0 <= i < |results| => FormatSynced(results[i], idOf(i)))
  }
}
