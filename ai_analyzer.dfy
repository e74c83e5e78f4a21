/** The AI screen: turning a screenshot analysis into a stored offer, taking
    the payload out of an image data URL, and building the inputs of the
    strategy request. */
module AIAnalyzer {
  import opened Types
  import opened OfferStore
  import opened OffersFeed

  const DefaultTitle: string := "新发现福利"
  const DefaultExpiry: string := "2024-12-31"
  /** The word standing in for a missing category in the description. */
  const GenericKind: string := "福利"
  const ActivitySuffix: string := " 活动"

  /** The fields of the service's answer about one screenshot; each may be
      missing. */
  datatype Analysis = Analysis(
    bank: Option<Bank>,
    title: Option<string>,
    category: Option<Category>,
    expiryDate: Option<string>,
    estimatedValue: Option<nat>,
    steps: Option<seq<string>>)

  /** JavaScript's `v || d` on a string: a missing or empty string is falsy. */
  function OrDefault(v: Option<string>, d: string): (r: string)
    ensures v.Some? && v.value != "" ==> r == v.value
    ensures v.None? || v.value == "" ==> r == d
  {
    if v.Some? && v.value != "" then v.value else d
  }

  /** The offer built from an analysis: always active, never flagged new, its
      description the category (or the generic word) followed by " 活动", and
      every missing or falsy field replaced by its fixed default. */
  function OfferFromAnalysis(a: Analysis, id: string): (o: Offer)
    ensures o.id == id && o.status == Active && !o.isNew && o.searchKeyword == None
    ensures o.title != "" && o.expiryDate != ""
    ensures o.description ==
      (if a.category.Some? then CategoryName(a.category.value) else GenericKind) + ActivitySuffix
    ensures o.bank == (if a.bank.Some? then a.bank.value else ICBC)
    ensures o.category == (if a.category.Some? then a.category.value else Lottery)
    ensures o.estimatedValue == (if a.estimatedValue.Some? then a.estimatedValue.value else 0)
    ensures o.steps == (if a.steps.Some? then a.steps.value else [])
    ensures o.title == OrDefault(a.title, DefaultTitle) && o.expiryDate == OrDefault(a.expiryDate, DefaultExpiry)
  {
    Offer(
      id,
      if a.bank.Some? then a.bank.value else ICBC,
      OrDefault(a.title, DefaultTitle),
      None,
      (if a.category.Some? then CategoryName(a.category.value) else GenericKind) + ActivitySuffix,
      if a.category.Some? then a.category.value else Lottery,
      Active,
      OrDefault(a.expiryDate, DefaultExpiry),
      if a.estimatedValue.Some? then a.estimatedValue.value else 0,
      if a.steps.Some? then a.steps.value else [],
      false)
  }

  /** The analysis that reports everything an offer carries. */
  function AnalysisOf(o: Offer): Analysis
  {
    Analysis(Some(o.bank), Some(o.title), Some(o.category), Some(o.expiryDate),
             Some(o.estimatedValue), Some(o.steps))
  }

  /** A complete analysis is taken over unchanged: only the id, the status,
      the description and the absent keyword and flag are the analyser's own. */
  lemma AnalysisFieldsKept(o: Offer, id: string)
    requires o.title != "" && o.expiryDate != ""
    ensures OfferFromAnalysis(AnalysisOf(o), id)
         == o.(id := id, status := Active, searchKeyword := None, isNew := false,
               description := CategoryName(o.category) + ActivitySuffix)
  {
  }

  /** An empty answer yields the all-defaults offer. */
  lemma EmptyAnalysisDefaults(id: string)
    ensures OfferFromAnalysis(Analysis(None, Some(""), None, Some(""), None, None), id)
         == Offer(id, ICBC, "新发现福利", None, "福利 活动", Lottery, Active, "2024-12-31", 0, [], false)
  {
    assert GenericKind + ActivitySuffix == "福利 活动";
  }

  /** An analysis without an expiry date is stored with the fixed default
      date, so once that day has passed the new offer is hidden by every
      feed filter straight after it is added. */
  lemma MissingExpiryHiddenAfterDefault(a: Analysis, id: string, offers: seq<Offer>, cards: seq<UserCard>,
                                        f: FeedFilter, today: int, dayOf: string -> Option<int>)
    requires a.expiryDate.None? || a.expiryDate == Some("")
    requires dayOf(DefaultExpiry).Some? && dayOf(DefaultExpiry).value < today
    ensures OfferFromAnalysis(a, id) !in FilteredOffers([OfferFromAnalysis(a, id)] + offers, cards, f, today, dayOf)
  {
    assert PastExpiry(OfferFromAnalysis(a, id), today, dayOf);
  }

  /** `parts.join(sep)`: empty for no parts, otherwise starting with the
      first part. */
  function Join(parts: seq<string>, sep: string): (r: string)
    ensures |parts| == 0 ==> r == ""
    ensures |parts| >= 1 ==> parts[0] <= r
  {
    if |parts| == 0 then ""
    else if |parts| == 1 then parts[0]
    else parts[0] + sep + Join(parts[1..], sep)
  }

  /** `s.split(c)` for a one-character separator: the pieces between
      separators, at least one of them, none holding the separator, which
      joined with the separator give back `s`. */
  function Split(s: string, c: char): (fields: seq<string>)
    ensures |fields| >= 1
    ensures forall f :: f in fields ==> c !in f
    ensures Join(fields, [c]) == s
  {
    if s == [] then [""]
    else
      var rest := Split(s[1..], c);
      assert s == [s[0]] + s[1..];
      if s[0] == c then
        JoinCons("", rest, [c]);
        [""] + rest
      else
        JoinExtendFirst(s[0], rest, [c]);
        var fields := [[s[0]] + rest[0]] + rest[1..];
        assert forall f :: f in fields ==> c !in f by {
          forall f | f in fields ensures c !in f {
            if f != fields[0] {
              assert f in rest[1..];
            }
          }
        }
        fields
  }

  lemma JoinCons(f: string, rest: seq<string>, sep: string)
    requires |rest| >= 1
    ensures Join([f] + rest, sep) == f + sep + Join(rest, sep)
  {
    assert ([f] + rest)[1..] == rest;
  }

  /** Putting a character in front of the first part puts it in front of the
      joined text. */
  lemma JoinExtendFirst(ch: char, parts: seq<string>, sep: string)
    requires |parts| >= 1
    ensures Join([[ch] + parts[0]] + parts[1..], sep) == [ch] + Join(parts, sep)
  {
    var fields := [[ch] + parts[0]] + parts[1..];
    if |parts| > 1 {
      assert fields[1..] == parts[1..];
    }
  }

  /** Text without the separator is one field. */
  lemma {:induction false} SplitNoSeparator(s: string, c: char)
    requires c !in s
    ensures Split(s, c) == [s]
  {
    if s != [] {
      SplitNoSeparator(s[1..], c);
    }
  }

  /** The text up to the first separator is the first field. */
  lemma {:induction false} SplitFirstField(p: string, c: char, t: string)
    requires c !in p
    ensures Split(p + [c] + t, c) == [p] + Split(t, c)
  {
    if p == [] {
      assert p + [c] + t == [c] + t;
      assert ([c] + t)[1..] == t;
    } else {
      assert (p + [c] + t)[1..] == p[1..] + [c] + t;
      SplitFirstField(p[1..], c, t);
      assert [p[0]] + p[1..] == p;
    }
  }

  /** Splitting undoes joining when no part holds the separator. */
  lemma {:induction false} SplitJoin(parts: seq<string>, c: char)
    requires |parts| >= 1
    requires forall p :: p in parts ==> c !in p
    ensures Split(Join(parts, [c]), c) == parts
  {
    if |parts| == 1 {
      SplitNoSeparator(parts[0], c);
    } else {
      SplitFirstField(parts[0], c, Join(parts[1..], [c]));
      SplitJoin(parts[1..], c);
      assert [parts[0]] + parts[1..] == parts;
    }
  }

  /** `dataUrl.split(',')[1]`: the second comma-separated field, undefined
      when there is no comma. */
  function Payload(dataUrl: string): (r: Option<string>)
    ensures r.Some? <==> ',' in dataUrl
    ensures r.Some? ==> ',' !in r.value
  {
    var fields := Split(dataUrl, ',');
    if |fields| >= 2 then
      assert ',' in dataUrl by {
        assert dataUrl == fields[0] + [','] + Join(fields[1..], [',']);
        assert dataUrl[|fields[0]|] == ',';
      }
      Some(fields[1])
    else
      assert dataUrl == fields[0];
      None
  }

  /** For `header,data` with neither part holding a comma (the shape of a
      base64 data URL) the payload is `data`. */
  lemma PayloadOfDataUrl(header: string, data: string)
    requires ',' !in header && ',' !in data
    ensures Payload(header + "," + data) == Some(data)
  {
    var url := header + "," + data;
    assert url == header + [','] + data;
    SplitFirstField(header, ',', data);
    SplitNoSeparator(data, ',');
  }

  /** Anything after a second comma is cut off. */
  lemma PayloadStopsAtSecondComma(header: string, data: string, rest: string)
    requires ',' !in header && ',' !in data
    ensures Payload(header + "," + data + "," + rest) == Some(data)
  {
    var url := header + "," + data + "," + rest;
    assert url == header + [','] + (data + [','] + rest);
    SplitFirstField(header, ',', data + [','] + rest);
    SplitFirstField(data, ',', rest);
  }

  /** `userCards.map(c => c.bank)`: the bank names, card by card. */
  function CardNames(cards: seq<UserCard>): (names: seq<string>)
    ensures |names| == |cards|
    ensures forall i :: 0 <= i < |cards| ==> names[i] == BankName(cards[i].bank)
  {
    if cards == [] then [] else [BankName(cards[0].bank)] + CardNames(cards[1..])
  }

  /** `${bank}: ${title}` for one offer. */
  function Summary(o: Offer): string
  {
    BankName(o.bank) + ": " + o.title
  }

  /** The summaries, offer by offer. */
  function Summaries(offers: seq<Offer>): (r: seq<string>)
    ensures |r| == |offers|
    ensures forall i :: 0 <= i < |offers| ==> r[i] == Summary(offers[i])
  {
    if offers == [] then [] else [Summary(offers[0])] + Summaries(offers[1..])
  }

  /** The offer text sent with the strategy request: empty for an empty
      store, otherwise starting with the first offer's summary. */
  function OfferTitles(offers: seq<Offer>): (text: string)
    ensures offers == [] ==> text == ""
    ensures offers != [] ==> Summary(offers[0]) <= text
  {
    Join(Summaries(offers), ", ")
  }

  lemma {:induction false} JoinAppend(parts: seq<string>, x: string, sep: string)
    requires |parts| >= 1
    ensures Join(parts + [x], sep) == Join(parts, sep) + sep + x
  {
    if |parts| == 1 {
      assert (parts + [x])[1..] == [x];
    } else {
      assert (parts + [x])[1..] == parts[1..] + [x];
      JoinAppend(parts[1..], x, sep);
    }
  }

  /** One more offer at the end of the store adds its summary at the end of
      the text, after ", ". */
  lemma OfferTitlesAppend(offers: seq<Offer>, o: Offer)
    requires offers != []
    ensures OfferTitles(offers + [o]) == OfferTitles(offers) + ", " + Summary(o)
  {
    assert Summaries(offers + [o]) == Summaries(offers) + [Summary(o)];
    JoinAppend(Summaries(offers), Summary(o), ", ");
  }

  /** The analyser's own state: the busy flag and the last strategy text. */
  class Analyzer {
    var analyzing: bool
    var strategy: Option<string>

    constructor ()
      ensures !analyzing && strategy == None
    {
      analyzing := false;
      strategy := None;
    }

    /** On a successful analysis the built offer is prepended to the store;
        on a failure the store is untouched. */
    method ProcessBase64(app: App, result: Response<Analysis>, id: string)
      modifies this`analyzing, app`offers
      ensures !analyzing
      ensures result.Failed? ==> app.offers == old(app.offers)
      ensures result.Delivered? ==> app.offers == [OfferFromAnalysis(result.value, id)] + old(app.offers)
    {
      analyzing := true;
      if result.Delivered? {
        var newOffer := OfferFromAnalysis(result.value, id);
        app.AddOffer(newOffer);
      }
      analyzing := false;
    }

    /** The strategy button: the two inputs it sends, and the answer kept
        only when the call succeeds. */
    method GenerateStrategy(app: App, reply: Response<string>) returns (cardNames: seq<string>, offerTitles: string)
      modifies this
      ensures cardNames == CardNames(app.userCards) && offerTitles == OfferTitles(app.offers)
      ensures !analyzing
      ensures strategy == if reply.Delivered? then Some(reply.value) else old(strategy)
    {
      analyzing := true;
      cardNames := CardNames(app.userCards);
      offerTitles := OfferTitles(app.offers);
      if reply.Delivered? {
        strategy := Some(reply.value);
      }
      analyzing := false;
    }
  }
}
