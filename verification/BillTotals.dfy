/**
 * The bill adds up: every breakdown sums to the totals, gross is net plus
 * commission, and deposits and payouts counted apart make the whole.
 */
module BillTotals {
  import opened MapSums
  import opened BillAccumulator

  // ---------------------------------------------------------------- sums over names

  ghost function Sum(items: map<string, Stat>): Stat { Fold(items, NOTHING, Plus) }

  lemma SumCredited(items: map<string, Stat>, name: string, share: Stat)
    ensures Sum(Credited(items, name, share)) == Plus(Sum(items), share)
  {
    assert Swaps(Plus);
    FoldWrite(items, NOTHING, Plus, name, Credited(items, name, share)[name]);
  }

  function PlusRate(a: RateItem, b: RateItem): RateItem { RateItem(a.cny + b.cny, a.usdt + b.usdt) }

  ghost function SumRates(items: map<string, RateItem>): RateItem { Fold(items, RateItem(0.0, 0.0), PlusRate) }

  lemma SumRated(items: map<string, RateItem>, key: string, cny: real, usdt: real)
    ensures SumRates(Rated(items, key, cny, usdt)) == PlusRate(SumRates(items), RateItem(cny, usdt))
  {
    assert Swaps(PlusRate);
    FoldWrite(items, RateItem(0.0, 0.0), PlusRate, key, Rated(items, key, cny, usdt)[key]);
  }

  // ------------------------------------------------------------- breakdowns and totals

  ghost predicate AddsUp(b: Bill) {
    && Sum(b.subjects) == b.whole && Sum(b.actors) == b.whole && Sum(b.remarks) == b.whole
    && SumRates(b.rates) == RateItem(b.whole.inCny, b.whole.inUsdt)
    && b.whole.count == b.deposits + b.payouts
  }

  lemma EnteredAddsUp(b: Bill, r: Record, share: Stat)
    requires Sum(b.subjects) == b.whole && Sum(b.actors) == b.whole && Sum(b.remarks) == b.whole
    ensures
      var after := Entered(b, r, share);
      Sum(after.subjects) == after.whole && Sum(after.actors) == after.whole && Sum(after.remarks) == after.whole
  {
    SumCredited(b.subjects, SubjectName(r), share);
    SumCredited(b.actors, ActorName(r), share);
    SumCredited(b.remarks, r.remark, share);
  }

  lemma AddedAddsUp(b: Bill, rateText: RateText, r: Record)
    requires AddsUp(b)
    ensures AddsUp(Added(b, rateText, r))
  {
    hide Sum, SumRates, Credited, Rated;
    EnteredAddsUp(b, r, Share(r));
    if r.kind == Deposit { SumRated(b.rates, rateText(Rate(r)), CnyAmount(r), GrossUsdt(r)); }
  }

  /** For every list of records the sums over subjects, over actors and over remarks
      are the totals, and the sums over rates are the gross deposits. */
  lemma {:induction false} BreakdownsAddUp(rateText: RateText, records: seq<Record>)
    ensures AddsUp(Total(rateText, records))
  {
    if records != [] {
      BreakdownsAddUp(rateText, records[..|records| - 1]);
      AddedAddsUp(Total(rateText, records[..|records| - 1]), rateText, records[|records| - 1]);
    }
  }

  // ------------------------------------------------------- what stands under one name

  /** The totals, and the three breakdowns by name. */
  datatype View = Whole | BySubject | ByActor | ByRemark

  predicate IsUnder(r: Record, view: View, name: string) {
    match view
    case Whole => true
    case BySubject => SubjectName(r) == name
    case ByActor => ActorName(r) == name
    case ByRemark => r.remark == name
  }

  function Items(b: Bill, view: View): map<string, Stat> {
    match view
    case Whole => map[]
    case BySubject => b.subjects
    case ByActor => b.actors
    case ByRemark => b.remarks
  }

  function Seen(b: Bill, view: View, name: string): Stat {
    if view == Whole then b.whole else StatOf(Items(b, view), name)
  }

  function Under(here: bool, share: Stat): Stat { if here then share else NOTHING }

  lemma PlusNothing(s: Stat)
    ensures Plus(s, NOTHING) == s && Plus(NOTHING, s) == s
  {
  }

  lemma EnteredMoves(b: Bill, r: Record, share: Stat, view: View, name: string)
    ensures Seen(Entered(b, r, share), view, name) == Plus(Seen(b, view, name), Under(IsUnder(r, view, name), share))
  {
    PlusNothing(Seen(b, view, name));
  }

  /** One record moves what is seen under its names, and the totals, by its share. */
  lemma AddedMoves(b: Bill, rateText: RateText, r: Record, view: View, name: string)
    ensures Seen(Added(b, rateText, r), view, name) == Plus(Seen(b, view, name), Under(IsUnder(r, view, name), Share(r)))
  {
    OtherKindHasNoShare(r);
    hide Share, CnyAmount, GrossUsdt, Commission, Rated;
    PlusNothing(Seen(b, view, name));
    EnteredMoves(b, r, Share(r), view, name);
  }

  lemma OtherKindHasNoShare(r: Record)
    ensures r.kind == OtherKind ==> Share(r) == NOTHING
  {
  }

  function Of(records: seq<Record>, view: View, name: string): seq<Record> {
    if records == [] then []
    else
      var init, r := Of(records[..|records| - 1], view, name), records[|records| - 1];
      if IsUnder(r, view, name) then init + [r] else init
  }

  lemma TotalMore(rateText: RateText, records: seq<Record>, r: Record)
    ensures Total(rateText, records + [r]) == Added(Total(rateText, records), rateText, r)
  {
    assert (records + [r])[..|records|] == records;
  }

  /** What stands under a name is the total of the records under that name. */
  lemma {:induction false} EntryIsOwnTotal(rateText: RateText, records: seq<Record>, view: View, name: string)
    ensures Seen(Total(rateText, records), view, name) == Total(rateText, Of(records, view, name)).whole
  {
    if records != [] {
      var init, r := records[..|records| - 1], records[|records| - 1];
      EntryIsOwnTotal(rateText, init, view, name);
      AddedMoves(Total(rateText, init), rateText, r, view, name);
      if IsUnder(r, view, name) {
        TotalMore(rateText, Of(init, view, name), r);
        AddedMoves(Total(rateText, Of(init, view, name)), rateText, r, Whole, name);
      } else {
        PlusNothing(Seen(Total(rateText, init), view, name));
      }
    }
  }

  /** A name is listed exactly if some deposit or payout stands under it. */
  lemma {:induction false} ListedIffUsed(rateText: RateText, records: seq<Record>, view: View, name: string)
    requires view != Whole
    ensures name in Items(Total(rateText, records), view) <==>
      exists i :: 0 <= i < |records| && IsUnder(records[i], view, name) && records[i].kind != OtherKind
  {
    if records != [] {
      var init, r := records[..|records| - 1], records[|records| - 1];
      ListedIffUsed(rateText, init, view, name);
      assert name in Items(Total(rateText, records), view) <==>
        name in Items(Total(rateText, init), view) || (IsUnder(r, view, name) && r.kind != OtherKind);
      forall i | 0 <= i < |init| ensures records[i] == init[i] {
      }
    }
  }

  // ------------------------------------------------------------ gross, net, commission

  /** What a deposit in another currency than CNY or USDT is off: its amount is taken
      for CNY when it is divided by the rate and not when it is multiplied. */
  function Excess(r: Record): real {
    if r.kind == Deposit && r.currency == OtherCurrency then Amount(r) * Rate(r) - Amount(r) else 0.0
  }

  function Excesses(records: seq<Record>): real {
    if records == [] then 0.0 else Excesses(records[..|records| - 1]) + Excess(records[|records| - 1])
  }

  lemma QuotientTimes(a: real, rate: real)
    requires rate != 0.0
    ensures (a / rate) * rate == a
  {
  }

  lemma GrossAtRate(r: Record)
    ensures GrossUsdt(r) * Rate(r) == if r.currency == Usdt then Amount(r) * Rate(r) else Amount(r)
  {
    QuotientTimes(Amount(r), Rate(r));
  }

  lemma NetAndCommission(r: Record)
    requires r.kind == Deposit
    ensures CnyAmount(r) == NetCny(r) + Commission(r) + Excess(r)
  {
    GrossAtRate(r);
    var gross, net, rate := GrossUsdt(r), ResultUsdt(r), Rate(r);
    assert net * rate + (gross - net) * rate == gross * rate;
  }

  /** Over any records, gross CNY exceeds net CNY plus commission by exactly the
      excess of the deposits in other currencies. */
  lemma {:induction false} GrossIsNetPlusCommission(rateText: RateText, records: seq<Record>)
    ensures
      var b := Total(rateText, records);
      b.whole.inCny == b.whole.netCny + b.commission + Excesses(records)
  {
    if records != [] {
      GrossIsNetPlusCommission(rateText, records[..|records| - 1]);
      var r := records[|records| - 1];
      if r.kind == Deposit { NetAndCommission(r); }
    }
  }

  /** So for CNY and USDT deposits gross is net plus commission. */
  lemma {:induction false} CnyAndUsdtBalance(rateText: RateText, records: seq<Record>)
    requires forall i :: 0 <= i < |records| && records[i].kind == Deposit ==> records[i].currency != OtherCurrency
    ensures
      var b := Total(rateText, records);
      b.whole.inCny == b.whole.netCny + b.commission
  {
    GrossIsNetPlusCommission(rateText, records);
    NoExcess(records);
  }

  lemma {:induction false} NoExcess(records: seq<Record>)
    requires forall i :: 0 <= i < |records| && records[i].kind == Deposit ==> records[i].currency != OtherCurrency
    ensures Excesses(records) == 0.0
  {
    if records != [] { NoExcess(records[..|records| - 1]); }
  }

  /** One deposit in another currency balances exactly if it is empty or at rate one. */
  lemma OtherCurrencyBalancesIff(rateText: RateText, r: Record)
    requires r.kind == Deposit && r.currency == OtherCurrency
    ensures
      var b := Total(rateText, [r]);
      b.whole.inCny == b.whole.netCny + b.commission <==> Amount(r) == 0.0 || Rate(r) == 1.0
  {
    GrossIsNetPlusCommission(rateText, [r]);
    assert [r][..0] == [] && Excesses([]) == 0.0;
    assert Excesses([r]) == Excess(r);
    var a, rate := Amount(r), Rate(r);
    assert a * rate - a == a * (rate - 1.0);
  }

  // ------------------------------------------------------------- deposits and payouts

  function Only(records: seq<Record>, kind: Kind): seq<Record> {
    if records == [] then []
    else
      var init, r := Only(records[..|records| - 1], kind), records[|records| - 1];
      if r.kind == kind then init + [r] else init
  }

  lemma Regroup(all: Stat, d: Stat, p: Stat, share: Stat)
    requires all == Plus(d, p)
    ensures Plus(all, share) == Plus(Plus(d, share), p) && Plus(all, share) == Plus(d, Plus(p, share))
  {
  }

  lemma StillTheWhole(all: Bill, d: Bill, p: Bill, rateText: RateText, r: Record, view: View, name: string)
    requires Seen(all, view, name) == Plus(Seen(d, view, name), Seen(p, view, name))
    ensures Seen(Added(all, rateText, r), view, name) == Plus(Seen(Added(d, rateText, r), view, name), Seen(p, view, name))
    ensures Seen(Added(all, rateText, r), view, name) == Plus(Seen(d, view, name), Seen(Added(p, rateText, r), view, name))
  {
    AddedMoves(all, rateText, r, view, name);
    AddedMoves(d, rateText, r, view, name);
    AddedMoves(p, rateText, r, view, name);
    Regroup(Seen(all, view, name), Seen(d, view, name), Seen(p, view, name), Under(IsUnder(r, view, name), Share(r)));
  }

  lemma OnlyMore(rateText: RateText, records: seq<Record>, kind: Kind)
    requires records != []
    ensures
      var before, r := Total(rateText, Only(records[..|records| - 1], kind)), records[|records| - 1];
      Total(rateText, Only(records, kind)) == if r.kind == kind then Added(before, rateText, r) else before
  {
    TotalMore(rateText, Only(records[..|records| - 1], kind), records[|records| - 1]);
  }

  /** What the sheets show besides: who was counted, commission and rates. */
  ghost predicate ApartFrom(all: Bill, d: Bill, p: Bill) {
    && all.deposits == d.deposits && all.commission == d.commission && all.rates == d.rates && all.payouts == p.payouts
    && d.payouts == 0 && p.deposits == 0 && p.commission == 0.0 && p.rates == map[]
  }

  lemma DepositApart(all: Bill, d: Bill, p: Bill, rateText: RateText, r: Record)
    requires ApartFrom(all, d, p) && r.kind == Deposit
    ensures ApartFrom(Added(all, rateText, r), Added(d, rateText, r), p)
  {
    hide Entered, Share, Commission, Rated;
    OnlyNames(all, r, Share(r));
    OnlyNames(d, r, Share(r));
  }

  lemma PayoutApart(all: Bill, d: Bill, p: Bill, rateText: RateText, r: Record)
    requires ApartFrom(all, d, p) && r.kind == Payout
    ensures ApartFrom(Added(all, rateText, r), d, Added(p, rateText, r))
  {
    hide Entered, Share;
    OnlyNames(all, r, Share(r));
    OnlyNames(p, r, Share(r));
  }

  lemma OnlyNames(b: Bill, r: Record, share: Stat)
    ensures
      var e := Entered(b, r, share);
      e.deposits == b.deposits && e.payouts == b.payouts && e.commission == b.commission && e.rates == b.rates
  {
    hide Credited, Plus;
  }

  lemma {:induction false} SheetsApart(rateText: RateText, records: seq<Record>)
    ensures ApartFrom(
      Total(rateText, records), Total(rateText, Only(records, Deposit)), Total(rateText, Only(records, Payout)))
  {
    hide Added, ApartFrom;
    if records != [] {
      var init, r := records[..|records| - 1], records[|records| - 1];
      var all, d, p := Total(rateText, init), Total(rateText, Only(init, Deposit)), Total(rateText, Only(init, Payout));
      SheetsApart(rateText, init);
      OnlyMore(rateText, records, Deposit);
      OnlyMore(rateText, records, Payout);
      match r.kind
      case Deposit => DepositApart(all, d, p, rateText, r);
      case Payout => PayoutApart(all, d, p, rateText, r);
      case OtherKind => OtherKindAdds(all, rateText, r);
    } else {
      NobodyApart(rateText);
    }
  }

  lemma OtherKindAdds(b: Bill, rateText: RateText, r: Record)
    requires r.kind == OtherKind
    ensures Added(b, rateText, r) == b
  {
  }

  lemma NobodyApart(rateText: RateText)
    ensures ApartFrom(EMPTY, EMPTY, EMPTY)
  {
  }

  lemma {:induction false} StatsMakeTheWhole(rateText: RateText, records: seq<Record>, view: View, name: string)
    ensures Seen(Total(rateText, records), view, name) ==
      Plus(Seen(Total(rateText, Only(records, Deposit)), view, name), Seen(Total(rateText, Only(records, Payout)), view, name))
  {
    if records != [] {
      var init, r := records[..|records| - 1], records[|records| - 1];
      var all, d, p := Total(rateText, init), Total(rateText, Only(init, Deposit)), Total(rateText, Only(init, Payout));
      StatsMakeTheWhole(rateText, init, view, name);
      OnlyMore(rateText, records, Deposit);
      OnlyMore(rateText, records, Payout);
      if r.kind != OtherKind { StillTheWhole(all, d, p, rateText, r, view, name); }
    }
  }

  /** The accumulators of the workbook's two sheets add up to that of the whole
      bill, in total and under every name; commission and rates are those of the
      deposits alone. */
  lemma DepositsAndPayoutsMakeTheWhole(rateText: RateText, records: seq<Record>, view: View, name: string)
    ensures
      var all, d, p := Total(rateText, records), Total(rateText, Only(records, Deposit)), Total(rateText, Only(records, Payout));
      && Seen(all, view, name) == Plus(Seen(d, view, name), Seen(p, view, name))
      && all.deposits == d.deposits && all.commission == d.commission && all.rates == d.rates && all.payouts == p.payouts
      && d.payouts == 0 && p.deposits == 0 && p.commission == 0.0 && p.rates == map[]
  {
    StatsMakeTheWhole(rateText, records, view, name);
    SheetsApart(rateText, records);
  }
}
