/**
 * What the numbers of a bill are, on the fields of its records.
 */
module BillMeaning {
  import opened BillAccumulator
  import opened BillTotals

  /** The rate that was noted; one, if there is none or it is zero. */
  function NotedRate(r: Record): (x: real)
    ensures x != 0.0
  {
    match r.rate case None => 1.0 case Some(x) => if x == 0.0 then 1.0 else x
  }

  function NotedAmount(r: Record): real { match r.amount case None => 0.0 case Some(a) => a }

  /** USDT before the fee. */
  function Gross(r: Record): real {
    match r.currency
    case Usdt => NotedAmount(r)
    case Cny => NotedAmount(r) / NotedRate(r)
    case OtherCurrency => NotedAmount(r) / NotedRate(r)
  }

  /** USDT after the fee: the noted result, or all of it. */
  function Net(r: Record): real { match r.result case Some(x) => x case None => Gross(r) }

  function Yuan(r: Record): real {
    match r.currency
    case Cny => NotedAmount(r)
    case Usdt => NotedAmount(r) * NotedRate(r)
    case OtherCurrency => NotedAmount(r) * NotedRate(r)
  }

  /** A figure added up over the records of a kind. */
  function SumOf(records: seq<Record>, kind: Kind, f: Record -> real): real {
    if records == [] then 0.0
    else
      var r := records[|records| - 1];
      SumOf(records[..|records| - 1], kind, f) + if r.kind == kind then f(r) else 0.0
  }

  function CountOf(records: seq<Record>, kind: Kind): nat {
    if records == [] then 0
    else CountOf(records[..|records| - 1], kind) + if records[|records| - 1].kind == kind then 1 else 0
  }

  function NetYuan(r: Record): real { Net(r) * NotedRate(r) }

  function FeeYuan(r: Record): real { (Gross(r) - Net(r)) * NotedRate(r) }

  lemma ShareMeans(r: Record)
    ensures r.kind == Deposit ==>
      Share(r) == Stat(1, Yuan(r), Gross(r), NetYuan(r), Net(r), 0.0, 0.0) && Commission(r) == FeeYuan(r)
    ensures r.kind == Payout ==> Share(r) == Stat(1, 0.0, 0.0, 0.0, 0.0, Yuan(r), Net(r))
    ensures Rate(r) == NotedRate(r) && CnyAmount(r) == Yuan(r) && GrossUsdt(r) == Gross(r)
  {
    assert Rate(r) == NotedRate(r) && Amount(r) == NotedAmount(r);
  }

  ghost predicate Means(b: Bill, records: seq<Record>) {
    && b.deposits == CountOf(records, Deposit) && b.payouts == CountOf(records, Payout)
    && b.whole.inCny == SumOf(records, Deposit, Yuan) && b.whole.inUsdt == SumOf(records, Deposit, Gross)
    && b.whole.netUsdt == SumOf(records, Deposit, Net) && b.whole.netCny == SumOf(records, Deposit, NetYuan)
    && b.whole.outCny == SumOf(records, Payout, Yuan) && b.whole.outUsdt == SumOf(records, Payout, Net)
    && b.commission == SumOf(records, Deposit, FeeYuan)
  }

  lemma SumStep(records: seq<Record>, kind: Kind, f: Record -> real)
    requires records != []
    ensures
      var init, r := records[..|records| - 1], records[|records| - 1];
      SumOf(records, kind, f) == SumOf(init, kind, f) + (if r.kind == kind then f(r) else 0.0) &&
      CountOf(records, kind) == CountOf(init, kind) + (if r.kind == kind then 1 else 0)
  {
  }

  lemma AddedTotals(b: Bill, rateText: RateText, r: Record)
    ensures
      var after := Added(b, rateText, r);
      && after.whole == Plus(b.whole, Share(r))
      && after.deposits == b.deposits + (if r.kind == Deposit then 1 else 0)
      && after.payouts == b.payouts + (if r.kind == Payout then 1 else 0)
      && after.commission == b.commission + (if r.kind == Deposit then Commission(r) else 0.0)
  {
    if r.kind == OtherKind { PlusNothing(b.whole); }
    hide Commission, CnyAmount, GrossUsdt, ResultUsdt, NetCny, Rated, Credited;
  }

  lemma AddedMeans(b: Bill, rateText: RateText, records: seq<Record>)
    requires records != [] && Means(b, records[..|records| - 1])
    ensures Means(Added(b, rateText, records[|records| - 1]), records)
  {
    hide Added, SumOf, CountOf, Commission, Share, Gross, Net, Yuan, NetYuan, FeeYuan;
    var r := records[|records| - 1];
    AddedTotals(b, rateText, r);
    ShareMeans(r);
    OtherKindHasNoShare(r);
    SumStep(records, Deposit, Yuan);
    SumStep(records, Deposit, Gross);
    SumStep(records, Deposit, Net);
    SumStep(records, Deposit, NetYuan);
    SumStep(records, Deposit, FeeYuan);
    SumStep(records, Payout, Yuan);
    SumStep(records, Payout, Net);
  }

  /** The totals of any bill, from the fields of its records: what came in and went
      out, what is left after the fee, and the fee. */
  lemma {:induction false} TotalMeans(rateText: RateText, records: seq<Record>)
    ensures
      var b := Total(rateText, records);
      && b.deposits == CountOf(records, Deposit) && b.payouts == CountOf(records, Payout)
      && b.whole.inCny == SumOf(records, Deposit, Yuan) && b.whole.inUsdt == SumOf(records, Deposit, Gross)
      && b.whole.netUsdt == SumOf(records, Deposit, Net) && b.whole.netCny == SumOf(records, Deposit, NetYuan)
      && b.whole.outCny == SumOf(records, Payout, Yuan) && b.whole.outUsdt == SumOf(records, Payout, Net)
      && b.commission == SumOf(records, Deposit, FeeYuan)
  {
    if records != [] {
      hide Added;
      TotalMeans(rateText, records[..|records| - 1]);
      AddedMeans(Total(rateText, records[..|records| - 1]), rateText, records);
    }
  }

  function AtRate(rateText: RateText, records: seq<Record>, key: string): seq<Record> {
    if records == [] then []
    else
      var init, r := AtRate(rateText, records[..|records| - 1], key), records[|records| - 1];
      if rateText(NotedRate(r)) == key then init + [r] else init
  }

  lemma SumMore(records: seq<Record>, r: Record, kind: Kind, f: Record -> real)
    ensures SumOf(records + [r], kind, f) == SumOf(records, kind, f) + if r.kind == kind then f(r) else 0.0
  {
    assert (records + [r])[..|records|] == records;
  }

  /** What stands under a rate is what the deposits noted at that rate brought in. */
  lemma {:induction false} RateMeans(rateText: RateText, records: seq<Record>, key: string)
    ensures
      var item, mine := RateOf(Total(rateText, records).rates, key), AtRate(rateText, records, key);
      item.cny == SumOf(mine, Deposit, Yuan) && item.usdt == SumOf(mine, Deposit, Gross)
  {
    if records != [] {
      hide Gross, Yuan, Share, SumOf, Added;
      var init, r := records[..|records| - 1], records[|records| - 1];
      RateMeans(rateText, init, key);
      AddedAtRate(Total(rateText, init), rateText, r, key);
      SumMore(AtRate(rateText, init, key), r, Deposit, Yuan);
      SumMore(AtRate(rateText, init, key), r, Deposit, Gross);
    }
  }

  lemma AddedAtRate(b: Bill, rateText: RateText, r: Record, key: string)
    ensures
      var item, after := RateOf(b.rates, key), RateOf(Added(b, rateText, r).rates, key);
      if r.kind == Deposit && rateText(NotedRate(r)) == key then after == RateItem(item.cny + Yuan(r), item.usdt + Gross(r))
      else after == item
  {
    ShareMeans(r);
    OnlyNames(b, r, Share(r));
    hide Share, Entered, Commission, CnyAmount, GrossUsdt, Gross, Yuan, Rate, NotedRate;
  }

  /** Whose entry a record is: the subject's, else the actor's, else the unnamed one. */
  lemma NamesMean(r: Record, name: string)
    ensures IsUnder(r, ByActor, name) <==> (r.actor != "" && r.actor == name) || (r.actor == "" && name == UNNAMED)
    ensures IsUnder(r, BySubject, name) <==>
      (r.subject != "" && r.subject == name) || (r.subject == "" && IsUnder(r, ByActor, name))
    ensures IsUnder(r, ByRemark, name) <==> r.remark == name
  {
  }
}
