/**
 * The bill accumulator: totals, and the same amounts broken down by subject, actor,
 * remark and rate. Amounts are exact rationals, written as reals; a number text
 * that does not parse is `None`.
 */
module BillAccumulator {
  import opened Options

  datatype Kind = Deposit | Payout | OtherKind

  datatype Currency = Cny | Usdt | OtherCurrency

  datatype Record = Record(
    kind: Kind, amount: Option<real>, currency: Currency, rate: Option<real>, result: Option<real>,
    subject: string, actor: string, remark: string)

  /** What a person (or a remark) paid in and was paid out. */
  datatype Stat = Stat(
    count: int, inCny: real, inUsdt: real, netCny: real, netUsdt: real, outCny: real, outUsdt: real)

  datatype RateItem = RateItem(cny: real, usdt: real)

  type RateText = real -> string

  /** `whole` holds the totals of the bill; its count is that of deposits and payouts. */
  datatype Bill = Bill(
    deposits: int, payouts: int, whole: Stat, commission: real,
    subjects: map<string, Stat>, actors: map<string, Stat>, remarks: map<string, Stat>, rates: map<string, RateItem>)

  const UNNAMED := "\U{672A}\U{547D}\U{540D}"
  const NOTHING := Stat(0, 0.0, 0.0, 0.0, 0.0, 0.0, 0.0)
  const EMPTY := Bill(0, 0, NOTHING, 0.0, map[], map[], map[], map[])

  // --------------------------------------------------------------------- one record

  function Amount(r: Record): real { if r.amount.Some? then r.amount.value else 0.0 }

  function Rate(r: Record): (x: real)
    ensures x != 0.0
  {
    if r.rate.None? || r.rate.value == 0.0 then 1.0 else r.rate.value
  }

  function GrossUsdt(r: Record): real { if r.currency == Usdt then Amount(r) else Amount(r) / Rate(r) }

  function ResultUsdt(r: Record): real { if r.result.Some? then r.result.value else GrossUsdt(r) }

  function CnyAmount(r: Record): real { if r.currency == Cny then Amount(r) else Amount(r) * Rate(r) }

  function NetCny(r: Record): real { ResultUsdt(r) * Rate(r) }

  function Commission(r: Record): real { (GrossUsdt(r) - ResultUsdt(r)) * Rate(r) }

  function ActorName(r: Record): string { if r.actor != "" then r.actor else UNNAMED }

  function SubjectName(r: Record): string { if r.subject != "" then r.subject else ActorName(r) }

  function Share(r: Record): Stat {
    match r.kind
    case Deposit => Stat(1, CnyAmount(r), GrossUsdt(r), NetCny(r), ResultUsdt(r), 0.0, 0.0)
    case Payout => Stat(1, 0.0, 0.0, 0.0, 0.0, CnyAmount(r), ResultUsdt(r))
    case OtherKind => NOTHING
  }

  function Plus(a: Stat, b: Stat): Stat {
    Stat(a.count + b.count, a.inCny + b.inCny, a.inUsdt + b.inUsdt, a.netCny + b.netCny, a.netUsdt + b.netUsdt,
         a.outCny + b.outCny, a.outUsdt + b.outUsdt)
  }

  function StatOf(items: map<string, Stat>, name: string): Stat { if name in items then items[name] else NOTHING }

  function Credited(items: map<string, Stat>, name: string, share: Stat): map<string, Stat> {
    items[name := Plus(StatOf(items, name), share)]
  }

  function RateOf(items: map<string, RateItem>, key: string): RateItem { if key in items then items[key] else RateItem(0.0, 0.0) }

  function Rated(items: map<string, RateItem>, key: string, cny: real, usdt: real): map<string, RateItem> {
    items[key := RateItem(RateOf(items, key).cny + cny, RateOf(items, key).usdt + usdt)]
  }

  /** A share entered into the totals and under the record's names. */
  function Entered(b: Bill, r: Record, share: Stat): Bill {
    b.(whole := Plus(b.whole, share), subjects := Credited(b.subjects, SubjectName(r), share),
       actors := Credited(b.actors, ActorName(r), share), remarks := Credited(b.remarks, r.remark, share))
  }

  function Added(b: Bill, rateText: RateText, r: Record): Bill {
    match r.kind
    case OtherKind => b
    case Payout => Entered(b, r, Share(r)).(payouts := b.payouts + 1)
    case Deposit =>
      Entered(b, r, Share(r)).(
        deposits := b.deposits + 1, commission := b.commission + Commission(r),
        rates := Rated(b.rates, rateText(Rate(r)), CnyAmount(r), GrossUsdt(r)))
  }

  function Total(rateText: RateText, records: seq<Record>): Bill {
    if records == [] then EMPTY else Added(Total(rateText, records[..|records| - 1]), rateText, records[|records| - 1])
  }

  // ------------------------------------------------------- the accumulator, in place

  class Accumulator {
    const rateText: RateText
    const keepRecords: bool
    var depositCount: int
    var payoutCount: int
    var deposits: seq<Record>
    var payouts: seq<Record>
    var totalDepositCny: real
    var totalDepositGrossUsdt: real
    var totalDepositNetCny: real
    var totalDepositNetUsdt: real
    var totalPayoutCny: real
    var totalPayoutUsdt: real
    var commissionCny: real
    var subjectStats: map<string, Stat>
    var actorStats: map<string, Stat>
    var remarkStats: map<string, Stat>
    var rateStats: map<string, RateItem>

    ghost function Whole(): Stat
      reads this
    {
      Stat(depositCount + payoutCount, totalDepositCny, totalDepositGrossUsdt, totalDepositNetCny, totalDepositNetUsdt,
           totalPayoutCny, totalPayoutUsdt)
    }

    ghost function Model(): Bill
      reads this
    {
      Bill(depositCount, payoutCount, Whole(), commissionCny, subjectStats, actorStats, remarkStats, rateStats)
    }

    constructor (rateText: RateText, keepRecords: bool)
      ensures this.rateText == rateText && this.keepRecords == keepRecords && Model() == EMPTY && deposits == [] && payouts == []
    {
      this.rateText, this.keepRecords, deposits, payouts := rateText, keepRecords, [], [];
      depositCount, payoutCount := 0, 0;
      totalDepositCny, totalDepositGrossUsdt, totalDepositNetCny, totalDepositNetUsdt := 0.0, 0.0, 0.0, 0.0;
      totalPayoutCny, totalPayoutUsdt, commissionCny := 0.0, 0.0, 0.0;
      subjectStats, actorStats, remarkStats, rateStats := map[], map[], map[], map[];
    }

    method AddPeopleDeposit(items: map<string, Stat>, name: string, inCny: real, inUsdt: real, netCny: real, netUsdt: real)
        returns (after: map<string, Stat>)
      ensures after == Credited(items, name, Stat(1, inCny, inUsdt, netCny, netUsdt, 0.0, 0.0))
    {
      var item := if name in items then items[name] else NOTHING;
      item := item.(count := item.count + 1, inCny := item.inCny + inCny, inUsdt := item.inUsdt + inUsdt);
      item := item.(netCny := item.netCny + netCny, netUsdt := item.netUsdt + netUsdt);
      after := items[name := item];
    }

    method AddPeoplePayout(items: map<string, Stat>, name: string, outCny: real, outUsdt: real)
        returns (after: map<string, Stat>)
      ensures after == Credited(items, name, Stat(1, 0.0, 0.0, 0.0, 0.0, outCny, outUsdt))
    {
      var item := if name in items then items[name] else NOTHING;
      item := item.(count := item.count + 1, outCny := item.outCny + outCny, outUsdt := item.outUsdt + outUsdt);
      after := items[name := item];
    }

    method AddDepositTotals(cny: real, gross: real, netCny: real, net: real, commission: real)
      modifies this`depositCount, this`totalDepositCny, this`totalDepositGrossUsdt
      modifies this`totalDepositNetCny, this`totalDepositNetUsdt, this`commissionCny
      ensures Whole() == Plus(old(Whole()), Stat(1, cny, gross, netCny, net, 0.0, 0.0))
      ensures commissionCny == old(commissionCny) + commission && depositCount == old(depositCount) + 1
    {
      depositCount := depositCount + 1;
      totalDepositCny, totalDepositGrossUsdt := totalDepositCny + cny, totalDepositGrossUsdt + gross;
      totalDepositNetCny, totalDepositNetUsdt := totalDepositNetCny + netCny, totalDepositNetUsdt + net;
      commissionCny := commissionCny + commission;
    }

    method AddDeposit(r: Record, cny: real, gross: real, netCny: real, net: real, commission: real)
      modifies this`depositCount, this`totalDepositCny, this`totalDepositGrossUsdt
      modifies this`totalDepositNetCny, this`totalDepositNetUsdt
      modifies this`commissionCny, this`subjectStats, this`actorStats, this`remarkStats
      ensures Model() == Entered(old(Model()), r, Stat(1, cny, gross, netCny, net, 0.0, 0.0)).(
                           deposits := old(depositCount) + 1, commission := old(commissionCny) + commission)
    {
      AddDepositTotals(cny, gross, netCny, net, commission);
      CreditDeposit(r, cny, gross, netCny, net);
    }

    method CreditDeposit(r: Record, cny: real, gross: real, netCny: real, net: real)
      modifies this`subjectStats, this`actorStats, this`remarkStats
      ensures
        var share := Stat(1, cny, gross, netCny, net, 0.0, 0.0);
        && subjectStats == Credited(old(subjectStats), SubjectName(r), share)
        && actorStats == Credited(old(actorStats), ActorName(r), share)
        && remarkStats == Credited(old(remarkStats), r.remark, share)
    {
      subjectStats := AddPeopleDeposit(subjectStats, SubjectName(r), cny, gross, netCny, net);
      actorStats := AddPeopleDeposit(actorStats, ActorName(r), cny, gross, netCny, net);
      remarkStats := AddPeopleDeposit(remarkStats, r.remark, cny, gross, netCny, net);
    }

    method AddRate(key: string, cny: real, gross: real)
      modifies this`rateStats
      ensures rateStats == Rated(old(rateStats), key, cny, gross)
    {
      var item := if key in rateStats then rateStats[key] else RateItem(0.0, 0.0);
      item := item.(cny := item.cny + cny);
      item := item.(usdt := item.usdt + gross);
      rateStats := rateStats[key := item];
    }

    method AddPayoutTotals(cny: real, usdt: real)
      modifies this`payoutCount, this`totalPayoutCny, this`totalPayoutUsdt
      ensures Whole() == Plus(old(Whole()), Stat(1, 0.0, 0.0, 0.0, 0.0, cny, usdt)) && payoutCount == old(payoutCount) + 1
    {
      payoutCount := payoutCount + 1;
      totalPayoutCny, totalPayoutUsdt := totalPayoutCny + cny, totalPayoutUsdt + usdt;
    }

    method AddPayout(r: Record, cny: real, usdt: real)
      modifies this`payoutCount, this`totalPayoutCny, this`totalPayoutUsdt, this`subjectStats, this`actorStats, this`remarkStats
      ensures Model() == Entered(old(Model()), r, Stat(1, 0.0, 0.0, 0.0, 0.0, cny, usdt)).(payouts := old(payoutCount) + 1)
    {
      AddPayoutTotals(cny, usdt);
      CreditPayout(r, cny, usdt);
    }

    method CreditPayout(r: Record, cny: real, usdt: real)
      modifies this`subjectStats, this`actorStats, this`remarkStats
      ensures
        var share := Stat(1, 0.0, 0.0, 0.0, 0.0, cny, usdt);
        && subjectStats == Credited(old(subjectStats), SubjectName(r), share)
        && actorStats == Credited(old(actorStats), ActorName(r), share)
        && remarkStats == Credited(old(remarkStats), r.remark, share)
    {
      subjectStats := AddPeoplePayout(subjectStats, SubjectName(r), cny, usdt);
      actorStats := AddPeoplePayout(actorStats, ActorName(r), cny, usdt);
      remarkStats := AddPeoplePayout(remarkStats, r.remark, cny, usdt);
    }

    /** The two sheets of the bill keep their records, if the caller wants them. */
    method Keep(r: Record)
      modifies this`deposits, this`payouts
      ensures deposits == old(deposits) + (if keepRecords && r.kind == Deposit then [r] else [])
      ensures payouts == old(payouts) + (if keepRecords && r.kind == Payout then [r] else [])
    {
      if keepRecords && r.kind == Deposit { deposits := deposits + [r]; }
      if keepRecords && r.kind == Payout { payouts := payouts + [r]; }
    }

    method Account(r: Record)
      modifies this
      ensures Model() == Added(old(Model()), rateText, r) && deposits == old(deposits) && payouts == old(payouts)
    {
      if r.kind == Deposit {
        AddDeposit(r, CnyAmount(r), GrossUsdt(r), NetCny(r), ResultUsdt(r), Commission(r));
        AddRate(rateText(Rate(r)), CnyAmount(r), GrossUsdt(r));
      } else if r.kind == Payout {
        AddPayout(r, CnyAmount(r), ResultUsdt(r));
      }
    }

    method Add(r: Record)
      modifies this
      ensures Model() == Added(old(Model()), rateText, r)
      ensures deposits == old(deposits) + (if keepRecords && r.kind == Deposit then [r] else [])
      ensures payouts == old(payouts) + (if keepRecords && r.kind == Payout then [r] else [])
    {
      Keep(r);
      assert Model() == old(Model());
      Account(r);
    }
  }

  /** `summarizeBill`: the records added one by one. */
  method SummarizeBill(rateText: RateText, records: seq<Record>) returns (a: Accumulator)
    ensures fresh(a) && a.Model() == Total(rateText, records)
  {
    a := new Accumulator(rateText, true);
    for i := 0 to |records|
      invariant fresh(a) && a.rateText == rateText && a.Model() == Total(rateText, records[..i])
    {
      assert records[..i + 1][..i] == records[..i];
      a.Add(records[i]);
    }
    assert records[..|records|] == records;
  }
}
