/** The period report of src/components/admin/FinancialReports.tsx: the
    ledger's bets of a period, split into active and cancelled ones, with
    totals, a flat 10% commission, the cancellation rate and the average
    ticket.

    The start of the week and of the month come from a date library and are
    supplied as instants. */
module FinancialReports {
  import opened Seqs
  import opened Domain
  import opened BetsContext
  import AdminDashboard

  /** The period select. Any value other than the three named ones keeps
      every bet. */
  datatype Period = Today | Week | Month | Unrecognised

  /** The instants the period filter compares against. */
  datatype PeriodBounds = PeriodBounds(now: Instant, weekStart: Instant, monthStart: Instant)

  predicate InPeriod(b: Bet, period: Period, bounds: PeriodBounds) {
    match period
    case Today => DayOf(b.data_hora) == DayOf(bounds.now)
    case Week => b.data_hora >= bounds.weekStart
    case Month => b.data_hora >= bounds.monthStart
    case Unrecognised => true
  }

  function InPeriodOf(period: Period, bounds: PeriodBounds): Bet -> bool {
    (b: Bet) => InPeriod(b, period, bounds)
  }

  /** `getPeriodBets`. */
  function PeriodBets(bets: seq<Bet>, period: Period, bounds: PeriodBounds): (r: seq<Bet>)
    ensures forall b :: b in r <==> b in bets && InPeriod(b, period, bounds)
    ensures IsSubsequence(r, bets)
    ensures forall b {:trigger multiset(r)[b]} ::
      multiset(r)[b] == if InPeriod(b, period, bounds) then multiset(bets)[b] else 0
  {
    Filter(bets, InPeriodOf(period, bounds))
  }

  /** The period 'today' selects exactly the ledger's bets of today, and an
      unrecognised period selects the whole ledger. */
  lemma PeriodBetsSpecialCases(bets: seq<Bet>, bounds: PeriodBounds)
    ensures PeriodBets(bets, Today, bounds) == TodayBets(bets, bounds.now)
    ensures PeriodBets(bets, Unrecognised, bounds) == bets
  {
    FilterExtensional(bets, InPeriodOf(Today, bounds), SameDay(bounds.now));
    FilterKeepsAll(bets, InPeriodOf(Unrecognised, bounds));
  }

  datatype Report = Report(
    periodBets: seq<Bet>,
    activeBets: seq<Bet>,
    cancelledBets: seq<Bet>,
    totalApostado: real,
    totalCancelado: real,
    comissaoTotal: real,
    lucroLiquido: real,
    cancellationRate: real,
    averageTicket: real)

  /** `cancelled / registered * 100`, shown only when something was
      registered (0 otherwise). */
  function CancellationRate(cancelled: nat, registered: nat): (rate: real)
    requires cancelled <= registered
    ensures 0.0 <= rate <= 100.0
    ensures registered == 0 ==> rate == 0.0
    ensures registered > 0 ==> rate * registered as real == 100.0 * cancelled as real
  {
    if registered > 0 then (cancelled as real / registered as real) * 100.0 else 0.0
  }

  /** `totalApostado / activeBets.length`, shown only when there is an
      active bet ('R$ 0,00' otherwise). */
  function AverageTicket(total: real, active: nat): (avg: real)
    ensures active == 0 ==> avg == 0.0
    ensures active > 0 ==> avg * active as real == total
  {
    if active > 0 then total / active as real else 0.0
  }

  /** Every figure of the report for one period. */
  function ComputeReport(bets: seq<Bet>, period: Period, bounds: PeriodBounds): (r: Report)
    ensures r.periodBets == PeriodBets(bets, period, bounds)
    ensures forall b :: b in r.activeBets <==> b in r.periodBets && b.status == Ativa
    ensures forall b :: b in r.cancelledBets <==> b in r.periodBets && b.status == Cancelada
    ensures IsSubsequence(r.activeBets, r.periodBets) && IsSubsequence(r.cancelledBets, r.periodBets)
    ensures forall b {:trigger multiset(r.activeBets)[b]} ::
      multiset(r.activeBets)[b] == if b.status == Ativa then multiset(r.periodBets)[b] else 0
    ensures forall b {:trigger multiset(r.cancelledBets)[b]} ::
      multiset(r.cancelledBets)[b] == if b.status == Cancelada then multiset(r.periodBets)[b] else 0
    ensures |r.activeBets| + |r.cancelledBets| <= |r.periodBets|
    ensures r.totalApostado == Total(r.activeBets) && r.totalCancelado == Total(r.cancelledBets)
    ensures r.comissaoTotal == r.totalApostado / 10.0
    ensures r.comissaoTotal + r.lucroLiquido == r.totalApostado
    ensures 0.0 <= r.cancellationRate <= 100.0
    ensures |r.periodBets| == 0 ==> r.cancellationRate == 0.0
    ensures r.cancellationRate == CancellationRate(|r.cancelledBets|, |r.periodBets|)
    ensures r.averageTicket == AverageTicket(r.totalApostado, |r.activeBets|)
  {
    var periodBets := PeriodBets(bets, period, bounds);
    var activeBets := Filter(periodBets, IsActive);
    var cancelledBets := Filter(periodBets, IsCancelled);
    FilterDisjointCount(periodBets, IsActive, IsCancelled);
    var totalApostado := Total(activeBets);
    var comissaoTotal := totalApostado * 0.1;
    Report(
      periodBets, activeBets, cancelledBets,
      totalApostado, Total(cancelledBets),
      comissaoTotal, totalApostado - comissaoTotal,
      CancellationRate(|cancelledBets|, |periodBets|),
      AverageTicket(totalApostado, |activeBets|))
  }

  /** The active and cancelled lists never share a bet, and a paid bet is in
      neither. */
  lemma PartitionDisjoint(bets: seq<Bet>, period: Period, bounds: PeriodBounds)
    ensures var r := ComputeReport(bets, period, bounds);
      && (forall b :: !(b in r.activeBets && b in r.cancelledBets))
      && (forall b :: b in r.periodBets && b.status == Paga ==> b !in r.activeBets && b !in r.cancelledBets)
      && r.totalApostado + r.totalCancelado + Total(Filter(r.periodBets, IsPaid)) == Total(r.periodBets)
  {
    var r := ComputeReport(bets, period, bounds);
    var notActive := (b: Bet) => !IsActive(b);
    var notCancelled := (b: Bet) => !IsCancelled(b);
    var neither := (b: Bet) => !IsActive(b) && !IsCancelled(b);
    TotalSplit(r.periodBets, IsActive, notActive);
    var rest := Filter(r.periodBets, notActive);
    TotalSplit(rest, IsCancelled, notCancelled);
    FilterFilter(r.periodBets, notActive, IsCancelled, IsCancelled);
    FilterFilter(r.periodBets, notActive, notCancelled, neither);
    FilterExtensional(r.periodBets, neither, IsPaid);
  }

  predicate IsPaid(b: Bet) {
    b.status == Paga
  }

  /** For the period 'today' the report agrees with the dashboard: the same
      count, active count, total and net figure. */
  lemma TodayReportAgreesWithDashboard(bets: seq<Bet>, bounds: PeriodBounds)
    ensures var r := ComputeReport(bets, Today, bounds);
      var d := AdminDashboard.ComputeDashboard(bets, bounds.now);
      && |r.periodBets| == d.totalApostas
      && |r.activeBets| == d.apostasAtivas
      && |r.cancelledBets| == d.apostasCanceladas
      && r.totalApostado == d.totalApostado
      && r.lucroLiquido == d.lucroLiquido
  {
    PeriodBetsSpecialCases(bets, bounds);
  }
}
