/** The administrator's dashboard of src/components/admin/AdminDashboard.tsx:
    today's counters over the ledger, the number of distinct sellers, the
    five newest bets and the net figure at a flat 10% commission. */
module AdminDashboard {
  import opened Seqs
  import opened Domain
  import opened BetsContext

  datatype Dashboard = Dashboard(
    totalApostado: real,
    totalApostas: nat,
    apostasAtivas: nat,
    apostasCanceladas: nat,
    lucroBruto: real,
    lucroLiquido: real,
    vendedoresHoje: nat,
    recentBets: seq<Bet>)

  /** `new Set(bets.map(b => b.vendedor_id))`: the seller ids that occur in
      the list. There are never more of them than bets, and there are none
      exactly when there are no bets. */
  function SellerIds(bets: seq<Bet>): (r: set<string>)
    ensures forall i :: 0 <= i < |bets| ==> bets[i].vendedor_id in r
    ensures forall v :: v in r ==> exists i :: 0 <= i < |bets| && bets[i].vendedor_id == v
    ensures |r| <= |bets|
    ensures |r| == 0 <==> bets == []
  {
    if bets == [] then {}
    else
      var rest := SellerIds(bets[1..]);
      assert forall i :: 1 <= i < |bets| ==> bets[i] == bets[1..][i - 1];
      assert forall v :: v in rest ==> exists i :: 0 <= i < |bets| && bets[i].vendedor_id == v by {
        forall v | v in rest ensures exists i :: 0 <= i < |bets| && bets[i].vendedor_id == v {
          var j :| 0 <= j < |bets[1..]| && bets[1..][j].vendedor_id == v;
          assert bets[j + 1].vendedor_id == v;
        }
      }
      {bets[0].vendedor_id} + rest
  }

  /** The "Finalizadas" card: today's bets that are no longer active. Of a
      consistent dashboard it is a count, and it includes every cancelled
      bet. */
  function Finalizadas(d: Dashboard): (n: int)
    ensures d.apostasAtivas + d.apostasCanceladas <= d.totalApostas ==>
      0 <= n <= d.totalApostas && d.apostasCanceladas <= n
  {
    d.totalApostas - d.apostasAtivas
  }

  const RecentLimit: nat := 5

  /** The dashboard's figures for the ledger on the day of `now`. */
  function ComputeDashboard(bets: seq<Bet>, now: Instant): (d: Dashboard)
    ensures d.totalApostas == TodayCount(bets, now, None)
    ensures d.totalApostado == TodayTotal(bets, now, None)
    ensures d.apostasAtivas == |Filter(TodayBets(bets, now), IsActive)|
    ensures d.apostasCanceladas == |Filter(TodayBets(bets, now), IsCancelled)|
    ensures d.apostasAtivas + d.apostasCanceladas <= d.totalApostas
    ensures d.vendedoresHoje == |SellerIds(TodayBets(bets, now))|
    ensures 0 <= Finalizadas(d) <= d.totalApostas
    ensures d.vendedoresHoje <= d.totalApostas
    ensures d.vendedoresHoje == 0 <==> d.totalApostas == 0
    ensures |d.recentBets| == (if |bets| < RecentLimit then |bets| else RecentLimit)
    ensures IsPrefix(d.recentBets, bets)
    ensures d.lucroBruto == d.totalApostado
    ensures d.lucroLiquido + d.totalApostado / 10.0 == d.totalApostado
  {
    var today := TodayBets(bets, now);
    FilterDisjointCount(today, IsActive, IsCancelled);
    var total := TodayTotal(bets, now, None);
    Dashboard(
      total,
      TodayCount(bets, now, None),
      |Filter(today, IsActive)|,
      |Filter(today, IsCancelled)|,
      total,
      total * 0.9,
      |SellerIds(today)|,
      if |bets| < RecentLimit then bets else bets[..RecentLimit])
  }

  /** Because `addBet` prepends, a bet just placed heads the recent list. */
  lemma NewBetHeadsRecent(bets: seq<Bet>, newBet: Bet, now: Instant)
    ensures ComputeDashboard([newBet] + bets, now).recentBets[0] == newBet
  {
  }
}
