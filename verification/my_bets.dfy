/** The seller's own list of src/components/seller/MyBets.tsx: the logged-in
    seller's bets, the day's total, count and estimated commission, and a
    search over number and code. */
module MyBets {
  import opened Seqs
  import opened Text
  import opened Domain
  import opened BetsContext

  /** The search of this page: the raw term in the number, or the lower-cased
      term in the lower-cased code. */
  predicate MatchesMySearch(b: Bet, term: string) {
    Includes(b.numero, term) || Includes(Lower(b.codigo), Lower(term))
  }

  function MySearch(term: string): Bet -> bool {
    (b: Bet) => MatchesMySearch(b, term)
  }

  /** `filteredBets` of this page. */
  function SearchMyBets(myBets: seq<Bet>, term: string): (r: seq<Bet>)
    ensures forall b :: b in r <==> b in myBets && MatchesMySearch(b, term)
    ensures IsSubsequence(r, myBets)
    ensures forall b {:trigger multiset(r)[b]} ::
      multiset(r)[b] == if MatchesMySearch(b, term) then multiset(myBets)[b] else 0
  {
    Filter(myBets, MySearch(term))
  }

  /** An empty search shows every one of the seller's bets. */
  lemma EmptySearchKeepsAll(myBets: seq<Bet>)
    ensures SearchMyBets(myBets, "") == myBets
  {
    forall b | b in myBets ensures MySearch("")(b) {
      EmptyIncluded(b.numero);
    }
    FilterKeepsAll(myBets, MySearch(""));
  }

  datatype MyBetsView = MyBetsView(
    myBets: seq<Bet>,
    todayTotal: real,
    todayCount: nat,
    estimatedCommission: real,
    filteredBets: seq<Bet>)

  /** `todayTotal * (comissao / 100)`. */
  function Commission(total: real, comissao: real): (c: real)
    ensures total >= 0.0 && 0.0 <= comissao <= 100.0 ==> 0.0 <= c <= total
    ensures total == 0.0 || comissao == 0.0 ==> c == 0.0
    ensures c * 100.0 == total * comissao
  {
    total * (comissao / 100.0)
  }

  /** The page's figures; nothing is rendered without a logged-in user. */
  function ComputeMyBets(user: Option<User>, bets: seq<Bet>, now: Instant, term: string): (v: Option<MyBetsView>)
    ensures v.None? <==> user.None?
    ensures v.Some? ==>
      && (forall b :: b in v.value.myBets <==> b in bets && b.vendedor_id == user.value.id)
      && IsSubsequence(v.value.myBets, bets)
      && (forall b {:trigger multiset(v.value.myBets)[b]} ::
            multiset(v.value.myBets)[b] == if b.vendedor_id == user.value.id then multiset(bets)[b] else 0)
      && v.value.todayTotal == TodayTotal(bets, now, Some(user.value.id))
      && v.value.todayCount == TodayCount(bets, now, Some(user.value.id))
      && v.value.estimatedCommission == Commission(v.value.todayTotal, user.value.comissao)
      && (forall b :: b in v.value.filteredBets <==> b in v.value.myBets && MatchesMySearch(b, term))
      && IsSubsequence(v.value.filteredBets, v.value.myBets)
      && (forall b {:trigger multiset(v.value.filteredBets)[b]} ::
            multiset(v.value.filteredBets)[b] == if MatchesMySearch(b, term) then multiset(v.value.myBets)[b] else 0)
      && IsSubsequence(v.value.filteredBets, bets)
  {
    match user
    case None => None
    case Some(u) =>
      var myBets := BetsByVendedor(bets, u.id);
      var todayTotal := TodayTotal(bets, now, Some(u.id));
      SubsequenceTransitive(SearchMyBets(myBets, term), myBets, bets);
      Some(MyBetsView(
        myBets,
        todayTotal,
        TodayCount(bets, now, Some(u.id)),
        Commission(todayTotal, u.comissao),
        SearchMyBets(myBets, term)))
  }

  /** For a seller with a non-empty id, the day's count and total are taken
      over the seller's own list: the count is the number of the seller's
      bets dated today, and so never exceeds the list's length. */
  lemma TodayFiguresFromOwnList(bets: seq<Bet>, now: Instant, id: string)
    requires id != ""
    ensures TodayOf(bets, now, Some(id)) == Filter(BetsByVendedor(bets, id), SameDay(now))
    ensures TodayCount(bets, now, Some(id)) <= |BetsByVendedor(bets, id)|
    ensures TodayTotal(bets, now, Some(id)) == Total(Filter(Filter(BetsByVendedor(bets, id), SameDay(now)), IsActive))
  {
    var mine := BetsByVendedor(bets, id);
    var sold := SoldBy(id);
    FilterCommute(bets, SameDay(now), sold);
    var todayMine := Filter(mine, SameDay(now));
    FilterCommute(TodayBets(bets, now), IsActive, sold);
    FilterCommute(todayMine, IsActive, sold);
    FilterCommute(bets, sold, SameDay(now));
    assert TodayActive(bets, now, Some(id)) == Filter(Filter(TodayBets(bets, now), sold), IsActive);
    SubsequenceMembers(todayMine, mine);
  }

  /** The status label of a row: "Ativa" for an active bet, "Cancelada" for
      any other status, a paid bet included. */
  function StatusLabel(b: Bet): (text: string)
    ensures text == "Ativa" <==> b.status == Ativa
    ensures text == "Ativa" || text == "Cancelada"
  {
    if b.status == Ativa then "Ativa" else "Cancelada"
  }
}
