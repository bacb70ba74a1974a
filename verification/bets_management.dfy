/** The administrator's bet list of src/components/admin/BetsManagement.tsx:
    a search and two select filters over the ledger, the active-only total
    of what is shown, and the confirmation step in front of `cancelBet`. */
module BetsManagement {
  import opened Seqs
  import opened Text
  import opened Domain
  import opened BetsContext

  /** The game-type select: 'all' or one type. */
  datatype TypeFilter = AllTypes | OnlyType(t: GameType)

  /** The status select: 'all' or one status. */
  datatype StatusFilter = AllStatuses | OnlyStatus(s: BetStatus)

  /** `matchesSearch`: the raw term in the number, or the lower-cased term in
      the lower-cased seller name (a bet without one does not match on it)
      or code. */
  predicate MatchesSearch(b: Bet, term: string) {
    || Includes(b.numero, term)
    || (b.vendedor_nome.Some? && Includes(Lower(b.vendedor_nome.value), Lower(term)))
    || Includes(Lower(b.codigo), Lower(term))
  }

  predicate MatchesType(b: Bet, f: TypeFilter) {
    f.AllTypes? || b.tipo_jogo == f.t
  }

  predicate MatchesStatus(b: Bet, f: StatusFilter) {
    f.AllStatuses? || b.status == f.s
  }

  function Shown(term: string, tf: TypeFilter, sf: StatusFilter): Bet -> bool {
    (b: Bet) => MatchesSearch(b, term) && MatchesType(b, tf) && MatchesStatus(b, sf)
  }

  /** `filteredBets`: the ledger's bets that pass all three filters, in
      ledger order. */
  function FilteredBets(bets: seq<Bet>, term: string, tf: TypeFilter, sf: StatusFilter): (r: seq<Bet>)
    ensures forall b :: b in r <==>
      b in bets && MatchesSearch(b, term) && MatchesType(b, tf) && MatchesStatus(b, sf)
    ensures IsSubsequence(r, bets)
    ensures forall b {:trigger multiset(r)[b]} ::
              multiset(r)[b] ==
              if MatchesSearch(b, term) && MatchesType(b, tf) && MatchesStatus(b, sf) then multiset(bets)[b] else 0
  {
    Filter(bets, Shown(term, tf, sf))
  }

  /** An empty search with both selects on 'all' shows the whole ledger. */
  lemma NoFilterShowsAll(bets: seq<Bet>)
    ensures FilteredBets(bets, "", AllTypes, AllStatuses) == bets
  {
    forall b | b in bets ensures Shown("", AllTypes, AllStatuses)(b) {
      EmptyIncluded(b.numero);
    }
    FilterKeepsAll(bets, Shown("", AllTypes, AllStatuses));
  }

  /** `totalValue`: the sum over the shown bets that are active. Together
      with the sum over the shown bets that are not, it makes up the sum over
      every shown bet; with no negative amounts it lies between zero and
      that sum. */
  function TotalValue(filtered: seq<Bet>): (r: real)
    ensures r + Total(Filter(filtered, (b: Bet) => !IsActive(b))) == Total(filtered)
    ensures (forall b :: b in filtered ==> b.valor >= 0.0) ==> 0.0 <= r <= Total(filtered)
  {
    TotalSplit(filtered, IsActive, (b: Bet) => !IsActive(b));
    if forall b :: b in filtered ==> b.valor >= 0.0 then
      TotalOfSubsequence(Filter(filtered, IsActive), filtered);
      Total(Filter(filtered, IsActive))
    else
      Total(Filter(filtered, IsActive))
  }

  /** The shown total never exceeds the total of every active bet in the
      ledger (amounts being non-negative), and with no filter it is that
      total. */
  lemma TotalValueBounded(bets: seq<Bet>, term: string, tf: TypeFilter, sf: StatusFilter)
    requires forall b :: b in bets ==> b.valor >= 0.0
    ensures 0.0 <= TotalValue(FilteredBets(bets, term, tf, sf)) <= Total(Filter(bets, IsActive))
    ensures TotalValue(FilteredBets(bets, "", AllTypes, AllStatuses)) == Total(Filter(bets, IsActive))
  {
    var shown := FilteredBets(bets, term, tf, sf);
    FilterSubsequence(shown, bets, IsActive);
    TotalOfSubsequence(Filter(shown, IsActive), Filter(bets, IsActive));
    NoFilterShowsAll(bets);
  }

  /** The cancel button is rendered only for active bets. */
  predicate CancelOffered(b: Bet) {
    b.status == Ativa
  }

  /** Cancelling through the offered button, with ids unique, moves exactly
      that bet from `ativa` to `cancelada` and leaves every other bet as it
      was. */
  lemma OfferedCancelRetiresOneBet(bets: seq<Bet>, i: nat)
    requires i < |bets| && CancelOffered(bets[i])
    requires forall j :: 0 <= j < |bets| && j != i ==> bets[j].id != bets[i].id
    ensures var r := Cancelled(bets, bets[i].id);
      && bets[i].status == Ativa && r[i] == bets[i].(status := Cancelada)
      && forall j :: 0 <= j < |bets| && j != i ==> r[j] == bets[j]
  {
  }

  class CancelDialog {
    var open: bool
    var selectedBetId: Option<string>

    constructor ()
      ensures !open && selectedBetId == None
    {
      open := false;
      selectedBetId := None;
    }

    /** `openCancelDialog`. */
    method OpenFor(id: string)
      modifies this
      ensures open && selectedBetId == Some(id)
    {
      selectedBetId := Some(id);
      open := true;
    }

    /** `handleCancelBet`: with a (non-empty) bet id selected, cancel it in
        the ledger, close the dialog and clear the selection; otherwise do
        nothing. */
    method HandleCancelBet(ledger: Ledger)
      modifies this, ledger
      ensures old(selectedBetId).Some? && old(selectedBetId).value != "" ==>
        ledger.bets == Cancelled(old(ledger.bets), old(selectedBetId).value)
        && !open && selectedBetId == None
      ensures !(old(selectedBetId).Some? && old(selectedBetId).value != "") ==>
        ledger.bets == old(ledger.bets) && open == old(open) && selectedBetId == old(selectedBetId)
    {
      if selectedBetId.Some? && selectedBetId.value != "" {
        ledger.CancelBet(selectedBetId.value);
        open := false;
        selectedBetId := None;
      }
    }
  }
}
