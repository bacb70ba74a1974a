/** The bet ledger of src/contexts/BetsContext.tsx: one list of bets, most
    recent first, that `addBet` prepends to and `cancelBet` maps over, and
    the read-side queries every view is built on.

    The clock, the `Date.now()` id and the `Math.random()` draws of
    `generateCode` are parameters. */
module BetsContext {
  import opened Seqs
  import opened Text
  import opened Domain

  // ---------------------------------------------------------------------
  // Receipt codes

  const CodeAlphabet: string := "ABCDEFGHIJKLMNOPQRSTUVWXYZ0123456789"

  const CodeLength: nat := 8

  /** A character of the pattern `[A-Z0-9]`. */
  predicate IsCodeChar(c: char) {
    'A' <= c <= 'Z' || IsDigit(c)
  }

  /** A string of the pattern `[A-Z0-9]{8}`. */
  predicate IsCode(s: string) {
    |s| == CodeLength && forall i :: 0 <= i < |s| ==> IsCodeChar(s[i])
  }

  /** The alphabet is exactly the 36 characters of `[A-Z0-9]`. */
  lemma CodeAlphabetChars()
    ensures |CodeAlphabet| == 36
    ensures forall k :: 0 <= k < |CodeAlphabet| ==> IsCodeChar(CodeAlphabet[k])
  {
  }

  /** The random source of `generateCode`: the i-th draw is
      `Math.floor(Math.random() * chars.length)` of the i-th iteration. */
  predicate ValidDraws(draws: seq<nat>) {
    |draws| == CodeLength && forall i :: 0 <= i < |draws| ==> draws[i] < |CodeAlphabet|
  }

  /** `generateCode`: eight characters, each picked by one draw. */
  method GenerateCode(draws: seq<nat>) returns (code: string)
    requires ValidDraws(draws)
    ensures |code| == CodeLength
    ensures forall i :: 0 <= i < CodeLength ==> code[i] == CodeAlphabet[draws[i]]
    ensures IsCode(code)
  {
    CodeAlphabetChars();
    code := "";
    for i := 0 to CodeLength
      invariant |code| == i
      invariant forall j :: 0 <= j < i ==> code[j] == CodeAlphabet[draws[j]]
    {
      code := code + [CodeAlphabet[draws[i]]];
    }
  }

  // ---------------------------------------------------------------------
  // Queries

  function SameDay(now: Instant): Bet -> bool {
    (b: Bet) => DayOf(b.data_hora) == DayOf(now)
  }

  function SoldBy(vendedorId: string): Bet -> bool {
    (b: Bet) => b.vendedor_id == vendedorId
  }

  /** `getBetsByVendedor`. */
  function BetsByVendedor(bets: seq<Bet>, vendedorId: string): (r: seq<Bet>)
    ensures forall b :: b in r <==> b in bets && b.vendedor_id == vendedorId
    ensures IsSubsequence(r, bets)
    ensures forall b {:trigger multiset(r)[b]} ::
      multiset(r)[b] == if b.vendedor_id == vendedorId then multiset(bets)[b] else 0
  {
    Filter(bets, SoldBy(vendedorId))
  }

  /** `getTodayBets`: the bets placed on the calendar day of `now`. */
  function TodayBets(bets: seq<Bet>, now: Instant): (r: seq<Bet>)
    ensures forall b :: b in r <==> b in bets && DayOf(b.data_hora) == DayOf(now)
    ensures IsSubsequence(r, bets)
    ensures forall b {:trigger multiset(r)[b]} ::
      multiset(r)[b] == if DayOf(b.data_hora) == DayOf(now) then multiset(bets)[b] else 0
  {
    Filter(bets, SameDay(now))
  }

  /** The optional seller argument is used only when it is truthy: absent
      and the empty string both mean every seller. */
  predicate Truthy(vendedorId: Option<string>) {
    vendedorId.Some? && vendedorId.value != ""
  }

  predicate SellerMatches(b: Bet, vendedorId: Option<string>) {
    Truthy(vendedorId) ==> b.vendedor_id == vendedorId.value
  }

  /** The bets `getTodayTotal` sums: today's active bets, of the seller if one
      is given. */
  function TodayActive(bets: seq<Bet>, now: Instant, vendedorId: Option<string>): (r: seq<Bet>)
    ensures forall b :: b in r <==>
      b in bets && DayOf(b.data_hora) == DayOf(now) && b.status == Ativa && SellerMatches(b, vendedorId)
  {
    var active := Filter(TodayBets(bets, now), IsActive);
    if Truthy(vendedorId) then Filter(active, SoldBy(vendedorId.value)) else active
  }

  /** The bets `getTodayCount` counts: today's bets of every status, of the
      seller if one is given. */
  function TodayOf(bets: seq<Bet>, now: Instant, vendedorId: Option<string>): (r: seq<Bet>)
    ensures forall b :: b in r <==> b in bets && DayOf(b.data_hora) == DayOf(now) && SellerMatches(b, vendedorId)
  {
    var today := TodayBets(bets, now);
    if Truthy(vendedorId) then Filter(today, SoldBy(vendedorId.value)) else today
  }

  /** The single predicate today's total is the sum over. */
  function TodayActivePredicate(now: Instant, vendedorId: Option<string>): Bet -> bool {
    (b: Bet) => DayOf(b.data_hora) == DayOf(now) && b.status == Ativa && SellerMatches(b, vendedorId)
  }

  /** The single predicate today's count counts. */
  function TodayPredicate(now: Instant, vendedorId: Option<string>): Bet -> bool {
    (b: Bet) => DayOf(b.data_hora) == DayOf(now) && SellerMatches(b, vendedorId)
  }

  /** `getTodayTotal`: the `valor` sum over exactly the ledger's bets that
      are dated today, active and (if a seller is given) sold by that
      seller. */
  function TodayTotal(bets: seq<Bet>, now: Instant, vendedorId: Option<string>): (r: real)
    ensures r == Total(Filter(bets, TodayActivePredicate(now, vendedorId)))
  {
    var todayActive := (b: Bet) => SameDay(now)(b) && IsActive(b);
    FilterFilter(bets, SameDay(now), IsActive, todayActive);
    if Truthy(vendedorId) then
      FilterFilter(bets, todayActive, SoldBy(vendedorId.value), TodayActivePredicate(now, vendedorId));
      Total(TodayActive(bets, now, vendedorId))
    else
      FilterExtensional(bets, todayActive, TodayActivePredicate(now, vendedorId));
      Total(TodayActive(bets, now, vendedorId))
  }

  /** `getTodayCount`: the number of the ledger's bets, of any status, that
      are dated today and (if a seller is given) sold by that seller. */
  function TodayCount(bets: seq<Bet>, now: Instant, vendedorId: Option<string>): (n: nat)
    ensures n == |Filter(bets, TodayPredicate(now, vendedorId))|
    ensures n <= |bets|
  {
    if Truthy(vendedorId) then
      FilterFilter(bets, SameDay(now), SoldBy(vendedorId.value), TodayPredicate(now, vendedorId));
      |TodayOf(bets, now, vendedorId)|
    else
      FilterExtensional(bets, SameDay(now), TodayPredicate(now, vendedorId));
      |TodayOf(bets, now, vendedorId)|
  }

  /** Every bet in today's total is also in today's count, in the same
      order: the total leaves out the bets that are not active. */
  lemma TotalWithinCount(bets: seq<Bet>, now: Instant, vendedorId: Option<string>)
    ensures IsSubsequence(TodayActive(bets, now, vendedorId), TodayOf(bets, now, vendedorId))
    ensures |TodayActive(bets, now, vendedorId)| <= TodayCount(bets, now, vendedorId)
  {
    var today := TodayBets(bets, now);
    var active := Filter(today, IsActive);
    if Truthy(vendedorId) {
      var sold := SoldBy(vendedorId.value);
      FilterCommute(today, IsActive, sold);
      assert TodayActive(bets, now, vendedorId) == Filter(Filter(today, sold), IsActive);
    }
    SubsequenceMembers(TodayActive(bets, now, vendedorId), TodayOf(bets, now, vendedorId));
  }

  // ---------------------------------------------------------------------
  // Cancellation

  function CancelIfMatch(id: string): Bet -> Bet {
    (b: Bet) => if b.id == id then b.(status := Cancelada) else b
  }

  /** `prev.map(bet => bet.id === id ? { ...bet, status: 'cancelada' } : bet)`. */
  function Cancelled(bets: seq<Bet>, id: string): (r: seq<Bet>)
    ensures |r| == |bets|
    ensures forall i :: 0 <= i < |bets| ==> r[i].(status := bets[i].status) == bets[i]
    ensures forall i :: 0 <= i < |bets| ==>
      r[i].status == if bets[i].id == id then Cancelada else bets[i].status
  {
    MapSeq(bets, CancelIfMatch(id))
  }

  /** Cancelling twice is cancelling once. */
  lemma CancelIdempotent(bets: seq<Bet>, id: string)
    ensures Cancelled(Cancelled(bets, id), id) == Cancelled(bets, id)
  {
  }

  /** Cancelling an id that is not in the ledger changes nothing. */
  lemma CancelUnknownId(bets: seq<Bet>, id: string)
    requires forall b :: b in bets ==> b.id != id
    ensures Cancelled(bets, id) == bets
  {
    assert forall i :: 0 <= i < |bets| ==> bets[i] in bets;
  }

  /** Cancellation never changes today's count: the count includes every
      status. */
  lemma CancelKeepsTodayCount(bets: seq<Bet>, id: string, now: Instant, vendedorId: Option<string>)
    ensures TodayCount(Cancelled(bets, id), now, vendedorId) == TodayCount(bets, now, vendedorId)
  {
    var f := CancelIfMatch(id);
    FilterMapCommute(bets, f, SameDay(now));
    if Truthy(vendedorId) {
      FilterMapCommute(Filter(bets, SameDay(now)), f, SoldBy(vendedorId.value));
    }
  }

  function ActiveUnless(id: string): Bet -> bool {
    (b: Bet) => b.status == Ativa && b.id != id
  }

  /** After cancelling `id`, the active bets are the ones that were active
      and carry another id. */
  lemma {:induction false} CancelledActive(bets: seq<Bet>, id: string)
    ensures Filter(Cancelled(bets, id), IsActive) == Filter(bets, ActiveUnless(id))
  {
    if bets != [] {
      CancelledActive(bets[1..], id);
      assert Cancelled(bets, id)[1..] == Cancelled(bets[1..], id);
    }
  }

  /** With no negative amounts, cancelling a bet never raises today's total. */
  lemma CancelNeverRaisesTodayTotal(bets: seq<Bet>, id: string, now: Instant, vendedorId: Option<string>)
    requires forall b :: b in bets ==> b.valor >= 0.0
    ensures TodayTotal(Cancelled(bets, id), now, vendedorId) <= TodayTotal(bets, now, vendedorId)
  {
    var today := Filter(bets, SameDay(now));
    FilterMapCommute(bets, CancelIfMatch(id), SameDay(now));
    assert TodayBets(Cancelled(bets, id), now) == Cancelled(today, id);
    CancelledActive(today, id);
    FilterMonotone(today, ActiveUnless(id), IsActive);
    var after := Filter(today, ActiveUnless(id));
    var before := Filter(today, IsActive);
    assert IsSubsequence(after, before);
    if Truthy(vendedorId) {
      FilterSubsequence(after, before, SoldBy(vendedorId.value));
      TotalOfSubsequence(Filter(after, SoldBy(vendedorId.value)), Filter(before, SoldBy(vendedorId.value)));
    } else {
      TotalOfSubsequence(after, before);
    }
  }

  // ---------------------------------------------------------------------
  // The effect of a new bet on today's figures

  /** Prepending a bet dated today adds one to today's count when the seller
      filter admits it. */
  lemma AddedBetTodayCount(bets: seq<Bet>, newBet: Bet, now: Instant, vendedorId: Option<string>)
    requires DayOf(newBet.data_hora) == DayOf(now)
    ensures TodayCount([newBet] + bets, now, vendedorId) ==
      TodayCount(bets, now, vendedorId) + (if SellerMatches(newBet, vendedorId) then 1 else 0)
  {
    var s := [newBet] + bets;
    assert s[1..] == bets;
    if Truthy(vendedorId) {
      assert TodayBets(s, now)[1..] == TodayBets(bets, now);
    }
  }

  /** Prepending an active bet dated today adds its amount to today's total
      when the seller filter admits it. */
  lemma AddedBetTodayTotal(bets: seq<Bet>, newBet: Bet, now: Instant, vendedorId: Option<string>)
    requires DayOf(newBet.data_hora) == DayOf(now) && newBet.status == Ativa
    ensures TodayTotal([newBet] + bets, now, vendedorId) ==
      TodayTotal(bets, now, vendedorId) + (if SellerMatches(newBet, vendedorId) then newBet.valor else 0.0)
  {
    var s := [newBet] + bets;
    assert s[1..] == bets;
    var active := Filter(TodayBets(s, now), IsActive);
    assert TodayBets(s, now)[1..] == TodayBets(bets, now);
    assert active[1..] == Filter(TodayBets(bets, now), IsActive);
    if Truthy(vendedorId) && SellerMatches(newBet, vendedorId) {
      assert Filter(active, SoldBy(vendedorId.value))[1..] == Filter(active[1..], SoldBy(vendedorId.value));
    }
  }

  // ---------------------------------------------------------------------
  // The ledger

  /** `Omit<Bet, 'id' | 'codigo' | 'data_hora' | 'status'>`: what the caller
      of `addBet` supplies. */
  datatype BetData = BetData(
    vendedor_id: string,
    vendedor_nome: Option<string>,
    tipo_jogo: GameType,
    numero: string,
    valor: real)

  /** The three mock bets the ledger starts with, stamped with the time the
      module was loaded. */
  function InitialBets(loadedAt: Instant): (r: seq<Bet>)
    ensures |r| == 3
    ensures forall i :: 0 <= i < |r| ==>
      r[i].data_hora == loadedAt && r[i].status == Ativa && IsCode(r[i].codigo)
    ensures forall i, j :: 0 <= i < j < |r| ==> r[i].id != r[j].id
  {
    var r := [ Bet("1", "2", Some("João Vendedor"), Milhar, "1234", 10.0, loadedAt, Ativa, "ABC12345"),
               Bet("2", "2", Some("João Vendedor"), Centena, "567", 5.0, loadedAt, Ativa, "DEF67890"),
               Bet("3", "3", Some("Maria Vendedora"), Dezena, "89", 2.0, loadedAt, Ativa, "GHI11223") ];
    assert r[1..][1..][1..] == [];
    r
  }

  /** On the day they are loaded, the mock bets make up a count of 3 and a
      total of 17 over all sellers. */
  lemma InitialFigures(loadedAt: Instant)
    ensures TodayCount(InitialBets(loadedAt), loadedAt, None) == 3
    ensures TodayTotal(InitialBets(loadedAt), loadedAt, None) == 17.0
  {
    var r := InitialBets(loadedAt);
    var joao, maria := r[..2], r[2..];
    assert r == joao + maria;
    FilterKeepsAll(r, TodayPredicate(loadedAt, None));
    FilterKeepsAll(r, TodayActivePredicate(loadedAt, None));
    assert Total(r) == 17.0 by {
      TotalAppend(joao, maria);
      assert joao[1..][1..] == [] && maria[1..] == [];
    }
  }

  /** On the day they are loaded, seller "2"'s mock bets make up a count of
      2 and a total of 15. */
  lemma InitialSellerFigures(loadedAt: Instant)
    ensures TodayCount(InitialBets(loadedAt), loadedAt, Some("2")) == 2
    ensures TodayTotal(InitialBets(loadedAt), loadedAt, Some("2")) == 15.0
  {
    var r := InitialBets(loadedAt);
    var joao, maria := r[..2], r[2..];
    assert r == joao + maria;
    forall p | p == TodayPredicate(loadedAt, Some("2")) || p == TodayActivePredicate(loadedAt, Some("2"))
      ensures Filter(r, p) == joao
    {
      FilterAppend(joao, maria, p);
      FilterKeepsAll(joao, p);
      assert maria[1..] == [];
    }
    assert Total(joao) == 15.0 by {
      assert joao[0].valor == 10.0 && joao[1..][0].valor == 5.0 && joao[1..][1..] == [];
      assert Total(joao[1..]) == 5.0 + Total(joao[1..][1..]);
    }
  }

  class Ledger {
    /** Most recent first. */
    var bets: seq<Bet>

    constructor (loadedAt: Instant)
      ensures bets == InitialBets(loadedAt)
    {
      bets := InitialBets(loadedAt);
    }

    /** `addBet`: stamp the caller's data with a fresh id, code, time and the
        status `ativa`, put it at the head of the ledger and return it. No
        check is made on the number or the amount. */
    method AddBet(data: BetData, id: string, now: Instant, draws: seq<nat>) returns (newBet: Bet)
      requires ValidDraws(draws)
      modifies this
      ensures newBet.id == id && newBet.data_hora == now && newBet.status == Ativa
      ensures newBet.vendedor_id == data.vendedor_id && newBet.vendedor_nome == data.vendedor_nome
      ensures newBet.tipo_jogo == data.tipo_jogo && newBet.numero == data.numero && newBet.valor == data.valor
      ensures IsCode(newBet.codigo)
      ensures bets == [newBet] + old(bets)
    {
      var code := GenerateCode(draws);
      newBet := Bet(id, data.vendedor_id, data.vendedor_nome, data.tipo_jogo, data.numero, data.valor,
                    now, Ativa, code);
      bets := [newBet] + bets;
    }

    /** `cancelBet`: every bet with the id becomes `cancelada`, whatever its
        status was; nothing else changes. */
    method CancelBet(id: string)
      modifies this
      ensures bets == Cancelled(old(bets), id)
    {
      bets := Cancelled(bets, id);
    }
  }
}
