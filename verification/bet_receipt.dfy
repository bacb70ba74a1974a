/** The figures printed on the receipt of src/components/seller/BetReceipt.tsx:
    which bets it lists, their total, the unit amount, the count of numbers
    and the potential prize at the headline bet's multiplier. */
module BetReceipt {
  import opened Domain

  /** `allBets && allBets.length > 0 ? allBets : [bet]`. */
  function ReceiptBets(bet: Bet, allBets: Option<seq<Bet>>): (r: seq<Bet>)
    ensures |r| >= 1
    ensures allBets.Some? && allBets.value != [] ==> r == allBets.value
    ensures !(allBets.Some? && allBets.value != []) ==> r == [bet]
  {
    if allBets.Some? && |allBets.value| > 0 then allBets.value else [bet]
  }

  /** `getMultiplier`: the payout factor by the spelling of the game type,
      1000 for any spelling it does not know. */
  function Multiplier(tipo: string): (m: real)
    ensures m > 0.0
    ensures tipo == "milhar" ==> m == 4000.0
    ensures tipo == "centena" ==> m == 600.0
    ensures tipo == "dezena" ==> m == 60.0
    ensures tipo != "milhar" && tipo != "centena" && tipo != "dezena" ==> m == 1000.0
  {
    if tipo == "milhar" then 4000.0
    else if tipo == "centena" then 600.0
    else if tipo == "dezena" then 60.0
    else 1000.0
  }

  /** The multiplier of a bet's own type; the fallback factor is never used
      for a game type the model knows. */
  lemma MultiplierOfKnownTypes(t: GameType)
    ensures Multiplier(GameTypeName(t)) != 1000.0
    ensures Multiplier(GameTypeName(t)) == (match t case Milhar => 4000.0 case Centena => 600.0 case Dezena => 60.0)
  {
  }

  datatype Receipt = Receipt(
    bets: seq<Bet>,
    totalValue: real,
    valorUnit: real,
    numbersCount: nat,
    potentialPrize: real)

  /** Every figure of the receipt. The prize is the total of all listed bets
      at the multiplier of the headline bet's type, whatever the others'
      types. */
  function ComputeReceipt(bet: Bet, allBets: Option<seq<Bet>>): (r: Receipt)
    ensures r.bets == ReceiptBets(bet, allBets)
    ensures r.totalValue == Total(r.bets)
    ensures r.valorUnit == r.bets[0].valor
    ensures r.numbersCount == |r.bets| && r.numbersCount >= 1
    ensures r.potentialPrize == r.totalValue * Multiplier(GameTypeName(bet.tipo_jogo))
  {
    var bets := ReceiptBets(bet, allBets);
    var totalValue := Total(bets);
    Receipt(bets, totalValue, bets[0].valor, |bets|, totalValue * Multiplier(GameTypeName(bet.tipo_jogo)))
  }

  /** The prize each bet would pay alone, at its own type's multiplier. */
  function OwnPrizes(bets: seq<Bet>): real {
    if bets == [] then 0.0
    else bets[0].valor * Multiplier(GameTypeName(bets[0].tipo_jogo)) + OwnPrizes(bets[1..])
  }

  /** When every listed bet has the headline bet's type, the receipt's prize
      is the sum of what each bet pays at its own multiplier. */
  lemma {:induction false} PrizeUsesHeadlineType(bets: seq<Bet>, t: GameType)
    requires forall b :: b in bets ==> b.tipo_jogo == t
    ensures Total(bets) * Multiplier(GameTypeName(t)) == OwnPrizes(bets)
  {
    if bets != [] {
      PrizeUsesHeadlineType(bets[1..], t);
      var m := Multiplier(GameTypeName(t));
      assert (bets[0].valor + Total(bets[1..])) * m == bets[0].valor * m + Total(bets[1..]) * m;
    }
  }

  /** A receipt for a single bet lists that bet alone: one number, its amount
      as both the unit and the total. */
  lemma SingleBetReceipt(bet: Bet)
    ensures var r := ComputeReceipt(bet, None);
      && r.bets == [bet] && r.numbersCount == 1
      && r.valorUnit == bet.valor && r.totalValue == bet.valor
      && r.potentialPrize == OwnPrizes([bet])
  {
    var r := ComputeReceipt(bet, None);
    PrizeUsesHeadlineType([bet], bet.tipo_jogo);
  }
}
