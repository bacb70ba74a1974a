/** The bet-entry form of src/components/seller/NewBetForm.tsx: a digit
    buffer bounded by the selected game type's digit count, an amount, and
    the submission that hands a complete bet to the ledger.

    The amount field holds text in the source and is read through
    `parseFloat`; here it holds the number that text parses to, or `None`
    when it is empty or does not parse. */
module NewBetForm {
  import opened Seqs
  import opened Text
  import opened Domain
  import opened BetsContext

  /** The `gameTypes` table: how many digits a number of each type has. */
  function Digits(t: GameType): (n: nat)
    ensures 2 <= n <= 4
  {
    match t
    case Milhar => 4
    case Centena => 3
    case Dezena => 2
  }

  /** `isNumberValid`: `numero.length === digits && /^\d+$/.test(numero)`.
      A valid number is exactly one of the type's full length that the
      number-input sanitiser leaves as it is. */
  predicate IsNumberValid(numero: string, t: GameType)
    ensures IsNumberValid(numero, t) <==> |numero| == Digits(t) && Sanitise(numero, t) == numero
  {
    if AllDigits(numero) then
      KeepDigitsOfDigits(numero);
      |numero| == Digits(t) && |numero| > 0 && AllDigits(numero)
    else
      |numero| == Digits(t) && |numero| > 0 && AllDigits(numero)
  }

  /** The quick-amount buttons. */
  const QuickValues: seq<real> := [1.0, 2.0, 5.0, 10.0, 20.0, 50.0]

  /** `isValueValid`: `parseFloat(valor) > 0`. Text that does not parse
      (`NaN`) compares false, so an absent amount is never valid. */
  predicate IsValueValid(valor: Option<real>)
    ensures valor.None? ==> !IsValueValid(valor)
    ensures valor.Some? ==> (IsValueValid(valor) <==> valor.value > 0.0)
  {
    valor.Some? && valor.value > 0.0
  }

  /** Every quick-amount button sets a valid amount. */
  lemma QuickValuesAreValid()
    ensures forall v :: v in QuickValues ==> IsValueValid(Some(v))
  {
  }

  /** `canSubmit`: the form may be submitted exactly when the bet it would
      place, with this number, type and amount, is well formed. */
  predicate CanSubmit(numero: string, valor: Option<real>, t: GameType)
    ensures CanSubmit(numero, valor, t) ==> valor.Some?
    ensures forall b: Bet | b.numero == numero && b.tipo_jogo == t && Some(b.valor) == valor ::
      CanSubmit(numero, valor, t) <==> WellFormedBet(b)
  {
    IsNumberValid(numero, t) && IsValueValid(valor)
  }

  /** The invariant every bet is meant to satisfy: a number of exactly the
      type's digit count, all decimal digits, and a positive amount. */
  predicate WellFormedBet(b: Bet) {
    |b.numero| == Digits(b.tipo_jogo) && AllDigits(b.numero) && b.valor > 0.0
  }

  /** The number-input sanitiser:
      `value.replace(/\D/g, '').slice(0, digits)`. */
  function Sanitise(input: string, t: GameType): (r: string)
    ensures AllDigits(r) && |r| <= Digits(t)
    ensures IsPrefix(r, KeepDigits(input))
    ensures |r| == if |KeepDigits(input)| < Digits(t) then |KeepDigits(input)| else Digits(t)
  {
    Take(KeepDigits(input), Digits(t))
  }

  /** Sanitising an already sanitised number changes nothing. */
  lemma SanitiseIdempotent(input: string, t: GameType)
    ensures Sanitise(Sanitise(input, t), t) == Sanitise(input, t)
  {
    var once := Sanitise(input, t);
    KeepDigitsOfDigits(once);
  }

  /** A valid number survives the sanitiser unchanged, and a sanitised
      number is valid exactly when the input held enough digits. */
  lemma SanitiseValid(input: string, t: GameType)
    ensures IsNumberValid(input, t) ==> Sanitise(input, t) == input
    ensures IsNumberValid(Sanitise(input, t), t) <==> |KeepDigits(input)| >= Digits(t)
  {
    if AllDigits(input) {
      KeepDigitsOfDigits(input);
    }
  }

  class BetForm {
    var selectedGame: GameType
    var numero: string
    var valor: Option<real>
    var showReceipt: bool
    var lastBet: Option<Bet>

    /** The digit buffer holds digits only and never outgrows the type. */
    ghost predicate Valid()
      reads this
    {
      |numero| <= Digits(selectedGame) && AllDigits(numero)
    }

    constructor ()
      ensures Valid()
      ensures selectedGame == Milhar && numero == "" && valor == None
      ensures !showReceipt && lastBet == None
    {
      selectedGame := Milhar;
      numero := "";
      valor := None;
      showReceipt := false;
      lastBet := None;
    }

    /** `handleNumberInput`: a key of the number pad appends its digit while
        the number is shorter than the type's digit count. */
    method HandleNumberInput(digit: char)
      requires Valid() && IsDigit(digit)
      modifies this
      ensures Valid()
      ensures numero == if |old(numero)| < Digits(selectedGame) then old(numero) + [digit] else old(numero)
      ensures selectedGame == old(selectedGame) && valor == old(valor)
      ensures showReceipt == old(showReceipt) && lastBet == old(lastBet)
    {
      if |numero| < Digits(selectedGame) {
        numero := numero + [digit];
      }
    }

    /** `handleDeleteDigit`: `numero.slice(0, -1)`. */
    method HandleDeleteDigit()
      requires Valid()
      modifies this
      ensures Valid()
      ensures numero == if old(numero) == [] then [] else old(numero)[..|old(numero)| - 1]
      ensures selectedGame == old(selectedGame) && valor == old(valor)
      ensures showReceipt == old(showReceipt) && lastBet == old(lastBet)
    {
      if numero != [] {
        numero := numero[..|numero| - 1];
      }
    }

    /** `handleClear`: empty both the number and the amount. */
    method HandleClear()
      requires Valid()
      modifies this
      ensures Valid()
      ensures numero == "" && valor == None
      ensures selectedGame == old(selectedGame)
      ensures showReceipt == old(showReceipt) && lastBet == old(lastBet)
    {
      numero := "";
      valor := None;
    }

    /** `handleQuickValue`: one of the quick-amount buttons. */
    method HandleQuickValue(v: real)
      requires Valid()
      modifies this
      ensures Valid()
      ensures valor == Some(v)
      ensures numero == old(numero) && selectedGame == old(selectedGame)
      ensures showReceipt == old(showReceipt) && lastBet == old(lastBet)
    {
      valor := Some(v);
    }

    /** The amount field's `onChange`, given what the new text parses to. */
    method SetValor(parsed: Option<real>)
      requires Valid()
      modifies this
      ensures Valid()
      ensures valor == parsed
      ensures numero == old(numero) && selectedGame == old(selectedGame)
      ensures showReceipt == old(showReceipt) && lastBet == old(lastBet)
    {
      valor := parsed;
    }

    /** Choosing a game type empties the number. */
    method SelectGame(t: GameType)
      requires Valid()
      modifies this
      ensures Valid()
      ensures selectedGame == t && numero == ""
      ensures valor == old(valor)
      ensures showReceipt == old(showReceipt) && lastBet == old(lastBet)
    {
      selectedGame := t;
      numero := "";
    }

    /** The hidden number input's `onChange`, through the sanitiser. */
    method TypeNumber(input: string)
      requires Valid()
      modifies this
      ensures Valid()
      ensures numero == Sanitise(input, selectedGame)
      ensures selectedGame == old(selectedGame) && valor == old(valor)
      ensures showReceipt == old(showReceipt) && lastBet == old(lastBet)
    {
      numero := Sanitise(input, selectedGame);
    }

    /** `handleSubmit`: with a complete number, a positive amount and a
        logged-in user, place the bet through the ledger, show its receipt
        and empty the form; otherwise do nothing. */
    method HandleSubmit(user: Option<User>, ledger: Ledger, id: string, now: Instant, draws: seq<nat>)
      returns (placed: Option<Bet>)
      requires Valid() && ValidDraws(draws)
      modifies this, ledger
      ensures Valid()
      ensures selectedGame == old(selectedGame)
      ensures placed.Some? <==> old(CanSubmit(numero, valor, selectedGame)) && user.Some?
      ensures placed.None? ==>
        ledger.bets == old(ledger.bets) && numero == old(numero) && valor == old(valor)
        && showReceipt == old(showReceipt) && lastBet == old(lastBet)
      ensures placed.Some? ==>
        var b := placed.value;
        && ledger.bets == [b] + old(ledger.bets)
        && b.vendedor_id == user.value.id && b.vendedor_nome == Some(user.value.nome)
        && b.tipo_jogo == old(selectedGame) && b.numero == old(numero) && b.valor == old(valor).value
        && b.id == id && b.data_hora == now && b.status == Ativa && IsCode(b.codigo)
        && WellFormedBet(b)
        && numero == "" && valor == None && showReceipt && lastBet == placed
    {
      if !CanSubmit(numero, valor, selectedGame) || user.None? {
        return None;
      }
      var data := BetData(user.value.id, Some(user.value.nome), selectedGame, numero, valor.value);
      var b := ledger.AddBet(data, id, now, draws);
      placed := Some(b);
      lastBet := placed;
      showReceipt := true;
      numero := "";
      valor := None;
    }

    /** The receipt's close button. */
    method CloseReceipt()
      requires Valid()
      modifies this
      ensures Valid()
      ensures !showReceipt
      ensures numero == old(numero) && valor == old(valor) && selectedGame == old(selectedGame)
      ensures lastBet == old(lastBet)
    {
      showReceipt := false;
    }
  }
}
