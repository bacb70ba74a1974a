/** The records of src/types/index.ts and the sum of bet amounts that every
    report is built on.

    Amounts (`valor`, `comissao`, limits) are exact reals rather than
    JavaScript floating-point numbers. A timestamp (`data_hora`,
    `created_at`) is an `Instant`: milliseconds in local time; two instants
    are on the same calendar day (`toDateString()` agrees) when `DayOf`
    agrees. */
module Domain {
  import opened Seqs

  datatype Option<T> = None | Some(value: T)

  datatype UserRole = Admin | Vendedor

  datatype GameType = Milhar | Centena | Dezena

  datatype BetStatus = Ativa | Cancelada | Paga

  datatype UserStatus = Ativo | Bloqueado

  /** Milliseconds since the epoch, in local time. */
  type Instant = int

  const MsPerDay: int := 86_400_000

  /** The local calendar day an instant falls on. */
  function DayOf(t: Instant): int {
    t / MsPerDay
  }

  datatype User = User(
    id: string,
    nome: string,
    usuario: string,
    perfil: UserRole,
    comissao: real,
    status: UserStatus,
    limite_apostas: Option<real>,
    created_at: Instant)

  datatype Bet = Bet(
    id: string,
    vendedor_id: string,
    vendedor_nome: Option<string>,
    tipo_jogo: GameType,
    numero: string,
    valor: real,
    data_hora: Instant,
    status: BetStatus,
    codigo: string)

  /** The string a GameType is spelled as. */
  function GameTypeName(t: GameType): string {
    match t
    case Milhar => "milhar"
    case Centena => "centena"
    case Dezena => "dezena"
  }

  /** `bets.reduce((sum, bet) => sum + bet.valor, 0)`. */
  function Total(bets: seq<Bet>): real {
    if bets == [] then 0.0 else bets[0].valor + Total(bets[1..])
  }

  predicate IsActive(b: Bet) {
    b.status == Ativa
  }

  predicate IsCancelled(b: Bet) {
    b.status == Cancelada
  }

  /** `x` is a whole number: what a number input's step of 1 admits. */
  predicate IsWhole(x: real) {
    x.Floor as real == x
  }

  /** The sum over a concatenation is the sum of the sums. */
  lemma {:induction false} TotalAppend(a: seq<Bet>, b: seq<Bet>)
    ensures Total(a + b) == Total(a) + Total(b)
  {
    if a != [] {
      assert (a + b)[1..] == a[1..] + b;
      TotalAppend(a[1..], b);
    } else {
      assert a + b == b;
    }
  }

  /** A predicate and its negation split the sum in two. */
  lemma {:induction false} TotalSplit(s: seq<Bet>, p: Bet -> bool, q: Bet -> bool)
    requires forall b :: q(b) == !p(b)
    ensures Total(Filter(s, p)) + Total(Filter(s, q)) == Total(s)
  {
    if s != [] {
      TotalSplit(s[1..], p, q);
      if p(s[0]) {
        assert Filter(s, p) == [s[0]] + Filter(s[1..], p);
        assert (Filter(s, p))[1..] == Filter(s[1..], p);
      } else {
        assert Filter(s, q) == [s[0]] + Filter(s[1..], q);
        assert (Filter(s, q))[1..] == Filter(s[1..], q);
      }
    }
  }

  /** With no negative amounts, a subsequence never sums to more. */
  lemma {:induction false} TotalOfSubsequence(a: seq<Bet>, b: seq<Bet>)
    requires IsSubsequence(a, b)
    requires forall x :: x in b ==> x.valor >= 0.0
    ensures 0.0 <= Total(a) <= Total(b)
    decreases |b|
  {
    if b == [] {
    } else if a != [] && a[0] == b[0] && IsSubsequence(a[1..], b[1..]) {
      TotalOfSubsequence(a[1..], b[1..]);
    } else {
      TotalOfSubsequence(a, b[1..]);
    }
  }
}
