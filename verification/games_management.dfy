/** The administrator's game catalogue of
    src/components/admin/GamesManagement.tsx: a list of games with a
    create/edit dialog, activation switch and removal.

    This catalogue has only the thousand and hundred kinds; it is separate
    from the three game types of the bets. */
module GamesManagement {
  import opened Seqs
  import opened Text
  import D = Domain

  datatype GameKind = Milhar | Centena

  datatype Game = Game(
    id: string,
    nome: string,
    tipo: GameKind,
    valor_minimo: real,
    valor_maximo: real,
    multiplicador: real,
    horario_abertura: string,
    horario_fechamento: string,
    ativo: bool)

  /** The dialog's form: every field of a game but its id. */
  datatype GameForm = GameForm(
    nome: string,
    tipo: GameKind,
    valor_minimo: real,
    valor_maximo: real,
    multiplicador: real,
    horario_abertura: string,
    horario_fechamento: string,
    ativo: bool)

  /** The form as `resetForm` leaves it. */
  const DefaultForm: GameForm := GameForm("", Milhar, 1.0, 100.0, 4000.0, "08:00", "22:00", true)

  /** `initialGames`. */
  const InitialGames: seq<Game> := [
    Game("1", "Milhar Principal", Milhar, 1.0, 100.0, 4000.0, "08:00", "22:00", true),
    Game("2", "Centena Rápida", Centena, 1.0, 200.0, 600.0, "09:00", "21:00", true)
  ]

  /** The multiplier `handleTipoChange` puts into the form. */
  function KindMultiplier(k: GameKind): (m: real)
    ensures k == Milhar ==> m == 4000.0
    ensures k == Centena ==> m == 600.0
  {
    if k == Milhar then 4000.0 else 600.0
  }

  /** What one input of the dialog (other than the kind) writes into the
      form. */
  datatype FieldEdit =
    | NomeTo(nome: string)
    | ValorMinimoTo(valor_minimo: real)
    | ValorMaximoTo(valor_maximo: real)
    | MultiplicadorTo(multiplicador: real)
    | AberturaTo(abertura: string)
    | FechamentoTo(fechamento: string)
    | AtivoTo(ativo: bool)

  /** `setFormData(prev => ({ ...prev, [field]: value }))`: the edited field
      takes the value and every other field keeps its own. */
  function EditForm(form: GameForm, e: FieldEdit): (r: GameForm)
    ensures r.tipo == form.tipo
    ensures r.nome == if e.NomeTo? then e.nome else form.nome
    ensures r.valor_minimo == if e.ValorMinimoTo? then e.valor_minimo else form.valor_minimo
    ensures r.valor_maximo == if e.ValorMaximoTo? then e.valor_maximo else form.valor_maximo
    ensures r.multiplicador == if e.MultiplicadorTo? then e.multiplicador else form.multiplicador
    ensures r.horario_abertura == if e.AberturaTo? then e.abertura else form.horario_abertura
    ensures r.horario_fechamento == if e.FechamentoTo? then e.fechamento else form.horario_fechamento
    ensures r.ativo == if e.AtivoTo? then e.ativo else form.ativo
  {
    match e
    case NomeTo(v) => form.(nome := v)
    case ValorMinimoTo(v) => form.(valor_minimo := v)
    case ValorMaximoTo(v) => form.(valor_maximo := v)
    case MultiplicadorTo(v) => form.(multiplicador := v)
    case AberturaTo(v) => form.(horario_abertura := v)
    case FechamentoTo(v) => form.(horario_fechamento := v)
    case AtivoTo(v) => form.(ativo := v)
  }

  /** The edit that writes back the value `e`'s field had in `form`. */
  function Restore(form: GameForm, e: FieldEdit): FieldEdit {
    match e
    case NomeTo(_) => NomeTo(form.nome)
    case ValorMinimoTo(_) => ValorMinimoTo(form.valor_minimo)
    case ValorMaximoTo(_) => ValorMaximoTo(form.valor_maximo)
    case MultiplicadorTo(_) => MultiplicadorTo(form.multiplicador)
    case AberturaTo(_) => AberturaTo(form.horario_abertura)
    case FechamentoTo(_) => FechamentoTo(form.horario_fechamento)
    case AtivoTo(_) => AtivoTo(form.ativo)
  }

  /** `e` and `f` write the same input. */
  predicate SameField(e: FieldEdit, f: FieldEdit) {
    || (e.NomeTo? && f.NomeTo?) || (e.ValorMinimoTo? && f.ValorMinimoTo?)
    || (e.ValorMaximoTo? && f.ValorMaximoTo?) || (e.MultiplicadorTo? && f.MultiplicadorTo?)
    || (e.AberturaTo? && f.AberturaTo?) || (e.FechamentoTo? && f.FechamentoTo?)
    || (e.AtivoTo? && f.AtivoTo?)
  }

  /** Typing a field's old value back undoes an edit; of two edits of the
      same input the later one wins; edits of different inputs can be made
      in either order. */
  lemma EditFormLaws(form: GameForm, e: FieldEdit, f: FieldEdit)
    ensures EditForm(EditForm(form, e), Restore(form, e)) == form
    ensures SameField(e, f) ==> EditForm(EditForm(form, e), f) == EditForm(form, f)
    ensures !SameField(e, f) ==> EditForm(EditForm(form, e), f) == EditForm(EditForm(form, f), e)
  {
  }

  /** The browser's checks on the number inputs before the submit handler
      runs: the `min` of the minimum amount, the maximum amount and the
      multiplier, and their steps counted from that `min`: 0.5 for the
      minimum amount, the default of 1 for the other two. */
  predicate InputsAccept(form: GameForm) {
    && form.valor_minimo >= 0.5 && D.IsWhole(2.0 * form.valor_minimo)
    && form.valor_maximo >= 1.0 && D.IsWhole(form.valor_maximo)
    && form.multiplicador >= 1.0 && D.IsWhole(form.multiplicador)
  }

  /** `setFormData(game)`: the form showing a game. */
  function FormOf(g: Game): GameForm {
    GameForm(g.nome, g.tipo, g.valor_minimo, g.valor_maximo, g.multiplicador,
             g.horario_abertura, g.horario_fechamento, g.ativo)
  }

  /** The shipped games have distinct ids, non-blank names, non-empty amount
      ranges and the multiplier of their kind, and their forms pass the
      browser's checks; so does the blank form, which carries the
      multiplier of its kind and needs only a name to be saved. */
  lemma ShippedGames(nome: string)
    ensures forall i, j :: 0 <= i < j < |InitialGames| ==> InitialGames[i].id != InitialGames[j].id
    ensures forall g :: g in InitialGames ==>
      && g.multiplicador == KindMultiplier(g.tipo) && g.valor_minimo <= g.valor_maximo
      && !IsBlank(g.nome) && InputsAccept(FormOf(g))
    ensures DefaultForm.multiplicador == KindMultiplier(DefaultForm.tipo)
    ensures InputsAccept(DefaultForm) && IsBlank(DefaultForm.nome)
    ensures !IsBlank(nome) ==> InputsAccept(EditForm(DefaultForm, NomeTo(nome))) && !IsBlank(EditForm(DefaultForm, NomeTo(nome)).nome)
  {
    assert !IsSpace(InitialGames[0].nome[0]) && !IsSpace(InitialGames[1].nome[0]);
  }

  /** A game built from a form under an id; `{ ...g, ...formData }` keeps
      `g`'s id and takes every other field from the form, and the create
      branch builds the same record under a new id. */
  function WithForm(id: string, form: GameForm): (g: Game)
    ensures g.id == id && FormOf(g) == form
  {
    Game(id, form.nome, form.tipo, form.valor_minimo, form.valor_maximo, form.multiplicador,
         form.horario_abertura, form.horario_fechamento, form.ativo)
  }

  /** A game is the form of it under its own id. */
  lemma FormRoundTrip(g: Game)
    ensures WithForm(g.id, FormOf(g)) == g
  {
  }

  function MergeIfMatch(id: string, form: GameForm): Game -> Game {
    (g: Game) => if g.id == id then WithForm(g.id, form) else g
  }

  /** The edit branch of `handleSubmit`. */
  function Edited(games: seq<Game>, id: string, form: GameForm): (r: seq<Game>)
    ensures |r| == |games|
    ensures forall i :: 0 <= i < |games| ==> r[i].id == games[i].id
    ensures forall i :: 0 <= i < |games| ==>
      if games[i].id == id then FormOf(r[i]) == form else r[i] == games[i]
  {
    MapSeq(games, MergeIfMatch(id, form))
  }

  /** Opening the dialog on a game of the list and saving the form unchanged
      leaves the list as it was, provided no other game shares its id. */
  lemma UnchangedEditIsIdentity(games: seq<Game>, g: Game)
    requires g in games
    requires forall h :: h in games && h.id == g.id ==> h == g
    ensures Edited(games, g.id, FormOf(g)) == games
  {
    var r := Edited(games, g.id, FormOf(g));
    forall i | 0 <= i < |games|
      ensures r[i] == games[i]
    {
      if games[i].id == g.id {
        assert games[i] in games;
        FormRoundTrip(g);
      }
    }
  }

  function ToggleIfMatch(id: string): Game -> Game {
    (g: Game) => if g.id == id then g.(ativo := !g.ativo) else g
  }

  /** `handleToggleActive`: the games with this id flip their switch;
      nothing else changes. */
  function Toggled(games: seq<Game>, id: string): (r: seq<Game>)
    ensures |r| == |games|
    ensures forall i :: 0 <= i < |games| ==> r[i].(ativo := games[i].ativo) == games[i]
    ensures forall i :: 0 <= i < |games| ==> (r[i].ativo != games[i].ativo <==> games[i].id == id)
  {
    MapSeq(games, ToggleIfMatch(id))
  }

  /** Switching twice restores the list. */
  lemma ToggleTwice(games: seq<Game>, id: string)
    ensures Toggled(Toggled(games, id), id) == games
  {
    MapInvolution(games, ToggleIfMatch(id));
  }

  function KeepUnless(id: string): Game -> bool {
    (g: Game) => g.id != id
  }

  /** `handleDelete`. */
  function Deleted(games: seq<Game>, id: string): (r: seq<Game>)
    ensures forall g :: g in r <==> g in games && g.id != id
    ensures IsSubsequence(r, games)
    ensures forall g {:trigger multiset(r)[g]} ::
      multiset(r)[g] == if g.id != id then multiset(games)[g] else 0
  {
    Filter(games, KeepUnless(id))
  }

  /** Creating a game under a fresh id and deleting that id gives the list
      back. */
  lemma CreateThenDelete(games: seq<Game>, form: GameForm, newId: string)
    requires forall g :: g in games ==> g.id != newId
    ensures Deleted(games + [WithForm(newId, form)], newId) == games
  {
    FilterAppend(games, [WithForm(newId, form)], KeepUnless(newId));
    FilterKeepsAll(games, KeepUnless(newId));
  }

  /** `handleTipoChange`: the kind and its multiplier; the rest of the form
      is kept. */
  function TipoChanged(form: GameForm, tipo: GameKind): (r: GameForm)
    ensures r.tipo == tipo && r.multiplicador == KindMultiplier(tipo)
    ensures r.(tipo := form.tipo, multiplicador := form.multiplicador) == form
  {
    form.(tipo := tipo, multiplicador := KindMultiplier(tipo))
  }

  class GamesPage {
    var games: seq<Game>
    var isDialogOpen: bool
    var editingGame: D.Option<Game>
    var formData: GameForm

    constructor ()
      ensures games == InitialGames && !isDialogOpen
      ensures editingGame == D.None && formData == DefaultForm
    {
      games := InitialGames;
      isDialogOpen := false;
      editingGame := D.None;
      formData := DefaultForm;
    }

    /** `resetForm`. */
    method ResetForm()
      modifies this
      ensures formData == DefaultForm && editingGame == D.None
      ensures games == old(games) && isDialogOpen == old(isDialogOpen)
    {
      formData := DefaultForm;
      editingGame := D.None;
    }

    /** `handleOpenDialog`: on a game, edit it; without one, a blank form. */
    method HandleOpenDialog(game: D.Option<Game>)
      modifies this
      ensures isDialogOpen && games == old(games)
      ensures game.Some? ==> editingGame == game && formData == FormOf(game.value)
      ensures game.None? ==> editingGame == D.None && formData == DefaultForm
    {
      match game {
        case Some(g) =>
          editingGame := game;
          formData := FormOf(g);
        case None =>
          ResetForm();
      }
      isDialogOpen := true;
    }

    /** The dialog's `onOpenChange`: Escape or a click outside closes it
        without resetting the form. */
    method SetDialogOpen(open: bool)
      modifies this
      ensures isDialogOpen == open
      ensures games == old(games) && editingGame == old(editingGame) && formData == old(formData)
    {
      isDialogOpen := open;
    }

    /** One of the dialog's inputs other than the kind. */
    method SetFormField(e: FieldEdit)
      modifies this
      ensures formData == EditForm(old(formData), e)
      ensures games == old(games) && editingGame == old(editingGame)
      ensures isDialogOpen == old(isDialogOpen)
    {
      formData := EditForm(formData, e);
    }

    /** `handleCloseDialog`. */
    method HandleCloseDialog()
      modifies this
      ensures !isDialogOpen && formData == DefaultForm && editingGame == D.None
      ensures games == old(games)
    {
      isDialogOpen := false;
      ResetForm();
    }

    /** `handleSubmit`, reached only when the browser accepts the number
        inputs: a blank name is refused and changes nothing; otherwise the
        edit is saved or the new game appended under the given id, and the
        dialog closes with the form reset. */
    method HandleSubmit(newId: string) returns (saved: bool)
      modifies this
      ensures saved <==> InputsAccept(old(formData)) && !IsBlank(old(formData).nome)
      ensures !saved ==>
        games == old(games) && formData == old(formData)
        && editingGame == old(editingGame) && isDialogOpen == old(isDialogOpen)
      ensures saved && old(editingGame).Some? ==>
        games == Edited(old(games), old(editingGame).value.id, old(formData))
      ensures saved && old(editingGame).None? ==>
        games == old(games) + [WithForm(newId, old(formData))]
      ensures saved ==> !isDialogOpen && formData == DefaultForm && editingGame == D.None
    {
      if !InputsAccept(formData) || IsBlank(formData.nome) {
        return false;
      }
      match editingGame {
        case Some(e) => games := Edited(games, e.id, formData);
        case None => games := games + [WithForm(newId, formData)];
      }
      HandleCloseDialog();
      saved := true;
    }

    /** `handleToggleActive`. */
    method HandleToggleActive(id: string)
      modifies this
      ensures games == Toggled(old(games), id)
      ensures formData == old(formData) && editingGame == old(editingGame)
      ensures isDialogOpen == old(isDialogOpen)
    {
      games := Toggled(games, id);
    }

    /** `handleDelete`. */
    method HandleDelete(id: string)
      modifies this
      ensures games == Deleted(old(games), id)
      ensures formData == old(formData) && editingGame == old(editingGame)
      ensures isDialogOpen == old(isDialogOpen)
    {
      games := Deleted(games, id);
    }

    /** `handleTipoChange`. */
    method HandleTipoChange(tipo: GameKind)
      modifies this
      ensures formData == TipoChanged(old(formData), tipo)
      ensures games == old(games) && editingGame == old(editingGame)
      ensures isDialogOpen == old(isDialogOpen)
    {
      formData := TipoChanged(formData, tipo);
    }
  }
}
