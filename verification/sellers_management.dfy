/** The administrator's seller list of
    src/components/admin/SellersManagement.tsx: a search over name and user
    name, a create/edit dialog, blocking and unblocking, and removal.

    This list is the page's own state, seeded from its own mock data; it is
    not the roster the session logs in against. */
module SellersManagement {
  import opened Seqs
  import opened Text
  import opened Domain

  /** A row of the list. A row created or edited through the dialog also
      carries the password typed into it, because the form is spread onto
      the user record. */
  datatype SellerEntry = SellerEntry(user: User, senha: Option<string>)

  /** The dialog's form. */
  datatype SellerForm = SellerForm(
    nome: string,
    usuario: string,
    senha: string,
    comissao: real,
    limite_apostas: real)

  const DefaultForm: SellerForm := SellerForm("", "", "", 10.0, 5000.0)

  /** What one input of the dialog writes into the form. */
  datatype FieldEdit =
    | NomeTo(nome: string)
    | UsuarioTo(usuario: string)
    | SenhaTo(senha: string)
    | ComissaoTo(comissao: real)
    | LimiteTo(limite: real)

  /** `setFormData(prev => ({ ...prev, [field]: value }))`: the edited field
      takes the value and every other field keeps its own. */
  function EditForm(form: SellerForm, e: FieldEdit): (r: SellerForm)
    ensures r.nome == if e.NomeTo? then e.nome else form.nome
    ensures r.usuario == if e.UsuarioTo? then e.usuario else form.usuario
    ensures r.senha == if e.SenhaTo? then e.senha else form.senha
    ensures r.comissao == if e.ComissaoTo? then e.comissao else form.comissao
    ensures r.limite_apostas == if e.LimiteTo? then e.limite else form.limite_apostas
  {
    match e
    case NomeTo(v) => form.(nome := v)
    case UsuarioTo(v) => form.(usuario := v)
    case SenhaTo(v) => form.(senha := v)
    case ComissaoTo(v) => form.(comissao := v)
    case LimiteTo(v) => form.(limite_apostas := v)
  }

  /** The edit that writes back the value `e`'s field had in `form`. */
  function Restore(form: SellerForm, e: FieldEdit): FieldEdit {
    match e
    case NomeTo(_) => NomeTo(form.nome)
    case UsuarioTo(_) => UsuarioTo(form.usuario)
    case SenhaTo(_) => SenhaTo(form.senha)
    case ComissaoTo(_) => ComissaoTo(form.comissao)
    case LimiteTo(_) => LimiteTo(form.limite_apostas)
  }

  /** `e` and `f` write the same input. */
  predicate SameField(e: FieldEdit, f: FieldEdit) {
    || (e.NomeTo? && f.NomeTo?) || (e.UsuarioTo? && f.UsuarioTo?) || (e.SenhaTo? && f.SenhaTo?)
    || (e.ComissaoTo? && f.ComissaoTo?) || (e.LimiteTo? && f.LimiteTo?)
  }

  /** Typing a field's old value back undoes an edit; of two edits of the
      same input the later one wins; edits of different inputs can be made
      in either order. */
  lemma EditFormLaws(form: SellerForm, e: FieldEdit, f: FieldEdit)
    ensures EditForm(EditForm(form, e), Restore(form, e)) == form
    ensures SameField(e, f) ==> EditForm(EditForm(form, e), f) == EditForm(form, f)
    ensures !SameField(e, f) ==> EditForm(EditForm(form, e), f) == EditForm(EditForm(form, f), e)
  {
  }

  /** The browser's checks on the dialog's inputs before the submit handler
      runs: name and user name are `required`, the password is required
      only when creating, the commission lies in `[0, 100]` and the limit is
      not negative. Neither number input names a `step`, so both take the
      default step of 1 from their `min` of 0: only whole numbers pass. */
  predicate InputsAccept(form: SellerForm, editing: bool) {
    && form.nome != "" && form.usuario != ""
    && (editing || form.senha != "")
    && 0.0 <= form.comissao <= 100.0 && IsWhole(form.comissao)
    && 0.0 <= form.limite_apostas && IsWhole(form.limite_apostas)
  }

  /** The blank form is refused; filling in a name, a user name and (when
      creating) a password is all it takes to get it accepted. */
  lemma FilledFormAccepted(nome: string, usuario: string, senha: string, editing: bool)
    requires nome != "" && usuario != "" && (editing || senha != "")
    ensures !InputsAccept(DefaultForm, editing)
    ensures InputsAccept(EditForm(EditForm(EditForm(DefaultForm, NomeTo(nome)), UsuarioTo(usuario)), SenhaTo(senha)), editing)
  {
  }

  /** `mockSellers`, with their creation instants given: three sellers under
      distinct ids and user names, the third of them blocked, none carrying
      a password. */
  function MockSellers(joaoAt: Instant, mariaAt: Instant, pedroAt: Instant): (r: seq<SellerEntry>)
    ensures |r| == 3
    ensures forall i, j :: 0 <= i < j < |r| ==> r[i].user.id != r[j].user.id && r[i].user.usuario != r[j].user.usuario
    ensures forall i :: 0 <= i < |r| ==> r[i].user.perfil == Vendedor && r[i].senha.None?
    ensures r[0].user.status == Ativo && r[1].user.status == Ativo && r[2].user.status == Bloqueado
  {
    [ SellerEntry(User("2", "João Vendedor", "joao", Vendedor, 10.0, Ativo, Some(5000.0), joaoAt), None),
      SellerEntry(User("3", "Maria Vendedora", "maria", Vendedor, 12.0, Ativo, Some(8000.0), mariaAt), None),
      SellerEntry(User("4", "Pedro Santos", "pedro", Vendedor, 8.0, Bloqueado, Some(3000.0), pedroAt), None) ]
  }

  /** The search: the lower-cased term in the lower-cased name or user name. */
  predicate MatchesSellerSearch(s: SellerEntry, term: string) {
    Includes(Lower(s.user.nome), Lower(term)) || Includes(Lower(s.user.usuario), Lower(term))
  }

  function SellerSearch(term: string): SellerEntry -> bool {
    (s: SellerEntry) => MatchesSellerSearch(s, term)
  }

  /** `filteredSellers`. */
  function FilteredSellers(sellers: seq<SellerEntry>, term: string): (r: seq<SellerEntry>)
    ensures forall s :: s in r <==> s in sellers && MatchesSellerSearch(s, term)
    ensures IsSubsequence(r, sellers)
    ensures forall s {:trigger multiset(r)[s]} ::
      multiset(r)[s] == if MatchesSellerSearch(s, term) then multiset(sellers)[s] else 0
  {
    Filter(sellers, SellerSearch(term))
  }

  /** An empty search lists every seller. */
  lemma EmptySellerSearchKeepsAll(sellers: seq<SellerEntry>)
    ensures FilteredSellers(sellers, "") == sellers
  {
    forall s | s in sellers ensures SellerSearch("")(s) {
      EmptyIncluded(Lower(s.user.nome));
    }
    FilterKeepsAll(sellers, SellerSearch(""));
  }

  /** `{ ...s, ...formData }`: the form's fields replace the row's, and the
      id, profile, status and creation time stay. */
  function EditEntry(s: SellerEntry, form: SellerForm): (r: SellerEntry)
    ensures r.user.id == s.user.id && r.user.perfil == s.user.perfil
    ensures r.user.status == s.user.status && r.user.created_at == s.user.created_at
    ensures r.user.nome == form.nome && r.user.usuario == form.usuario
    ensures r.user.comissao == form.comissao && r.user.limite_apostas == Some(form.limite_apostas)
    ensures r.senha == Some(form.senha)
  {
    SellerEntry(
      s.user.(nome := form.nome, usuario := form.usuario, comissao := form.comissao,
              limite_apostas := Some(form.limite_apostas)),
      Some(form.senha))
  }

  function EditIfMatch(id: string, form: SellerForm): SellerEntry -> SellerEntry {
    (s: SellerEntry) => if s.user.id == id then EditEntry(s, form) else s
  }

  /** The edit branch of `handleSubmit`: every row with the edited id takes
      the form's fields; the others are untouched. */
  function Edited(sellers: seq<SellerEntry>, id: string, form: SellerForm): (r: seq<SellerEntry>)
    ensures |r| == |sellers|
    ensures forall i :: 0 <= i < |sellers| ==>
      r[i] == if sellers[i].user.id == id then EditEntry(sellers[i], form) else sellers[i]
    ensures forall i :: 0 <= i < |sellers| ==> r[i].user.id == sellers[i].user.id
  {
    MapSeq(sellers, EditIfMatch(id, form))
  }

  /** The create branch of `handleSubmit`: a new active seller built from
      the form. */
  function NewSeller(form: SellerForm, newId: string, now: Instant): (r: SellerEntry)
    ensures r.user.id == newId && r.user.perfil == Vendedor && r.user.status == Ativo
    ensures r.user.created_at == now
    ensures r == EditEntry(SellerEntry(User(newId, "", "", Vendedor, 0.0, Ativo, None, now), None), form)
  {
    SellerEntry(
      User(newId, form.nome, form.usuario, Vendedor, form.comissao, Ativo, Some(form.limite_apostas), now),
      Some(form.senha))
  }

  /** `limite_apostas || 5000`: an absent or zero limit shows as 5000. */
  function LimitShown(limit: Option<real>): (r: real)
    ensures limit.Some? && limit.value != 0.0 ==> r == limit.value
    ensures limit.None? || limit.value == 0.0 ==> r == 5000.0
  {
    if limit.Some? && limit.value != 0.0 then limit.value else 5000.0
  }

  /** The form `handleEdit` fills in: the seller's fields with an empty
      password. Saving it unchanged keeps every field of the row but two:
      the password becomes the empty string and an absent or zero limit
      becomes 5000. The browser lets it through, with the empty password,
      exactly when the seller's own name, user name, commission and shown
      limit pass the inputs' checks. */
  function FormFor(u: User): (r: SellerForm)
    ensures forall senha: Option<string> ::
              EditEntry(SellerEntry(u, senha), r) ==
              SellerEntry(u.(limite_apostas := Some(LimitShown(u.limite_apostas))), Some(""))
    ensures InputsAccept(r, true) <==>
      && u.nome != "" && u.usuario != "" && 0.0 <= u.comissao <= 100.0 && IsWhole(u.comissao)
      && 0.0 <= LimitShown(u.limite_apostas) && IsWhole(LimitShown(u.limite_apostas))
    ensures !InputsAccept(r, false)
  {
    SellerForm(u.nome, u.usuario, "", u.comissao, LimitShown(u.limite_apostas))
  }

  function FlipStatus(st: UserStatus): UserStatus {
    if st == Ativo then Bloqueado else Ativo
  }

  function ToggleIfMatch(id: string): SellerEntry -> SellerEntry {
    (s: SellerEntry) => if s.user.id == id then s.(user := s.user.(status := FlipStatus(s.user.status))) else s
  }

  /** `handleToggleStatus`: the rows with this id switch between active and
      blocked; nothing else changes. */
  function Toggled(sellers: seq<SellerEntry>, id: string): (r: seq<SellerEntry>)
    ensures |r| == |sellers|
    ensures forall i :: 0 <= i < |sellers| ==>
      r[i].(user := r[i].user.(status := sellers[i].user.status)) == sellers[i]
    ensures forall i :: 0 <= i < |sellers| ==>
      (r[i].user.status == sellers[i].user.status <==> sellers[i].user.id != id)
  {
    MapSeq(sellers, ToggleIfMatch(id))
  }

  /** Toggling twice restores the list. */
  lemma ToggleTwice(sellers: seq<SellerEntry>, id: string)
    ensures Toggled(Toggled(sellers, id), id) == sellers
  {
    MapInvolution(sellers, ToggleIfMatch(id));
  }

  function KeepUnless(id: string): SellerEntry -> bool {
    (s: SellerEntry) => s.user.id != id
  }

  /** `handleDelete`: every row with this id is removed, the rest kept in
      order. */
  function Deleted(sellers: seq<SellerEntry>, id: string): (r: seq<SellerEntry>)
    ensures forall s :: s in r <==> s in sellers && s.user.id != id
    ensures IsSubsequence(r, sellers)
    ensures forall s {:trigger multiset(r)[s]} ::
      multiset(r)[s] == if s.user.id != id then multiset(sellers)[s] else 0
  {
    Filter(sellers, KeepUnless(id))
  }

  /** Creating a seller under a fresh id and then deleting that id gives the
      list back. */
  lemma CreateThenDelete(sellers: seq<SellerEntry>, form: SellerForm, newId: string, now: Instant)
    requires forall s :: s in sellers ==> s.user.id != newId
    ensures Deleted(sellers + [NewSeller(form, newId, now)], newId) == sellers
  {
    FilterAppend(sellers, [NewSeller(form, newId, now)], KeepUnless(newId));
    FilterKeepsAll(sellers, KeepUnless(newId));
  }

  class SellersPage {
    var sellers: seq<SellerEntry>
    var searchTerm: string
    var dialogOpen: bool
    var editingSeller: Option<User>
    var formData: SellerForm

    /** The page as first rendered: the mock sellers, no search, the dialog
        closed on the blank form. */
    constructor (joaoAt: Instant, mariaAt: Instant, pedroAt: Instant)
      ensures sellers == MockSellers(joaoAt, mariaAt, pedroAt) && searchTerm == "" && !dialogOpen
      ensures editingSeller == None && formData == DefaultForm
    {
      sellers := MockSellers(joaoAt, mariaAt, pedroAt);
      searchTerm := "";
      dialogOpen := false;
      editingSeller := None;
      formData := DefaultForm;
    }

    /** The search input's `onChange`. */
    method SetSearchTerm(term: string)
      modifies this
      ensures searchTerm == term
      ensures sellers == old(sellers) && dialogOpen == old(dialogOpen)
      ensures editingSeller == old(editingSeller) && formData == old(formData)
    {
      searchTerm := term;
    }

    /** The dialog's `onOpenChange`: the "Novo Vendedor" trigger opens it
        and Escape or a click outside closes it, in both cases without
        touching the form or the seller being edited. */
    method SetDialogOpen(open: bool)
      modifies this
      ensures dialogOpen == open
      ensures sellers == old(sellers) && searchTerm == old(searchTerm)
      ensures editingSeller == old(editingSeller) && formData == old(formData)
    {
      dialogOpen := open;
    }

    /** One of the dialog's inputs. */
    method SetFormField(e: FieldEdit)
      modifies this
      ensures formData == EditForm(old(formData), e)
      ensures sellers == old(sellers) && searchTerm == old(searchTerm)
      ensures dialogOpen == old(dialogOpen) && editingSeller == old(editingSeller)
    {
      formData := EditForm(formData, e);
    }

    /** The "Cancelar" button: closes the dialog and forgets the seller
        being edited, but keeps what was typed into the form. */
    method Cancel()
      modifies this
      ensures !dialogOpen && editingSeller == None
      ensures formData == old(formData)
      ensures sellers == old(sellers) && searchTerm == old(searchTerm)
    {
      dialogOpen := false;
      editingSeller := None;
    }

    /** `handleSubmit`, reached only when the browser accepts the inputs:
        save the edit or append the new seller, then close the dialog and
        reset the form. A refused form changes nothing. The new seller's id
        and creation time are given. */
    method HandleSubmit(newId: string, now: Instant) returns (saved: bool)
      modifies this
      ensures saved <==> InputsAccept(old(formData), old(editingSeller).Some?)
      ensures !saved ==>
        sellers == old(sellers) && dialogOpen == old(dialogOpen)
        && editingSeller == old(editingSeller) && formData == old(formData)
      ensures saved && old(editingSeller).Some? ==>
        sellers == Edited(old(sellers), old(editingSeller).value.id, old(formData))
      ensures saved && old(editingSeller).None? ==>
        sellers == old(sellers) + [NewSeller(old(formData), newId, now)]
      ensures saved ==> !dialogOpen && editingSeller == None && formData == DefaultForm
      ensures searchTerm == old(searchTerm)
    {
      if !InputsAccept(formData, editingSeller.Some?) {
        return false;
      }
      match editingSeller {
        case Some(e) => sellers := Edited(sellers, e.id, formData);
        case None => sellers := sellers + [NewSeller(formData, newId, now)];
      }
      dialogOpen := false;
      editingSeller := None;
      formData := DefaultForm;
      saved := true;
    }

    /** `handleEdit`: open the dialog on this seller. */
    method HandleEdit(seller: User)
      modifies this
      ensures editingSeller == Some(seller) && formData == FormFor(seller) && dialogOpen
      ensures sellers == old(sellers) && searchTerm == old(searchTerm)
    {
      editingSeller := Some(seller);
      formData := FormFor(seller);
      dialogOpen := true;
    }

    /** `handleToggleStatus`. */
    method HandleToggleStatus(id: string)
      modifies this
      ensures sellers == Toggled(old(sellers), id)
      ensures dialogOpen == old(dialogOpen) && editingSeller == old(editingSeller)
      ensures formData == old(formData) && searchTerm == old(searchTerm)
    {
      sellers := Toggled(sellers, id);
    }

    /** `handleDelete`. */
    method HandleDelete(id: string)
      modifies this
      ensures sellers == Deleted(old(sellers), id)
      ensures dialogOpen == old(dialogOpen) && editingSeller == old(editingSeller)
      ensures formData == old(formData) && searchTerm == old(searchTerm)
    {
      sellers := Deleted(sellers, id);
    }
  }
}
