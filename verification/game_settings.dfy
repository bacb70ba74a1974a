/** The per-type limits and multipliers of
    src/components/admin/GameSettings.tsx: one setting per game type, edited
    one numeric field at a time. */
module GameSettings {
  import opened Domain
  import BetReceipt
  import GamesManagement

  datatype Setting = Setting(tipo_jogo: GameType, valor_minimo: real, valor_maximo: real, multiplicador: real)

  /** The numeric fields the page's inputs edit. */
  datatype SettingField = ValorMinimo | ValorMaximo | Multiplicador

  function Get(s: Setting, f: SettingField): real {
    match f
    case ValorMinimo => s.valor_minimo
    case ValorMaximo => s.valor_maximo
    case Multiplicador => s.multiplicador
  }

  /** `{ ...prev[type], [field]: value }`. */
  function WithField(s: Setting, f: SettingField, v: real): (r: Setting)
    ensures Get(r, f) == v
    ensures forall g :: g != f ==> Get(r, g) == Get(s, g)
    ensures r.tipo_jogo == s.tipo_jogo
  {
    match f
    case ValorMinimo => s.(valor_minimo := v)
    case ValorMaximo => s.(valor_maximo := v)
    case Multiplicador => s.(multiplicador := v)
  }

  /** Writing a field's old value back undoes a change. */
  lemma WithFieldUndo(s: Setting, f: SettingField, v: real)
    ensures WithField(WithField(s, f, v), f, Get(s, f)) == s
  {
  }

  /** `defaultSettings`. */
  const DefaultSettings: map<GameType, Setting> := map[
    Milhar := Setting(Milhar, 1.0, 100.0, 4000.0),
    Centena := Setting(Centena, 1.0, 200.0, 600.0),
    Dezena := Setting(Dezena, 0.5, 500.0, 60.0)
  ]

  /** A setting for every type, each filed under its own type. */
  predicate Complete(settings: map<GameType, Setting>) {
    forall t: GameType :: t in settings && settings[t].tipo_jogo == t
  }

  /** The defaults are complete, every range is non-empty, and the
      multipliers are the ones the receipt and the game catalogue use. */
  lemma DefaultsAgree()
    ensures Complete(DefaultSettings)
    ensures forall t: GameType :: 0.0 < DefaultSettings[t].valor_minimo <= DefaultSettings[t].valor_maximo
    ensures forall t: GameType ::
      DefaultSettings[t].multiplicador == BetReceipt.Multiplier(GameTypeName(t))
    ensures DefaultSettings[Milhar].multiplicador == GamesManagement.KindMultiplier(GamesManagement.Milhar)
    ensures DefaultSettings[Centena].multiplicador == GamesManagement.KindMultiplier(GamesManagement.Centena)
  {
    forall t: GameType
      ensures t in DefaultSettings && DefaultSettings[t].tipo_jogo == t
      ensures DefaultSettings[t].multiplicador == BetReceipt.Multiplier(GameTypeName(t))
    {
      BetReceipt.MultiplierOfKnownTypes(t);
    }
  }

  class SettingsPage {
    var settings: map<GameType, Setting>

    ghost predicate Valid()
      reads this
    {
      Complete(settings)
    }

    constructor ()
      ensures Valid() && settings == DefaultSettings
    {
      settings := DefaultSettings;
      DefaultsAgree();
    }

    /** `handleSettingChange`: one field of one type's setting takes the
        value; every other type's setting and the type's other fields are
        kept. */
    method HandleSettingChange(t: GameType, f: SettingField, v: real)
      requires Valid()
      modifies this
      ensures Valid()
      ensures settings[t] == WithField(old(settings)[t], f, v)
      ensures forall u :: u != t ==> settings[u] == old(settings)[u]
    {
      settings := settings[t := WithField(settings[t], f, v)];
    }

    /** `handleSave`: only a confirmation notice; the settings are not
        written anywhere and do not change. */
    method HandleSave()
      requires Valid()
      ensures Valid()
      ensures settings == old(settings)
    {
    }
  }
}
