/** The user's colour overrides (app/models/ThemeStore.ts): four optional
    colours, each unset until the user picks one. */
module Theme {
  import opened Options

  datatype Override = CardBg | PrimaryText | DimText | Accent

  class ThemeStore {
    var cardBgColor: Option<string>
    var primaryTextColor: Option<string>
    var dimTextColor: Option<string>
    var accentColor: Option<string>

    /** The override that `setProp(name, ...)` addresses. */
    function Get(o: Override): Option<string>
      reads this
    {
      match o
      case CardBg => cardBgColor
      case PrimaryText => primaryTextColor
      case DimText => dimTextColor
      case Accent => accentColor
    }

    /** No colour is overridden. */
    predicate IsDefault()
      reads this
    {
      forall o: Override :: Get(o).None?
    }

    constructor ()
      ensures IsDefault()
    {
      cardBgColor := None;
      primaryTextColor := None;
      dimTextColor := None;
      accentColor := None;
    }

    /** `setProp(name, value)`: the named override takes the value and the
        other three keep theirs. */
    method SetProp(o: Override, value: Option<string>)
      modifies this
      ensures Get(o) == value
      ensures forall p: Override :: p != o ==> Get(p) == old(Get(p))
    {
      match o
      case CardBg => cardBgColor := value;
      case PrimaryText => primaryTextColor := value;
      case DimText => dimTextColor := value;
      case Accent => accentColor := value;
    }

    /** `reset()`: every override is cleared; from the default state it
        changes nothing, so resetting twice is resetting once. */
    method Reset()
      modifies this
      ensures IsDefault()
      ensures old(IsDefault()) ==> forall p: Override :: Get(p) == old(Get(p))
    {
      cardBgColor := None;
      primaryTextColor := None;
      dimTextColor := None;
      accentColor := None;
    }
  }
}
