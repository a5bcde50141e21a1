/**
 * The site-wide viewing perspective: the banker's or the customer's view,
 * flipped by a toggle and shown through an accent colour.
 */
module Perspective {
  import opened Wrappers

  datatype PerspectiveType = Banker | Customer

  datatype AccentColor = Cyan | Rose

  /** The other perspective. */
  function Toggled(p: PerspectiveType): (q: PerspectiveType)
    ensures q != p
  {
    match p
    case Banker => Customer
    case Customer => Banker
  }

  /** Toggling twice gives back the perspective toggled from. */
  lemma ToggleTwice(p: PerspectiveType)
    ensures Toggled(Toggled(p)) == p
  {
  }

  /** The accent colour tracks the perspective, one colour per perspective. */
  function Accent(p: PerspectiveType): (c: AccentColor)
    ensures c == Cyan <==> p == Banker
    ensures c == Rose <==> p == Customer
  {
    match p
    case Banker => Cyan
    case Customer => Rose
  }

  /** Toggling always changes the accent colour. */
  lemma ToggleChangesAccent(p: PerspectiveType)
    ensures Accent(Toggled(p)) != Accent(p)
  {
  }

  /** The provider's single state field, shared with every consumer. */
  class PerspectiveProvider {
    var perspective: PerspectiveType

    constructor ()
      ensures perspective == Banker
    {
      perspective := Banker;
    }

    method TogglePerspective()
      modifies this
      ensures perspective == Toggled(old(perspective))
      ensures perspective != old(perspective)
    {
      perspective := if perspective == Banker then Customer else Banker;
    }

    method SetPerspective(p: PerspectiveType)
      modifies this
      ensures perspective == p
    {
      perspective := p;
    }

    function AccentColor(): (c: AccentColor)
      reads this
      ensures c == Cyan <==> perspective == Banker
    {
      Accent(perspective)
    }
  }

  /** A consumer either gets the provider's perspective or fails outright. */
  datatype ContextLookup = Provided(perspective: PerspectiveType) | Threw(message: string)

  /**
   * Reading the perspective from a component: inside a provider it is the
   * provider's value, outside any provider the read throws.
   */
  function UsePerspective(context: Option<PerspectiveType>): (r: ContextLookup)
    ensures r.Provided? <==> context.Some?
    ensures context.Some? ==> r.perspective == context.value
  {
    match context
    case Some(p) => Provided(p)
    case None => Threw("usePerspective must be used within a PerspectiveProvider")
  }

  /**
   * A consumer sets a perspective and then toggles: the provider ends on the
   * other perspective, showing the other accent colour.
   */
  method SetThenToggle(provider: PerspectiveProvider, p: PerspectiveType)
    modifies provider
    ensures provider.perspective == Toggled(p) && provider.perspective != p
    ensures provider.AccentColor() == Accent(Toggled(p)) && provider.AccentColor() != Accent(p)
  {
    provider.SetPerspective(p);
    provider.TogglePerspective();
    ToggleChangesAccent(p);
  }
}
