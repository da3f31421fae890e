/** The classic immersive mode (portfolio/src/components/ImmersiveMode.tsx): its own copy of the portal
    table in `renderCurrentZone`, and the component state `collectedSkills` and
    `showContactForm` with the handlers that change it. */
module ImmersiveMode {
  import opened Zones

  /** The portals this file's `renderCurrentZone` renders, zone by zone, in the order
      they appear. */
  function RenderedPortals(z: Zone, skillCount: nat): seq<Portal> {
    match z
    case Intro => [Portal(true, GoTo(Learning)), Portal(true, GoTo(Wipro))]
    case Learning => [Portal(true, GoTo(Intro))]
    case Wipro => [Portal(true, GoTo(Cvs)), Portal(true, GoTo(Intro))]
    case Cvs => [Portal(true, GoTo(Wells)), Portal(true, GoTo(Intro))]
    case Wells => [Portal(true, GoTo(Projects)), Portal(true, GoTo(Intro))]
    case Projects => [Portal(skillCount >= 3, GoTo(Contact)), Portal(true, GoTo(Intro))]
    case Contact => [Portal(true, OpenContactForm), Portal(true, GoTo(Intro))]
  }

  /** This file's table is the shared zone machine's table, so every property proved of
      `Zones.Portals` holds of it. */
  lemma SameTableAsShared(z: Zone, skillCount: nat)
    ensures RenderedPortals(z, skillCount) == Portals(z, skillCount)
  {
  }

  /** The component. `currentZone` is the parent's state, which the portals change through
      `onZoneChange`; it is held here so that one object describes what the scene shows. */
  class ImmersiveScene {
    var currentZone: Zone
    var collectedSkills: seq<string>
    var showContactForm: bool

    function Shown(): View
      reads this
    {
      View(currentZone, showContactForm)
    }

    /** The first render: no skills collected and the overlay closed. */
    constructor (zone: Zone)
      ensures currentZone == zone && collectedSkills == [] && !showContactForm
    {
      currentZone := zone;
      collectedSkills := [];
      showContactForm := false;
    }

    /** `handleContactPortal`. */
    method HandleContactPortal()
      modifies this`showContactForm
      ensures Shown() == ContactPortalHandled(old(Shown()), |collectedSkills|)
    {
      if |collectedSkills| >= 3 {
        showContactForm := true;
      }
    }

    /** A click on the i-th portal of the current zone: a locked portal has no handler. */
    method ClickPortal(i: nat)
      modifies this`currentZone, this`showContactForm
      ensures Shown() == Step(old(Shown()), |collectedSkills|, PortalClick(i))
    {
      var portals := RenderedPortals(currentZone, |collectedSkills|);
      SameTableAsShared(currentZone, |collectedSkills|);
      if i < |portals| && portals[i].unlocked {
        match portals[i].action {
          case GoTo(t) => currentZone := t;
          case OpenContactForm => HandleContactPortal();
        }
      }
    }

    /** The overlay's 'Close Portal' button. */
    method ClosePortal()
      modifies this`showContactForm
      ensures Shown() == Step(old(Shown()), |collectedSkills|, Zones.ClosePortal)
    {
      showContactForm := false;
    }

    /** The HUD's 'Progress: k/7' numerator. */
    method ProgressShown() returns (k: int)
      ensures k == Progress(currentZone)
      ensures 1 <= k <= 7 && ZoneOrder[k - 1] == currentZone
    {
      k := IndexOf(ZoneOrder, currentZone) + 1;
      ProgressInRange(currentZone, currentZone);
    }
  }
}
