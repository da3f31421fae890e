/** The zone machine shared by the two immersive modes
    (portfolio/src/components/ImmersiveModeAdvanced.tsx and ImmersiveMode.tsx): seven
    zones, the portals `renderCurrentZone` places in each, the lock on the contact portal,
    and the progress counter. */
module Zones {
  import opened Base

  datatype Zone = Intro | Learning | Wipro | Cvs | Wells | Projects | Contact

  /** What clicking a portal does: change zone, or run `handleContactPortal`. */
  datatype Action = GoTo(target: Zone) | OpenContactForm

  /** A rendered portal: `unlocked` decides whether it has a click handler at all. */
  datatype Portal = Portal(unlocked: bool, action: Action)

  /** Skills needed before the contact portal opens. */
  const UnlockThreshold: nat := 3

  /** The portals `renderCurrentZone` renders in a zone, in the order they appear, for a
      given `collectedSkills.length`. */
  function Portals(z: Zone, skillCount: nat): seq<Portal> {
    match z
    case Intro => [Portal(true, GoTo(Learning)), Portal(true, GoTo(Wipro))]
    case Learning => [Portal(true, GoTo(Intro))]
    case Wipro => [Portal(true, GoTo(Cvs)), Portal(true, GoTo(Intro))]
    case Cvs => [Portal(true, GoTo(Wells)), Portal(true, GoTo(Intro))]
    case Wells => [Portal(true, GoTo(Projects)), Portal(true, GoTo(Intro))]
    case Projects => [Portal(skillCount >= UnlockThreshold, GoTo(Contact)), Portal(true, GoTo(Intro))]
    case Contact => [Portal(true, OpenContactForm), Portal(true, GoTo(Intro))]
  }

  /** The career path the portals walk, in order. */
  const CareerPath: seq<Zone> := [Wipro, Cvs, Wells, Projects, Contact]

  /** The zones reachable by one portal, stated as a map of the journey rather than as the
      switch: from the intro into the learning zone or onto the career path, one step
      forward along the path, and back to the intro from everywhere else. */
  predicate Leads(z: Zone, t: Zone) {
    || (z == Intro && (t == Learning || t == CareerPath[0]))
    || (z != Intro && t == Intro)
    || (exists k | 0 <= k < |CareerPath| - 1 :: CareerPath[k] == z && CareerPath[k + 1] == t)
  }

  predicate HasPortalTo(z: Zone, n: nat, t: Zone) {
    exists p | p in Portals(z, n) :: p.action == GoTo(t)
  }

  /** The portal table agrees with the journey map: a zone has a portal to `t` exactly
      when the map leads there, whatever the skill count. */
  lemma {:induction false} PortalsFollowJourney(z: Zone, n: nat, t: Zone)
    ensures HasPortalTo(z, n, t) <==> Leads(z, t)
  {
    var ps := Portals(z, n);
    if Leads(z, t) {
      if z == Intro {
        assert ps[0].action == GoTo(Learning) && ps[1].action == GoTo(Wipro);
      } else if t == Intro {
        assert ps[|ps| - 1].action == GoTo(Intro);
      } else {
        var k :| 0 <= k < |CareerPath| - 1 && CareerPath[k] == z && CareerPath[k + 1] == t;
        assert ps[0].action == GoTo(t);
      }
    }
    if HasPortalTo(z, n, t) {
      var p :| p in ps && p.action == GoTo(t);
      if z != Intro && t != Intro {
        var k := match z
          case Wipro => 0 case Cvs => 1 case Wells => 2 case Projects => 3 case _ => 0;
        assert CareerPath[k] == z && CareerPath[k + 1] == t;
      }
    }
  }

  /** Every zone but the intro has a portal back to the intro, and it is never locked. */
  lemma BackToIntro(z: Zone, n: nat)
    requires z != Intro
    ensures Portal(true, GoTo(Intro)) in Portals(z, n)
  {
    assert Portals(z, n)[|Portals(z, n)| - 1] == Portal(true, GoTo(Intro));
  }

  /** The only portal that can be locked is the one from the projects zone to the contact
      zone, and it is open exactly when at least three skills are collected. */
  lemma OnlyContactPortalLocks(z: Zone, n: nat, i: nat)
    requires i < |Portals(z, n)|
    ensures !Portals(z, n)[i].unlocked ==> z == Projects && Portals(z, n)[i].action == GoTo(Contact)
    ensures z == Projects && Portals(z, n)[i].action == GoTo(Contact) ==>
              (Portals(z, n)[i].unlocked <==> n >= UnlockThreshold)
  {
  }

  /** The text under a portal. */
  function PortalText(p: Portal): string {
    if p.unlocked then "ENTER CONTACT" else "LOCKED"
  }

  /** What the scene shows: the current zone (owned by the parent and changed through
      `onZoneChange`) and whether the contact overlay is open. */
  datatype View = View(zone: Zone, showContactForm: bool)

  /** `handleContactPortal`: opens the overlay only with enough skills. */
  function ContactPortalHandled(v: View, skillCount: nat): View {
    if skillCount >= UnlockThreshold then v.(showContactForm := true) else v
  }

  /** A click on a portal: a locked one has no handler and changes nothing. */
  function Enter(v: View, skillCount: nat, p: Portal): View {
    if !p.unlocked then v
    else match p.action
      case GoTo(t) => v.(zone := t)
      case OpenContactForm => ContactPortalHandled(v, skillCount)
  }

  /** A portal reads 'LOCKED' exactly when it is locked, and then a click on it changes
      nothing. */
  lemma LockedPortalInert(v: View, skillCount: nat, p: Portal)
    ensures PortalText(p) == "LOCKED" <==> !p.unlocked
    ensures !p.unlocked ==> Enter(v, skillCount, p) == v
  {
  }

  /** The contact centre portal opens the overlay exactly when three skills are collected,
      and otherwise changes nothing; it never changes the zone. */
  lemma ContactPortalGuard(v: View, skillCount: nat)
    ensures ContactPortalHandled(v, skillCount).zone == v.zone
    ensures ContactPortalHandled(v, skillCount).showContactForm <==>
              v.showContactForm || skillCount >= UnlockThreshold
    ensures skillCount < UnlockThreshold ==> ContactPortalHandled(v, skillCount) == v
  {
  }

  /** A user action in the scene: a click on the i-th portal of the current zone, or the
      overlay's 'Close Portal' button. */
  datatype Click = PortalClick(index: nat) | ClosePortal

  function Step(v: View, skillCount: nat, c: Click): View {
    match c
    case PortalClick(i) =>
      var ps := Portals(v.zone, skillCount);
      if i < |ps| then Enter(v, skillCount, ps[i]) else v
    case ClosePortal => v.(showContactForm := false)
  }

  function Run(v: View, skillCount: nat, clicks: seq<Click>): View
    decreases |clicks|
  {
    if clicks == [] then v else Run(Step(v, skillCount, clicks[0]), skillCount, clicks[1..])
  }

  /** With fewer than three skills no click sequence that starts outside the contact zone,
      with the overlay closed, ever reaches the contact zone or opens the overlay. Since
      `collectedSkills` starts empty and nothing adds to it, this is every session. */
  lemma {:induction false} ContactUnreachable(v: View, skillCount: nat, clicks: seq<Click>)
    requires skillCount < UnlockThreshold
    requires v.zone != Contact && !v.showContactForm
    ensures Run(v, skillCount, clicks).zone != Contact
    ensures !Run(v, skillCount, clicks).showContactForm
    decreases |clicks|
  {
    if clicks != [] {
      ContactUnreachable(Step(v, skillCount, clicks[0]), skillCount, clicks[1..]);
    }
  }

  /** With three skills the journey intro, wipro, cvs, wells, projects, contact is open and
      the contact portal opens the overlay; 'Close Portal' shuts it again. */
  lemma ContactReachableWithSkills()
    ensures Run(View(Intro, false), UnlockThreshold,
                [PortalClick(1), PortalClick(0), PortalClick(0), PortalClick(0), PortalClick(0), PortalClick(0)])
            == View(Contact, true)
    ensures Step(View(Contact, true), UnlockThreshold, ClosePortal) == View(Contact, false)
  {
    var clicks := [PortalClick(1), PortalClick(0), PortalClick(0), PortalClick(0), PortalClick(0), PortalClick(0)];
    var n := UnlockThreshold;
    var v1 := Step(View(Intro, false), n, clicks[0]);
    assert v1 == View(Wipro, false);
    var v2 := Step(v1, n, clicks[1]);
    assert v2 == View(Cvs, false);
    var v3 := Step(v2, n, clicks[2]);
    assert v3 == View(Wells, false);
    var v4 := Step(v3, n, clicks[3]);
    assert v4 == View(Projects, false);
    var v5 := Step(v4, n, clicks[4]);
    assert v5 == View(Contact, false);
    var v6 := Step(v5, n, clicks[5]);
    assert v6 == View(Contact, true);
    assert Run(v6, n, clicks[6..]) == v6;
    assert Run(v5, n, clicks[5..]) == v6;
    assert Run(v4, n, clicks[4..]) == v6;
    assert Run(v3, n, clicks[3..]) == v6;
    assert Run(v2, n, clicks[2..]) == v6;
    assert Run(v1, n, clicks[1..]) == v6;
  }

  /** The zone list the progress counter indexes. */
  const ZoneOrder: seq<Zone> := [Intro, Learning, Wipro, Cvs, Wells, Projects, Contact]

  /** `xs.indexOf(x)`: the first index holding `x`, or -1. */
  function IndexOf<T(==)>(xs: seq<T>, x: T): (i: int)
    ensures -1 <= i < |xs|
    ensures i >= 0 ==> xs[i] == x && x !in xs[..i]
    ensures i == -1 <==> x !in xs
  {
    if xs == [] then -1
    else if xs[0] == x then 0
    else
      var j := IndexOf(xs[1..], x);
      assert xs[1..] == xs[1..][..|xs| - 1];
      if j == -1 then -1
      else
        assert xs[..j + 1] == [xs[0]] + xs[1..][..j];
        j + 1
  }

  /** The displayed progress: the zone's position in the list, counted from 1. */
  function Progress(z: Zone): int {
    IndexOf(ZoneOrder, z) + 1
  }

  /** Progress is always between 1 and 7, names the zone it is shown for, and differs
      between zones. */
  lemma ProgressInRange(z: Zone, w: Zone)
    ensures 1 <= Progress(z) <= |ZoneOrder| == 7
    ensures ZoneOrder[Progress(z) - 1] == z
    ensures Progress(z) == Progress(w) ==> z == w
  {
    assert z in ZoneOrder by {
      match z
      case Intro => assert ZoneOrder[0] == z;
      case Learning => assert ZoneOrder[1] == z;
      case Wipro => assert ZoneOrder[2] == z;
      case Cvs => assert ZoneOrder[3] == z;
      case Wells => assert ZoneOrder[4] == z;
      case Projects => assert ZoneOrder[5] == z;
      case Contact => assert ZoneOrder[6] == z;
    }
  }
}
