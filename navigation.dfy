/**
 * The navigation handlers of `initNavigation` in main-clean.js: the scroll
 * handler that marks the navigation link of every section the page is
 * scrolled into and toggles the navigation bar's shadow, and the two click
 * handlers of the mobile menu.
 */
module Navigation {
  import opened Wrappers

  /** The look-ahead subtracted from every section's top offset. */
  const NavBias := 100
  /** The scroll offset above which the navigation bar carries its shadow. */
  const ShadowThreshold := 50

  /** One `section[id]` element, with its layout as measured at a scroll event. */
  datatype Section = Section(id: string, offsetTop: int, offsetHeight: int)

  /**
   * The scroll handler's interval test: the page is scrolled into `s` when
   * the offset lies strictly below the biased top and at most at its bottom.
   * A section of height zero or less is therefore never active.
   */
  predicate InRange(scrollY: int, s: Section): (b: bool)
    ensures b ==> s.offsetHeight > 0
  {
    s.offsetTop - NavBias < scrollY <= s.offsetTop - NavBias + s.offsetHeight
  }

  /**
   * The active flags of the navigation links after the scroll handler has
   * visited `sections` in document order. A section whose link is missing is
   * skipped (the optional chaining on the link lookup), so no link appears
   * or disappears.
   */
  function ScrollLinks(links: map<string, bool>, scrollY: int, sections: seq<Section>): (r: map<string, bool>)
    ensures r.Keys == links.Keys
    decreases |sections|
  {
    if sections == [] then links
    else
      var before := ScrollLinks(links, scrollY, sections[..|sections| - 1]);
      var s := sections[|sections| - 1];
      if s.id in before then before[s.id := InRange(scrollY, s)] else before
  }

  /** The position of the last section called `id`, if there is one. */
  function LastWithId(sections: seq<Section>, id: string): (r: Option<nat>)
    ensures r.Some? ==> r.value < |sections| && sections[r.value].id == id
    ensures r.Some? ==> forall j :: r.value < j < |sections| ==> sections[j].id != id
    ensures r.None? ==> forall j :: 0 <= j < |sections| ==> sections[j].id != id
    decreases |sections|
  {
    if sections == [] then None
    else if sections[|sections| - 1].id == id then Some(|sections| - 1)
    else LastWithId(sections[..|sections| - 1], id)
  }

  /** No two sections share an id. */
  predicate DistinctIds(sections: seq<Section>) {
    forall i, j :: 0 <= i < j < |sections| ==> sections[i].id != sections[j].id
  }

  /**
   * What one scroll event does to each link: a link with no section of its id keeps its flag; any other link is active
   * exactly when the page is scrolled into the last section of its id.
   */
  lemma {:induction false} ScrollLinksAt(links: map<string, bool>, scrollY: int, sections: seq<Section>, k: string)
    ensures k in links ==>
      ScrollLinks(links, scrollY, sections)[k] ==
        match LastWithId(sections, k)
        case None => links[k]
        case Some(i) => InRange(scrollY, sections[i])
    decreases |sections|
  {
    if sections != [] {
      var prefix := sections[..|sections| - 1];
      ScrollLinksAt(links, scrollY, prefix, k);
      if sections[|sections| - 1].id != k {
        match LastWithId(prefix, k)
        case None =>
        case Some(i) => assert sections[i] == prefix[i];
      }
    }
  }

  /**
   * With distinct section ids every section is tested on its own and there is
   * no tie-break: each section's link is active exactly when the page is
   * scrolled into it, so overlapping sections leave several links active.
   */
  lemma EachSectionIndependent(links: map<string, bool>, scrollY: int, sections: seq<Section>)
    requires DistinctIds(sections)
    ensures forall i :: 0 <= i < |sections| && sections[i].id in links ==>
      ScrollLinks(links, scrollY, sections)[sections[i].id] == InRange(scrollY, sections[i])
  {
    forall i | 0 <= i < |sections| && sections[i].id in links
      ensures ScrollLinks(links, scrollY, sections)[sections[i].id] == InRange(scrollY, sections[i])
    {
      ScrollLinksAt(links, scrollY, sections, sections[i].id);
    }
  }

  /**
   * Two sections whose biased ranges both contain the scroll offset both get
   * their links marked active, and those are two distinct links.
   */
  lemma OverlapLeavesBothActive(links: map<string, bool>, scrollY: int, sections: seq<Section>, i: nat, j: nat)
    requires DistinctIds(sections)
    requires i < |sections| && j < |sections| && i != j
    requires sections[i].id in links && sections[j].id in links
    requires InRange(scrollY, sections[i]) && InRange(scrollY, sections[j])
    ensures ScrollLinks(links, scrollY, sections)[sections[i].id]
    ensures ScrollLinks(links, scrollY, sections)[sections[j].id]
    ensures sections[i].id != sections[j].id
  {
    EachSectionIndependent(links, scrollY, sections);
    if i < j { assert sections[i].id != sections[j].id; } else { assert sections[j].id != sections[i].id; }
  }

  /**
   * The navigation bar's view state. Presence flags stand for the elements
   * the handlers look up; an absent element is never written.
   */
  class NavBar {
    /** The `active` class of each `.nav-link`, keyed by the section id its href names. */
    var links: map<string, bool>
    /** Whether the navigation bar shows its shadow. */
    var shadow: bool
    /** The `active` class of the hamburger button. */
    var hamburgerActive: bool
    /** The `active` class of the navigation menu. */
    var menuActive: bool
    const hasHamburger: bool
    const hasMenu: bool
    const hasNavbar: bool

    /** When both elements exist, the hamburger and the menu open and close together. */
    ghost predicate Valid()
      reads this
    {
      hasHamburger && hasMenu ==> hamburgerActive == menuActive
    }

    /** The page as loaded: nothing active, no shadow. */
    constructor (links: map<string, bool>, hasHamburger: bool, hasMenu: bool, hasNavbar: bool)
      ensures Valid()
      ensures this.links == links && !shadow && !hamburgerActive && !menuActive
      ensures this.hasHamburger == hasHamburger && this.hasMenu == hasMenu && this.hasNavbar == hasNavbar
    {
      this.links := links;
      shadow := false;
      hamburgerActive := false;
      menuActive := false;
      this.hasHamburger := hasHamburger;
      this.hasMenu := hasMenu;
      this.hasNavbar := hasNavbar;
    }

    /**
     * The scroll handler: every section's link is set by the interval test,
     * then the shadow by the threshold. With no navigation bar the handler
     * fails after the links have been updated, so the shadow is left as it was.
     */
    method OnScroll(scrollY: int, sections: seq<Section>)
      modifies this
      ensures links == ScrollLinks(old(links), scrollY, sections)
      ensures shadow == if hasNavbar then scrollY > ShadowThreshold else old(shadow)
      ensures hamburgerActive == old(hamburgerActive) && menuActive == old(menuActive)
      ensures old(Valid()) ==> Valid()
    {
      var flags := links;
      var i := 0;
      while i < |sections|
        invariant 0 <= i <= |sections|
        invariant flags == ScrollLinks(links, scrollY, sections[..i])
      {
        var s := sections[i];
        if s.offsetTop - NavBias < scrollY <= s.offsetTop - NavBias + s.offsetHeight {
          if s.id in flags { flags := flags[s.id := true]; }
        } else {
          if s.id in flags { flags := flags[s.id := false]; }
        }
        assert sections[..i + 1][..i] == sections[..i];
        i := i + 1;
      }
      assert sections[..|sections|] == sections;
      links := flags;
      if hasNavbar {
        shadow := scrollY > ShadowThreshold;
      }
    }

    /**
     * A click on the hamburger flips the hamburger and then the menu. With
     * no menu the handler fails after flipping the hamburger.
     */
    method HamburgerClick()
      modifies this`hamburgerActive, this`menuActive
      ensures hamburgerActive == if hasHamburger then !old(hamburgerActive) else old(hamburgerActive)
      ensures menuActive == if hasHamburger && hasMenu then !old(menuActive) else old(menuActive)
      ensures old(Valid()) ==> Valid()
    {
      if hasHamburger {
        hamburgerActive := !hamburgerActive;
        if hasMenu {
          menuActive := !menuActive;
        }
      }
    }

    /** A click on any navigation link closes the mobile menu. */
    method LinkClick()
      modifies this`hamburgerActive, this`menuActive
      ensures hamburgerActive == if hasHamburger then false else old(hamburgerActive)
      ensures menuActive == if hasMenu then false else old(menuActive)
      ensures old(Valid()) ==> Valid()
    {
      if hasHamburger { hamburgerActive := false; }
      if hasMenu { menuActive := false; }
    }
  }

  /**
   * Sections "about" at 100 (height 500) and "projects" at 600 (height 700):
   * after the bias their ranges are (0, 500] and (500, 1200]. At offset 600
   * only "projects" is active; at exactly 500 only "about" is, because the
   * test is inclusive at the bottom of a range and strict at its top.
   */
  lemma BoundaryExample()
    ensures ScrollLinks(map["about" := false, "projects" := false], 600,
                        [Section("about", 100, 500), Section("projects", 600, 700)])
            == map["about" := false, "projects" := true]
    ensures ScrollLinks(map["about" := false, "projects" := false], 500,
                        [Section("about", 100, 500), Section("projects", 600, 700)])
            == map["about" := true, "projects" := false]
  {
    var ss := [Section("about", 100, 500), Section("projects", 600, 700)];
    assert ss[..1] == [Section("about", 100, 500)];
    assert ss[..1][..0] == [];
  }
}
