/**
 * The section state of public/app.js: `currentSection`, the per-section
 * view in `sectionViewState`, and the handlers that change them
 * (`switchSection`, `handleTabClick`, `navigateToPreviousSection`,
 * `navigateToNextSection`). Scroll positions, rendering and the DOM are
 * not part of this model; every section element and tab is taken to
 * exist, as it does on the page.
 */
module Navigation {

  datatype Section = YouTube | Blogs | Security | Subreddits | Twitch

  datatype View = TimelineView | CardsView

  /** The order of the header tabs. */
  const SECTIONS: seq<Section> := [YouTube, Blogs, Security, Subreddits, Twitch]

  /** `sections.indexOf(section)`. */
  function IndexOf(s: Section): (i: nat)
    ensures i < |SECTIONS| && SECTIONS[i] == s
  {
    match s
    case YouTube => 0
    case Blogs => 1
    case Security => 2
    case Subreddits => 3
    case Twitch => 4
  }

  /** The section one tab to the left; the first section stays where it is. */
  function Previous(s: Section): (r: Section)
    ensures IndexOf(s) > 0 ==> IndexOf(r) == IndexOf(s) - 1
    ensures IndexOf(s) == 0 ==> r == s
  {
    if IndexOf(s) > 0 then SECTIONS[IndexOf(s) - 1] else s
  }

  /** The section one tab to the right; the last section stays where it is. */
  function Next(s: Section): (r: Section)
    ensures IndexOf(s) < |SECTIONS| - 1 ==> IndexOf(r) == IndexOf(s) + 1
    ensures IndexOf(s) == |SECTIONS| - 1 ==> r == s
  {
    if IndexOf(s) < |SECTIONS| - 1 then SECTIONS[IndexOf(s) + 1] else s
  }

  /** Stepping right then left (or left then right) returns to the same tab, away from the ends. */
  lemma NextPreviousInverse(s: Section)
    ensures s != Twitch ==> Previous(Next(s)) == s
    ensures s != YouTube ==> Next(Previous(s)) == s
  {
  }

  /** `state === 'timeline' ? 'cards' : 'timeline'`. */
  function Flip(v: View): (r: View)
    ensures r != v
  {
    if v == TimelineView then CardsView else TimelineView
  }

  /** The view map with one section's view flipped. */
  function Toggled(views: map<Section, View>, s: Section): (r: map<Section, View>)
    requires s in views
    ensures r.Keys == views.Keys
    ensures r[s] != views[s]
    ensures forall t :: t in views && t != s ==> r[t] == views[t]
  {
    views[s := Flip(views[s])]
  }

  /** Clicking the current tab twice restores its view. */
  lemma ToggledTwice(views: map<Section, View>, s: Section)
    requires s in views
    ensures Toggled(Toggled(views, s), s) == views
  {
    var once := Toggled(views, s);
    assert once[s] != views[s];
    assert Toggled(once, s)[s] == views[s];
  }

  class Dashboard {
    var currentSection: Section
    var sectionViewState: map<Section, View>

    /** Every section has a view. */
    ghost predicate Valid()
      reads this
    {
      forall s: Section :: s in sectionViewState
    }

    constructor ()
      ensures Valid()
      ensures currentSection == YouTube
      ensures forall s: Section :: sectionViewState[s] == TimelineView
    {
      var views := map[YouTube := TimelineView, Blogs := TimelineView, Security := TimelineView,
                       Subreddits := TimelineView, Twitch := TimelineView];
      forall s: Section
        ensures s in views && views[s] == TimelineView
      {
        assert SECTIONS[IndexOf(s)] == s;
      }
      currentSection := YouTube;
      sectionViewState := views;
    }

    /** `switchSection(sectionName)`. */
    method SwitchSection(s: Section)
      modifies this
      ensures currentSection == s
      ensures sectionViewState == old(sectionViewState)
    {
      currentSection := s;
    }

    /** `handleTabClick(section)`: the current tab flips its view, another tab is switched to. */
    method HandleTabClick(s: Section)
      requires Valid()
      modifies this
      ensures Valid()
      ensures currentSection == s
      ensures s == old(currentSection) ==> sectionViewState == Toggled(old(sectionViewState), s)
      ensures s != old(currentSection) ==> sectionViewState == old(sectionViewState)
    {
      if s == currentSection {
        sectionViewState := sectionViewState[s := Flip(sectionViewState[s])];
      } else {
        SwitchSection(s);
      }
    }

    /** `navigateToPreviousSection()`. */
    method NavigateToPreviousSection()
      modifies this
      ensures currentSection == Previous(old(currentSection))
      ensures sectionViewState == old(sectionViewState)
    {
      var currentIndex := IndexOf(currentSection);
      if currentIndex > 0 {
        SwitchSection(SECTIONS[currentIndex - 1]);
      }
    }

    /** `navigateToNextSection()`. */
    method NavigateToNextSection()
      modifies this
      ensures currentSection == Next(old(currentSection))
      ensures sectionViewState == old(sectionViewState)
    {
      var currentIndex := IndexOf(currentSection);
      if currentIndex < |SECTIONS| - 1 {
        SwitchSection(SECTIONS[currentIndex + 1]);
      }
    }
  }
}
