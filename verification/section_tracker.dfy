/** The scroll-position section tracker of the portfolio home page.

    On every scroll event the page takes an evaluation point 100 pixels below
    the current scroll offset, walks a fixed ordered list of section ids and
    makes the first mounted section whose half-open vertical interval
    [offsetTop, offsetTop + offsetHeight) contains the point the active
    section. When no section contains the point the active section is kept.

    The DOM is abstracted as a `Layout`: a map from an element id to the
    geometry of the mounted element with that id; an id that is not a key
    stands for `document.getElementById` returning nothing. */
module SectionTracker {

  datatype Option<T> = None | Some(value: T)

  /** The layout geometry of one mounted section element. */
  datatype Geometry = Geometry(offsetTop: int, offsetHeight: int)

  /** What the DOM answers for each element id at the time of one scroll event. */
  type Layout = map<string, Geometry>

  /** One scroll event: the geometry it reads and the window's scroll offset. */
  datatype ScrollEvent = ScrollEvent(layout: Layout, scrollY: int)

  /** The tracked sections, in the order in which they are tried. */
  const Sections: seq<string> := ["intro", "about", "projects", "contact"]

  /** The section that is active before the first scroll event. */
  const InitialSection: string := "intro"

  /** How far below the scroll offset the evaluation point lies, in pixels. */
  const ScrollBias: int := 100

  /** The point at which a scroll event evaluates the sections. */
  function EvaluationPoint(scrollY: int): (p: int)
  {
    scrollY + ScrollBias
  }

  /** The half-open interval [offsetTop, offsetTop + offsetHeight) contains `point`. */
  predicate Contains(g: Geometry, point: int)
  {
    point >= g.offsetTop && point < g.offsetTop + g.offsetHeight
  }

  /** The element with id `name` is mounted and its interval contains `point`. */
  predicate Matches(layout: Layout, name: string, point: int)
  {
    name in layout && Contains(layout[name], point)
  }

  /** The index of the first name in `names` that matches `point`, if any. */
  function FirstMatch(names: seq<string>, layout: Layout, point: int): (r: Option<nat>)
    ensures r.Some? ==> r.value < |names| && Matches(layout, names[r.value], point)
    ensures r.Some? ==> forall j :: 0 <= j < r.value ==> !Matches(layout, names[j], point)
    ensures r.None? ==> forall j :: 0 <= j < |names| ==> !Matches(layout, names[j], point)
  {
    if names == [] then None
    else if Matches(layout, names[0], point) then Some(0)
    else match FirstMatch(names[1..], layout, point)
      case None => None
      case Some(k) => Some(k + 1)
  }

  /** The name found by `FirstMatch`, if any. */
  function MatchedName(names: seq<string>, layout: Layout, point: int): (r: Option<string>)
  {
    match FirstMatch(names, layout, point)
    case None => None
    case Some(i) => Some(names[i])
  }

  /** The names of `names` whose element is mounted, in their original order. */
  function Mounted(names: seq<string>, layout: Layout): (r: seq<string>)
    ensures forall x :: x in r <==> x in names && x in layout
  {
    if names == [] then []
    else if names[0] in layout then [names[0]] + Mounted(names[1..], layout)
    else Mounted(names[1..], layout)
  }

  /** The active section after one scroll event, given the active section before it. */
  function Evaluate(current: string, layout: Layout, scrollY: int): (r: string)
    // the result is the previous section or one of the tracked ones
    ensures r == current || r in Sections
    // a miss everywhere holds the previous value
    ensures (forall j :: 0 <= j < |Sections| ==> !Matches(layout, Sections[j], scrollY + ScrollBias)) ==> r == current
    // otherwise the first matching section in list order wins
    ensures forall i :: 0 <= i < |Sections| && Matches(layout, Sections[i], scrollY + ScrollBias) &&
                        (forall j :: 0 <= j < i ==> !Matches(layout, Sections[j], scrollY + ScrollBias))
                        ==> r == Sections[i]
  {
    match MatchedName(Sections, layout, EvaluationPoint(scrollY))
    case None => current
    case Some(name) => name
  }

  /** The active section after a sequence of scroll events. */
  function Run(current: string, events: seq<ScrollEvent>): (r: string)
    decreases events
  {
    if events == [] then current
    else Run(Evaluate(current, events[0].layout, events[0].scrollY), events[1..])
  }

  /** The geometry of `name` is the same in `a` and `b` (or it is absent from both). */
  predicate SameGeometry(a: Layout, b: Layout, name: string)
  {
    (name in a <==> name in b) && (name in a ==> a[name] == b[name])
  }

  /** Once a name matches, the geometry of the names after it cannot change the
      outcome, even when their intervals overlap the matching one. */
  lemma LaterSectionsCannotOverride(names: seq<string>, a: Layout, b: Layout, point: int, i: nat)
    requires i < |names| && Matches(a, names[i], point)
    requires forall j :: 0 <= j <= i ==> SameGeometry(a, b, names[j])
    ensures FirstMatch(names, a, point) == FirstMatch(names, b, point)
    ensures FirstMatch(names, a, point).Some? && FirstMatch(names, a, point).value <= i
  {
    // follows from the first-match characterization in FirstMatch's contract
  }

  /** Elements that are not mounted are skipped: trying only the mounted names
      finds the same section. */
  lemma {:induction false} AbsentSectionsSkipped(names: seq<string>, layout: Layout, point: int)
    ensures MatchedName(names, layout, point) == MatchedName(Mounted(names, layout), layout, point)
  {
    if names != [] {
      AbsentSectionsSkipped(names[1..], layout, point);
      if names[0] in layout {
        var m := [names[0]] + Mounted(names[1..], layout);
        assert m[1..] == Mounted(names[1..], layout);
      }
    }
  }

  /** The lower edge of an interval is included, its upper edge is excluded,
      and an empty interval never matches. */
  lemma HalfOpenIntervals(current: string, layout: Layout, scrollY: int, i: nat)
    requires i < |Sections| && Sections[i] in layout
    // a point on the upper edge, or a section of no height, cannot activate it
    ensures Sections[i] != current &&
            (scrollY + ScrollBias == layout[Sections[i]].offsetTop + layout[Sections[i]].offsetHeight ||
             layout[Sections[i]].offsetHeight <= 0)
            ==> Evaluate(current, layout, scrollY) != Sections[i]
    // a point on the lower edge of a section with positive height activates it
    // when no earlier section matches
    ensures scrollY + ScrollBias == layout[Sections[i]].offsetTop && layout[Sections[i]].offsetHeight > 0 &&
            (forall j :: 0 <= j < i ==> !Matches(layout, Sections[j], scrollY + ScrollBias))
            ==> Evaluate(current, layout, scrollY) == Sections[i]
  {
  }

  /** Evaluating twice with the same geometry and offset changes nothing more. */
  lemma EvaluateIdempotent(current: string, layout: Layout, scrollY: int)
    ensures Evaluate(Evaluate(current, layout, scrollY), layout, scrollY) == Evaluate(current, layout, scrollY)
  {
  }

  /** Starting from a tracked section, every sequence of scroll events leaves a
      tracked section active. */
  lemma {:induction false} RunStaysTracked(current: string, events: seq<ScrollEvent>)
    requires current in Sections
    ensures Run(current, events) in Sections
    decreases events
  {
    if events != [] {
      RunStaysTracked(Evaluate(current, events[0].layout, events[0].scrollY), events[1..]);
    }
  }

  /** The navigation bar's "experience" link is never highlighted: no sequence
      of scroll events from the initial state makes "experience" active. */
  lemma ExperienceNeverActive(events: seq<ScrollEvent>)
    ensures Run(InitialSection, events) != "experience"
  {
    RunStaysTracked(InitialSection, events);
  }

  /** The state of the home page that the scroll handler updates. */
  class ScrollTracker {
    var currentSection: string

    /** The tracker always names one of the tracked sections. */
    ghost predicate Valid()
      reads this
    {
      currentSection in Sections
    }

    constructor ()
      ensures currentSection == InitialSection && Valid()
    {
      currentSection := InitialSection;
    }

    /** The scroll handler: try the sections in order and activate the first
        mounted one that contains the evaluation point. */
    method HandleScroll(layout: Layout, scrollY: int)
      modifies this
      ensures currentSection == Evaluate(old(currentSection), layout, scrollY)
      ensures old(Valid()) ==> Valid()
    {
      var scrollPosition := scrollY + ScrollBias;
      var i := 0;
      while i < |Sections|
        invariant 0 <= i <= |Sections|
        invariant currentSection == old(currentSection)
        invariant forall j :: 0 <= j < i ==> !Matches(layout, Sections[j], scrollPosition)
      {
        var section := Sections[i];
        if section in layout {
          var g := layout[section];
          if scrollPosition >= g.offsetTop && scrollPosition < g.offsetTop + g.offsetHeight {
            currentSection := section;
            break;
          }
        }
        i := i + 1;
      }
    }
  }
}
