/**
  The navbar's scroll effect: the "scrolled" class is present exactly when
  the page is scrolled more than 50 pixels down.
*/
module Navbar {

  const ScrolledClass := "scrolled"
  const Threshold: real := 50.0

  /** The navbar's class list after a scroll event at vertical offset y
      (window.scrollY, a number that need not be whole): "scrolled" is there
      exactly when y > 50, and every other class is as it was. */
  function AfterScroll(classes: set<string>, y: real): (r: set<string>)
    ensures ScrolledClass in r <==> y > Threshold
    ensures r - {ScrolledClass} == classes - {ScrolledClass}
  {
    if y > Threshold then classes + {ScrolledClass} else classes - {ScrolledClass}
  }

  /** The effect keeps no history: only the latest offset matters. */
  lemma OnlyLatestScrollCounts(classes: set<string>, y1: real, y2: real)
    ensures AfterScroll(AfterScroll(classes, y1), y2) == AfterScroll(classes, y2)
  {
  }

  /** The boundary: 49 and 50 leave the class off, 50.5, 51 and 1000 put it
      on, and scrolling back to the top takes it off again. */
  lemma Boundary(classes: set<string>)
    ensures ScrolledClass !in AfterScroll(classes, 49.0)
    ensures ScrolledClass !in AfterScroll(classes, 50.0)
    ensures ScrolledClass in AfterScroll(classes, 50.5)
    ensures ScrolledClass in AfterScroll(classes, 51.0)
    ensures ScrolledClass in AfterScroll(classes, 1000.0)
    ensures ScrolledClass !in AfterScroll(AfterScroll(classes, 51.0), 0.0)
  {
  }

  class NavbarScrollEffect {
    /** The navbar element's class list. */
    var classes: set<string>

    constructor (classes: set<string>)
      ensures this.classes == classes
    {
      this.classes := classes;
    }

    method HandleScroll(scrollY: real)
      modifies this
      ensures classes == AfterScroll(old(classes), scrollY)
    {
      if scrollY > Threshold {
        classes := classes + {ScrolledClass};
      } else {
        classes := classes - {ScrolledClass};
      }
    }
  }
}
