/**
  The elements that follow a form input in the document, and what showing
  and clearing the input's inline error does to them. Only the element
  directly after the input (its nextElementSibling) is ever looked at.
*/
module Siblings {

  /** An element, as far as the form code cares: its class list and its text. */
  datatype Element = Element(classes: set<string>, text: string)

  const ErrorClass := "error-message"

  predicate IsErrorMessage(e: Element) {
    ErrorClass in e.classes
  }

  /** The div that showError creates: class "error-message", the message as text. */
  function ErrorElement(message: string): Element {
    Element({ErrorClass}, message)
  }

  /** The element right after the input is an error message. */
  predicate HasError(sibs: seq<Element>) {
    |sibs| > 0 && IsErrorMessage(sibs[0])
  }

  /** No two error messages stand directly after the input. */
  predicate NotStacked(sibs: seq<Element>) {
    !(|sibs| >= 2 && IsErrorMessage(sibs[0]) && IsErrorMessage(sibs[1]))
  }

  /** The elements that are not error messages, in order. */
  function Others(sibs: seq<Element>): seq<Element> {
    if sibs == [] then []
    else (if IsErrorMessage(sibs[0]) then [] else [sibs[0]]) + Others(sibs[1..])
  }

  /** The following siblings after clearError: an attached error message is
      removed, every other element stays, and with no stacked errors
      nothing error-like is left directly after the input. */
  function Cleared(sibs: seq<Element>): (r: seq<Element>)
    ensures Others(r) == Others(sibs)
    ensures |sibs| - 1 <= |r| <= |sibs|
    ensures |r| < |sibs| <==> HasError(sibs)
    ensures NotStacked(sibs) ==> !HasError(r) && NotStacked(r)
  {
    if HasError(sibs) then sibs[1..] else sibs
  }

  /** The following siblings after showError: exactly one error message,
      carrying the new text, directly after the input, in place of any
      that was there; every other element stays. */
  function Shown(sibs: seq<Element>, message: string): (r: seq<Element>)
    ensures HasError(r) && r[0].text == message
    ensures r[1..] == Cleared(sibs)
    ensures Others(r) == Others(sibs)
    ensures NotStacked(sibs) ==> NotStacked(r)
  {
    [ErrorElement(message)] + Cleared(sibs)
  }

  /** Showing the error again replaces it: the second message wins and the
      first one is gone. */
  lemma ShownReplaces(sibs: seq<Element>, m1: string, m2: string)
    ensures Shown(Shown(sibs, m1), m2) == Shown(sibs, m2)
  {
  }

  /** Clearing twice is clearing once, when errors are not stacked. */
  lemma ClearedIdempotent(sibs: seq<Element>)
    requires NotStacked(sibs)
    ensures Cleared(Cleared(sibs)) == Cleared(sibs)
  {
  }

  /** Clearing after showing leaves what clearing alone leaves. */
  lemma ClearedAfterShown(sibs: seq<Element>, message: string)
    ensures Cleared(Shown(sibs, message)) == Cleared(sibs)
  {
  }

  /** Without the stacking invariant clearError is not idempotent: a second
      error message moves up and is removed by the next call. */
  lemma StackedClearsTwice(e: Element)
    requires IsErrorMessage(e)
    ensures Cleared(Cleared([e, e])) != Cleared([e, e])
  {
  }
}
