/**
 The inspection-booking flow of the listing detail view: a three-state
 machine (`bookingStatus`) driven by the buttons the view renders in each
 state, and reset whenever another listing is shown.
 */
module Booking {

  datatype BookingStatus = Idle | Confirm | Success

  /** The view's inputs: "Book Inspection", "Confirm Booking", "Cancel",
      "Back to Browsing", a change of the listing shown, and `Close`: a click
      on the floating close button or on the backdrop, both of which call
      `onClose` alone. */
  datatype BookingEvent = BookClick | ConfirmBooking | Cancel | BackToBrowsing | PropertyChanged | Close

  /** The new status, and whether the view asks its parent to close it. */
  datatype Transition = Transition(status: BookingStatus, close: bool)

  /** The status a freshly shown view starts in. */
  const InitialStatus: BookingStatus := Idle

  /** The events the view can receive in a status. "Book Inspection" sits in
      the always-rendered footer and the close button floats above every
      panel; "Confirm Booking" and "Cancel" exist only on the confirmation
      panel, "Back to Browsing" only on the success panel. This is the view
      at rest: a confirmation panel fading out after "Cancel" is not
      modelled. */
  predicate Enabled(s: BookingStatus, e: BookingEvent) {
    match e
    case BookClick => true
    case ConfirmBooking => s == Confirm
    case Cancel => s == Confirm
    case BackToBrowsing => s == Success
    case PropertyChanged => true
    case Close => true
  }

  /** The events that ask the parent to close the view. */
  predicate Closes(e: BookingEvent) {
    e == BackToBrowsing || e == Close
  }

  /** One event. Booking asks for confirmation from any status; confirming
      succeeds; cancelling returns to idle; "Back to Browsing" returns to idle
      and closes the view; a new listing resets to idle; the close button and
      the backdrop close the view and leave the status alone. */
  function Step(s: BookingStatus, e: BookingEvent): (t: Transition)
    ensures t.close <==> Closes(e)
    ensures e == Close ==> t.status == s
    ensures e == BookClick ==> t.status == Confirm
    ensures e == ConfirmBooking ==> t.status == Success
    ensures e in {Cancel, BackToBrowsing, PropertyChanged} ==> t.status == Idle
  {
    match e
    case BookClick => Transition(Confirm, false)
    case ConfirmBooking => Transition(Success, false)
    case Cancel => Transition(Idle, false)
    case BackToBrowsing => Transition(Idle, true)
    case PropertyChanged => Transition(Idle, false)
    case Close => Transition(s, true)
  }

  /** Among the events the view can receive, exactly one leads to success:
      confirming on the confirmation panel. The only other way to be in
      success afterwards is to close the success panel, which keeps it. */
  lemma SuccessOnlyByConfirming(s: BookingStatus, e: BookingEvent)
    requires Enabled(s, e)
    ensures Step(s, e).status == Success <==>
      (s == Confirm && e == ConfirmBooking) || (s == Success && e == Close)
  {
  }

  /** The status after a sequence of events. */
  function Run(s: BookingStatus, es: seq<BookingEvent>): BookingStatus
    decreases |es|
  {
    if es == [] then s else Step(Run(s, es[..|es| - 1]), es[|es| - 1]).status
  }

  /** Every event of the sequence is one the view can receive at that point. */
  predicate AllEnabled(s: BookingStatus, es: seq<BookingEvent>)
    decreases |es|
  {
    es == [] || (AllEnabled(s, es[..|es| - 1]) && Enabled(Run(s, es[..|es| - 1]), es[|es| - 1]))
  }

  /** Without pressing "Book Inspection", a view that starts idle stays idle. */
  lemma {:induction false} IdleWithoutBookClick(es: seq<BookingEvent>)
    requires AllEnabled(Idle, es) && BookClick !in es
    ensures Run(Idle, es) == Idle
    decreases |es|
  {
    if es != [] {
      var before := es[..|es| - 1];
      assert BookClick !in before by {
        forall i | 0 <= i < |before|
          ensures before[i] != BookClick
        {
          assert before[i] == es[i];
        }
      }
      IdleWithoutBookClick(before);
    }
  }

  /** A view still open that started idle shows success only when its last
      event was "Confirm Booking" on the confirmation panel, after "Book
      Inspection" was pressed. (Closing unmounts the view, so a closed view
      shows nothing.) */
  lemma SuccessNeedsConfirmation(es: seq<BookingEvent>)
    requires AllEnabled(Idle, es) && Run(Idle, es) == Success
    requires forall i :: 0 <= i < |es| ==> !Closes(es[i])
    ensures es != [] && es[|es| - 1] == ConfirmBooking
    ensures Run(Idle, es[..|es| - 1]) == Confirm
    ensures BookClick in es[..|es| - 1]
  {
    var before := es[..|es| - 1];
    SuccessOnlyByConfirming(Run(Idle, before), es[|es| - 1]);
    if BookClick !in before {
      IdleWithoutBookClick(before);
    }
  }

  /** Showing another listing resets the view to the status a fresh view
      starts in, whatever the status was. */
  lemma PropertyChangeResets(s: BookingStatus)
    ensures Step(s, PropertyChanged) == Transition(InitialStatus, false)
  {
  }

  /** Cancelling on the confirmation panel undoes "Book Inspection": from any
      status, the two events lead back to idle without closing the view. */
  lemma CancelUndoesBooking(s: BookingStatus)
    ensures Enabled(Step(s, BookClick).status, Cancel)
    ensures Step(Step(s, BookClick).status, Cancel) == Transition(InitialStatus, false)
  {
  }

  /** "Back to Browsing" is offered only on the success panel; it resets the
      status and asks for the view to be closed. */
  lemma BackToBrowsingCloses(s: BookingStatus)
    requires Enabled(s, BackToBrowsing)
    ensures s == Success
    ensures Step(s, BackToBrowsing) == Transition(InitialStatus, true)
  {
  }

  /** The close button and the backdrop are there in every status; they ask
      for the view to be closed without touching the status, which the
      unmounted view no longer shows. */
  lemma CloseAnyTime(s: BookingStatus)
    ensures Enabled(s, Close)
    ensures Step(s, Close) == Transition(s, true)
  {
  }
}
