/** A swipeable transaction row (`SwipeableTransaction`): dragging the row
    to the right (the layout is right-to-left) reveals an edit and a delete
    button; on release the row snaps open or shut. Touch and mouse drive the
    same handlers, so they are modelled once. Pointer positions are exact
    numbers. */
module Swipe {

  /** How far the row opens: the width of the two 70-pixel buttons. */
  const OpenOffset: real := 140.0

  /** Past this the row snaps open on release. */
  const SnapThreshold: real := 70.0

  datatype SwipeState = SwipeState(offset: real, dragging: bool, startX: real)

  /** What the row asks of its owner: nothing, `onEdit(transaction)` or
      `onDelete(transaction.id)`. */
  datatype Request = NoRequest | EditRequest | DeleteRequest

  datatype Event =
    | Press(x: real)   // `handleTouchStart` / `handleMouseDown`
    | Drag(x: real)    // `handleTouchMove` / `handleMouseMove`
    | Lift             // `handleTouchEnd` / `handleMouseUp`
    | Leave            // `handleMouseLeave`
    | ButtonPressed    // the edit or the delete button: `resetSwipe`

  const Closed := SwipeState(0.0, false, 0.0)

  ghost predicate InRange(s: SwipeState)
  {
    0.0 <= s.offset <= OpenOffset
  }

  /** The offset after a move `diff` pixels from where the drag began: to
      the right it follows the pointer up to the open position; to the left
      it closes at 0.3 of the distance, never below 0. */
  function MoveOffset(offset: real, diff: real): real
  {
    if diff > 0.0 then (if diff < OpenOffset then diff else OpenOffset)
    else
      var back := offset + diff * 0.3;
      if back > 0.0 then back else 0.0
  }

  /** The offset a release settles at. */
  function Snap(offset: real): real
  {
    if offset > SnapThreshold then OpenOffset else 0.0
  }

  /** One event. */
  function Step(s: SwipeState, e: Event): SwipeState
  {
    match e
    case Press(x) => s.(startX := x, dragging := true)
    case Drag(x) => if s.dragging then s.(offset := MoveOffset(s.offset, x - s.startX)) else s
    case Lift => s.(dragging := false, offset := Snap(s.offset))
    case Leave => if s.dragging then s.(dragging := false, offset := Snap(s.offset)) else s
    case ButtonPressed => s.(offset := 0.0)
  }

  /** A tap on the row edits only when the row is shut. */
  function TapRequest(s: SwipeState): Request
  {
    if s.offset == 0.0 then EditRequest else NoRequest
  }

  /** A move stays within the range; a move to the right never passes the
      pointer and reaches it below the open position; a move to the left
      never opens the row further. */
  lemma MoveOffsetBounds(offset: real, diff: real)
    requires 0.0 <= offset <= OpenOffset
    ensures var r := MoveOffset(offset, diff);
      && 0.0 <= r <= OpenOffset
      && (diff > 0.0 ==> r <= diff && (diff <= OpenOffset ==> r == diff))
      && (diff <= 0.0 ==> r <= offset)
  {
  }

  /** A release leaves the row shut or fully open, open exactly when it
      was past the threshold, and a second release changes nothing. */
  lemma SnapSettles(offset: real)
    ensures Snap(offset) == 0.0 || Snap(offset) == OpenOffset
    ensures Snap(offset) == OpenOffset <==> offset > SnapThreshold
    ensures Snap(Snap(offset)) == Snap(offset)
  {
  }

  /** Every event keeps the offset within [0, 140]. */
  lemma StepInRange(s: SwipeState, e: Event)
    requires InRange(s)
    ensures InRange(Step(s, e))
  {
    if e.Drag? && s.dragging {
      MoveOffsetBounds(s.offset, e.x - s.startX);
    }
  }

  /** Moves do nothing unless a drag is under way, and leaving the row
      ends a drag like a release and does nothing otherwise. */
  lemma IdleEventsIgnored(s: SwipeState, x: real)
    ensures !s.dragging ==> Step(s, Drag(x)) == s && Step(s, Leave) == s
    ensures s.dragging ==> Step(s, Leave) == Step(s, Lift)
  {
  }

  /** After a release, or after leaving while dragging, the row is shut or
      open and no drag is under way; after a button it is shut. */
  lemma SettledAfterRelease(s: SwipeState)
    ensures var r := Step(s, Lift);
      !r.dragging && (r.offset == 0.0 || r.offset == OpenOffset)
    ensures Step(s, ButtonPressed).offset == 0.0 && TapRequest(Step(s, ButtonPressed)) == EditRequest
  {
  }

  /** The state after the events, in order. */
  function Run(s: SwipeState, es: seq<Event>): SwipeState
    decreases es
  {
    if es == [] then s else Run(Step(s, es[0]), es[1..])
  }

  /** From any state in range, any sequence of events keeps the offset in
      [0, 140]; in particular from the initial, shut row. */
  lemma {:induction false} RunInRange(s: SwipeState, es: seq<Event>)
    requires InRange(s)
    ensures InRange(Run(s, es))
    decreases es
  {
    if es != [] {
      StepInRange(s, es[0]);
      RunInRange(Step(s, es[0]), es[1..]);
    }
  }

  /** The row: its state, and the handlers updating it. */
  class SwipeableRow {
    var offset: real
    var dragging: bool
    var startX: real

    function State(): SwipeState
      reads this
    {
      SwipeState(offset, dragging, startX)
    }

    ghost predicate Valid()
      reads this
    {
      InRange(State())
    }

    constructor()
      ensures State() == Closed && Valid()
    {
      offset := 0.0;
      dragging := false;
      startX := 0.0;
    }

    /** `handleTouchStart` / `handleMouseDown` */
    method Press(x: real)
      requires Valid()
      modifies this
      ensures State() == Step(old(State()), Event.Press(x)) && Valid()
    {
      startX := x;
      dragging := true;
    }

    /** `handleTouchMove` / `handleMouseMove` */
    method Drag(x: real)
      requires Valid()
      modifies this
      ensures State() == Step(old(State()), Event.Drag(x)) && Valid()
    {
      if !dragging {
        return;
      }
      var diff := x - startX;
      MoveOffsetBounds(offset, diff);
      if diff > 0.0 {
        offset := if diff < OpenOffset then diff else OpenOffset;
      } else {
        var back := offset + diff * 0.3;
        offset := if back > 0.0 then back else 0.0;
      }
    }

    /** `handleTouchEnd` / `handleMouseUp` */
    method Lift()
      requires Valid()
      modifies this
      ensures State() == Step(old(State()), Event.Lift) && Valid()
    {
      dragging := false;
      if offset > SnapThreshold {
        offset := OpenOffset;
      } else {
        offset := 0.0;
      }
    }

    /** `handleMouseLeave` */
    method Leave()
      requires Valid()
      modifies this
      ensures State() == Step(old(State()), Event.Leave) && Valid()
    {
      if dragging {
        dragging := false;
        if offset > SnapThreshold {
          offset := OpenOffset;
        } else {
          offset := 0.0;
        }
      }
    }

    /** A tap on the row: `offset === 0 && onEdit(transaction)`. */
    method Tap() returns (r: Request)
      ensures r == TapRequest(State())
      ensures r == EditRequest <==> offset == 0.0
    {
      r := if offset == 0.0 then EditRequest else NoRequest;
    }

    /** The edit button: `onEdit(transaction)`, then `resetSwipe`. */
    method EditPressed() returns (r: Request)
      requires Valid()
      modifies this
      ensures r == EditRequest
      ensures State() == Step(old(State()), ButtonPressed) && Valid()
    {
      r := EditRequest;
      offset := 0.0;
    }

    /** The delete button: `onDelete(transaction.id)`, then `resetSwipe`. */
    method DeletePressed() returns (r: Request)
      requires Valid()
      modifies this
      ensures r == DeleteRequest
      ensures State() == Step(old(State()), ButtonPressed) && Valid()
    {
      r := DeleteRequest;
      offset := 0.0;
    }
  }
}
