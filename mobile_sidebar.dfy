/** The bottom sheet of the mobile layout (src/components/map/MobileSidebar.tsx:11-62): it is
    expanded or collapsed, and a vertical drag of more than 100 pixels flips it. Touch
    positions (`clientY`) are whole pixels. The CSS transform strings are kept as the offset
    they describe. */
module MobileSidebar {

  /** How far a drag must go before the sheet changes state. */
  const Threshold: int := 100

  /** The four pieces of component state. */
  datatype Sheet = Sheet(isExpanded: bool, isDragging: bool, dragStartY: int, currentTranslate: int)

  /** Expanded, at rest (src/components/map/MobileSidebar.tsx:12-15). */
  const Initial: Sheet := Sheet(true, false, 0, 0)

  /** The vertical transform: `Open(px)` is `translateY(px)` from the expanded position;
      `Peek(px)` is `translateY(calc(100% - 4rem + px))` from the collapsed one. */
  datatype Transform = Open(px: int) | Peek(px: int)

  /** At rest the sheet carries no offset. */
  predicate AtRest(s: Sheet) {
    !s.isDragging ==> s.currentTranslate == 0
  }

  /** `handleTouchStart` */
  function TouchStart(s: Sheet, clientY: int): Sheet {
    s.(isDragging := true, dragStartY := clientY)
  }

  function Max(a: int, b: int): int { if a < b then b else a }

  function Min(a: int, b: int): int { if a < b then a else b }

  /** `handleTouchMove`: ignored unless dragging; an expanded sheet only follows the finger
      down, a collapsed one only up. */
  function TouchMove(s: Sheet, clientY: int): Sheet {
    if !s.isDragging then s
    else
      var diff := clientY - s.dragStartY;
      if s.isExpanded then s.(currentTranslate := Max(0, diff))
      else s.(currentTranslate := Min(0, diff))
  }

  /** `handleTouchEnd` */
  function TouchEnd(s: Sheet): Sheet {
    var expanded :=
      if s.isExpanded && s.currentTranslate > Threshold then false
      else if !s.isExpanded && s.currentTranslate < -Threshold then true
      else s.isExpanded;
    s.(isDragging := false, isExpanded := expanded, currentTranslate := 0)
  }

  /** `toggleExpand` */
  function Toggle(s: Sheet): Sheet {
    s.(isExpanded := !s.isExpanded)
  }

  /** `getTransformStyle` */
  function TransformOf(s: Sheet): Transform {
    if s.isDragging then
      if s.isExpanded then Open(s.currentTranslate) else Peek(s.currentTranslate)
    else if s.isExpanded then Open(0) else Peek(0)
  }

  /** Every handler keeps the sheet without offset whenever it is not being dragged. */
  lemma StepsKeepAtRest(s: Sheet, clientY: int)
    requires AtRest(s)
    ensures AtRest(TouchStart(s, clientY)) && AtRest(TouchMove(s, clientY))
    ensures AtRest(TouchEnd(s)) && AtRest(Toggle(s))
  {
  }

  /** Touching down starts a drag from the touch position and changes nothing else. */
  lemma TouchStartEffect(s: Sheet, clientY: int)
    ensures var t := TouchStart(s, clientY);
      t.isDragging && t.dragStartY == clientY
      && t.isExpanded == s.isExpanded && t.currentTranslate == s.currentTranslate
  {
  }

  /** A move outside a drag changes nothing; inside one, the offset follows the finger but
      never upwards when expanded nor downwards when collapsed. */
  lemma TouchMoveEffect(s: Sheet, clientY: int)
    ensures !s.isDragging ==> TouchMove(s, clientY) == s
    ensures s.isDragging ==>
      var t := TouchMove(s, clientY);
      var diff := clientY - s.dragStartY;
      && t.(currentTranslate := s.currentTranslate) == s
      && (s.isExpanded ==> t.currentTranslate >= 0 && (diff >= 0 ==> t.currentTranslate == diff)
                                                  && (diff < 0 ==> t.currentTranslate == 0))
      && (!s.isExpanded ==> t.currentTranslate <= 0 && (diff <= 0 ==> t.currentTranslate == diff)
                                                   && (diff > 0 ==> t.currentTranslate == 0))
  {
  }

  /** Lifting the finger ends the drag and clears the offset; the sheet flips exactly when
      it was expanded and pulled more than 100 pixels down, or collapsed and pushed more
      than 100 pixels up. */
  lemma TouchEndEffect(s: Sheet)
    ensures !TouchEnd(s).isDragging && TouchEnd(s).currentTranslate == 0
    ensures TouchEnd(s).dragStartY == s.dragStartY
    ensures TouchEnd(s).isExpanded != s.isExpanded <==>
      (s.isExpanded && s.currentTranslate > Threshold) || (!s.isExpanded && s.currentTranslate < -Threshold)
  {
  }

  /** Toggling twice restores the sheet. */
  lemma ToggleTwice(s: Sheet)
    ensures Toggle(Toggle(s)) == s
    ensures Toggle(s).isExpanded != s.isExpanded
  {
  }

  /** At rest the transform depends on nothing but whether the sheet is expanded. */
  lemma RestingTransform(s: Sheet, t: Sheet)
    requires !s.isDragging && !t.isDragging
    ensures TransformOf(s) == TransformOf(t) <==> s.isExpanded == t.isExpanded
  {
  }

  /** Under the touch handlers alone, a whole gesture on a sheet at rest (touch at `fromY`,
      move to `toY`, lift) flips it exactly when the finger travelled more than 100 pixels
      in the direction that closes an expanded sheet or opens a collapsed one; afterwards
      the sheet is at rest again. */
  lemma GestureOutcome(s: Sheet, fromY: int, toY: int)
    requires AtRest(s) && !s.isDragging
    ensures var e := TouchEnd(TouchMove(TouchStart(s, fromY), toY));
      && !e.isDragging && e.currentTranslate == 0
      && (s.isExpanded ==> (e.isExpanded <==> toY - fromY <= Threshold))
      && (!s.isExpanded ==> (e.isExpanded <==> toY - fromY < -Threshold))
  {
  }

  /** The touch handlers alone change nothing on a tap (touch and lift without moving)
      but the recorded start. */
  lemma TapChangesNothing(s: Sheet, y: int)
    requires AtRest(s) && !s.isDragging
    ensures TouchEnd(TouchStart(s, y)) == s.(dragStartY := y)
  {
  }

  /** The drag handle also toggles on click (src/components/map/MobileSidebar.tsx:82), so a
      tap followed by the click the browser dispatches for it flips the sheet, leaving it at
      rest. */
  lemma TapThenClickFlips(s: Sheet, y: int)
    requires AtRest(s) && !s.isDragging
    ensures var e := Toggle(TouchEnd(TouchStart(s, y)));
      && e.isExpanded != s.isExpanded
      && !e.isDragging && e.currentTranslate == 0 && e.dragStartY == y
  {
  }

  /** The component: its state fields are updated in place by the handlers. */
  class SheetComponent {
    var isExpanded: bool
    var isDragging: bool
    var dragStartY: int
    var currentTranslate: int

    function State(): Sheet
      reads this
    {
      Sheet(isExpanded, isDragging, dragStartY, currentTranslate)
    }

    ghost predicate Valid()
      reads this
    {
      AtRest(State())
    }

    constructor ()
      ensures State() == Initial && Valid()
    {
      isExpanded := true;
      isDragging := false;
      dragStartY := 0;
      currentTranslate := 0;
    }

    method HandleTouchStart(clientY: int)
      requires Valid()
      modifies this
      ensures Valid() && State() == TouchStart(old(State()), clientY)
    {
      isDragging := true;
      dragStartY := clientY;
    }

    method HandleTouchMove(clientY: int)
      requires Valid()
      modifies this
      ensures Valid() && State() == TouchMove(old(State()), clientY)
    {
      if !isDragging {
        return;
      }
      var diff := clientY - dragStartY;
      if isExpanded {
        currentTranslate := Max(0, diff);
      } else {
        currentTranslate := Min(0, diff);
      }
    }

    method HandleTouchEnd()
      requires Valid()
      modifies this
      ensures Valid() && State() == TouchEnd(old(State()))
    {
      isDragging := false;
      if isExpanded && currentTranslate > Threshold {
        isExpanded := false;
      } else if !isExpanded && currentTranslate < -Threshold {
        isExpanded := true;
      }
      currentTranslate := 0;
    }

    method ToggleExpand()
      requires Valid()
      modifies this
      ensures Valid() && State() == Toggle(old(State()))
    {
      isExpanded := !isExpanded;
    }

    /** `getTransformStyle()`: the expanded sheet sits at offset 0, the collapsed one peeks
        out; while dragging the finger's offset is added. */
    function TransformStyle(): (t: Transform)
      reads this
      ensures t.Open? <==> isExpanded
      ensures !isDragging ==> t.px == 0
      ensures isDragging ==> t.px == currentTranslate
    {
      TransformOf(State())
    }
  }
}
