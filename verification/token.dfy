/**
 * The tank tabletop of src/token.rs: spawning a token with Control held,
 * selecting tokens by clicking, and an anchored drag session per token that
 * moves the token freely on the ground or only along its own heading.
 *
 * The engine's camera ray and its intersection with a horizontal plane are
 * taken as an input `Option<Vec3>`: `None` stands for "no cursor in the
 * window, no ray, or no hit".
 */
module Token {
  import opened Ecs
  import opened Geometry
  import Selection

  const TANK_HEIGHT: real := 0.75

  /** How a drag moves a token. */
  datatype DragType = Simple | Straight

  /** The per-token drag session: the two anchors captured at drag start, and the policy. */
  datatype Draggable = Draggable(startPos: Option<Vec3>, cursorStartPos: Option<Vec3>, dragType: DragType)

  /** The drag session a token is spawned with: no anchors, constrained to its heading. */
  const InitialDraggable := Draggable(None, None, Straight)

  /** The heading of a freshly spawned token: minus the local z axis of the identity rotation. */
  const InitialForward := Vec3(0.0, 0.0, -1.0)

  /**
   * Where a drag puts a token whose anchors are `startPos` and `cursorStart`
   * when the cursor now projects to `point`; `current` is the translation
   * before this event and `forward` the token's heading.
   */
  function DragTranslation(dragType: DragType, startPos: Vec3, cursorStart: Vec3, point: Vec3,
                           current: Vec3, forward: Vec3): (r: Vec3)
    ensures dragType == Simple ==> r.y == current.y
  {
    var delta := Sub(point, cursorStart);
    match dragType
    case Simple => Vec3(startPos.x + delta.x, current.y, startPos.z + delta.z)
    case Straight => Add(startPos, Scale(forward, Dot(delta, forward)))
  }

  /**
   * A free drag keeps the token's height and moves it horizontally by exactly
   * the cursor's horizontal displacement from its anchor.
   */
  lemma SimpleDragFollowsCursor(startPos: Vec3, cursorStart: Vec3, point: Vec3, current: Vec3, forward: Vec3)
    ensures var r := DragTranslation(Simple, startPos, cursorStart, point, current, forward);
      r.y == current.y &&
      r.x - startPos.x == point.x - cursorStart.x &&
      r.z - startPos.z == point.z - cursorStart.z
  {
  }

  /**
   * A drag along the heading moves the token only along that unit axis: the
   * displacement from the start is the heading times the scalar projection
   * of the cursor displacement, and it has no component across the heading.
   */
  lemma StraightDragStaysOnAxis(startPos: Vec3, cursorStart: Vec3, point: Vec3, current: Vec3, forward: Vec3)
    requires IsUnit(forward)
    ensures var moved := Sub(DragTranslation(Straight, startPos, cursorStart, point, current, forward), startPos);
      Dot(moved, forward) == Dot(Sub(point, cursorStart), forward) &&
      moved == Scale(forward, Dot(moved, forward)) &&
      forall w :: Dot(forward, w) == 0.0 ==> Dot(moved, w) == 0.0
  {
    var s := Dot(Sub(point, cursorStart), forward);
    var moved := Sub(DragTranslation(Straight, startPos, cursorStart, point, current, forward), startPos);
    assert moved == Scale(forward, s);
    DotScaleLeft(forward, s, forward);
    forall w | Dot(forward, w) == 0.0
      ensures Dot(moved, w) == 0.0
    {
      DotScaleLeft(forward, s, w);
    }
  }

  /**
   * Moving the cursor across the heading does not move a token under a
   * straight drag: only the part of the cursor displacement along the
   * heading counts.
   */
  lemma StraightDragIgnoresSideways(startPos: Vec3, cursorStart: Vec3, point: Vec3, current: Vec3,
                                    forward: Vec3, sideways: Vec3)
    requires Dot(sideways, forward) == 0.0
    ensures DragTranslation(Straight, startPos, cursorStart, Add(point, sideways), current, forward)
         == DragTranslation(Straight, startPos, cursorStart, point, current, forward)
  {
    assert Sub(Add(point, sideways), cursorStart) == Add(Sub(point, cursorStart), sideways);
    DotAddLeft(Sub(point, cursorStart), sideways, forward);
  }

  /** With a level heading, as every spawned token has, a straight drag keeps the token's height. */
  lemma StraightDragKeepsLevel(startPos: Vec3, cursorStart: Vec3, point: Vec3, current: Vec3, forward: Vec3)
    requires forward.y == 0.0
    ensures DragTranslation(Straight, startPos, cursorStart, point, current, forward).y == startPos.y
  {
  }

  /** Bringing the cursor back to its anchor puts the token back at its start (at the current height for a free drag). */
  lemma DragBackToAnchor(dragType: DragType, startPos: Vec3, cursorStart: Vec3, current: Vec3, forward: Vec3)
    ensures DragTranslation(dragType, startPos, cursorStart, cursorStart, current, forward)
         == if dragType == Simple then Vec3(startPos.x, current.y, startPos.z) else startPos
  {
  }

  /** A free drag from (0,0,0) with the cursor anchored at (2,0,3) and now at (5,0,3) lands at (3,0,0). */
  lemma FreePlanarExample(forward: Vec3)
    ensures DragTranslation(Simple, Zero, Vec3(2.0, 0.0, 3.0), Vec3(5.0, 0.0, 3.0), Zero, forward)
         == Vec3(3.0, 0.0, 0.0)
  {
  }

  /**
   * A token facing +z, anchored at the origin, with a cursor displacement of
   * (4,0,4): it moves by 4 along +z and not at all sideways.
   */
  lemma AxisConstrainedExample(cursorStart: Vec3)
    ensures DragTranslation(Straight, Zero, cursorStart, Add(cursorStart, Vec3(4.0, 0.0, 4.0)), Zero,
                            Vec3(0.0, 0.0, 1.0))
         == Vec3(0.0, 0.0, 4.0)
  {
  }

  /**
   * The tokens of the scene and their components, one map (or set) per
   * component, keyed by entity.
   */
  class Tabletop {
    var nextEntity: Entity                // the next identifier the engine will hand out
    var translation: map<Entity, Vec3>    // Transform.translation
    var forward: map<Entity, Vec3>        // the heading -local_z().normalize() of Transform.rotation
    var outline: map<Entity, bool>        // OutlineVolume.visible
    var selected: set<Entity>             // entities carrying the Selected marker
    var draggable: map<Entity, Draggable> // the Draggable component

    /** The spawned tokens: the entities that are Selectable and have every token component. */
    function Tokens(): set<Entity>
      reads this
    {
      outline.Keys
    }

    ghost predicate Valid()
      reads this
    {
      translation.Keys == Tokens() && forward.Keys == Tokens() && draggable.Keys == Tokens() &&
      selected <= Tokens() &&
      forall e :: e in Tokens() ==> e < nextEntity
    }

    /** The selection state the click handler reads and writes. */
    function Marks(): Selection.Marks
      reads this
    {
      Selection.Marks(outline, selected)
    }

    /**
     * Every token heads along a level unit axis, is outlined exactly when
     * selected, and has either both drag anchors or neither.
     */
    ghost predicate WellFormed()
      reads this
    {
      Valid() && Selection.Mirrored(Marks()) &&
      (forall e :: e in forward ==> IsUnit(forward[e]) && forward[e].y == 0.0) &&
      forall e :: e in draggable ==> (draggable[e].startPos.Some? <==> draggable[e].cursorStartPos.Some?)
    }

    constructor ()
      ensures Valid() && WellFormed() && Tokens() == {}
    {
      nextEntity := 0;
      translation, forward, outline, selected, draggable := map[], map[], map[], {}, map[];
    }

    /**
     * `spawn_token`: a new entity with a translation half a tank above
     * `position`, an identity rotation, a hidden outline, no Selected marker
     * and an empty straight-drag session.
     */
    method SpawnToken(position: Vec3) returns (e: Entity)
      requires Valid()
      modifies this
      ensures Valid()
      ensures e !in old(Tokens()) && Tokens() == old(Tokens()) + {e}
      ensures translation == old(translation)[e := Raised(position, TANK_HEIGHT / 2.0)]
      ensures forward == old(forward)[e := InitialForward]
      ensures outline == old(outline)[e := false]
      ensures selected == old(selected)
      ensures draggable == old(draggable)[e := InitialDraggable]
    {
      e := nextEntity;
      nextEntity := nextEntity + 1;
      translation := translation[e := Raised(position, TANK_HEIGHT / 2.0)];
      forward := forward[e := InitialForward];
      outline := outline[e := false];
      draggable := draggable[e := InitialDraggable];
    }

    /**
     * `spawn_token_on_click`: nothing happens unless a Control key is held;
     * then a token is spawned where the cursor's ray meets the ground plane
     * y = 0, if it does.
     */
    method SpawnTokenOnClick(controlLeft: bool, controlRight: bool, groundHit: Option<Vec3>)
      returns (spawned: Option<Entity>)
      requires Valid()
      modifies this
      ensures Valid()
      ensures spawned.Some? <==> (controlLeft || controlRight) && groundHit.Some?
      ensures spawned.None? ==>
        Tokens() == old(Tokens()) && translation == old(translation) && forward == old(forward) &&
        outline == old(outline) && selected == old(selected) && draggable == old(draggable)
      ensures spawned.Some? ==>
        var e := spawned.value;
        e !in old(Tokens()) && Tokens() == old(Tokens()) + {e} &&
        translation == old(translation)[e := Raised(groundHit.value, TANK_HEIGHT / 2.0)] &&
        forward == old(forward)[e := InitialForward] &&
        outline == old(outline)[e := false] && selected == old(selected) &&
        draggable == old(draggable)[e := InitialDraggable]
      ensures old(WellFormed()) ==> WellFormed()
    {
      spawned := None;
      if !controlLeft && !controlRight {
        return;
      }
      if groundHit.Some? {
        var e := SpawnToken(groundHit.value);
        spawned := Some(e);
      }
    }

    /**
     * `select_on_click` for a press on `target` (a token, or the window on a
     * background click), with the Shift keys as the multi-select modifier.
     */
    method SelectOnClick(target: Entity, shiftLeft: bool, shiftRight: bool)
      requires Valid()
      modifies this`outline, this`selected
      ensures Valid()
      ensures Marks() == Selection.Click(old(Marks()), target, shiftLeft || shiftRight)
      ensures old(WellFormed()) ==> WellFormed()
    {
      var multiSelect := shiftLeft || shiftRight;
      var r := Selection.SelectOnClick(Marks(), target, multiSelect);
      if Selection.Mirrored(Marks()) {
        Selection.ClickKeepsMirrored(Marks(), target, multiSelect);
      }
      outline, selected := r.outline, r.selected;
    }

    /**
     * `drag_start_fn`: when the cursor's ray meets the plane y = TANK_HEIGHT/2
     * at `planeHit` and `target` is a token, the drag session anchors the
     * cursor at that point and the token at its current translation;
     * otherwise nothing changes.
     */
    method DragStart(target: Entity, planeHit: Option<Vec3>)
      requires Valid()
      modifies this`draggable
      ensures Valid()
      ensures draggable ==
        if planeHit.Some? && target in Tokens() then
          old(draggable)[target := old(draggable)[target].(cursorStartPos := Some(planeHit.value),
                                                          startPos := Some(translation[target]))]
        else old(draggable)
      ensures old(WellFormed()) ==> WellFormed()
    {
      if planeHit.None? {
        return;
      }
      var point := planeHit.value;
      if target !in draggable {
        return;
      }
      var d := draggable[target];
      d := d.(cursorStartPos := Some(point));
      d := d.(startPos := Some(translation[target]));
      draggable := draggable[target := d];
    }

    /**
     * `drag_fn`: a drag event on `target` whose cursor ray meets the plane
     * y = TANK_HEIGHT/2 at `planeHit`. A missing token or projection is
     * ignored; a missing anchor makes `unwrap` abort; otherwise the token is
     * placed by its drag policy relative to the anchors.
     */
    method Drag(target: Entity, planeHit: Option<Vec3>) returns (status: DragStatus)
      requires Valid()
      modifies this`translation
      ensures Valid()
      ensures status == Ignored <==> target !in Tokens() || planeHit.None?
      ensures status == Panicked <==>
        target in Tokens() && planeHit.Some? &&
        (draggable[target].cursorStartPos.None? || draggable[target].startPos.None?)
      ensures translation ==
        if status == Moved then
          var d := draggable[target];
          old(translation)[target := DragTranslation(d.dragType, d.startPos.value, d.cursorStartPos.value,
                                                     planeHit.value, old(translation)[target], forward[target])]
        else old(translation)
      ensures old(WellFormed()) ==> WellFormed()
    {
      if target !in translation {
        return Ignored;
      }
      if planeHit.None? {
        return Ignored;
      }
      var point := planeHit.value;
      var d := draggable[target];
      if d.cursorStartPos.None? || d.startPos.None? {
        return Panicked;
      }
      var worldDelta := Sub(point, d.cursorStartPos.value);
      var t := translation[target];
      match d.dragType {
        case Simple =>
          t := t.(x := d.startPos.value.x + worldDelta.x);
          t := t.(z := d.startPos.value.z + worldDelta.z);
        case Straight =>
          var direction := forward[target];
          var signedDistance := Dot(worldDelta, direction);
          t := Add(d.startPos.value, Scale(direction, signedDistance));
      }
      translation := translation[target := t];
      status := Moved;
    }
  }
}
