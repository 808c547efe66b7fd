/**
 * The flat-token prototype of src/main.rs: spawning a token on the ground
 * with Control held, click selection with a window-level handler for
 * background clicks, and incremental dragging that adds each frame's cursor
 * displacement to the token.
 *
 * The camera ray and its intersection with the ground plane are taken as an
 * input `Option<Vec3>`: `None` stands for "no cursor in the window, no ray,
 * or no hit".
 */
module Prototype {
  import opened Ecs
  import opened Geometry
  import Selection

  const TOKEN_HEIGHT: real := 0.1

  /** Where the startup system places the first token, before the half-height lift. */
  const InitialTokenPosition := Vec3(0.0, 0.0, 0.05)

  /** One drag event: the translation moved horizontally by the cursor's displacement from `prev` to `point`. */
  function Nudged(t: Vec3, point: Vec3, prev: Vec3): (r: Vec3)
    ensures r.y == t.y
  {
    var worldDelta := Sub(point, prev);
    t.(x := t.x + worldDelta.x).(z := t.z + worldDelta.z)
  }

  /** The translation after one drag event per consecutive pair of cursor points along `points`. */
  function DragPath(t: Vec3, points: seq<Vec3>): Vec3
    decreases |points|
  {
    if |points| < 2 then t else DragPath(Nudged(t, points[1], points[0]), points[1..])
  }

  /**
   * However the cursor wanders, a run of drag events moves the token
   * horizontally by the displacement between the first and the last cursor
   * point, and never changes its height.
   */
  lemma {:induction false} DragPathTelescopes(t: Vec3, points: seq<Vec3>)
    requires |points| >= 1
    ensures var first, last := points[0], points[|points| - 1];
      DragPath(t, points) == Vec3(t.x + (last.x - first.x), t.y, t.z + (last.z - first.z))
    decreases |points|
  {
    if |points| >= 2 {
      DragPathTelescopes(Nudged(t, points[1], points[0]), points[1..]);
    }
  }

  /**
   * One cursor position along a drag: whether the window reports a cursor
   * there, and where the ray through that position meets the ground (`None`
   * when there is no ray or no hit).
   */
  datatype Sample = Sample(cursorInWindow: bool, hit: Option<Vec3>)

  /**
   * One drag event from the position `prev` to `cur`. The current point
   * needs the window's cursor, a ray and a ground hit; the earlier point is
   * computed from the cursor position minus the drag delta, so it needs
   * only its ray and ground hit. Any of these failing leaves the
   * translation as it is.
   */
  function Step(t: Vec3, prev: Sample, cur: Sample): Vec3 {
    if cur.cursorInWindow && cur.hit.Some? && prev.hit.Some? then Nudged(t, cur.hit.value, prev.hit.value) else t
  }

  /**
   * A run of drag events along a cursor path, one event per position after
   * the first: each event's earlier position is the position of the event
   * before it.
   */
  function DragEvents(t: Vec3, samples: seq<Sample>): Vec3
    decreases |samples|
  {
    if |samples| < 2 then t else DragEvents(Step(t, samples[0], samples[1]), samples[1..])
  }

  /** The samples of a path that stays in the window and whose every position meets the ground. */
  function AllHit(points: seq<Vec3>): (samples: seq<Sample>)
    ensures |samples| == |points|
  {
    seq(|points|, i requires 0 <= i < |points| => Sample(true, Some(points[i])))
  }

  /** When every projection succeeds, the drag events follow the cursor path step by step. */
  lemma {:induction false} SuccessfulEventsFollowPath(t: Vec3, points: seq<Vec3>)
    ensures DragEvents(t, AllHit(points)) == DragPath(t, points)
    decreases |points|
  {
    if |points| >= 2 {
      assert AllHit(points)[1..] == AllHit(points[1..]);
      SuccessfulEventsFollowPath(Nudged(t, points[1], points[0]), points[1..]);
    }
  }

  /**
   * A cursor position whose ray or ground hit fails cuts the run in two:
   * the event at it and the event after it (whose earlier point it is) both
   * return early, so the displacement across it is lost and the token
   * resumes from where it stopped.
   */
  lemma {:induction false} FailedProjectionSplitsPath(t: Vec3, before: seq<Sample>, cursorInWindow: bool,
                                                       after: seq<Sample>)
    ensures DragEvents(t, before + [Sample(cursorInWindow, None)] + after) == DragEvents(DragEvents(t, before), after)
    decreases |before|
  {
    var miss := Sample(cursorInWindow, None);
    var samples := before + [miss] + after;
    if |before| == 0 {
      assert samples == [miss] + after;
      if |after| >= 1 {
        assert samples[1..] == after;
      }
    } else if |before| == 1 {
      assert samples[1..] == [miss] + after;
      FailedProjectionSplitsPath(t, [], cursorInWindow, after);
    } else {
      assert samples[0] == before[0] && samples[1] == before[1];
      assert samples[1..] == before[1..] + [miss] + after;
      FailedProjectionSplitsPath(Step(t, before[0], before[1]), before[1..], cursorInWindow, after);
    }
  }

  /**
   * A position where the window reports no cursor but whose ray still meets
   * the ground loses only its own event: the next event still projects it
   * as its earlier point and moves the token from there.
   */
  lemma CursorOutsideLosesOnlyItsEvent(t: Vec3, a: Vec3, b: Vec3, c: Vec3)
    ensures DragEvents(t, [Sample(true, Some(a)), Sample(false, Some(b)), Sample(true, Some(c))]) == Nudged(t, c, b)
  {
    var samples := [Sample(true, Some(a)), Sample(false, Some(b)), Sample(true, Some(c))];
    var rest := [Sample(false, Some(b)), Sample(true, Some(c))];
    assert samples[1..] == rest && rest[1..] == [Sample(true, Some(c))];
    calc {
      DragEvents(t, samples);
      DragEvents(Step(t, samples[0], samples[1]), rest);
      DragEvents(t, rest);
      DragEvents(Step(t, rest[0], rest[1]), rest[1..]);
      Nudged(t, c, b);
    }
  }

  /**
   * The tokens of the scene and their components, one map (or set) per
   * component, keyed by entity.
   */
  class Scene {
    var nextEntity: Entity              // the next identifier the engine will hand out
    var translation: map<Entity, Vec3>  // Transform.translation
    var outline: map<Entity, bool>      // OutlineVolume.visible
    var selected: set<Entity>           // entities carrying the Selected marker

    /** The spawned tokens: the entities with an OutlineVolume. */
    function Tokens(): set<Entity>
      reads this
    {
      outline.Keys
    }

    ghost predicate Valid()
      reads this
    {
      translation.Keys == Tokens() && selected <= Tokens() &&
      forall e :: e in Tokens() ==> e < nextEntity
    }

    /** The selection state the click handler reads and writes. */
    function Marks(): Selection.Marks
      reads this
    {
      Selection.Marks(outline, selected)
    }

    /** `spawn_initial_token`: the scene starts with one unselected token. */
    constructor ()
      ensures Valid() && Selection.Mirrored(Marks())
      ensures Tokens() == {0} && selected == {}
      ensures translation[0] == Raised(InitialTokenPosition, TOKEN_HEIGHT / 2.0)
    {
      nextEntity := 1;
      translation := map[0 := Raised(InitialTokenPosition, TOKEN_HEIGHT / 2.0)];
      outline := map[0 := false];
      selected := {};
    }

    /**
     * `spawn_token`: a new entity with a translation half a token above
     * `position`, a hidden outline and no Selected marker.
     */
    method SpawnToken(position: Vec3) returns (e: Entity)
      requires Valid()
      modifies this
      ensures Valid()
      ensures e !in old(Tokens()) && Tokens() == old(Tokens()) + {e}
      ensures translation == old(translation)[e := Raised(position, TOKEN_HEIGHT / 2.0)]
      ensures outline == old(outline)[e := false]
      ensures selected == old(selected)
    {
      e := nextEntity;
      nextEntity := nextEntity + 1;
      translation := translation[e := Raised(position, TOKEN_HEIGHT / 2.0)];
      outline := outline[e := false];
    }

    /**
     * `spawn_token_on_click`: nothing happens unless a Control key is held;
     * then a token is spawned where the cursor's ray meets the ground plane,
     * if it does.
     */
    method SpawnTokenOnClick(controlLeft: bool, controlRight: bool, groundHit: Option<Vec3>)
      returns (spawned: Option<Entity>)
      requires Valid()
      modifies this
      ensures Valid()
      ensures spawned.Some? <==> (controlLeft || controlRight) && groundHit.Some?
      ensures spawned.None? ==>
        Tokens() == old(Tokens()) && translation == old(translation) &&
        outline == old(outline) && selected == old(selected)
      ensures spawned.Some? ==>
        var e := spawned.value;
        e !in old(Tokens()) && Tokens() == old(Tokens()) + {e} &&
        translation == old(translation)[e := Raised(groundHit.value, TOKEN_HEIGHT / 2.0)] &&
        outline == old(outline)[e := false] && selected == old(selected)
      ensures old(Selection.Mirrored(Marks())) ==> Selection.Mirrored(Marks())
    {
      spawned := None;
      if !controlLeft && !controlRight {
        return;
      }
      if groundHit.Some? {
        var e := SpawnToken(groundHit.value);
        spawned := Some(e);
      }
    }

    /**
     * `select_on_click` for a press on `target`: a token when the press hit
     * one, or the window (which has no OutlineVolume) when it hit nothing.
     */
    method SelectOnClick(target: Entity, shiftLeft: bool, shiftRight: bool)
      requires Valid()
      modifies this`outline, this`selected
      ensures Valid()
      ensures Marks() == Selection.Click(old(Marks()), target, shiftLeft || shiftRight)
      ensures old(Selection.Mirrored(Marks())) ==> Selection.Mirrored(Marks())
    {
      var multiSelect := shiftLeft || shiftRight;
      var r := Selection.SelectOnClick(Marks(), target, multiSelect);
      if Selection.Mirrored(Marks()) {
        Selection.ClickKeepsMirrored(Marks(), target, multiSelect);
      }
      outline, selected := r.outline, r.selected;
    }

    /**
     * `drag_on_drag`: `point` is where the cursor's ray meets the ground
     * plane now and `prevPoint` where the ray through the cursor position
     * one drag delta earlier meets it. Either projection failing ignores the
     * event; a target without a transform makes `unwrap` abort; otherwise
     * the token moves horizontally by the difference of the two points.
     */
    method DragOnDrag(target: Entity, point: Option<Vec3>, prevPoint: Option<Vec3>)
      returns (status: DragStatus)
      requires Valid()
      modifies this`translation
      ensures Valid()
      ensures status == Ignored <==> point.None? || prevPoint.None?
      ensures status == Panicked <==> point.Some? && prevPoint.Some? && target !in old(translation)
      ensures translation ==
        if status == Moved then old(translation)[target := Nudged(old(translation)[target], point.value, prevPoint.value)]
        else old(translation)
    {
      if point.None? {
        return Ignored;
      }
      if prevPoint.None? {
        return Ignored;
      }
      var worldDelta := Sub(point.value, prevPoint.value);
      if target !in translation {
        return Panicked;
      }
      var t := translation[target];
      t := t.(x := t.x + worldDelta.x);
      t := t.(z := t.z + worldDelta.z);
      translation := translation[target := t];
      status := Moved;
    }
  }
}
