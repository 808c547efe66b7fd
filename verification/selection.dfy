/**
 * The click-to-select logic shared by both token handlers (`select_on_click`
 * and its helper `deselect_all`, which read the same in src/token.rs and
 * src/main.rs).
 *
 * The handler sees the entities its query matches together with each one's
 * outline flag (`OutlineVolume.visible`) and whether it carries the
 * `Selected` marker. Outline flags are written in place at once; marker
 * changes go through deferred commands, queued in order while the handler
 * runs and applied after it returns. Every branch decision therefore reads
 * the markers as they were before the click.
 */
module Selection {
  import opened Ecs

  /** The state one click reads and writes. */
  datatype Marks = Marks(
    outline: map<Entity, bool>,  // the entities the query matches, with their outline flag
    selected: set<Entity>)       // the entities that carry the `Selected` marker

  /** Every marker sits on a queried entity, and an outline shows exactly when its entity is selected. */
  predicate Mirrored(m: Marks) {
    m.selected <= m.outline.Keys &&
    forall e :: e in m.outline ==> (m.outline[e] <==> e in m.selected)
  }

  /** A queued change to the `Selected` marker. */
  datatype MarkerCommand = InsertSelected(entity: Entity) | RemoveSelected(entity: Entity)

  function Apply(selected: set<Entity>, c: MarkerCommand): set<Entity> {
    match c
    case InsertSelected(e) => selected + {e}
    case RemoveSelected(e) => selected - {e}
  }

  /** The markers after a command queue is flushed, first command first. */
  function ApplyAll(selected: set<Entity>, queue: seq<MarkerCommand>): set<Entity>
    decreases |queue|
  {
    if queue == [] then selected else ApplyAll(Apply(selected, queue[0]), queue[1..])
  }

  /** Flushing a queue with one more command at its end is flushing the queue, then that command. */
  lemma {:induction false} ApplyAllSnoc(selected: set<Entity>, queue: seq<MarkerCommand>, c: MarkerCommand)
    ensures ApplyAll(selected, queue + [c]) == Apply(ApplyAll(selected, queue), c)
    decreases |queue|
  {
    if queue == [] {
      assert [c][1..] == [];
    } else {
      assert (queue + [c])[0] == queue[0];
      assert (queue + [c])[1..] == queue[1..] + [c];
      ApplyAllSnoc(Apply(selected, queue[0]), queue[1..], c);
    }
  }

  /**
   * What one click does, stated on the whole state at once: without the
   * multi-select modifier every selected entity is cleared; then a queried
   * target is toggled off when multi-select is on and it was selected, and
   * selected otherwise. A target the query does not match (the window, on a
   * background click) is left alone.
   */
  function Click(m: Marks, target: Entity, multiSelect: bool): (r: Marks)
    ensures r.outline.Keys == m.outline.Keys
  {
    var kept := if multiSelect then m.selected else m.selected - m.outline.Keys;
    var toggleOff := multiSelect && target in m.selected;
    Marks(
      map e | e in m.outline ::
        if e == target then !toggleOff
        else if !multiSelect && e in m.selected then false
        else m.outline[e],
      if target !in m.outline then kept
      else if toggleOff then kept - {target}
      else kept + {target})
  }

  /**
   * `deselect_all`: walks the query; for each entity holding the marker it
   * queues the marker's removal and hides the outline at once.
   */
  method DeselectAll(outline: map<Entity, bool>, selected: set<Entity>)
    returns (outline': map<Entity, bool>, queue: seq<MarkerCommand>)
    ensures outline'.Keys == outline.Keys
    ensures forall e :: e in outline ==> outline'[e] == (outline[e] && e !in selected)
    ensures ApplyAll(selected, queue) == selected - outline.Keys
  {
    outline', queue := outline, [];
    var remaining := outline.Keys;
    while remaining != {}
      invariant remaining <= outline.Keys
      invariant outline'.Keys == outline.Keys
      invariant forall e :: e in outline ==>
        outline'[e] == if e !in remaining && e in selected then false else outline[e]
      invariant ApplyAll(selected, queue) == selected - (outline.Keys - remaining)
      decreases remaining
    {
      var e :| e in remaining;
      if e in selected {
        ApplyAllSnoc(selected, queue, RemoveSelected(e));
        queue := queue + [RemoveSelected(e)];
        outline' := outline'[e := false];
      }
      remaining := remaining - {e};
    }
  }

  /**
   * `select_on_click`: the handler run for one press on `target`. The marker
   * test on the target reads `selected`, which the queued commands have not
   * touched yet; the queue is flushed when the handler returns.
   */
  method SelectOnClick(m: Marks, target: Entity, multiSelect: bool) returns (r: Marks)
    ensures r == Click(m, target, multiSelect)
  {
    var outline, queue := m.outline, [];
    if !multiSelect {
      outline, queue := DeselectAll(m.outline, m.selected);
    }
    if target in outline {
      var wasSelected := target in m.selected;
      var c;
      if multiSelect && wasSelected {
        c := RemoveSelected(target);
        outline := outline[target := false];
      } else {
        c := InsertSelected(target);
        outline := outline[target := true];
      }
      ApplyAllSnoc(m.selected, queue, c);
      queue := queue + [c];
    }
    r := Marks(outline, ApplyAll(m.selected, queue));
  }

  /** A plain click leaves exactly the clicked token selected, or nothing when it hit no token. */
  lemma ExclusiveClick(m: Marks, target: Entity)
    requires m.selected <= m.outline.Keys
    ensures Click(m, target, false).selected == if target in m.outline then {target} else {}
  {
  }

  /** After a plain click at most one entity is selected. */
  lemma ExclusiveClickSelectsAtMostOne(m: Marks, target: Entity)
    requires m.selected <= m.outline.Keys
    ensures |Click(m, target, false).selected| <= 1
  {
    ExclusiveClick(m, target);
  }

  /** A plain click on the background clears every selection, and a second one changes nothing. */
  lemma BackgroundClickClears(m: Marks, background: Entity)
    requires Mirrored(m)
    requires background !in m.outline
    ensures Click(m, background, false).selected == {}
    ensures Click(Click(m, background, false), background, false) == Click(m, background, false)
  {
    var once := Click(m, background, false);
    assert once.selected == {};
    var twice := Click(once, background, false);
    assert twice.outline == once.outline;
  }

  /** A multi-select click toggles the clicked token and touches no other entity. */
  lemma MultiClickToggles(m: Marks, target: Entity)
    ensures var r := Click(m, target, true);
      r.selected == if target !in m.outline then m.selected
                    else if target in m.selected then m.selected - {target}
                    else m.selected + {target}
    ensures var r := Click(m, target, true);
      forall e :: e in m.outline && e != target ==>
        r.outline[e] == m.outline[e] && (e in r.selected <==> e in m.selected)
  {
  }

  /** Two multi-select clicks on the same entity undo each other. */
  lemma MultiClickTwiceRestores(m: Marks, target: Entity)
    requires Mirrored(m)
    ensures Click(Click(m, target, true), target, true) == m
  {
    var twice := Click(Click(m, target, true), target, true);
    assert twice.outline == m.outline;
  }

  /** Every click keeps "outline shown exactly when selected". */
  lemma ClickKeepsMirrored(m: Marks, target: Entity, multiSelect: bool)
    requires Mirrored(m)
    ensures Mirrored(Click(m, target, multiSelect))
  {
  }

  /** Three tokens: clicking A and then B without the modifier leaves only B selected. */
  lemma ExclusiveScenario(m: Marks, a: Entity, b: Entity, c: Entity)
    requires Mirrored(m)
    requires a in m.outline && b in m.outline && c in m.outline
    requires a != b && b != c && a != c
    ensures Click(m, a, false).selected == {a}
    ensures Click(Click(m, a, false), b, false).selected == {b}
    ensures var r := Click(Click(m, a, false), b, false);
      !r.outline[a] && r.outline[b] && !r.outline[c]
  {
    ExclusiveClick(m, a);
    ClickKeepsMirrored(m, a, false);
    ExclusiveClick(Click(m, a, false), b);
    ClickKeepsMirrored(Click(m, a, false), b, false);
  }

  /**
   * Clicking A plainly and then B with the modifier selects both; clicking B
   * again with the modifier leaves only A.
   */
  lemma MultiSelectScenario(m: Marks, a: Entity, b: Entity)
    requires Mirrored(m)
    requires a in m.outline && b in m.outline && a != b
    ensures Click(Click(m, a, false), b, true).selected == {a, b}
    ensures Click(Click(Click(m, a, false), b, true), b, true).selected == {a}
  {
    var one := Click(m, a, false);
    ExclusiveClick(m, a);
    MultiClickToggles(one, b);
    MultiClickToggles(Click(one, b, true), b);
  }
}
