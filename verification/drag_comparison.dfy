/**
 * How the two drag designs relate: the anchored free drag of src/token.rs
 * and the incremental drag of src/main.rs put a token in the same place
 * when they see the same cursor path and start from the same translation.
 */
module DragComparison {
  import opened Ecs
  import opened Geometry
  import Token
  import Prototype

  /**
   * Dragging from `start` with the cursor passing through `points`: the
   * incremental design, summing every frame's displacement, ends where the
   * anchored free drag puts the token for the last point alone.
   */
  lemma AnchoredMatchesIncremental(start: Vec3, points: seq<Vec3>, forward: Vec3)
    requires |points| >= 1
    ensures Prototype.DragPath(start, points)
         == Token.DragTranslation(Token.Simple, start, points[0], points[|points| - 1], start, forward)
  {
    Prototype.DragPathTelescopes(start, points);
  }

  /**
   * The two designs part ways when a projection fails mid-path: with the
   * ground hit at the origin, then missing, then at (5,0,0), the incremental
   * drag leaves the token where it started, while the anchored free drag
   * puts it at (5,0,0) at the next event it can project.
   */
  lemma FailedProjectionDiverges(forward: Vec3)
    ensures Prototype.DragEvents(Zero, [Prototype.Sample(true, Some(Zero)), Prototype.Sample(true, None),
                                        Prototype.Sample(true, Some(Vec3(5.0, 0.0, 0.0)))]) == Zero
    ensures Token.DragTranslation(Token.Simple, Zero, Zero, Vec3(5.0, 0.0, 0.0), Zero, forward)
         == Vec3(5.0, 0.0, 0.0)
  {
    var before, after := [Prototype.Sample(true, Some(Zero))], [Prototype.Sample(true, Some(Vec3(5.0, 0.0, 0.0)))];
    Prototype.FailedProjectionSplitsPath(Zero, before, true, after);
    assert before + [Prototype.Sample(true, None)] + after
        == [Prototype.Sample(true, Some(Zero)), Prototype.Sample(true, None),
            Prototype.Sample(true, Some(Vec3(5.0, 0.0, 0.0)))];
  }
}
