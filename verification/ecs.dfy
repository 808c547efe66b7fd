/** Entities and optional values, as the engine's entity-component store exposes them. */
module Ecs {

  /** An entity identifier; tokens, the ground and the window are all entities. */
  type Entity = nat

  /** A value that may be absent: a missing cursor, ray hit or drag anchor. */
  datatype Option<+T> = None | Some(value: T)

  /** What a drag handler did with one event. */
  datatype DragStatus =
    | Moved     // the translation was updated
    | Ignored   // a lookup or projection failed and the handler returned early
    | Panicked  // an `unwrap` met an absent value and aborted the handler
}
