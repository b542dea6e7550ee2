/** Values shared by every part of the model: optional values, handles and plain geometry. */
module Base {

  /** An optional value (`Option` in the source). */
  datatype Option<+T> = None | Some(value: T)

  /** Identity of a `wl_surface`: the key of every per-surface map of the compositor. */
  type SurfaceId = nat

  /** Identity of an output (a monitor as the protocol sees it). */
  type OutputId = nat

  /** Identity of a workspace of the layout. */
  type WorkspaceId = nat

  /** An input serial, issued by the seat in increasing order. */
  type Serial = nat

  /** A logical point; `i32` in the source, unbounded here. */
  datatype Point = Point(x: int, y: int)

  /** A logical size; `i32` in the source, unbounded here. */
  datatype Size = Size(w: int, h: int)
}
