/** Helper datatype shared by the world-border model. */
module Wrappers {

  /** A value that may be absent: a lookup that found nothing, or a scan that found no level. */
  datatype Option<+T> = None | Some(value: T)
}
