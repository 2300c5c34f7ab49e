/** An optional value, used where the viewer may have nothing (no key intent, a hidden hotspot, no model). */
module Wrappers {
  datatype Option<+T> = None | Some(value: T)
}
