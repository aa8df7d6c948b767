/** A possibly absent value. The handler returns Java `null` on several
    paths and keeps `null` in some of its fields; `None` stands for it. */
module Wrappers {

  datatype Option<+T> = None | Some(value: T)

}
