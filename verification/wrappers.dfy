/** The optional value used wherever the program may produce nothing: a log call
    that is silently skipped, or a setting that was never supplied (null). */
module Wrappers {

  datatype Option<+T> = None | Some(value: T)

}
