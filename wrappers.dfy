/** The optional value used wherever the application may have nothing: an absent
    log file, a generation call that raised, a session with no stress level yet. */
module Wrappers {

  datatype Option<+T> = None | Some(value: T)
}
