/** The optional value the lookups of the engine return: a C function
    that answers "not found" with NULL or -1 answers None here. */
module Wrappers {

  datatype Option<T> = None | Some(value: T)
}
