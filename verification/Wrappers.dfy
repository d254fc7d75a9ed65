/** Option, in place of JavaScript's `undefined` and `null`. */
module Wrappers {
  datatype Option<+T> = None | Some(value: T) {
    function GetOr(fallback: T): T {
      if None? then fallback else value
    }
  }

  /** A set being worked through: what is done and what is left of it. */
  ghost predicate Parted<T>(all: set<T>, done: set<T>, left: set<T>) {
    done + left == all && done !! left
  }

  lemma PartedStart<T>(all: set<T>)
    ensures Parted(all, {}, all)
  {
  }

  lemma PartedOn<T>(all: set<T>, done: set<T>, left: set<T>, t: T)
    requires Parted(all, done, left) && t in left
    ensures Parted(all, done + {t}, left - {t}) && t in all && t !in done
  {
  }

  lemma PartedEnd<T>(all: set<T>, done: set<T>)
    requires Parted(all, done, {})
    ensures done == all
  {
  }
}
