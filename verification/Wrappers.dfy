// Stock result types shared by the other modules.
module Wrappers {

  datatype Option<+T> = None | Some(value: T)

  // Some element of a nonempty set.
  ghost function Pick<T>(s: set<T>): (x: T)
    requires s != {}
    ensures x in s
  {
    var x :| x in s;
    x
  }
}
