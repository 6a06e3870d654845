/** The usual optional value, and a lemma about counting. */
module Wrappers {
  datatype Option<+T> = None | Some(value: T)

  lemma CountOneMore<T>(s: set<T>, todo: set<T>, x: T)
    requires x in todo
    ensures |s - (todo - {x})| == |s - todo| + if x in s then 1 else 0
  {
    assert s - (todo - {x}) == s - todo + if x in s then {x} else {};
  }
}
