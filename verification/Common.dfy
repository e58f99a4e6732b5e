/** Values and small facts shared by every part of the model. */
module Common {

  datatype Option<+T> = None | Some(value: T)

  /** A subset is no larger than the set that holds it. */
  lemma {:induction false} SubsetIsNoLarger<T>(small: set<T>, large: set<T>)
    requires small <= large
    ensures |small| <= |large|
  {
    if small != {} {
      var x :| x in small;
      SubsetIsNoLarger(small - {x}, large - {x});
    }
  }
}
