/** Vocabulary shared by every part of the model. */
module Values {

  datatype Option<+T> = None | Some(value: T)

  /** A Go map of labels or annotations; the nil map and the empty one are the same value here. */
  type Labels = map<string, string>

  /** Namespace and name of a HigressGateway, the key of its reconcile requests. */
  datatype Id = Id(ns: string, name: string)

  ghost predicate NoDuplicates<T>(s: seq<T>) {
    forall i, j | 0 <= i < j < |s| :: s[i] != s[j]
  }
}
