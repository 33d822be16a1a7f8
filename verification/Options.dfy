/** Optional values: SQL NULL, a Python None, an absent sorted-set member. */
module Options {
  datatype Option<+T> = None | Some(value: T)

  /** The order of a query without ORDER BY is unspecified: `rows` lists the
      members of `selected`, each once, in any order. */
  ghost predicate Enumerates<T(!new)>(rows: seq<T>, selected: set<T>) {
    && (forall x :: x in rows <==> x in selected)
    && Distinct(rows)
  }

  ghost predicate Distinct<T>(rows: seq<T>) {
    forall i, k :: 0 <= i < k < |rows| ==> rows[i] != rows[k]
  }
}
