/**
  The two PyMethodDef tables of ext/dbi.c and the name lookup the host runs
  over such a table: the walk of Py_FindMethod, which stops at the first
  entry with the name. Py_InitModule instead enters every entry in the
  module's dictionary, so a later entry would override an earlier one of
  the same name; the names of `globalMethods` are distinct, so both give
  the same bindings there.
 */
module MethodTable {
  import opened Wrappers

  /** The C functions of ext/dbi.c that a table entry could bind. */
  datatype CFunction = MakeDateFn | MakeRawFn | MakeRowIdFn

  /** The calling convention flag of every entry: arguments come as a tuple. */
  const METH_VARARGS: int := 1

  /** One slot of a method table: a named entry, or the all-zero sentinel
      that ends the table. */
  datatype MethodDef = Entry(name: string, fn: CFunction, flags: int) | Sentinel

  /** `noMethods`: the attribute table of every container, only a sentinel. */
  const NoMethods: seq<MethodDef> := [Sentinel]

  /** `globalMethods`: the module's public functions. */
  const GlobalMethods: seq<MethodDef> := [
    Entry("dbDate", MakeDateFn, METH_VARARGS),
    Entry("dbiDate", MakeDateFn, METH_VARARGS),
    Entry("dbRaw", MakeRawFn, METH_VARARGS),
    Entry("dbiRaw", MakeRawFn, METH_VARARGS),
    Sentinel
  ]

  /** Slot i holds an entry and a walk from slot 0 meets no sentinel up to it. */
  ghost predicate Reached(table: seq<MethodDef>, i: int) {
    0 <= i < |table| && forall j | 0 <= j <= i :: table[j].Entry?
  }

  /** The walk of a method table: the function of the first entry before the
      sentinel whose name equals `name`, if there is one. (A table without a
      sentinel ends at its last slot.) */
  function Find(table: seq<MethodDef>, name: string): (r: Option<CFunction>)
    ensures r.None? <==> forall i | Reached(table, i) :: table[i].name != name
    ensures r.Some? ==>
      exists i | Reached(table, i) ::
        table[i].name == name && table[i].fn == r.value &&
        forall j | 0 <= j < i :: table[j].name != name
    decreases |table|
  {
    if |table| == 0 || table[0].Sentinel? then None
    else if table[0].name == name then Some(table[0].fn)
    else Find(table[1..], name)
  }

  /** The names of the entries before the sentinel, in table order. */
  function Names(table: seq<MethodDef>): (ns: seq<string>)
    ensures |ns| <= |table|
    ensures forall k | 0 <= k < |ns| :: Reached(table, k) && table[k].name == ns[k]
    ensures |ns| < |table| ==> table[|ns|].Sentinel?
    decreases |table|
  {
    if |table| == 0 || table[0].Sentinel? then []
    else [table[0].name] + Names(table[1..])
  }

  /** The attribute table of a container has no names. */
  lemma NoMethodsHaveNoNames()
    ensures Names(NoMethods) == []
  {
  }

  /** Every published name appears once, so the first-match walk and the
      module dictionary agree. */
  lemma GlobalNamesDistinct()
    ensures forall i, j | Reached(GlobalMethods, i) && Reached(GlobalMethods, j) && i < j ::
      GlobalMethods[i].name != GlobalMethods[j].name
  {
  }

  /** No name is found in the attribute table of a container. */
  lemma NoMethodsFindNothing(name: string)
    ensures Find(NoMethods, name) == None
  {
  }

  /** Exactly the four published names resolve: the two Date aliases to
      makeDate and the two Raw aliases to makeRaw. */
  lemma PublishedNames(name: string)
    ensures Find(GlobalMethods, name) ==
      if name == "dbDate" || name == "dbiDate" then Some(MakeDateFn)
      else if name == "dbRaw" || name == "dbiRaw" then Some(MakeRawFn)
      else None
  {
    var t0 := GlobalMethods;
    var t1, t2, t3, t4 := t0[1..], t0[2..], t0[3..], t0[4..];
    assert t1[1..] == t2 && t2[1..] == t3 && t3[1..] == t4 && t4 == [Sentinel];
    assert Find(t4, name) == None;
    assert Find(t3, name) == if name == "dbiRaw" then Some(MakeRawFn) else None;
    assert Find(t2, name) == if name == "dbRaw" || name == "dbiRaw" then Some(MakeRawFn) else None;
    assert Find(t1, name) ==
      if name == "dbiDate" then Some(MakeDateFn)
      else if name == "dbRaw" || name == "dbiRaw" then Some(MakeRawFn)
      else None;
  }

  /** makeRowId is bound to no public name. */
  lemma NoRowIdPublished(name: string)
    ensures Find(GlobalMethods, name) != Some(MakeRowIdFn)
  {
  }
}
