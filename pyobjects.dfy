/**
  The part of the host interpreter's object model that the dbi layer touches:
  objects with a type pointer and a reference count, the two reference-count
  macros, allocation, argument parsing for the "O" format, and the foreign
  operations the layer calls but does not define.
 */
module PyObjects {
  import opened Wrappers

  /** The type object an object's `ob_type` points at: one of the three
      container types that ext/dbi.c defines, or a type of the host. */
  datatype PyType = DbiDateType | DbiRawType | DbiRowIdType | HostType(name: string)

  /** A heap object. `objectOf` is the one field of a dbi container and is
      meaningful only when `ty` is a container type; `live` is false once
      the object's storage has been freed. */
  class Obj {
    const ty: PyType
    var refcnt: nat
    var objectOf: Obj?
    var live: bool

    /** PyObject_NEW: a new object of type `t` holding the caller's single
        reference, its own field not yet set. */
    constructor Alloc(t: PyType)
      ensures ty == t && refcnt == 1 && objectOf == null && live
    {
      ty := t;
      refcnt := 1;
      objectOf := null;
      live := true;
    }
  }

  /** The type of the list objects the host makes. */
  const ListType: PyType := HostType("list")

  /** Py_INCREF: one more reference to `o`, nothing else changes. */
  method Incref(o: Obj)
    modifies o`refcnt
    ensures o.refcnt == old(o.refcnt) + 1
  {
    o.refcnt := o.refcnt + 1;
  }

  /** Py_DECREF, without the deallocation of `o` when the count reaches zero. */
  method Decref(o: Obj)
    requires o.refcnt >= 1
    modifies o`refcnt
    ensures o.refcnt == old(o.refcnt) - 1
  {
    o.refcnt := o.refcnt - 1;
  }

  /** PyArg_ParseTuple(args, "O", &ob) over the items of the argument tuple:
      the format "O" accepts exactly one object and binds it. */
  function ParseOneObject(args: seq<Obj>): Option<Obj> {
    if |args| == 1 then Some(args[0]) else None
  }

  /**
    The host operations ext/dbi.c calls but does not define, as functions the
    model leaves open. A result of `null` is a NULL return with an exception set.
    - numeric(n): PyNumber_Check holds of objects of host type n (in Python 2.x
      the type has a number table with `nb_int` or `nb_float`);
    - numberTable(n): host type n fills `tp_as_number` at all, so the slots of
      its number table can be looked up;
    - toInt(o): PyNumber_Int(o), the new integer object or null;
    - asLong(o): PyInt_AsLong(o), a C long;
    - ctime(l): the text ctime(3) produces for the time l;
    - add, subtract, compare: the nb_add, nb_subtract and tp_compare slots of the
      host type with the given name, applied to two operands.
   */
  datatype Host = Host(
    numeric: string -> bool,
    numberTable: string -> bool,
    toInt: Obj -> Obj?,
    asLong: Obj -> int,
    ctime: int -> string,
    add: (string, Obj, Obj) -> Obj?,
    subtract: (string, Obj, Obj) -> Obj?,
    compare: (string, Obj, Obj) -> int)
}
