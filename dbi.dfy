/**
  The dbi tagging layer of ext/dbi.c: a container with one field, `objectOf`,
  whose type is one of DbiDate, DbiRaw and DbiRowId; its two constructor
  families, its destructor, its attribute lookup, the kind predicates, the
  renderers of the Date and Raw kinds, and the Date kind's delegation of
  arithmetic, comparison and coercion to the wrapped object.
 */
module Dbi {
  import opened Wrappers
  import opened PyObjects
  import MethodTable

  // ---------------------------------------------------------------- kinds

  /** The three container types defined by the module. */
  predicate IsContainerType(t: PyType) {
    t.DbiDateType? || t.DbiRawType? || t.DbiRowIdType?
  }

  /** dbiIsDate, dbiIsRaw, dbiIsRowId: identity of the type pointer. */
  predicate IsDate(o: Obj) { o.ty == DbiDateType }
  predicate IsRaw(o: Obj) { o.ty == DbiRawType }
  predicate IsRowId(o: Obj) { o.ty == DbiRowIdType }

  /** At most one kind predicate holds of any object, and one holds exactly
      of the containers. */
  lemma KindPredicatesExclusive(o: Obj)
    ensures !(IsDate(o) && IsRaw(o)) && !(IsDate(o) && IsRowId(o)) && !(IsRaw(o) && IsRowId(o))
    ensures IsContainerType(o.ty) <==> IsDate(o) || IsRaw(o) || IsRowId(o)
  {
  }

  /** A live container owning one counted reference to an object other than itself. */
  predicate Valid(c: Obj)
    reads c, c.objectOf
  {
    IsContainerType(c.ty) && c.live && c.objectOf != null && c.objectOf != c &&
    c.objectOf.refcnt >= 1
  }

  /** A container just allocated for type `ty` around `x`, holding the single
      reference its creator returns. */
  predicate NewContainer(c: Obj, ty: PyType, x: Obj)
    reads c
  {
    c.ty == ty && c.objectOf == x && c.refcnt == 1 && c.live
  }

  /** dbiValue: the wrapped object, read from the container's one field. */
  function Value(o: Obj): Obj?
    requires IsContainerType(o.ty)
    reads o
  {
    o.objectOf
  }

  // --------------------------------------------------------- constructors

  /** makeDbiTypeTP: parse exactly one argument and wrap it in a new
      container of type `ty`, taking a new reference to it. A parse failure
      returns NULL and changes no count. */
  method MakeDbiTypeTP(args: seq<Obj>, ty: PyType) returns (c: Obj?)
    requires IsContainerType(ty)
    modifies args
    ensures c == null <==> |args| != 1
    ensures c == null ==> unchanged(args)
    ensures c != null ==>
      fresh(c) && NewContainer(c, ty, args[0]) && Valid(c) && Value(c) == args[0] &&
      args[0].refcnt == old(args[0].refcnt) + 1 &&
      args[0].objectOf == old(args[0].objectOf) && args[0].live == old(args[0].live)
  {
    c := null;
    var parsed := ParseOneObject(args);
    if parsed.Some? {
      var ob := parsed.value;
      var dbt := new Obj.Alloc(ty);
      dbt.objectOf := ob;
      Incref(ob);
      c := dbt;
    }
  }

  /** makeDate: the DbiDate instance of makeDbiTypeTP. */
  method MakeDate(args: seq<Obj>) returns (c: Obj?)
    modifies args
    ensures c == null <==> |args| != 1
    ensures c == null ==> unchanged(args)
    ensures c != null ==>
      fresh(c) && NewContainer(c, DbiDateType, args[0]) && Valid(c) && Value(c) == args[0] &&
      IsDate(c) && !IsRaw(c) && !IsRowId(c) &&
      args[0].refcnt == old(args[0].refcnt) + 1 &&
      args[0].objectOf == old(args[0].objectOf) && args[0].live == old(args[0].live)
  {
    c := MakeDbiTypeTP(args, DbiDateType);
  }

  /** makeRaw: the DbiRaw instance of makeDbiTypeTP. */
  method MakeRaw(args: seq<Obj>) returns (c: Obj?)
    modifies args
    ensures c == null <==> |args| != 1
    ensures c == null ==> unchanged(args)
    ensures c != null ==>
      fresh(c) && NewContainer(c, DbiRawType, args[0]) && Valid(c) && Value(c) == args[0] &&
      IsRaw(c) && !IsDate(c) && !IsRowId(c) &&
      args[0].refcnt == old(args[0].refcnt) + 1 &&
      args[0].objectOf == old(args[0].objectOf) && args[0].live == old(args[0].live)
  {
    c := MakeDbiTypeTP(args, DbiRawType);
  }

  /** makeRowId: the DbiRowId instance of makeDbiTypeTP. */
  method MakeRowId(args: seq<Obj>) returns (c: Obj?)
    modifies args
    ensures c == null <==> |args| != 1
    ensures c == null ==> unchanged(args)
    ensures c != null ==>
      fresh(c) && NewContainer(c, DbiRowIdType, args[0]) && Valid(c) && Value(c) == args[0] &&
      IsRowId(c) && !IsDate(c) && !IsRaw(c) &&
      args[0].refcnt == old(args[0].refcnt) + 1 &&
      args[0].objectOf == old(args[0].objectOf) && args[0].live == old(args[0].live)
  {
    c := MakeDbiTypeTP(args, DbiRowIdType);
  }

  /** makeDbiType: wrap `o` in a new container of type `ty`, stealing the
      caller's reference: no count changes. */
  method MakeDbiType(o: Obj, ty: PyType) returns (c: Obj)
    requires IsContainerType(ty)
    ensures fresh(c) && NewContainer(c, ty, o) && Value(c) == o
    ensures o.refcnt == old(o.refcnt)
    ensures o.refcnt >= 1 ==> Valid(c)
  {
    c := new Obj.Alloc(ty);
    c.objectOf := o;
  }

  /** dbiMakeDate: a Date container around `contents`, whose reference it steals. */
  method DbiMakeDate(contents: Obj) returns (c: Obj)
    ensures fresh(c) && NewContainer(c, DbiDateType, contents) && Value(c) == contents
    ensures IsDate(c) && !IsRaw(c) && !IsRowId(c)
    ensures contents.refcnt == old(contents.refcnt)
    ensures contents.refcnt >= 1 ==> Valid(c)
  {
    c := MakeDbiType(contents, DbiDateType);
  }

  /** dbiMakeRaw: a Raw container around `contents`, whose reference it steals. */
  method DbiMakeRaw(contents: Obj) returns (c: Obj)
    ensures fresh(c) && NewContainer(c, DbiRawType, contents) && Value(c) == contents
    ensures IsRaw(c) && !IsDate(c) && !IsRowId(c)
    ensures contents.refcnt == old(contents.refcnt)
    ensures contents.refcnt >= 1 ==> Valid(c)
  {
    c := MakeDbiType(contents, DbiRawType);
  }

  /** dbiMakeRowId: a RowId container around `contents`, whose reference it steals. */
  method DbiMakeRowId(contents: Obj) returns (c: Obj)
    ensures fresh(c) && NewContainer(c, DbiRowIdType, contents) && Value(c) == contents
    ensures IsRowId(c) && !IsDate(c) && !IsRaw(c)
    ensures contents.refcnt == old(contents.refcnt)
    ensures contents.refcnt >= 1 ==> Valid(c)
  {
    c := MakeDbiType(contents, DbiRowIdType);
  }

  // ----------------------------------------------------------- destructor

  /** dbiDealloc, run by the host when the container's last reference is
      dropped: release the one reference to the wrapped object, then free
      the container. No other object changes. */
  method Dealloc(self: Obj)
    requires Valid(self) && self.refcnt == 0
    modifies self`live, self.objectOf`refcnt
    ensures self.objectOf == old(self.objectOf)
    ensures self.objectOf != null && self.objectOf.refcnt == old(self.objectOf.refcnt) - 1
    ensures !self.live
  {
    Decref(Value(self));
    self.live := false;
  }

  /** Construction through a module factory followed by the release of the
      container leaves the wrapped object's count where it was. */
  method WrapThenRelease(x: Obj, ty: PyType)
    requires IsContainerType(ty)
    modifies x
    ensures x.refcnt == old(x.refcnt)
    ensures x.objectOf == old(x.objectOf) && x.live == old(x.live)
  {
    var c := MakeDbiTypeTP([x], ty);
    Decref(c);
    Dealloc(c);
  }

  // ------------------------------------------------------ attribute access

  /** What an attribute lookup on a container resolves to: the wrapped
      object, the list of a method table's names, a method bound from the
      table, or nothing. */
  datatype Attr =
    | Wrapped(obj: Obj)
    | MethodNames(names: seq<string>)
    | Method(fn: MethodTable.CFunction)
    | NoAttribute

  /** The resolution dbiGetAttr performs: "value" names the wrapped object;
      every other name goes to Py_FindMethod over the empty table
      `noMethods`, so "__methods__" lists no names and nothing else
      resolves. */
  function ResolveAttr(self: Obj, name: string): (r: Attr)
    requires IsContainerType(self.ty) && self.objectOf != null
    reads self
    ensures r.Wrapped? <==> name == "value"
    ensures r.Wrapped? ==> r.obj == self.objectOf
    ensures r.MethodNames? <==> name == "__methods__"
    ensures r.MethodNames? ==> r.names == []
    ensures name != "value" && name != "__methods__" ==> r == NoAttribute
  {
    MethodTable.NoMethodsHaveNoNames();
    MethodTable.NoMethodsFindNothing(name);
    if name == "value" then Wrapped(self.objectOf)
    else FindMethod(MethodTable.NoMethods, name)
  }

  /** Py_FindMethod over one table: "__methods__" answers the names of the
      table, here in table order (the host sorts them); any other name is looked up by the walk of the table. (The
      type's doc string, answered for "__doc__", is NULL for all three
      container types, so that name falls through to the walk.) */
  function FindMethod(table: seq<MethodTable.MethodDef>, name: string): Attr {
    if name == "__methods__" then MethodNames(MethodTable.Names(table))
    else
      match MethodTable.Find(table, name)
      case Some(fn) => Method(fn)
      case None => NoAttribute
  }

  /** dbiGetAttr: for "value", a new reference to the wrapped object; for
      "__methods__", a new list (empty, as ResolveAttr states); otherwise
      NULL (AttributeError). Only the "value" case changes a count. */
  method GetAttr(self: Obj, name: string) returns (r: Obj?)
    requires Valid(self)
    modifies self.objectOf`refcnt
    ensures ResolveAttr(self, name).Wrapped? ==>
      r == self.objectOf && r.refcnt == old(r.refcnt) + 1
    ensures ResolveAttr(self, name).MethodNames? ==>
      r != null && fresh(r) && r.ty == ListType && r.refcnt == 1 &&
      self.objectOf.refcnt == old(self.objectOf.refcnt)
    ensures ResolveAttr(self, name) == NoAttribute ==>
      r == null && self.objectOf.refcnt == old(self.objectOf.refcnt)
  {
    if name == "value" {
      var val := Value(self);
      Incref(val);
      return val;
    }
    if name == "__methods__" {
      r := new Obj.Alloc(ListType);
      return;
    }
    r := null;
  }

  // ------------------------------------------------------------ renderers

  /** rawStr: the wrapped object itself, with one more reference. */
  method RawStr(o: Obj) returns (r: Obj)
    requires Valid(o)
    modifies o.objectOf`refcnt
    ensures r == o.objectOf
    ensures r.refcnt == old(r.refcnt) + 1
  {
    r := Value(o);
    Incref(r);
  }

  /** The conventional ctime(3) text: 24 characters of date and time, then
      a line terminator. */
  predicate CtimeShape(t: string) {
    |t| == 25 && t[24] == '\n' && forall i | 0 <= i < 24 :: t[i] != '\n'
  }

  /** dateStr without DATETIMEFIX: the wrapped integer is read as a C long
      and the first 24 characters of its ctime text are returned. */
  function DateStr(h: Host, o: Obj): (s: string)
    requires IsContainerType(o.ty) && o.objectOf != null
    requires |h.ctime(h.asLong(o.objectOf))| >= 24
    reads o
    ensures |s| == 24
    ensures s <= h.ctime(h.asLong(o.objectOf))
  {
    h.ctime(h.asLong(Value(o)))[..24]
  }

  /** On the conventional ctime text, dateStr gives that text without its
      line terminator. */
  lemma DateStrDropsNewline(h: Host, o: Obj)
    requires IsContainerType(o.ty) && o.objectOf != null
    requires CtimeShape(h.ctime(h.asLong(o.objectOf)))
    ensures DateStr(h, o) + "\n" == h.ctime(h.asLong(o.objectOf))
    ensures '\n' !in DateStr(h, o)
  {
  }

  // ---------------------------------------------------- Date delegation

  /** The wrapped object is a host object whose type fills `tp_as_number`,
      so the slot lookups of dt_as_number reach a table. */
  predicate Delegable(h: Host, a: Obj)
    reads a
  {
    IsContainerType(a.ty) && a.objectOf != null && a.objectOf.ty.HostType? &&
    h.numberTable(a.objectOf.ty.name)
  }

  /** dt_nb_add as written: the wrapped type's nb_add applied to
      (dbiValue(a), b), with the second operand passed on as it came. */
  function DateAdd(h: Host, a: Obj, b: Obj): Obj?
    requires Delegable(h, a)
    reads a
  {
    var x := Value(a);
    h.add(x.ty.name, x, b)
  }

  /** dt_nb_subtract as written: the wrapped type's nb_subtract applied to
      (dbiValue(a), b). */
  function DateSubtract(h: Host, a: Obj, b: Obj): Obj?
    requires Delegable(h, a)
    reads a
  {
    var x := Value(a);
    h.subtract(x.ty.name, x, b)
  }

  /** The host calls a Date container's nb_add and nb_subtract only once
      both operands are Date containers (dt_nb_coerce makes the second one
      when it is not). dt_nb_add as intended unwraps both. */
  function DateAddIntended(h: Host, a: Obj, b: Obj): Obj?
    requires Delegable(h, a) && IsContainerType(b.ty) && b.objectOf != null
    reads a, b
  {
    var x := Value(a);
    h.add(x.ty.name, x, Value(b))
  }

  /** dt_nb_subtract as intended: both operands unwrapped. */
  function DateSubtractIntended(h: Host, a: Obj, b: Obj): Obj?
    requires Delegable(h, a) && IsContainerType(b.ty) && b.objectOf != null
    reads a, b
  {
    var x := Value(a);
    h.subtract(x.ty.name, x, Value(b))
  }

  /** As written, the wrapped type's slots receive the second Date container
      itself, an object they do not know: some host tells it apart from the
      object it wraps, for both addition and subtraction. */
  lemma ArithmeticAsWrittenCanDiffer(a: Obj, b: Obj)
    requires IsDate(a) && IsDate(b) && WrapsHostObject(a) && WrapsHostObject(b)
    ensures exists h: Host :: Delegable(h, a) && DateAdd(h, a, b) != DateAddIntended(h, a, b)
    ensures exists h: Host :: Delegable(h, a) && DateSubtract(h, a, b) != DateSubtractIntended(h, a, b)
  {
    var y := b.objectOf;
    var f := (n: string, p: Obj, q: Obj) => if q == y then p else null;
    var h := Host(n => true, n => true, o => null, o => 0, l => "", f, f, (n, p, q) => 0);
    assert b != y;
    assert Delegable(h, a);
    assert DateAdd(h, a, b) == null;
    assert DateAddIntended(h, a, b) == a.objectOf;
    assert DateSubtract(h, a, b) == null;
    assert DateSubtractIntended(h, a, b) == a.objectOf;
  }

  /** The wrapped object is a host object, so its type's tp_compare is a
      host slot. */
  predicate WrapsHostObject(a: Obj)
    reads a
  {
    IsContainerType(a.ty) && a.objectOf != null && a.objectOf.ty.HostType?
  }

  /** The tp_compare slot a type table holds: dt_cmp in DbiDate_Type, none in
      DbiRaw_Type and DbiRowId_Type, and the host's own slot in a host type. */
  datatype CompareSlot = DtCmp | NoCompare | HostCompare(name: string)

  function TpCompare(t: PyType): (s: CompareSlot)
    ensures s == DtCmp <==> t == DbiDateType
    ensures s == NoCompare <==> t == DbiRawType || t == DbiRowIdType
    ensures s.HostCompare? <==> t.HostType?
    ensures s.HostCompare? ==> s.name == t.name
  {
    match t
    case DbiDateType => DtCmp
    case DbiRawType => NoCompare
    case DbiRowIdType => NoCompare
    case HostType(n) => HostCompare(n)
  }

  /** The one call dt_cmp makes: a slot applied to two operands. */
  datatype CompareCall = CompareCall(slot: CompareSlot, left: Obj, right: Obj)

  /** The call dt_cmp makes as written: the slot of the wrapped object's
      type, applied to the two containers. */
  function CmpCallAsWritten(a: Obj, b: Obj): CompareCall
    requires IsContainerType(a.ty) && a.objectOf != null
    reads a
  {
    CompareCall(TpCompare(Value(a).ty), a, b)
  }

  /** The call dt_cmp makes as intended: the same slot, applied to the two
      wrapped objects. */
  function CmpCallIntended(a: Obj, b: Obj): CompareCall
    requires IsContainerType(a.ty) && a.objectOf != null
    requires IsContainerType(b.ty) && b.objectOf != null
    reads a, b
  {
    CompareCall(TpCompare(Value(a).ty), Value(a), Value(b))
  }

  /** As written, a Date container around another Date container makes
      dt_cmp call dt_cmp again on the very same operands, so it never
      returns. */
  lemma CompareAsWrittenLoopsOnNestedDate(a: Obj, b: Obj)
    requires IsContainerType(a.ty) && a.objectOf != null && IsDate(a.objectOf)
    ensures CmpCallAsWritten(a, b) == CompareCall(DtCmp, a, b)
  {
  }

  /** As intended, a nested Date makes dt_cmp call dt_cmp one level down, on
      the wrapped objects, which a valid container never is itself. */
  lemma CompareIntendedDescends(a: Obj, b: Obj)
    requires Valid(a) && Valid(b) && IsDate(a.objectOf)
    ensures CmpCallIntended(a, b) == CompareCall(DtCmp, a.objectOf, b.objectOf)
    ensures CmpCallIntended(a, b).left != a
  {
  }

  /** dt_cmp as written: the wrapped type's tp_compare is handed the two
      containers, not the objects they wrap. */
  function CompareAsWritten(h: Host, a: Obj, b: Obj): int
    requires WrapsHostObject(a)
    reads a
  {
    h.compare(Value(a).ty.name, a, b)
  }

  /** As written, the first operand given to the wrapped type's compare is
      an object of another type (the container itself). */
  lemma CompareAsWrittenMistyped(h: Host, a: Obj, b: Obj)
    requires WrapsHostObject(a)
    ensures CmpCallAsWritten(a, b).slot == HostCompare(a.objectOf.ty.name)
    ensures CompareAsWritten(h, a, b) == h.compare(a.objectOf.ty.name, CmpCallAsWritten(a, b).left, b)
    ensures CmpCallAsWritten(a, b).left.ty != a.objectOf.ty
  {
  }

  /** As written, dt_cmp need not agree with the comparison of the wrapped
      objects: some host compare tells the operands apart. */
  lemma CompareAsWrittenCanDiffer(a: Obj, b: Obj)
    requires IsDate(a) && IsDate(b) && WrapsHostObject(a) && WrapsHostObject(b)
    ensures exists h: Host :: CompareAsWritten(h, a, b) != DateCompare(h, a, b)
  {
    var x := a.objectOf;
    var h := Host(
      n => true, n => true, o => null, o => 0, l => "",
      (n, p, q) => null, (n, p, q) => null,
      (n, p, q) => if p == x then 1 else 0);
    assert a != x;
    assert CompareAsWritten(h, a, b) == 0;
    assert DateCompare(h, a, b) == 1;
  }

  /** dt_cmp as intended: the wrapped type's tp_compare applied to the two
      wrapped objects. The host calls tp_compare only when both operands
      are of this type. */
  function DateCompare(h: Host, a: Obj, b: Obj): int
    requires WrapsHostObject(a) && IsContainerType(b.ty) && b.objectOf != null
    reads a, b
  {
    var x := Value(a);
    h.compare(x.ty.name, x, Value(b))
  }

  /** The corrected comparison keeps the order of the wrapped type: if that
      type's compare is antisymmetric, so is the comparison of two Date
      containers around objects of that type. */
  lemma DateCompareAntisymmetric(h: Host, a: Obj, b: Obj)
    requires WrapsHostObject(a) && WrapsHostObject(b)
    requires a.objectOf.ty == b.objectOf.ty
    requires forall p: Obj, q: Obj ::
      h.compare(a.objectOf.ty.name, p, q) == -h.compare(a.objectOf.ty.name, q, p)
    ensures DateCompare(h, a, b) == -DateCompare(h, b, a)
  {
  }

  // ------------------------------------------------------------- coercion

  /** PyNumber_Check on an object: of the module's types only DbiDate fills
      `tp_as_number`; a host type answers for itself. */
  function NumberCheck(h: Host, o: Obj): bool {
    match o.ty
    case DbiDateType => true
    case DbiRawType => false
    case DbiRowIdType => false
    case HostType(n) => h.numeric(n)
  }

  /** dt_nb_coerce as written. For a numeric *pw: *pw becomes a new Date
      container around PyNumber_Int(*pw), *pv gains a reference, result 0.
      Otherwise result 1 and nothing changes. The result of PyNumber_Int is
      stored unchecked, so a failed conversion leaves a container around
      NULL while reporting success. */
  method CoerceAsWritten(h: Host, pv: Obj, pw: Obj) returns (res: int, v: Obj, w: Obj)
    modifies pv`refcnt
    ensures res == 0 || res == 1
    ensures res == 1 <==> !NumberCheck(h, pw)
    ensures res == 1 ==> v == pv && w == pw && pv.refcnt == old(pv.refcnt)
    ensures res == 0 ==>
      v == pv && pv.refcnt == old(pv.refcnt) + 1 &&
      fresh(w) && w.ty == DbiDateType && w.objectOf == h.toInt(pw) && w.refcnt == 1 && w.live
    ensures res == 0 && h.toInt(pw) == null ==> !Valid(w)
  {
    if NumberCheck(h, pw) {
      var dbt := new Obj.Alloc(DbiDateType);
      dbt.objectOf := h.toInt(pw);
      Incref(pv);
      return 0, pv, dbt;
    }
    return 1, pv, pw;
  }

  /** dt_nb_coerce with the failed conversion reported: as written, except
      that when PyNumber_Int fails the result is -1 and nothing changes.
      Every container it makes wraps a non-NULL object. */
  method Coerce(h: Host, pv: Obj, pw: Obj) returns (res: int, v: Obj, w: Obj)
    modifies pv`refcnt
    ensures res == 0 || res == 1 || res == -1
    ensures res == 1 <==> !NumberCheck(h, pw)
    ensures res == -1 <==> NumberCheck(h, pw) && h.toInt(pw) == null
    ensures res != 0 ==> v == pv && w == pw && pv.refcnt == old(pv.refcnt)
    ensures res == 0 ==>
      v == pv && pv.refcnt == old(pv.refcnt) + 1 &&
      fresh(w) && w.ty == DbiDateType && w.objectOf == h.toInt(pw) && w.refcnt == 1 && w.live &&
      w.objectOf != null
  {
    if NumberCheck(h, pw) {
      var n := h.toInt(pw);
      if n == null {
        return -1, pv, pw;
      }
      var dbt := new Obj.Alloc(DbiDateType);
      dbt.objectOf := n;
      Incref(pv);
      return 0, pv, dbt;
    }
    return 1, pv, pw;
  }

  /** The host's `a + b` for a Date container a, with the module's slots as
      written (the old-style coercion path of the Python 2 binary operator).
      When b is a Date container too, PyNumber_CoerceEx takes its same-type
      shortcut: both operands gain a reference, dt_nb_add runs on (a, b), and
      both are released. For any other b, the host first tries b's own
      nb_add on (a, b) when b's type is a new-style number; this method
      describes `a + b` only once that slot, if any, has declined. Then
      dt_nb_coerce runs on (a, b), then the nb_add of the Date table on the
      coerced pair (a, w), then the release of that pair. Either way the
      wrapped type's nb_add receives a Date container as its second
      operand. A result of 1 with NULL means the host goes on to try b's
      own coercion. */
  method AddViaCoercionAsWritten(h: Host, a: Obj, b: Obj) returns (res: int, w: Obj, r: Obj?)
    requires IsDate(a) && Delegable(h, a)
    modifies a`refcnt, b`refcnt
    ensures res == 0 || res == 1
    ensures IsDate(b) ==> res == 0 && w == b && r == h.add(a.objectOf.ty.name, a.objectOf, b)
    ensures res == 1 <==> !NumberCheck(h, b)
    ensures res == 1 ==> r == null
    ensures res == 0 && !IsDate(b) ==>
      fresh(w) && IsDate(w) && w.objectOf == h.toInt(b) && w.refcnt == 0 &&
      r == h.add(a.objectOf.ty.name, a.objectOf, w)
    ensures a.refcnt == old(a.refcnt) && b.refcnt == old(b.refcnt)
  {
    if IsDate(b) {
      Incref(a);
      Incref(b);
      r := DateAdd(h, a, b);
      Decref(a);
      Decref(b);
      return 0, b, r;
    }
    var v;
    res, v, w := CoerceAsWritten(h, a, b);
    if res != 0 {
      return res, w, null;
    }
    r := DateAdd(h, v, w);
    Decref(v);
    Decref(w);
  }

  /** The same evaluation with both slots corrected: dt_nb_coerce reports a
      failed conversion, and dt_nb_add unwraps its second operand. The
      wrapped type's nb_add then sees the object b wraps, or, for b of
      another type, exactly PyNumber_Int(b); so an integer b that converts
      to itself adds to the container as it adds to the wrapped object. In
      the corrected module every Date container wraps an object. As above,
      for b of another type this describes `a + b` only once b's own nb_add,
      if b's type is a new-style number, has declined. */
  method AddViaCoercion(h: Host, a: Obj, b: Obj) returns (res: int, r: Obj?)
    requires IsDate(a) && Delegable(h, a)
    requires IsDate(b) ==> b.objectOf != null
    modifies a`refcnt, b`refcnt
    ensures res == 0 || res == 1 || res == -1
    ensures IsDate(b) ==> res == 0 && r == h.add(a.objectOf.ty.name, a.objectOf, b.objectOf)
    ensures res == 1 <==> !NumberCheck(h, b)
    ensures res == -1 <==> !IsDate(b) && NumberCheck(h, b) && h.toInt(b) == null
    ensures res != 0 ==> r == null
    ensures res == 0 && !IsDate(b) ==> r == h.add(a.objectOf.ty.name, a.objectOf, h.toInt(b))
    ensures res == 0 && !IsDate(b) && h.toInt(b) == b ==> r == h.add(a.objectOf.ty.name, a.objectOf, b)
    ensures a.refcnt == old(a.refcnt) && b.refcnt == old(b.refcnt)
  {
    if IsDate(b) {
      Incref(a);
      Incref(b);
      r := DateAddIntended(h, a, b);
      Decref(a);
      Decref(b);
      return 0, r;
    }
    var v, w;
    res, v, w := Coerce(h, a, b);
    if res != 0 {
      return res, null;
    }
    r := DateAddIntended(h, v, w);
    Decref(v);
    Decref(w);
  }

  // --------------------------------------------------- public name table

  /** The container type each bindable C function makes. */
  function FactoryType(fn: MethodTable.CFunction): PyType {
    match fn
    case MakeDateFn => DbiDateType
    case MakeRawFn => DbiRawType
    case MakeRowIdFn => DbiRowIdType
  }

  /** Calling a bound C function with an argument tuple. */
  method CallFactory(fn: MethodTable.CFunction, args: seq<Obj>) returns (c: Obj?)
    modifies args
    ensures c == null <==> |args| != 1
    ensures c == null ==> unchanged(args)
    ensures c != null ==>
      fresh(c) && NewContainer(c, FactoryType(fn), args[0]) && Valid(c) && Value(c) == args[0] &&
      args[0].refcnt == old(args[0].refcnt) + 1 &&
      args[0].objectOf == old(args[0].objectOf) && args[0].live == old(args[0].live)
  {
    match fn
    case MakeDateFn => c := MakeDate(args);
    case MakeRawFn => c := MakeRaw(args);
    case MakeRowIdFn => c := MakeRowId(args);
  }

  /** Calling `dbi.<name>(*args)`: the name is looked up among the module's
      published functions. dbDate and dbiDate make Date containers, dbRaw
      and dbiRaw make Raw containers, and no name makes a RowId container;
      any other name is NULL (AttributeError). */
  method CallPublished(name: string, args: seq<Obj>) returns (c: Obj?)
    modifies args
    ensures MethodTable.Find(MethodTable.GlobalMethods, name).None? ==> c == null && unchanged(args)
    ensures c != null ==> |args| == 1 && fresh(c) && Valid(c) && c.objectOf == args[0] && !IsRowId(c)
    ensures c != null ==> (IsDate(c) <==> name == "dbDate" || name == "dbiDate")
    ensures c != null ==> (IsRaw(c) <==> name == "dbRaw" || name == "dbiRaw")
    ensures MethodTable.Find(MethodTable.GlobalMethods, name).Some? && |args| == 1 ==>
      c != null && args[0].refcnt == old(args[0].refcnt) + 1 &&
      args[0].objectOf == old(args[0].objectOf) && args[0].live == old(args[0].live)
    ensures MethodTable.Find(MethodTable.GlobalMethods, name).Some? && |args| != 1 ==>
      c == null && unchanged(args)
  {
    MethodTable.PublishedNames(name);
    var found := MethodTable.Find(MethodTable.GlobalMethods, name);
    if found.Some? {
      c := CallFactory(found.value, args);
    } else {
      c := null;
    }
  }
}
