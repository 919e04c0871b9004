# dbi tagging layer — Dafny model

`ext/dbi.c` is the type-tagging layer of an Informix database module for
Python 2. It wraps an arbitrary Python value in a container whose type is
one of `DbiDate`, `DbiRaw` or `DbiRowId`. The container has exactly one
field, `objectOf`. This model covers:

- the two constructor families. `makeDbiTypeTP` parses one argument and
  takes a new reference to it. `makeDbiType`, behind `dbiMakeDate`,
  `dbiMakeRaw` and `dbiMakeRowId`, steals the caller's reference.
- the destructor `dbiDealloc`.
- the attribute lookup `dbiGetAttr`.
- the kind predicates, `dbiIsDate`, `dbiIsRaw` and `dbiIsRowId`.
- the Raw and Date renderers.
- the Date kind's delegation of `+`, `-`, comparison and coercion to the
  wrapped object.
- the public name table `globalMethods`.

Layout:

- `pyobjects.dfy` (module `PyObjects`) is the slice of the host interpreter
  the layer uses. It has an `Obj` class with a constant type pointer `ty`,
  a mutable `refcnt`, the container field `objectOf` and a `live` flag that
  freeing clears. It also has `Py_INCREF`/`Py_DECREF` as methods, the `"O"`
  argument format, and a `Host` record. `Host` holds the foreign operations
  the layer calls: `PyNumber_Check` for host types, `PyNumber_Int`,
  `PyInt_AsLong`, `ctime`, and the `nb_add`, `nb_subtract` and `tp_compare`
  slots of host types. These stay open functions, passed as a parameter.
- `methodtable.dfy` (module `MethodTable`) holds the two `PyMethodDef`
  tables, `noMethods` and `globalMethods`, and the walk the host runs over
  such a table, up to the sentinel.
- `dbi.dfy` (module `Dbi`) holds the layer itself. Operations that allocate
  heap objects, change reference counts or write through out-parameters
  are methods. A method gets a `modifies` clause when it changes an object
  that existed before the call; the constructors that only steal a
  reference (`makeDbiType` and the three `dbiMake*`) change nothing that
  existed, so they have none. Field reads, tag tests, the Date renderer
  (whose new string object is modelled as the string value) and the
  delegations are functions.
- `wrappers.dfy` holds `Option`.

Three behaviours of the code are easy to misread:

- An attribute of a container other than `value` is not forwarded to the
  wrapped value. It is looked up with `Py_FindMethod` in the container's
  own empty table `noMethods`. So `__methods__` gives an empty list and
  every other name gives an AttributeError.
- Construction fails exactly when the argument tuple does not hold one
  object (`PyArg_ParseTuple` with `"O"`). Any single object is accepted,
  including `None`.
- Comparison and the number slots of a Date container do not unwrap both
  operands (see Findings).

`AddViaCoercionAsWritten` and `AddViaCoercion` model the host's side of
`a + b` for a Date container `a`, along the old-style coercion path of the
Python 2 binary operator. When `b` is a Date container too, the host takes
its same-type shortcut: both operands gain a reference for the call of
`nb_add` and lose it afterwards. For any other `b`, once `b`'s own slot,
if any, has declined, `nb_coerce` of `a`'s type runs, then `nb_add` of the
coerced pair, then the release of the pair. These methods show which operands the layer's slots hand on.

In the `Host` record, `numeric` is `PyNumber_Check` as Python 2.x defines
it: the type has a number table with `nb_int` or `nb_float`.
`numberTable` is the weaker fact that the type fills `tp_as_number` at
all, which is what the slot lookups of `dt_nb_add` and `dt_nb_subtract`
need.

## Model

| member | source | states |
|---|---|---|
| `PyObjects.Obj.Alloc` | ext/dbi.c:41 | `PyObject_NEW` gives a live object of the requested type holding one reference, with its field still unset |
| `PyObjects.Incref` | ext/dbi.c:43 | `Py_INCREF` raises the object's count by exactly one and changes nothing else |
| `PyObjects.Decref` | ext/dbi.c:50 | `Py_DECREF` of a counted object lowers its count by exactly one and changes nothing else |
| `Dbi.IsDate` | ext/dbi.c:312-315 | `dbiIsDate` holds exactly when the object's type is `DbiDate`; see `Dbi.KindPredicatesExclusive` |
| `Dbi.IsRaw` | ext/dbi.c:317-320 | `dbiIsRaw` holds exactly when the object's type is `DbiRaw`; see `Dbi.KindPredicatesExclusive` |
| `Dbi.IsRowId` | ext/dbi.c:322-325 | `dbiIsRowId` holds exactly when the object's type is `DbiRowId`; see `Dbi.KindPredicatesExclusive` |
| `Dbi.KindPredicatesExclusive` | ext/dbi.c:312-325 | at most one of the Date, Raw and RowId tag tests holds of any object, and one holds exactly when the object is a container |
| `Dbi.Value` | ext/dbi.c:30-33 | `dbiValue` reads the container's one field; every constructor ensures that `Value` of the new container is the object it was given |
| `Dbi.MakeDbiTypeTP` | ext/dbi.c:35-46 | with exactly one argument: a fresh, valid container of the requested type whose `dbiValue` is that argument, which gains exactly one reference and is otherwise unchanged; otherwise NULL and every argument unchanged |
| `Dbi.MakeDate` | ext/dbi.c:216-219 | `makeDbiTypeTP` for Date: the same outcomes, and the result is Date and neither Raw nor RowId |
| `Dbi.MakeRaw` | ext/dbi.c:221-224 | `makeDbiTypeTP` for Raw: the same outcomes, and the result is Raw only |
| `Dbi.MakeRowId` | ext/dbi.c:226-229 | `makeDbiTypeTP` for RowId: the same outcomes, and the result is RowId only |
| `Dbi.MakeDbiType` | ext/dbi.c:231-236 | a fresh container of the requested type whose `dbiValue` is `o`, whose count is unchanged because the reference is stolen; the container is valid whenever `o` holds a reference |
| `Dbi.DbiMakeDate` | ext/dbi.c:238-241 | a fresh Date-only container whose `dbiValue` is `contents`, whose count is unchanged; valid whenever `contents` holds a reference |
| `Dbi.DbiMakeRaw` | ext/dbi.c:243-246 | a fresh Raw-only container whose `dbiValue` is `contents`, whose count is unchanged; valid whenever `contents` holds a reference |
| `Dbi.DbiMakeRowId` | ext/dbi.c:248-251 | a fresh RowId-only container whose `dbiValue` is `contents`, whose count is unchanged; valid whenever `contents` holds a reference |
| `Dbi.Dealloc` | ext/dbi.c:48-52 | the wrapped object's count drops by exactly one and the container is freed; the frame allows no other change |
| `Dbi.WrapThenRelease` | ext/dbi.c:35-52 | building a container with `makeDbiTypeTP` and then releasing it leaves the wrapped object's count, field and liveness as they were |
| `Dbi.FindMethod` | ext/dbi.c:66 | `Py_FindMethod` over one method table: `"__methods__"` gives the table's names, in table order (the host sorts them), and any other name the result of the table walk; see `Dbi.ResolveAttr`, `MethodTable.Names` and `MethodTable.Find` |
| `Dbi.ResolveAttr` | ext/dbi.c:54-67 | a name resolves to the wrapped object if and only if it is `"value"`; `"__methods__"` resolves to the names of `noMethods`, which are none; every other name resolves to nothing |
| `Dbi.GetAttr` | ext/dbi.c:58-67 | `"value"` returns the wrapped object with one more reference; `"__methods__"` returns a fresh list object and changes no count; any other name returns NULL and changes no count |
| `Dbi.RawStr` | ext/dbi.c:85-90 | `rawStr` returns the identical wrapped object, with its count raised by one |
| `Dbi.DateStr` | ext/dbi.c:79-81 | the fallback `dateStr` is exactly 24 characters long and is a prefix of the `ctime` text of the wrapped integer |
| `Dbi.DateStrDropsNewline` | ext/dbi.c:81 | on conventional 25-character `ctime` text, `dateStr` is that text without its line terminator and holds no newline |
| `Dbi.DateAdd` | ext/dbi.c:94-95 | `dt_nb_add` as written: the wrapped type's `nb_add` applied to the wrapped object and the untouched second operand; see `Dbi.ArithmeticAsWrittenCanDiffer` and `Dbi.AddViaCoercionAsWritten` |
| `Dbi.DateSubtract` | ext/dbi.c:96-97 | `dt_nb_subtract` as written, likewise with `nb_subtract`; see `Dbi.ArithmeticAsWrittenCanDiffer` |
| `Dbi.ArithmeticAsWrittenCanDiffer` | ext/dbi.c:94-97 | for any two Date containers around host objects, some host makes `dt_nb_add` and `dt_nb_subtract` as written give another result than the same slots applied to both wrapped objects |
| `Dbi.AddViaCoercionAsWritten` | ext/dbi.c:94-95 | in `a + b`, the wrapped type's `nb_add` receives a Date container as its second operand: `b` itself when `b` is a Date container (no coercion), otherwise the new Date container around `PyNumber_Int(b)` made by `dt_nb_coerce`; a non-numeric `b` gives 1; the counts of `a` and `b` end as they began |
| `Dbi.AddViaCoercion` | ext/dbi.c:94-95 | with both slots corrected, `a + b` is the wrapped type's `nb_add` of the wrapped object and of `dbiValue(b)` for a Date container `b`, or of `PyNumber_Int(b)` otherwise, so an integer `b` adds as it adds to the wrapped object; a failed conversion gives -1 and NULL |
| `Dbi.DateAddIntended` | ext/dbi.c:94-95 | `dt_nb_add` as intended: the wrapped type's `nb_add` applied to both wrapped objects; see `Dbi.ArithmeticAsWrittenCanDiffer` and `Dbi.AddViaCoercion` |
| `Dbi.DateSubtractIntended` | ext/dbi.c:96-97 | `dt_nb_subtract` as intended, likewise with `nb_subtract`; see `Dbi.ArithmeticAsWrittenCanDiffer` |
| `Dbi.TpCompare` | ext/dbi.c:153 | the `tp_compare` slot is `dt_cmp` exactly for `DbiDate`, absent exactly for `DbiRaw` and `DbiRowId`, and the host's own slot of the same name for host types |
| `Dbi.CmpCallAsWritten` | ext/dbi.c:108-109 | the one call `dt_cmp` makes as written: the `tp_compare` slot of the wrapped object's type, applied to the two containers; see `Dbi.CompareAsWrittenLoopsOnNestedDate` and `Dbi.CompareAsWrittenMistyped` |
| `Dbi.CmpCallIntended` | ext/dbi.c:108-109 | the call `dt_cmp` makes as intended: the same slot, applied to the two wrapped objects; see `Dbi.CompareIntendedDescends` |
| `Dbi.CompareAsWritten` | ext/dbi.c:108-109 | `dt_cmp` as written: the wrapped type's compare applied to the two containers; see `Dbi.CompareAsWrittenMistyped` and `Dbi.CompareAsWrittenCanDiffer` |
| `Dbi.CompareAsWrittenMistyped` | ext/dbi.c:108-109 | for a wrapped host object, `dt_cmp` as written calls that host type's compare with a left operand of a different type: the container itself |
| `Dbi.CompareAsWrittenCanDiffer` | ext/dbi.c:108-109 | for any two Date containers around host objects, some host compare makes `dt_cmp` as written disagree with comparing the wrapped objects |
| `Dbi.CompareAsWrittenLoopsOnNestedDate` | ext/dbi.c:108-109 | for a Date container around a Date container, `dt_cmp` as written calls `dt_cmp` again with the same two operands |
| `Dbi.CompareIntendedDescends` | ext/dbi.c:108-109 | corrected, a nested Date calls `dt_cmp` on the two wrapped objects, and the left one is not the container itself |
| `Dbi.DateCompare` | ext/dbi.c:108-109 | `dt_cmp` as intended: the wrapped type's compare applied to the two wrapped objects; see `Dbi.DateCompareAntisymmetric` |
| `Dbi.DateCompareAntisymmetric` | ext/dbi.c:108-109 | if the wrapped type's compare is antisymmetric, the corrected comparison of two Date containers around objects of that type is antisymmetric too |
| `Dbi.NumberCheck` | ext/dbi.c:155 | `PyNumber_Check` holds of a Date container, never of a Raw or RowId container, and is the host's answer for host objects |
| `Dbi.CoerceAsWritten` | ext/dbi.c:163-173 | a numeric `*pw` gives 0: `*pv` is the same object with one more reference, and `*pw` is a fresh Date container around `PyNumber_Int(*pw)`. Otherwise 1 with nothing changed. A failed conversion still gives 0, and the new container is not valid |
| `Dbi.Coerce` | ext/dbi.c:163-173 | the same outcomes, except that a failed `PyNumber_Int` gives -1 with nothing changed; every container made wraps a non-NULL object |
| `Dbi.CallFactory` | ext/dbi.c:216-229 | calling a bound C function makes a valid container of the type that function is written for around the single argument, which gains one reference and is otherwise unchanged; NULL with nothing changed on a bad argument count |
| `Dbi.CallPublished` | ext/dbi.c:255-261 | through the module's names: a known name with one argument always makes a container, `dbDate`/`dbiDate` Date ones and `dbRaw`/`dbiRaw` Raw ones, no name a RowId; a known name with a bad argument count, and any unknown name, give NULL with nothing changed |
| `MethodTable.Find` | ext/dbi.c:54-56 | the table walk finds a name if and only if an entry before the sentinel has it, and then returns the function of the first such entry |
| `MethodTable.Names` | ext/dbi.c:54-56 | the names listed for a table are exactly the names of the entries before the sentinel, in table order |
| `MethodTable.NoMethodsFindNothing` | ext/dbi.c:54-56 | no name is found in `noMethods` |
| `MethodTable.NoMethodsHaveNoNames` | ext/dbi.c:54-56 | `noMethods` lists no names |
| `MethodTable.PublishedNames` | ext/dbi.c:255-261 | exactly `dbDate` and `dbiDate` resolve, to `makeDate`, and exactly `dbRaw` and `dbiRaw` resolve, to `makeRaw` |
| `MethodTable.GlobalNamesDistinct` | ext/dbi.c:255-261 | no name appears twice in `globalMethods`, so a first-match walk and the module dictionary agree |
| `MethodTable.NoRowIdPublished` | ext/dbi.c:255-261 | no public name binds `makeRowId` |

## Findings

| source | as written | input that shows it | evidently intended | confidence | as-written member | corrected member |
|---|---|---|---|---|---|---|
| ext/dbi.c:108-109 | `dt_cmp` calls the wrapped type's `tp_compare` on the two containers `a` and `b` | two Date containers around the ints 1 and 2: the int type's compare receives two `DbiDate` objects, not ints | call the wrapped type's `tp_compare` on `dbiValue(a)` and `dbiValue(b)`, as `dt_nb_add` passes `dbiValue(a)` | not executed; medium | `Dbi.CompareAsWritten` (lemmas `Dbi.CompareAsWrittenMistyped`, `Dbi.CompareAsWrittenCanDiffer`) | `Dbi.DateCompare` (lemma `Dbi.DateCompareAntisymmetric`) |
| ext/dbi.c:108-109 | for a Date container whose wrapped object is itself a Date container, `dt_cmp` finds its own slot and calls it on the same `a` and `b` | `dbiMakeDate(dbiMakeDate(i))` compared with any Date container: `dt_cmp` calls itself with unchanged arguments until the C stack overflows | descend to the wrapped objects, so each call is one level further in | not executed; medium | `Dbi.CmpCallAsWritten` (lemma `Dbi.CompareAsWrittenLoopsOnNestedDate`) | `Dbi.CmpCallIntended` (lemma `Dbi.CompareIntendedDescends`) |
| ext/dbi.c:94-97 | `dt_nb_add` and `dt_nb_subtract` unwrap only `a` and hand the second operand on unchanged; the host has made that operand a Date container by coercion (or it was one) | a Date container around the int 100, plus 5: `dt_nb_coerce` turns 5 into a Date container, and the int type's `nb_add` receives that container instead of an int | apply the wrapped type's slot to `dbiValue(a)` and `dbiValue(b)` | not executed; medium | `Dbi.DateAdd`, `Dbi.DateSubtract` (lemma `Dbi.ArithmeticAsWrittenCanDiffer`; method `Dbi.AddViaCoercionAsWritten`) | `Dbi.DateAddIntended`, `Dbi.DateSubtractIntended` (method `Dbi.AddViaCoercion`) |
| ext/dbi.c:165-170 | `dt_nb_coerce` stores the result of `PyNumber_Int` without checking it for NULL and returns 0 | `*pw` a float infinity: it passes `PyNumber_Check`, but its integer conversion fails, leaving a Date container around NULL that `dbiDealloc` later dereferences | return -1 and leave `*pv` and `*pw` alone when the conversion fails | not executed; medium | `Dbi.CoerceAsWritten` (its last `ensures`: the container made is not `Valid`) | `Dbi.Coerce` |

## Left out

- The `DATETIMEFIX` branch of `dateStr` (ext/dbi.c:71-78): it calls the Informix ESQL/C routine `dttoasc`, which is foreign, and its declaration is not valid C.
- `ctime`, `PyInt_AsLong`, `PyNumber_Int`, the number check and the presence of a number table for host types, and the `nb_add`, `nb_subtract` and `tp_compare` slots of host types: these are host code. They are fields of the `Host` parameter and are not reimplemented.
- `PyObjects.ParseOneObject` stands for the host's `PyArg_ParseTuple` with `"O"`: one object accepted, anything else refused. The host's error message is not modelled.
- `dt_nb_int`, `dt_nb_long`, `dt_nb_float`, `dt_nb_oct` and `dt_nb_hex` (ext/dbi.c:98-107): each is a one-line call of the wrapped type's conversion slot, and the float one involves floating point.
- `initdbi` (ext/dbi.c:263-310): module registration and the kind and error label strings. This is setup with constant strings and no logic.
- The static type tables (ext/dbi.c:112-214) are not modelled as records. Only the `tp_compare` slots are modelled, by `Dbi.TpCompare`. The other slot choices are described here and not modelled: `tp_str` is `DateStr` and `RawStr`, `tp_dealloc` and `tp_getattr` are `Dealloc` and `GetAttr` for all three types, and only Date has a `tp_as_number` table (used in `NumberCheck`).
- `Dbi.GetAttr`: for `"__methods__"` the model returns a fresh object of the host's list type. The contents of that list (no names, stated by `Dbi.ResolveAttr`), its sorting by the host and the host's deprecation warning for the name are not modelled.
- `Dbi.ResolveAttr`: `__doc__` is answered from the type's doc string, which is NULL for all three container types, so it falls through to the table walk like any other name.
- `Dbi.DateAdd`, `Dbi.DateSubtract` and `Dbi.CompareAsWritten` require a wrapped host object; the arithmetic ones also require that its type has a number table. In C, a Date container around a Raw or RowId container, or around an object without a number table, dereferences a NULL table (`dt_nb_add`, `dt_nb_subtract`) or calls a NULL slot (`dt_cmp`: `tp_compare` is 0 in the Raw table and unset in the RowId table). A Date container around a Date container makes `dt_cmp` call itself forever; that is modelled as a call by `Dbi.CmpCallAsWritten`, not as a run. For the same nested container, `dt_nb_add` and `dt_nb_subtract` delegate once more, to the inner container's own `dt_nb_add` or `dt_nb_subtract`, and return normally; that chain of delegation is not modelled.
- `Dbi.AddViaCoercion` and `Dbi.AddViaCoercionAsWritten`: only addition is composed; a subtraction runs the same way with `nb_subtract`. The coerced container ends at count zero, and the deallocation the host then runs on it is not modelled. The host's next step after a 1 from coercion (trying `b`'s own coercion) is not modelled. The host first tries `b`'s own `nb_add` on `(a, b)` when `b` is a new-style number (int, long, float, classic instances); that step is not modelled, and these methods describe `a + b` only when it declines.
- The host slots `nb_add`, `nb_subtract` and `tp_compare` are taken to be filled in; a NULL slot (a crash in C) is not modelled.
- `Dbi.DateStr` requires `ctime` text of at least 24 characters. In C, a `ctime` that returns NULL makes a 24-byte string of unset contents.
- An unchecked error from `PyInt_AsLong` in `dateStr` is not modelled. In C, -1 is rendered with the exception still pending.
- `PyObject_NEW` is taken never to fail; on failure the C code writes through NULL.
- `PyObjects.Decref`, `Dbi.Dealloc`: deallocation of an object when `Py_DECREF` brings its count to zero is the host's job and is not modelled, so these change nothing beyond the counts and the flag they state.
- The host's exception state is not modelled: a NULL result stands for "exception set".
- The new reference that `PyNumber_Int` returns is counted by the host; the model does not change that object's count.
- `dbiMakeDate`, `dbiMakeRaw` and `dbiMakeRowId` take a non-NULL object. The C code does not check for NULL.
- Threads: the host serialises access to each object.
