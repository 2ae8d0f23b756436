/**
 * The department table of store/useHRStore.ts as JavaScript evaluates it.
 *
 * `deptMap` starts as `{}`, an object whose prototype is Object.prototype
 * (section 20.1.3 of ECMA-262). Reading `deptMap[d]` for a department `d`
 * that is not yet an own key therefore finds an inherited property when `d`
 * is one of Object.prototype's keys: a method (truthy, and `+ 1` turns it
 * into a string) or, for `"__proto__"`, the prototype object itself, whose
 * setter ignores the string assigned to it. Module HRStats counts as the
 * program evidently intends; this module shows where the two part and
 * proves they agree on every other collection.
 */
module DeptMapJs {
  import opened Types
  import PropertyOrder
  import HRStats

  /** The JavaScript values that occur in the table. */
  datatype JsValue =
    | Undefined
    | NotANumber
    | Number(n: int)
    | Str(s: string)
    | NativeFunction(fn: string)
    | PrototypeObject

  /** The keys an object literal inherits from Object.prototype. */
  const InheritedKeys: set<string> := {
    "constructor", "hasOwnProperty", "isPrototypeOf", "propertyIsEnumerable",
    "toLocaleString", "toString", "valueOf", "__proto__",
    "__defineGetter__", "__defineSetter__", "__lookupGetter__", "__lookupSetter__"}

  /** An object created by `{}`: its own keys, in creation order, and their values. */
  datatype JsObject = JsObject(own: map<string, JsValue>, created: seq<string>)

  /** `o[k]`: an own property, else what Object.prototype supplies. */
  function Lookup(o: JsObject, k: string): JsValue
  {
    if k in o.own then o.own[k]
    else if k == "__proto__" then PrototypeObject
    else if k == "constructor" then NativeFunction("Object")
    else if k in InheritedKeys then NativeFunction(k)
    else Undefined
  }

  predicate Truthy(v: JsValue)
  {
    match v
    case Undefined => false
    case NotANumber => false
    case Number(n) => n != 0
    case Str(s) => s != ""
    case NativeFunction(_) => true
    case PrototypeObject => true
  }

  /**
   * How a native function prints when converted to a string. ECMA-262 fixes
   * only the shape of this text (a NativeFunction source); the exact spacing
   * used here is one engine's, and others may print it differently.
   */
  function NativeSource(fn: string): string
  {
    "function " + fn + "() { [native code] }"
  }

  /** `v + 1`: numbers add, everything else is converted to a string and concatenated. */
  function PlusOne(v: JsValue): JsValue
  {
    match v
    case Undefined => NotANumber
    case NotANumber => NotANumber
    case Number(n) => Number(n + 1)
    case Str(s) => Str(s + "1")
    case NativeFunction(fn) => Str(NativeSource(fn) + "1")
    case PrototypeObject => Str("[object Object]1")
  }

  /**
   * `o[k] = v` for the values the table holds (numbers, strings, NaN):
   * assigning one of them to `__proto__` is ignored by its setter.
   */
  function Assign(o: JsObject, k: string, v: JsValue): JsObject
  {
    if k == "__proto__" then o
    else if k in o.own then JsObject(o.own[k := v], o.created)
    else JsObject(o.own[k := v], o.created + [k])
  }

  /** `deptMap` after `es.forEach(e => { deptMap[e.department] = (deptMap[e.department] || 0) + 1 })`. */
  function FillDeptMap(es: seq<Employee>): (o: JsObject)
    ensures forall k :: k in o.own <==> k in o.created
  {
    if es == [] then JsObject(map[], [])
    else
      var o := FillDeptMap(es[..|es| - 1]);
      Bump(o, HRStats.Dept(es[|es| - 1]))
  }

  /** `o[d] = (o[d] || 0) + 1` */
  function Bump(o: JsObject, d: string): JsObject
  {
    var current := Lookup(o, d);
    Assign(o, d, PlusOne(if Truthy(current) then current else Number(0)))
  }

  /** One `{ name, value }` entry as JavaScript builds it. */
  datatype JsEntry = JsEntry(name: string, value: JsValue)

  /** `Object.entries(deptMap).map(([name, value]) => ({ name, value }))` */
  function TableAsWritten(es: seq<Employee>): seq<JsEntry>
  {
    var o := FillDeptMap(es);
    var keys := PropertyOrder.OwnKeys(o.created);
    PropertyOrder.OwnKeysPermutes(o.created);
    seq(|keys|, i requires 0 <= i < |keys| => JsEntry(keys[i], o.own[keys[i]]))
  }

  /** A table of HRStats in JavaScript values. */
  function AsJs(entries: seq<DeptEntry>): seq<JsEntry>
  {
    seq(|entries|, i requires 0 <= i < |entries| => JsEntry(entries[i].name, Number(entries[i].value)))
  }

  /** A single record in department `d`. */
  function OneRecordIn(d: string): seq<Employee>
  {
    [Employee("1", Profile("", "", "", "", "", "", "", "", "", "", "", "", "", "", "", "", "", "", "", "",
                           [], [], [], "", "", "", d, "", "", "", Pending, None))]
  }

  /**
   * A record in department "toString" is listed with a string (such as
   * "function toString() { [native code] }1"), not with the count 1 that
   * HRStats gives it.
   */
  lemma InheritedMethodCounterexample()
    ensures TableAsWritten(OneRecordIn("toString"))
         == [JsEntry("toString", Str(NativeSource("toString") + "1"))]
    ensures HRStats.DepartmentDistribution(OneRecordIn("toString")) == [DeptEntry("toString", 1)]
  {
    var es := OneRecordIn("toString");
    assert es[..0] == [];
    assert "toString" != "__proto__" && "toString" != "constructor" && "toString" in InheritedKeys;
    assert Lookup(JsObject(map[], []), "toString") == NativeFunction("toString");
    assert FillDeptMap(es) == JsObject(map["toString" := Str(NativeSource("toString") + "1")], ["toString"]);
    assert !PropertyOrder.IsArrayIndex("toString") by {
      assert !PropertyOrder.IsDigit("toString"[0]);
    }
    assert PropertyOrder.OwnKeys(["toString"]) == ["toString"];
    assert HRStats.FirstSeen(es) == ["toString"];
    assert HRStats.DeptCount(es, "toString") == 1;
    assert TableAsWritten(es)[0] == JsEntry("toString", Str(NativeSource("toString") + "1"));
  }

  /**
   * A record in department "__proto__" does not appear in the table at all,
   * although HRStats lists it with count 1.
   */
  lemma ProtoKeyCounterexample()
    ensures TableAsWritten(OneRecordIn("__proto__")) == []
    ensures HRStats.DepartmentDistribution(OneRecordIn("__proto__")) == [DeptEntry("__proto__", 1)]
  {
    var es := OneRecordIn("__proto__");
    assert es[..0] == [];
    assert !PropertyOrder.IsArrayIndex("__proto__") by {
      assert !PropertyOrder.IsDigit("__proto__"[0]);
    }
    assert PropertyOrder.OwnKeys(["__proto__"]) == ["__proto__"];
    assert HRStats.FirstSeen(es) == ["__proto__"];
    assert HRStats.DeptCount(es, "__proto__") == 1;
  }

  /** One step of the fill for a department that Object.prototype does not supply. */
  lemma FillStep(o: JsObject, d: string, n: nat)
    requires d !in InheritedKeys
    requires d in o.own ==> o.own[d] == Number(n)
    requires d !in o.own ==> n == 0
    ensures Bump(o, d).own == o.own[d := Number(n + 1)]
    ensures Bump(o, d).created == if d in o.own then o.created else o.created + [d]
  {
  }

  lemma {:induction false} FillAgrees(es: seq<Employee>)
    requires forall i :: 0 <= i < |es| ==> HRStats.Dept(es[i]) !in InheritedKeys
    ensures FillDeptMap(es).created == HRStats.FirstSeen(es)
    ensures forall k :: k in FillDeptMap(es).own ==>
      FillDeptMap(es).own[k] == Number(HRStats.DeptCount(es, k))
  {
    if es != [] {
      var prior := es[..|es| - 1];
      var d := HRStats.Dept(es[|es| - 1]);
      assert forall i :: 0 <= i < |prior| ==> prior[i] == es[i];
      FillAgrees(prior);
      var o := FillDeptMap(prior);
      if d !in o.own {
        HRStats.NotCreatedNotCounted(prior, d);
      }
      FillStep(o, d, HRStats.DeptCount(prior, d));
      assert FillDeptMap(es) == Bump(o, d);
      assert forall k :: HRStats.DeptCount(es, k) == HRStats.DeptCount(prior, k) + (if k == d then 1 else 0);
    }
  }

  /**
   * When no department is a key of Object.prototype, the table JavaScript
   * builds is the one HRStats specifies.
   */
  lemma AsWrittenAgrees(es: seq<Employee>)
    requires forall i :: 0 <= i < |es| ==> HRStats.Dept(es[i]) !in InheritedKeys
    ensures TableAsWritten(es) == AsJs(HRStats.DepartmentDistribution(es))
  {
    FillAgrees(es);
    var o := FillDeptMap(es);
    var keys := PropertyOrder.OwnKeys(o.created);
    PropertyOrder.OwnKeysPermutes(o.created);
    var mine, spec := TableAsWritten(es), AsJs(HRStats.DepartmentDistribution(es));
    assert |mine| == |keys| == |spec|;
    forall i | 0 <= i < |keys| ensures mine[i] == spec[i] {
      assert keys[i] in o.created;
    }
  }
}
