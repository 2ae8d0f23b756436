/**
 * The record store of store/useHRStore.ts: an ordered collection of
 * employee records, seeded with one record, and three operations that
 * replace it (append, shallow-merge by id, remove by id).
 *
 * The React hook becomes the class `Store` whose one field is the
 * collection. The new-record id, which the program draws from
 * `Math.random` without checking it against the collection, is an input of
 * `AddEmployee`.
 */
module HRStore {
  import opened Types
  import Distinctness

  /** The seed record the store starts with. */
  function InitialEmployee(): (e: Employee)
    ensures e.id == "1" && e.profile.department == "客服部"
    ensures e.profile.status == Completed && e.profile.remarks == None
  {
    Employee("1", Profile(
      name := "陳小美",
      idNumber := "A2****6*8*",
      birthday := "1998/01/14",
      gender := "女",
      bloodType := "A",
      marriage := "已婚",
      military := "免役",
      license := "機車",
      transportation := "機車、大眾運輸",
      height := "160公分",
      weight := "60公斤",
      phone := "02-2357-8866",
      mobile := "0911-101-111",
      email := "lily.chen@hundredplus.com",
      contactAddress := "臺北市中正區忠孝東路一段150號",
      residentAddress := "同上",
      emergencyName := "媽媽",
      emergencyRelation := "母女",
      emergencyPhone := "02-6605-8369",
      emergencyMobile := "0922-222-222",
      education := [Education("國立臺北商業大學", "財務金融系", "105", "109", "畢業")],
      employment := [Employment("美美資訊股份有限公司", "業務助理", "輔助業務完成後勤作業。", "2")],
      family := [],
      languages := "國語精通, 英語良好",
      employeeNumber := "HP00015",
      position := "客服專員",
      department := "客服部",
      onboardingDate := "2024/04/22",
      insuranceDate := "2024/04/22",
      salary := "35,000",
      status := Completed,
      remarks := None))
  }

  /** `{ ...e, ...p }`: the keys `p` supplies override those of `e`. */
  function Merge(e: Employee, p: Patch): Employee
  {
    var q := e.profile;
    Employee(Pick(p.id, e.id), Profile(
      name := Pick(p.name, q.name),
      idNumber := Pick(p.idNumber, q.idNumber),
      birthday := Pick(p.birthday, q.birthday),
      gender := Pick(p.gender, q.gender),
      bloodType := Pick(p.bloodType, q.bloodType),
      marriage := Pick(p.marriage, q.marriage),
      military := Pick(p.military, q.military),
      license := Pick(p.license, q.license),
      transportation := Pick(p.transportation, q.transportation),
      height := Pick(p.height, q.height),
      weight := Pick(p.weight, q.weight),
      phone := Pick(p.phone, q.phone),
      mobile := Pick(p.mobile, q.mobile),
      email := Pick(p.email, q.email),
      contactAddress := Pick(p.contactAddress, q.contactAddress),
      residentAddress := Pick(p.residentAddress, q.residentAddress),
      emergencyName := Pick(p.emergencyName, q.emergencyName),
      emergencyRelation := Pick(p.emergencyRelation, q.emergencyRelation),
      emergencyPhone := Pick(p.emergencyPhone, q.emergencyPhone),
      emergencyMobile := Pick(p.emergencyMobile, q.emergencyMobile),
      education := Pick(p.education, q.education),
      employment := Pick(p.employment, q.employment),
      family := Pick(p.family, q.family),
      languages := Pick(p.languages, q.languages),
      employeeNumber := Pick(p.employeeNumber, q.employeeNumber),
      position := Pick(p.position, q.position),
      department := Pick(p.department, q.department),
      onboardingDate := Pick(p.onboardingDate, q.onboardingDate),
      insuranceDate := Pick(p.insuranceDate, q.insuranceDate),
      salary := Pick(p.salary, q.salary),
      status := Pick(p.status, q.status),
      remarks := Pick(p.remarks, q.remarks)))
  }

  /**
   * Shallow merge, key by key: a key the patch supplies takes the patch's
   * value, every other key keeps the record's value.
   */
  lemma MergeAt(e: Employee, p: Patch, k: Key)
    ensures Get(Merge(e, p).profile, k) == Pick(PatchGet(p, k), Get(e.profile, k))
  {
    match k
    case Name =>
    case IdNumber =>
    case Birthday =>
    case Gender =>
    case BloodType =>
    case Marriage =>
    case Military =>
    case License =>
    case Transportation =>
    case Height =>
    case Weight =>
    case Phone =>
    case Mobile =>
    case Email =>
    case ContactAddress =>
    case ResidentAddress =>
    case EmergencyName =>
    case EmergencyRelation =>
    case EmergencyPhone =>
    case EmergencyMobile =>
    case EducationList =>
    case EmploymentList =>
    case FamilyList =>
    case Languages =>
    case EmployeeNumber =>
    case Position =>
    case Department =>
    case OnboardingDate =>
    case InsuranceDate =>
    case Salary =>
    case StatusKey =>
    case Remarks =>
  }

  /** The whole of the shallow merge: the id and then every key of the profile. */
  lemma MergeByKey(e: Employee, p: Patch)
    ensures Merge(e, p).id == (if p.id.Some? then p.id.value else e.id)
    ensures forall k :: PatchGet(p, k).Some? ==> Get(Merge(e, p).profile, k) == PatchGet(p, k).value
    ensures forall k :: PatchGet(p, k).None? ==> Get(Merge(e, p).profile, k) == Get(e.profile, k)
  {
    forall k ensures Get(Merge(e, p).profile, k) == Pick(PatchGet(p, k), Get(e.profile, k)) {
      MergeAt(e, p, k);
    }
  }

  /** Merging the empty patch `{}` changes nothing. */
  lemma MergeEmpty(e: Employee)
    ensures Merge(e, EmptyPatch()) == e
  {
  }

  /** `es.map(e => e.id === id ? { ...e, ...updates } : e)` */
  function Updated(es: seq<Employee>, id: string, updates: Patch): (r: seq<Employee>)
    ensures |r| == |es|
  {
    if es == [] then []
    else [if es[0].id == id then Merge(es[0], updates) else es[0]] + Updated(es[1..], id, updates)
  }

  /**
   * Update keeps length and order: each record with the given id is merged
   * with the patch and every other record is left as it was.
   */
  lemma {:induction false} UpdatedAt(es: seq<Employee>, id: string, updates: Patch, i: nat)
    requires i < |es|
    ensures Updated(es, id, updates)[i] == (if es[i].id == id then Merge(es[i], updates) else es[i])
  {
    if i > 0 {
      UpdatedAt(es[1..], id, updates, i - 1);
    }
  }

  /** An update with an id nobody has, or with no keys, leaves the collection as it was. */
  lemma UpdateNoOp(es: seq<Employee>, id: string, updates: Patch)
    requires (forall i :: 0 <= i < |es| ==> es[i].id != id) || updates == EmptyPatch()
    ensures Updated(es, id, updates) == es
  {
    forall i | 0 <= i < |es| ensures Updated(es, id, updates)[i] == es[i] {
      UpdatedAt(es, id, updates, i);
      MergeEmpty(es[i]);
    }
  }

  /** The ids of the collection, in order. */
  function Ids(es: seq<Employee>): (r: seq<string>)
    ensures |r| == |es| && forall i :: 0 <= i < |es| ==> r[i] == es[i].id
  {
    seq(|es|, i requires 0 <= i < |es| => es[i].id)
  }

  lemma IdsCons(e: Employee, es: seq<Employee>)
    ensures Ids([e] + es) == [e.id] + Ids(es)
  {
  }

  predicate UniqueIds(es: seq<Employee>)
  {
    Distinctness.Distinct(Ids(es))
  }

  /** A patch that supplies no `id` leaves every id, and so their uniqueness, in place. */
  lemma UpdateKeepsIds(es: seq<Employee>, id: string, updates: Patch)
    requires updates.id == None
    ensures Ids(Updated(es, id, updates)) == Ids(es)
    ensures UniqueIds(Updated(es, id, updates)) <==> UniqueIds(es)
  {
    forall i | 0 <= i < |es| ensures Updated(es, id, updates)[i].id == es[i].id {
      UpdatedAt(es, id, updates, i);
    }
  }

  /** Appending a record keeps the ids unique exactly when its id is new. */
  lemma AddKeepsUnique(es: seq<Employee>, e: Employee)
    ensures UniqueIds(es + [e]) <==> UniqueIds(es) && e.id !in Ids(es)
  {
    var a, b := Ids(es), Ids(es + [e]);
    assert b == a + [e.id];
    if UniqueIds(es + [e]) {
      forall i, j | 0 <= i < j < |a| ensures a[i] != a[j] {
        assert a[i] == b[i] && a[j] == b[j];
      }
      forall i | 0 <= i < |a| ensures a[i] != e.id {
        assert a[i] == b[i] && e.id == b[|a|];
      }
    }
    if UniqueIds(es) && e.id !in a {
      forall i, j | 0 <= i < j < |b| ensures b[i] != b[j] {
        if j < |a| {
          assert a[i] == b[i] && a[j] == b[j];
        } else {
          assert b[i] == a[i] && b[j] == e.id;
        }
      }
    }
  }

  /** `es.filter(e => e.id !== id)` */
  function Deleted(es: seq<Employee>, id: string): (r: seq<Employee>)
    ensures |r| <= |es|
  {
    if es == [] then []
    else if es[0].id == id then Deleted(es[1..], id)
    else [es[0]] + Deleted(es[1..], id)
  }

  /** Delete removes exactly the records with the given id. */
  lemma {:induction false} DeletedMembers(es: seq<Employee>, id: string)
    ensures forall e :: e in Deleted(es, id) <==> e in es && e.id != id
  {
    if es != [] {
      DeletedMembers(es[1..], id);
      assert es == [es[0]] + es[1..];
    }
  }

  /** Delete keeps the remaining records in their relative order. */
  lemma {:induction false} DeletedAppend(a: seq<Employee>, b: seq<Employee>, id: string)
    ensures Deleted(a + b, id) == Deleted(a, id) + Deleted(b, id)
  {
    if a != [] {
      DeletedAppend(a[1..], b, id);
      assert (a + b)[1..] == a[1..] + b;
    } else {
      assert a + b == b;
    }
  }

  /** Deleting an id nobody has is a no-op. */
  lemma {:induction false} DeletedAbsent(es: seq<Employee>, id: string)
    requires forall i :: 0 <= i < |es| ==> es[i].id != id
    ensures Deleted(es, id) == es
  {
    if es != [] {
      DeletedAbsent(es[1..], id);
    }
  }

  /** Deleting the same id twice has the effect of deleting it once. */
  lemma DeletedTwice(es: seq<Employee>, id: string)
    ensures Deleted(Deleted(es, id), id) == Deleted(es, id)
  {
    var r := Deleted(es, id);
    DeletedMembers(es, id);
    forall i | 0 <= i < |r| ensures r[i].id != id {
      assert r[i] in r;
    }
    DeletedAbsent(r, id);
  }

  /** The ids left after a delete are among those before it, each no more often. */
  lemma {:induction false} DeletedIds(es: seq<Employee>, id: string)
    ensures multiset(Ids(Deleted(es, id))) <= multiset(Ids(es))
  {
    if es != [] {
      DeletedIds(es[1..], id);
      assert es == [es[0]] + es[1..];
      IdsCons(es[0], es[1..]);
      if es[0].id != id {
        IdsCons(es[0], Deleted(es[1..], id));
      }
    }
  }

  /** Delete keeps the ids unique. */
  lemma DeleteKeepsUnique(es: seq<Employee>, id: string)
    requires UniqueIds(es)
    ensures UniqueIds(Deleted(es, id))
  {
    DeletedIds(es, id);
    Distinctness.DistinctMultiset(Ids(es));
    Distinctness.DistinctMultiset(Ids(Deleted(es, id)));
  }

  /** The `useHRStore` hook: the collection and the operations that replace it. */
  class Store {
    var employees: seq<Employee>

    constructor ()
      ensures employees == [InitialEmployee()]
    {
      employees := [InitialEmployee()];
    }

    /** Appends `newEmp` under the id `newId` and returns the stored record. */
    method AddEmployee(newEmp: Profile, newId: string) returns (emp: Employee)
      modifies this
      ensures emp == Employee(newId, newEmp)
      ensures employees == old(employees) + [emp]
    {
      emp := Employee(newId, newEmp);
      employees := employees + [emp];
    }

    /** Merges `updates` into every record whose id is `id`. */
    method UpdateEmployee(id: string, updates: Patch)
      modifies this
      ensures employees == Updated(old(employees), id, updates)
    {
      employees := Updated(employees, id, updates);
    }

    /** Removes every record whose id is `id`. */
    method DeleteEmployee(id: string)
      modifies this
      ensures employees == Deleted(old(employees), id)
    {
      employees := Deleted(employees, id);
    }
  }
}
