/**
 * The dashboard statistics of store/useHRStore.ts as the program evidently
 * intends them: a pure projection of the current collection (`StatsOf`),
 * and the record-by-record counting loop (`ComputeStats`), proved to
 * compute it.
 *
 * Here the department table is a dictionary with no inherited keys, filled
 * in record order and listed in the `Object.entries` order of module
 * PropertyOrder. The program's own table is an object literal `{}`, which
 * inherits the keys of Object.prototype; module DeptMapJs models that table
 * and proves the two agree when no department name is one of those keys.
 * The completion percentage is a real number: the model does not round as
 * floating point does.
 */
module HRStats {
  import opened Types
  import Distinctness
  import PropertyOrder
  import HRStore

  function Dept(e: Employee): string
  {
    e.profile.department
  }

  /** Some record of `es` belongs to department `d`. */
  predicate HasDepartment(es: seq<Employee>, d: string)
  {
    exists i :: 0 <= i < |es| && Dept(es[i]) == d
  }

  /** The number of records of `es` in department `d`. */
  function DeptCount(es: seq<Employee>, d: string): (n: nat)
    ensures n <= |es|
  {
    if es == [] then 0
    else DeptCount(es[..|es| - 1], d) + (if Dept(es[|es| - 1]) == d then 1 else 0)
  }

  /** The departments of `es`, each once, in the order they first occur. */
  function FirstSeen(es: seq<Employee>): seq<string>
  {
    if es == [] then []
    else
      var prior := FirstSeen(es[..|es| - 1]);
      if Dept(es[|es| - 1]) in prior then prior else prior + [Dept(es[|es| - 1])]
  }

  /** The position of the first record of `es` in department `d`. */
  function FirstIndex(es: seq<Employee>, d: string): (i: nat)
    requires HasDepartment(es, d)
    ensures i < |es| && Dept(es[i]) == d
    ensures forall j :: 0 <= j < i ==> Dept(es[j]) != d
  {
    var prior := es[..|es| - 1];
    if HasDepartment(prior, d) then
      var i := FirstIndex(prior, d);
      assert es[i] == prior[i];
      assert forall j :: 0 <= j < i ==> es[j] == prior[j];
      i
    else
      assert forall j :: 0 <= j < |es| - 1 ==> es[j] == prior[j];
      |es| - 1
  }

  /** `es.filter(e => e.status === '已完成').length` */
  function CompletedCount(es: seq<Employee>): (n: nat)
    ensures n <= |es|
  {
    if es == [] then 0
    else CompletedCount(es[..|es| - 1]) + (if es[|es| - 1].profile.status == Completed then 1 else 0)
  }

  function Max(a: int, b: int): int
  {
    if a < b then b else a
  }

  /** `completed / Math.max(total, 1) * 100` */
  function Progress(es: seq<Employee>): real
  {
    (CompletedCount(es) as real / Max(|es|, 1) as real) * 100.0
  }

  /** One entry per department, in `Object.entries` order, valued by its head count. */
  function DepartmentDistribution(es: seq<Employee>): seq<DeptEntry>
  {
    var keys := PropertyOrder.OwnKeys(FirstSeen(es));
    seq(|keys|, i requires 0 <= i < |keys| => DeptEntry(keys[i], DeptCount(es, keys[i])))
  }

  /** The hiring-trend series, which the program does not derive from the records. */
  const HiringTrends: seq<TrendEntry> := [TrendEntry("4月", 1)]

  /**
   * The intended value of `stats` for the collection `es`; the program's
   * value differs only in its department table, as module DeptMapJs shows.
   */
  function StatsOf(es: seq<Employee>): DashboardStats
  {
    DashboardStats(|es|, Progress(es), DepartmentDistribution(es), HiringTrends)
  }

  /** The sum of the values of a department table. */
  function Total(entries: seq<DeptEntry>): nat
  {
    if entries == [] then 0 else entries[0].value + Total(entries[1..])
  }

  // ---------------------------------------------------------------------
  // The counting loop of `stats`

  /**
   * The counting loop of `stats`: fill a dictionary record by record, then
   * list it in `Object.entries` order. The dictionary has no inherited keys,
   * so this is the program's loop as intended; the program's own loop over
   * `{}` is DeptMapJs.FillDeptMap.
   */
  method ComputeStats(employees: seq<Employee>) returns (stats: DashboardStats)
    ensures stats == StatsOf(employees)
  {
    // `created` is the order in which the object's keys were created
    var deptMap: map<string, nat> := map[];
    var created: seq<string> := [];
    var i := 0;
    while i < |employees|
      invariant 0 <= i <= |employees|
      invariant created == FirstSeen(employees[..i])
      invariant forall d :: d in deptMap <==> d in created
      invariant forall d :: d in deptMap ==> deptMap[d] == DeptCount(employees[..i], d)
    {
      var d := Dept(employees[i]);
      PrefixStep(employees, i);
      if d in deptMap {
        deptMap := deptMap[d := deptMap[d] + 1];
      } else {
        NotCreatedNotCounted(employees[..i], d);
        deptMap := deptMap[d := 1];
        created := created + [d];
      }
      i := i + 1;
    }
    assert employees[..i] == employees;
    var keys := PropertyOrder.OwnKeys(created);
    PropertyOrder.OwnKeysPermutes(created);
    var entries := seq(|keys|, j requires 0 <= j < |keys| => DeptEntry(keys[j], deptMap[keys[j]]));
    assert entries == DepartmentDistribution(employees) by {
      forall j | 0 <= j < |keys| ensures entries[j] == DepartmentDistribution(employees)[j] {
        assert keys[j] in created;
      }
    }
    stats := DashboardStats(|employees|, Progress(employees), entries, HiringTrends);
  }

  /** How the first-seen list and the counts grow when one more record is read. */
  lemma PrefixStep(es: seq<Employee>, i: nat)
    requires i < |es|
    ensures FirstSeen(es[..i + 1])
         == if Dept(es[i]) in FirstSeen(es[..i]) then FirstSeen(es[..i]) else FirstSeen(es[..i]) + [Dept(es[i])]
    ensures forall x :: DeptCount(es[..i + 1], x) == DeptCount(es[..i], x) + (if x == Dept(es[i]) then 1 else 0)
  {
    assert es[..i + 1][..i] == es[..i];
    assert es[..i + 1][i] == es[i];
  }

  // ---------------------------------------------------------------------
  // Properties of the department table

  /** A department is listed by `FirstSeen` exactly when some record has it, and only once. */
  lemma {:induction false} FirstSeenFacts(es: seq<Employee>)
    ensures Distinctness.Distinct(FirstSeen(es))
    ensures forall d :: d in FirstSeen(es) <==> HasDepartment(es, d)
  {
    if es != [] {
      var prior := es[..|es| - 1];
      FirstSeenFacts(prior);
      forall d ensures HasDepartment(es, d) <==> HasDepartment(prior, d) || Dept(es[|es| - 1]) == d {
        if HasDepartment(prior, d) {
          var i :| 0 <= i < |prior| && Dept(prior[i]) == d;
          assert es[i] == prior[i];
        }
        if HasDepartment(es, d) && Dept(es[|es| - 1]) != d {
          var i :| 0 <= i < |es| && Dept(es[i]) == d;
          assert prior[i] == es[i];
        }
      }
    }
  }

  lemma NotCreatedNotCounted(es: seq<Employee>, d: string)
    requires d !in FirstSeen(es)
    ensures DeptCount(es, d) == 0
  {
    FirstSeenFacts(es);
    CountPositive(es, d);
  }

  /** A department's head count is positive exactly when some record has it. */
  lemma {:induction false} CountPositive(es: seq<Employee>, d: string)
    ensures DeptCount(es, d) > 0 <==> HasDepartment(es, d)
  {
    if es != [] {
      var prior := es[..|es| - 1];
      CountPositive(prior, d);
      if HasDepartment(prior, d) {
        var i :| 0 <= i < |prior| && Dept(prior[i]) == d;
        assert es[i] == prior[i];
      }
      if HasDepartment(es, d) && Dept(es[|es| - 1]) != d {
        var i :| 0 <= i < |es| && Dept(es[i]) == d;
        assert prior[i] == es[i];
      }
    }
  }

  /** `FirstSeen` lists departments in the order of their first records. */
  lemma {:induction false} FirstSeenOrder(es: seq<Employee>, i: nat, j: nat)
    requires i < j < |FirstSeen(es)|
    ensures HasDepartment(es, FirstSeen(es)[i]) && HasDepartment(es, FirstSeen(es)[j])
    ensures FirstIndex(es, FirstSeen(es)[i]) < FirstIndex(es, FirstSeen(es)[j])
  {
    FirstSeenFacts(es);
    var fs := FirstSeen(es);
    assert fs[i] in fs && fs[j] in fs;
    var prior := es[..|es| - 1];
    FirstSeenFacts(prior);
    var a, b := fs[i], fs[j];
    if j < |FirstSeen(prior)| {
      FirstSeenOrder(prior, i, j);
      assert FirstSeen(prior)[i] == a && FirstSeen(prior)[j] == b;
      FirstIndexPrefix(es, a);
      FirstIndexPrefix(es, b);
    } else {
      assert b == Dept(es[|es| - 1]) && b !in FirstSeen(prior);
      assert a == FirstSeen(prior)[i];
      assert a in FirstSeen(prior);
      FirstIndexPrefix(es, a);
    }
  }

  /** A department already present before the last record keeps its first position. */
  lemma FirstIndexPrefix(es: seq<Employee>, d: string)
    requires es != [] && HasDepartment(es[..|es| - 1], d)
    ensures HasDepartment(es, d)
    ensures FirstIndex(es, d) == FirstIndex(es[..|es| - 1], d)
  {
    var prior := es[..|es| - 1];
    var i := FirstIndex(prior, d);
    assert es[i] == prior[i];
  }

  /** How often `d` occurs in `names`. */
  function Occurrences(names: seq<string>, d: string): nat
  {
    if names == [] then 0 else (if names[0] == d then 1 else 0) + Occurrences(names[1..], d)
  }

  /** The head counts of `names`, added up. */
  function SumCounts(es: seq<Employee>, names: seq<string>): nat
  {
    if names == [] then 0 else DeptCount(es, names[0]) + SumCounts(es, names[1..])
  }

  lemma {:induction false} SumCountsSnoc(es: seq<Employee>, names: seq<string>)
    requires es != []
    ensures SumCounts(es, names)
         == SumCounts(es[..|es| - 1], names) + Occurrences(names, Dept(es[|es| - 1]))
  {
    if names != [] {
      SumCountsSnoc(es, names[1..]);
    }
  }

  lemma {:induction false} OccursOnce(names: seq<string>, d: string)
    requires Distinctness.Distinct(names) && d in names
    ensures Occurrences(names, d) == 1
  {
    if names[0] == d {
      OccursNot(names[1..], d);
    } else {
      OccursOnce(names[1..], d);
    }
  }

  lemma {:induction false} OccursNot(names: seq<string>, d: string)
    requires d !in names
    ensures Occurrences(names, d) == 0
  {
    if names != [] {
      OccursNot(names[1..], d);
    }
  }

  /**
   * When `names` lists every department of `es` once, their head counts add
   * up to the number of records.
   */
  lemma {:induction false} SumCountsCover(es: seq<Employee>, names: seq<string>)
    requires Distinctness.Distinct(names)
    requires forall i :: 0 <= i < |es| ==> Dept(es[i]) in names
    ensures SumCounts(es, names) == |es|
  {
    if es == [] {
      SumCountsEmpty(names);
    } else {
      var prior := es[..|es| - 1];
      forall i | 0 <= i < |prior| ensures Dept(prior[i]) in names {
        assert prior[i] == es[i];
      }
      SumCountsCover(prior, names);
      SumCountsSnoc(es, names);
      OccursOnce(names, Dept(es[|es| - 1]));
    }
  }

  lemma {:induction false} SumCountsEmpty(names: seq<string>)
    ensures SumCounts([], names) == 0
  {
    if names != [] {
      SumCountsEmpty(names[1..]);
    }
  }

  lemma {:induction false} TotalIsSumCounts(es: seq<Employee>, keys: seq<string>)
    ensures Total(seq(|keys|, i requires 0 <= i < |keys| => DeptEntry(keys[i], DeptCount(es, keys[i]))))
         == SumCounts(es, keys)
  {
    var entries := seq(|keys|, i requires 0 <= i < |keys| => DeptEntry(keys[i], DeptCount(es, keys[i])));
    if keys != [] {
      TotalIsSumCounts(es, keys[1..]);
      assert entries[1..] == seq(|keys[1..]|, i requires 0 <= i < |keys[1..]| => DeptEntry(keys[1..][i], DeptCount(es, keys[1..][i])));
    }
  }

  /**
   * The department table has one entry per distinct department of the
   * collection, each valued by that department's head count, never zero,
   * and the values add up to the number of records.
   */
  lemma DistributionSpec(es: seq<Employee>)
    ensures var r := DepartmentDistribution(es);
      && (forall i, j :: 0 <= i < j < |r| ==> r[i].name != r[j].name)
      && (forall d :: HasDepartment(es, d) <==> exists i :: 0 <= i < |r| && r[i].name == d)
      && (forall i :: 0 <= i < |r| ==> r[i].value == DeptCount(es, r[i].name) && r[i].value > 0)
      && Total(r) == |es|
  {
    var keys := PropertyOrder.OwnKeys(FirstSeen(es));
    var r := DepartmentDistribution(es);
    FirstSeenFacts(es);
    PropertyOrder.OwnKeysPermutes(FirstSeen(es));
    forall d | HasDepartment(es, d) ensures exists i :: 0 <= i < |r| && r[i].name == d {
      var i :| 0 <= i < |keys| && keys[i] == d;
      assert r[i].name == d;
    }
    forall i | 0 <= i < |r| ensures r[i].value > 0 {
      assert keys[i] in keys;
      CountPositive(es, keys[i]);
    }
    forall i | 0 <= i < |es| ensures Dept(es[i]) in keys {
      assert HasDepartment(es, Dept(es[i]));
    }
    TotalIsSumCounts(es, keys);
    SumCountsCover(es, keys);
  }

  /** The department names of a table, in order. */
  function Names(entries: seq<DeptEntry>): (r: seq<string>)
    ensures |r| == |entries| && forall i :: 0 <= i < |entries| ==> r[i] == entries[i].name
  {
    seq(|entries|, i requires 0 <= i < |entries| => entries[i].name)
  }

  /**
   * The table lists departments in the order their first records appear,
   * except that names which are array indices ("0", "12", ...) come first,
   * in ascending numeric order.
   */
  lemma DistributionOrder(es: seq<Employee>)
    ensures var r, m := Names(DepartmentDistribution(es)), |PropertyOrder.IndexKeys(FirstSeen(es))|;
      && m <= |r|
      && (forall i :: 0 <= i < m ==> PropertyOrder.IsArrayIndex(r[i]))
      && (forall i, j :: 0 <= i < j < m ==> PropertyOrder.DecimalValue(r[i]) <= PropertyOrder.DecimalValue(r[j]))
      && r[m..] == PropertyOrder.NamedKeys(FirstSeen(es))
    ensures (forall i :: 0 <= i < |es| ==> !PropertyOrder.IsArrayIndex(Dept(es[i]))) ==>
      Names(DepartmentDistribution(es)) == FirstSeen(es)
  {
    var keys := PropertyOrder.OwnKeys(FirstSeen(es));
    assert Names(DepartmentDistribution(es)) == keys;
    PropertyOrder.OwnKeysOrder(FirstSeen(es));
    if forall i :: 0 <= i < |es| ==> !PropertyOrder.IsArrayIndex(Dept(es[i])) {
      FirstSeenFacts(es);
      forall i | 0 <= i < |FirstSeen(es)| ensures !PropertyOrder.IsArrayIndex(FirstSeen(es)[i]) {
        assert FirstSeen(es)[i] in FirstSeen(es);
      }
      PropertyOrder.OwnKeysCreationOrder(FirstSeen(es));
    }
  }

  // ---------------------------------------------------------------------
  // Properties of the other figures

  /** The completed count is the number of records, exactly when all are completed. */
  lemma {:induction false} CompletedCountBounds(es: seq<Employee>)
    ensures CompletedCount(es) == |es| <==> forall i :: 0 <= i < |es| ==> es[i].profile.status == Completed
    ensures CompletedCount(es) == 0 <==> forall i :: 0 <= i < |es| ==> es[i].profile.status != Completed
  {
    if es != [] {
      var prior := es[..|es| - 1];
      CompletedCountBounds(prior);
      assert forall i :: 0 <= i < |prior| ==> prior[i] == es[i];
    }
  }

  /** The percentage `c / n * 100` of a part `c` of a whole `n >= 1`. */
  lemma Percentage(c: nat, n: nat)
    requires 1 <= n && c <= n
    ensures var p := (c as real / n as real) * 100.0;
      && 0.0 <= p <= 100.0
      && (p == 100.0 <==> c == n)
      && (p == 0.0 <==> c == 0)
  {
    var q := c as real / n as real;
    assert q * n as real == c as real;
    assert q <= 1.0 by {
      assert c as real / n as real <= n as real / n as real;
    }
    if q == 1.0 {
      assert c as real == n as real;
    }
  }

  /**
   * The completion percentage lies in [0, 100]; it is 0 for an empty
   * collection and, for a non-empty one, 100 exactly when every record is
   * completed and 0 exactly when none is.
   */
  lemma ProgressSpec(es: seq<Employee>)
    ensures 0.0 <= Progress(es) <= 100.0
    ensures es == [] ==> Progress(es) == 0.0
    ensures es != [] ==>
      (Progress(es) == 100.0 <==> forall i :: 0 <= i < |es| ==> es[i].profile.status == Completed)
    ensures Progress(es) == 0.0 <==> forall i :: 0 <= i < |es| ==> es[i].profile.status != Completed
  {
    CompletedCountBounds(es);
    Percentage(CompletedCount(es), Max(|es|, 1));
  }

  /** `stats` reports the number of records and a fixed hiring-trend series. */
  lemma StatsFigures(es: seq<Employee>)
    ensures StatsOf(es).totalEmployees == |es|
    ensures StatsOf(es).hiringTrends == [TrendEntry("4月", 1)]
    ensures StatsOf(es).onboardingProgress == Progress(es)
  {
  }

  /** The empty collection has no records, 0 percent progress and no departments. */
  lemma EmptyStats()
    ensures StatsOf([]) == DashboardStats(0, 0.0, [], [TrendEntry("4月", 1)])
  {
  }

  /**
   * The seed collection: one record, 100 percent completed, one department
   * with one member.
   */
  lemma InitialStats()
    ensures StatsOf([HRStore.InitialEmployee()])
         == DashboardStats(1, 100.0, [DeptEntry("客服部", 1)], [TrendEntry("4月", 1)])
  {
    var es := [HRStore.InitialEmployee()];
    assert es[..0] == [];
    assert FirstSeen(es) == ["客服部"];
    assert !PropertyOrder.IsArrayIndex("客服部") by {
      assert !PropertyOrder.IsDigit("客服部"[0]);
    }
    assert PropertyOrder.OwnKeys(["客服部"]) == ["客服部"];
    assert DeptCount(es, "客服部") == 1;
    assert CompletedCount(es) == 1;
  }
}
