/** `Employee`: a salary kept in a protected attribute and reached through a property whose
    setter refuses negative values. The constructor stores its salary without that check. */
module Employees {
  import opened Errors

  /** The salary the setter leaves when asked to store `newSalary`: the new value when it is
      non-negative, the current one otherwise. It never brings in a negative value. */
  function Assign(current: int, newSalary: int): (s: int)
    ensures newSalary >= 0 ==> s == newSalary
    ensures s == current || (s == newSalary && s >= 0)
  {
    if newSalary < 0 then current else newSalary
  }

  class Employee {
    /** The protected `_salary` attribute. */
    var salary: int

    /** The name is accepted but not stored; the salary is stored unchecked, so it may be negative. */
    constructor (name: string, salary: int)
      ensures this.salary == salary
    {
      this.salary := salary;
    }

    /** The property getter. */
    function Salary(): int
      reads this
    {
      salary
    }

    /** The property setter: raises `ValueError` on a negative value and then leaves the salary
        untouched; otherwise the getter returns the new value from now on. */
    method SetSalary(newSalary: int) returns (r: Outcome)
      modifies this
      ensures r == Fail(ValueError) <==> newSalary < 0
      ensures r == Pass <==> newSalary >= 0
      ensures r.Fail? ==> salary == old(salary)
      ensures r.Pass? ==> Salary() == newSalary
      ensures salary == Assign(old(salary), newSalary)
    {
      if newSalary < 0 {
        return Fail(ValueError);
      }
      salary := newSalary;
      r := Pass;
    }
  }

  /** The salary after the setter has been called with each of `attempts` in order,
      starting from `initial`; the calls that raised changed nothing. */
  function AfterSets(initial: int, attempts: seq<int>): int
    decreases |attempts|
  {
    if attempts == [] then initial
    else Assign(AfterSets(initial, attempts[..|attempts| - 1]), attempts[|attempts| - 1])
  }

  /** The salary after a sequence of setter calls is the last value the setter accepted,
      or the constructor's value when every call raised. */
  lemma {:induction false} AfterSetsIsLastAccepted(initial: int, attempts: seq<int>)
    ensures (forall j :: 0 <= j < |attempts| ==> attempts[j] < 0) ==> AfterSets(initial, attempts) == initial
    ensures forall i :: 0 <= i < |attempts| && attempts[i] >= 0 &&
                        (forall j :: i < j < |attempts| ==> attempts[j] < 0)
                        ==> AfterSets(initial, attempts) == attempts[i]
    decreases |attempts|
  {
    if attempts != [] {
      var n := |attempts| - 1;
      var init := attempts[..n];
      AfterSetsIsLastAccepted(initial, init);
      assert forall j :: 0 <= j < n ==> init[j] == attempts[j];
    }
  }

  /** The non-negative-salary invariant: once the salary is non-negative, or once the setter
      has accepted a value, no sequence of setter calls makes it negative. */
  lemma {:induction false} NonNegativeOnceAccepted(initial: int, attempts: seq<int>)
    requires initial >= 0 || exists j :: 0 <= j < |attempts| && attempts[j] >= 0
    ensures AfterSets(initial, attempts) >= 0
    decreases |attempts|
  {
    if attempts != [] {
      var n := |attempts| - 1;
      if attempts[n] < 0 {
        var init := attempts[..n];
        assert initial >= 0 || exists j :: 0 <= j < |init| && init[j] >= 0 by {
          if initial < 0 {
            var j :| 0 <= j < |attempts| && attempts[j] >= 0;
            assert j < n && init[j] == attempts[j];
          }
        }
        NonNegativeOnceAccepted(initial, init);
      }
    }
  }

  /** The constructor alone does not establish the invariant: it keeps a negative salary, and a
      refused setter call keeps it too. Setting 200 then -100 leaves 200. */
  method SalaryScenarios()
  {
    var e := new Employee("Zikri", -5);
    assert e.Salary() < 0;
    var r := e.SetSalary(-1);
    assert r == Fail(ValueError) && e.Salary() == -5;
    var emp := new Employee("Zikri", 100);
    r := emp.SetSalary(200);
    assert r == Pass && emp.Salary() == 200;
    r := emp.SetSalary(-100);
    assert r == Fail(ValueError) && emp.Salary() == 200;
  }

  /** Calls the setter of `e` with each of `attempts` in order, as a caller that catches each
      `ValueError` would; the salary ends where `AfterSets` says, so the lemmas about
      `AfterSets` hold of the object itself. */
  method SetSalaries(e: Employee, attempts: seq<int>)
    modifies e
    ensures e.salary == AfterSets(old(e.salary), attempts)
  {
    ghost var initial := e.salary;
    var i := 0;
    while i < |attempts|
      invariant 0 <= i <= |attempts|
      invariant e.salary == AfterSets(initial, attempts[..i])
    {
      var _ := e.SetSalary(attempts[i]);
      assert attempts[..i + 1][..i] == attempts[..i];
      i := i + 1;
    }
    assert attempts[..i] == attempts;
  }
}
