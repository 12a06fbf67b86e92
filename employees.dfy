/**
 * Staff attendance (backend/controllers/employeeController.js over
 * backend/models/Employee.js): check-in appends one attendance record,
 * check-out completes the last one with the hours worked, and the staff list
 * is ordered by name. Dates are milliseconds; the current time is a parameter.
 */
module Employees {
  import opened Base
  import opened Sorting

  datatype Attendance = Attendance(
    date: int,
    checkIn: Option<int>,
    checkOut: Option<int>,
    hoursWorked: Option<real>,
    status: string)

  datatype Employee = Employee(
    id: nat,
    name: string,
    role: string,
    salary: real,
    status: string,
    attendance: seq<Attendance>)

  const MillisPerHour: int := 1000 * 60 * 60

  /** The attendance `status` enum; an absent value takes the default "Present". */
  function AttendanceStatus(s: Option<string>): (r: Option<string>)
    ensures s.None? ==> r == Some("Present")
    ensures s.Some? ==> (r.Some? <==> s.value in {"Present", "Absent", "Half-Day", "Leave"})
    ensures r.Some? ==> r.value in {"Present", "Absent", "Half-Day", "Leave"}
  {
    if s.None? then Some("Present")
    else if s.value in {"Present", "Absent", "Half-Day", "Leave"} then s
    else None
  }

  /**
   * `calculateHours`: the elapsed hours, never negative. A missing time makes
   * the difference NaN, which the Number field refuses; that is `None`.
   */
  function CalculateHours(checkIn: Option<int>, checkOut: Option<int>): (r: Option<real>)
    ensures r.Some? <==> checkIn.Some? && checkOut.Some?
    ensures r.Some? ==> r.value >= 0.0
    ensures r.Some? && checkOut.value >= checkIn.value ==>
              r.value * (MillisPerHour as real) == (checkOut.value - checkIn.value) as real
    ensures r.Some? && checkOut.value <= checkIn.value ==> r.value == 0.0
  {
    if checkIn.None? || checkOut.None? then None
    else
      var diff := (checkOut.value - checkIn.value) as real / (MillisPerHour as real);
      Some(if diff >= 0.0 then diff else 0.0)
  }

  /** Every completed record has a non-negative number of hours. */
  ghost predicate HoursNonNegative(e: Employee) {
    forall k :: 0 <= k < |e.attendance| && e.attendance[k].hoursWorked.Some? ==> e.attendance[k].hoursWorked.value >= 0.0
  }

  function EmployeeName(e: Employee): string {
    e.name
  }

  /** The employee documents. */
  class Staff {
    var employees: seq<Employee>

    ghost predicate Valid()
      reads this
    {
      forall i :: 0 <= i < |employees| ==> HoursNonNegative(employees[i])
    }

    constructor ()
      ensures Valid() && employees == []
    {
      employees := [];
    }

    /**
     * `markAttendance`: an unknown employee is a 404; a status outside the
     * enum fails validation (500); in both cases nothing changes. Otherwise
     * exactly one record is appended to that employee's attendance.
     */
    method MarkAttendance(employeeId: nat, status: Option<string>, checkIn: Option<int>, now: int)
      returns (r: Result<Employee>)
      requires Valid()
      modifies this
      ensures Valid()
      ensures FirstIndex(old(employees), (e: Employee) => e.id == employeeId).None? ==>
                r == Err(NotFound) && employees == old(employees)
      ensures FirstIndex(old(employees), (e: Employee) => e.id == employeeId).Some? && AttendanceStatus(status).None? ==>
                r == Err(ServerError) && employees == old(employees)
      ensures FirstIndex(old(employees), (e: Employee) => e.id == employeeId).Some? && AttendanceStatus(status).Some? ==>
                var i := FirstIndex(old(employees), (e: Employee) => e.id == employeeId).value;
                var record := Attendance(now, checkIn, None, None, AttendanceStatus(status).value);
                employees == old(employees)[i := old(employees)[i].(attendance := old(employees)[i].attendance + [record])] &&
                r == Ok(employees[i])
    {
      var found := FirstIndex(employees, (e: Employee) => e.id == employeeId);
      if found.None? {
        return Err(NotFound);
      }
      var st := AttendanceStatus(status);
      if st.None? {
        return Err(ServerError);
      }
      var i := found.value;
      var e := employees[i].(attendance := employees[i].attendance + [Attendance(now, checkIn, None, None, st.value)]);
      employees := employees[i := e];
      r := Ok(e);
    }

    /**
     * `markCheckout`: 404 for an unknown employee, 400 when there is no
     * record, 500 when a time is missing; otherwise only the last record
     * changes: its check-out time and the hours since check-in.
     */
    method MarkCheckout(employeeId: nat, checkOut: Option<int>) returns (r: Result<Employee>)
      requires Valid()
      modifies this
      ensures Valid()
      ensures FirstIndex(old(employees), (e: Employee) => e.id == employeeId).None? ==>
                r == Err(NotFound) && employees == old(employees)
      ensures FirstIndex(old(employees), (e: Employee) => e.id == employeeId).Some? ==>
                var i := FirstIndex(old(employees), (e: Employee) => e.id == employeeId).value;
                var before := old(employees)[i].attendance;
                if before == [] then r == Err(BadRequest) && employees == old(employees)
                else
                  var last := before[|before| - 1];
                  var hours := CalculateHours(last.checkIn, checkOut);
                  if hours.None? then r == Err(ServerError) && employees == old(employees)
                  else
                    employees == old(employees)[i := old(employees)[i].(attendance :=
                      before[..|before| - 1] + [last.(checkOut := checkOut, hoursWorked := hours)])] &&
                    r == Ok(employees[i]) && hours.value >= 0.0
    {
      var found := FirstIndex(employees, (e: Employee) => e.id == employeeId);
      if found.None? {
        return Err(NotFound);
      }
      var i := found.value;
      var records := employees[i].attendance;
      if records == [] {
        return Err(BadRequest);
      }
      var last := records[|records| - 1];
      var hours := CalculateHours(last.checkIn, checkOut);
      if hours.None? {
        return Err(ServerError);
      }
      var updated := records[..|records| - 1] + [last.(checkOut := checkOut, hoursWorked := hours)];
      assert forall k :: 0 <= k < |records| - 1 ==> updated[k] == records[k];
      var e := employees[i].(attendance := updated);
      employees := employees[i := e];
      r := Ok(e);
    }

    /** `getEmployees`: every employee, by name. */
    function Listing(): (r: seq<Employee>)
      reads this
      ensures multiset(r) == multiset(employees)
      ensures forall i, j :: 0 <= i < j < |r| ==> TextLe(r[i].name, r[j].name)
    {
      var r := SortByText(employees, EmployeeName);
      assert SortedByText(r, EmployeeName);
      r
    }
  }
}
