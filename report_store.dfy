/**
 * The emergency-report collection: the schema's enumerations, required fields
 * and defaults, the pre-save hook that refreshes `updatedAt`, and the query and
 * update helpers, over an in-memory sequence of stored reports. Clock readings
 * (`Date.now()`) are passed in as `now`.
 */
module ReportStore {
  import opened Wrappers

  const EmergencyTypes: seq<string> :=
    ["hurricane", "flood", "fire", "powerOutage", "structuralDamage", "roadClosed", "other"]
  const Severities: seq<string> := ["critical", "high", "moderate", "low"]
  const Statuses: seq<string> := ["pending", "in-progress", "resolved", "closed"]
  const DefaultStatus: string := "pending"

  /** A request body as it reaches `saveReport`; `None` is an absent property. */
  datatype ReportData = ReportData(
    emergencyType: Option<string>,
    severity: Option<string>,
    location: Option<string>,
    latitude: Option<real>,
    longitude: Option<real>,
    description: Option<string>,
    peopleAffected: Option<real>,
    contactName: Option<string>,
    contactPhone: Option<string>,
    contactEmail: Option<string>,
    status: Option<string>
  )

  /** A stored document. `status` is a string: the status update does not validate it. */
  datatype Report = Report(
    id: nat,
    emergencyType: string,
    severity: string,
    location: string,
    latitude: Option<real>,
    longitude: Option<real>,
    description: string,
    peopleAffected: Option<real>,
    contactName: string,
    contactPhone: string,
    contactEmail: Option<string>,
    status: string,
    reportedAt: nat,
    updatedAt: nat,
    emailSent: bool,
    smsSent: bool
  )

  /** The validated paths of the schema, in its order. */
  datatype Path =
    | EmergencyTypePath | SeverityPath | LocationPath | DescriptionPath
    | ContactNamePath | ContactPhonePath | StatusPath

  datatype SchemaError = Required(path: Path) | NotInEnum(path: Path, value: string)

  datatype StoreError = NotConnected | Invalid(errors: seq<SchemaError>) | DocumentNotFound

  /** A required String path fails when absent and when empty. */
  predicate Present(v: Option<string>)
  {
    v.Some? && v.value != ""
  }

  function RequiredErrors(path: Path, v: Option<string>): seq<SchemaError>
  {
    if Present(v) then [] else [Required(path)]
  }

  /** An enum path fails when a value is given that is not listed; absence is left to `required`. */
  function EnumErrors(path: Path, v: Option<string>, values: seq<string>): seq<SchemaError>
  {
    if v.Some? && v.value !in values then [NotInEnum(path, v.value)] else []
  }

  /**
   * A required enum path reports only its first failing validator: `required`
   * runs before `enum`, so an absent or empty value is one `Required` error.
   */
  function RequiredEnumErrors(path: Path, v: Option<string>, values: seq<string>): seq<SchemaError>
  {
    if Present(v) then EnumErrors(path, v, values) else [Required(path)]
  }

  /** All validation errors of a new document, in the schema's path order. */
  function Errors(d: ReportData): seq<SchemaError>
  {
    RequiredEnumErrors(EmergencyTypePath, d.emergencyType, EmergencyTypes)
    + RequiredEnumErrors(SeverityPath, d.severity, Severities)
    + RequiredErrors(LocationPath, d.location)
    + RequiredErrors(DescriptionPath, d.description)
    + RequiredErrors(ContactNamePath, d.contactName)
    + RequiredErrors(ContactPhonePath, d.contactPhone)
    + EnumErrors(StatusPath, d.status, Statuses)
  }

  /** The conditions of the schema, stated field by field. */
  predicate Acceptable(d: ReportData)
  {
    && Present(d.emergencyType) && d.emergencyType.value in EmergencyTypes
    && Present(d.severity) && d.severity.value in Severities
    && Present(d.location) && Present(d.description)
    && Present(d.contactName) && Present(d.contactPhone)
    && (d.status.None? || d.status.value in Statuses)
  }

  /** Validation passes exactly when the schema's conditions hold; optional paths never fail. */
  lemma ErrorsIff(d: ReportData)
    ensures Errors(d) == [] <==> Acceptable(d)
  {
  }

  /** No two errors of `errs` are about the same path. */
  predicate PathsDistinct(errs: seq<SchemaError>)
  {
    forall i, j :: 0 <= i < j < |errs| ==> errs[i].path != errs[j].path
  }

  lemma AppendPathsDistinct(a: seq<SchemaError>, b: seq<SchemaError>)
    requires PathsDistinct(a) && PathsDistinct(b)
    requires forall x, y :: x in a && y in b ==> x.path != y.path
    ensures PathsDistinct(a + b)
  {
    forall i, j | 0 <= i < j < |a + b| ensures (a + b)[i].path != (a + b)[j].path {
      if i < |a| && j >= |a| {
        assert (a + b)[i] in a && (a + b)[j] == b[j - |a|];
      } else if i >= |a| {
        assert (a + b)[i] == b[i - |a|] && (a + b)[j] == b[j - |a|];
      }
    }
  }

  /** `errs` is at most one error, about `path`. */
  predicate About(errs: seq<SchemaError>, path: Path)
  {
    |errs| <= 1 && forall e :: e in errs ==> e.path == path
  }

  /** Errors about seven different paths, one run after another, name each path at most once. */
  lemma SevenPathsDistinct(p1: seq<SchemaError>, p2: seq<SchemaError>, p3: seq<SchemaError>, p4: seq<SchemaError>,
                           p5: seq<SchemaError>, p6: seq<SchemaError>, p7: seq<SchemaError>)
    requires About(p1, EmergencyTypePath) && About(p2, SeverityPath) && About(p3, LocationPath)
    requires About(p4, DescriptionPath) && About(p5, ContactNamePath) && About(p6, ContactPhonePath)
    requires About(p7, StatusPath)
    ensures PathsDistinct(p1 + p2 + p3 + p4 + p5 + p6 + p7)
  {
    AppendPathsDistinct(p1, p2);
    AppendPathsDistinct(p1 + p2, p3);
    AppendPathsDistinct(p1 + p2 + p3, p4);
    AppendPathsDistinct(p1 + p2 + p3 + p4, p5);
    AppendPathsDistinct(p1 + p2 + p3 + p4 + p5, p6);
    AppendPathsDistinct(p1 + p2 + p3 + p4 + p5 + p6, p7);
  }

  /** Each path is reported at most once: a missing enum value is not also reported as unlisted. */
  lemma OneErrorPerPath(d: ReportData)
    ensures PathsDistinct(Errors(d))
  {
    SevenPathsDistinct(
      RequiredEnumErrors(EmergencyTypePath, d.emergencyType, EmergencyTypes),
      RequiredEnumErrors(SeverityPath, d.severity, Severities),
      RequiredErrors(LocationPath, d.location),
      RequiredErrors(DescriptionPath, d.description),
      RequiredErrors(ContactNamePath, d.contactName),
      RequiredErrors(ContactPhonePath, d.contactPhone),
      EnumErrors(StatusPath, d.status, Statuses));
  }

  /** A valid body becomes a document with the defaults filled in. */
  function Build(d: ReportData, id: nat, now: nat): (r: Report)
    requires Acceptable(d)
    ensures Conforms(r)
    ensures r.id == id && r.reportedAt == now && r.updatedAt == now
    ensures r.status == (if d.status.Some? then d.status.value else DefaultStatus)
    ensures !r.emailSent && !r.smsSent
    ensures Some(r.emergencyType) == d.emergencyType && Some(r.severity) == d.severity
    ensures Some(r.location) == d.location && Some(r.description) == d.description
    ensures Some(r.contactName) == d.contactName && Some(r.contactPhone) == d.contactPhone
    ensures r.latitude == d.latitude && r.longitude == d.longitude
    ensures r.peopleAffected == d.peopleAffected && r.contactEmail == d.contactEmail
  {
    Report(id, d.emergencyType.value, d.severity.value, d.location.value, d.latitude, d.longitude,
           d.description.value, d.peopleAffected, d.contactName.value, d.contactPhone.value,
           d.contactEmail, if d.status.Some? then d.status.value else DefaultStatus,
           now, now, false, false)
  }

  /** A document satisfies every path's validator. */
  predicate Conforms(r: Report)
  {
    && r.emergencyType in EmergencyTypes && r.severity in Severities
    && r.location != "" && r.description != "" && r.contactName != "" && r.contactPhone != ""
    && r.status in Statuses
  }

  /** The parts of the schema that only creation checks, and that every stored document keeps. */
  predicate ConformsCreated(r: Report)
  {
    && r.emergencyType in EmergencyTypes && r.severity in Severities
    && r.location != "" && r.description != "" && r.contactName != "" && r.contactPhone != ""
  }

  /** Newest first: `reportedAt` never increases along the sequence. */
  predicate NewestFirstOrder(s: seq<Report>)
  {
    forall i, j :: 0 <= i < j < |s| ==> s[i].reportedAt >= s[j].reportedAt
  }

  function Insert(r: Report, s: seq<Report>): seq<Report>
  {
    if s == [] || r.reportedAt >= s[0].reportedAt then [r] + s
    else [s[0]] + Insert(r, s[1..])
  }

  /** `.sort({ reportedAt: -1 })`; the order among equal timestamps is not promised. */
  function SortNewestFirst(s: seq<Report>): seq<Report>
  {
    if s == [] then [] else Insert(s[0], SortNewestFirst(s[1..]))
  }

  /** Inserting adds the report and keeps every other one. */
  lemma {:induction false} InsertKeeps(r: Report, s: seq<Report>)
    ensures multiset(Insert(r, s)) == multiset(s) + multiset{r}
    ensures |Insert(r, s)| == |s| + 1
  {
    if !(s == [] || r.reportedAt >= s[0].reportedAt) {
      InsertKeeps(r, s[1..]);
      assert s == [s[0]] + s[1..];
    }
  }

  /** Inserting into a newest-first sequence keeps it newest first. */
  lemma {:induction false} InsertSorted(r: Report, s: seq<Report>)
    requires NewestFirstOrder(s)
    ensures NewestFirstOrder(Insert(r, s))
  {
    if !(s == [] || r.reportedAt >= s[0].reportedAt) {
      var tail := s[1..];
      var t := Insert(r, tail);
      InsertSorted(r, tail);
      InsertKeeps(r, tail);
      var u := [s[0]] + t;
      assert Insert(r, s) == u;
      forall j | 1 <= j < |u| ensures s[0].reportedAt >= u[j].reportedAt {
        var x := u[j];
        assert x == t[j - 1];
        assert x in multiset(t);
        if x != r {
          assert x in multiset(tail);
          var m :| 0 <= m < |tail| && tail[m] == x;
          assert s[m + 1] == x;
        }
      }
    }
  }

  /** Sorting yields a newest-first permutation of the stored reports. */
  lemma {:induction false} SortNewestFirstCorrect(s: seq<Report>)
    ensures NewestFirstOrder(SortNewestFirst(s))
    ensures multiset(SortNewestFirst(s)) == multiset(s)
  {
    if s != [] {
      SortNewestFirstCorrect(s[1..]);
      InsertKeeps(s[0], SortNewestFirst(s[1..]));
      InsertSorted(s[0], SortNewestFirst(s[1..]));
      assert s == [s[0]] + s[1..];
    }
  }

  /** `find({ severity })`: the reports with that severity, in stored order. */
  function WithSeverity(s: seq<Report>, severity: string): seq<Report>
  {
    if s == [] then []
    else (if s[0].severity == severity then [s[0]] else []) + WithSeverity(s[1..], severity)
  }

  /** The filter keeps exactly the reports of the given severity, each as often as it is stored. */
  lemma {:induction false} WithSeverityExact(s: seq<Report>, severity: string)
    ensures forall r :: r in multiset(WithSeverity(s, severity)) ==> r.severity == severity
    ensures forall r: Report :: r.severity == severity ==> multiset(WithSeverity(s, severity))[r] == multiset(s)[r]
  {
    if s != [] {
      WithSeverityExact(s[1..], severity);
      assert s == [s[0]] + s[1..];
    }
  }

  predicate UniqueIds(s: seq<Report>)
  {
    forall i, j :: 0 <= i < j < |s| ==> s[i].id != s[j].id
  }

  /** The MongoDB collection, with the connection state decided at start-up. */
  class Store {
    var connected: bool
    var reports: seq<Report>
    var nextId: nat

    ghost predicate Valid()
      reads this
    {
      && UniqueIds(reports)
      && (forall i :: 0 <= i < |reports| ==> reports[i].id < nextId)
      && (forall i :: 0 <= i < |reports| ==> ConformsCreated(reports[i]))
    }

    /** `connectDatabase`: `connected` says whether DATABASE_URL was set and the connection succeeded. */
    constructor (connected: bool)
      ensures Valid()
      ensures this.connected == connected && reports == []
    {
      this.connected := connected;
      reports := [];
      nextId := 0;
    }

    /**
     * `saveReport`: validate, fill in the defaults, run the pre-save hook and
     * append. Validation runs before the insert, so an invalid body fails with
     * its errors even without a connection; a valid body without a connection
     * fails with `NotConnected` (the buffered insert timing out). On either
     * failure nothing is stored.
     */
    method Save(d: ReportData, now: nat) returns (result: Result<Report, StoreError>)
      requires Valid()
      modifies this
      ensures Valid() && connected == old(connected)
      ensures !Acceptable(d) ==> result == Failure(Invalid(Errors(d))) && reports == old(reports)
      ensures Acceptable(d) && !old(connected) ==> result == Failure(NotConnected) && reports == old(reports)
      ensures old(connected) && Acceptable(d) ==>
        && result == Success(Build(d, old(nextId), now))
        && reports == old(reports) + [result.value]
    {
      ErrorsIff(d);
      var errs := Errors(d);
      if errs != [] {
        return Failure(Invalid(errs));
      }
      if !connected {
        return Failure(NotConnected);
      }
      var r := Build(d, nextId, now);
      reports := reports + [r];
      nextId := nextId + 1;
      result := Success(r);
    }

    /**
     * `doc.save()` on a document already stored: validate the whole document,
     * refresh `updatedAt` in the pre-save hook and write it over the stored copy.
     */
    method Resave(doc: Report, now: nat) returns (result: Result<Report, StoreError>)
      requires Valid()
      modifies this
      ensures Valid() && connected == old(connected) && |reports| == |old(reports)|
      ensures result.Success? <==> old(connected) && Conforms(doc) && exists i :: 0 <= i < |old(reports)| && old(reports)[i].id == doc.id
      ensures result.Success? ==> result.value == doc.(updatedAt := now)
      ensures forall i :: 0 <= i < |reports| ==>
        reports[i] == if result.Success? && old(reports)[i].id == doc.id then result.value else old(reports)[i]
    {
      if !connected {
        return Failure(NotConnected);
      }
      if !Conforms(doc) {
        return Failure(Invalid([]));
      }
      var i := 0;
      while i < |reports| && reports[i].id != doc.id
        invariant 0 <= i <= |reports|
        invariant forall k :: 0 <= k < i ==> reports[k].id != doc.id
      {
        i := i + 1;
      }
      if i == |reports| {
        return Failure(DocumentNotFound);
      }
      var updated := doc.(updatedAt := now);
      reports := reports[i := updated];
      result := Success(updated);
    }

    /** `getAllReports`: every report, newest first; `[]` when the query fails. */
    method GetAll() returns (rs: seq<Report>)
      ensures !connected ==> rs == []
      ensures connected ==> NewestFirstOrder(rs) && multiset(rs) == multiset(reports)
    {
      if !connected {
        return [];
      }
      SortNewestFirstCorrect(reports);
      rs := SortNewestFirst(reports);
    }

    /** `getReportsBySeverity`: exactly the reports of that severity, newest first; `[]` when the query fails. */
    method GetBySeverity(severity: string) returns (rs: seq<Report>)
      ensures !connected ==> rs == []
      ensures connected ==> NewestFirstOrder(rs)
      ensures forall r :: r in rs ==> r.severity == severity
      ensures connected ==> forall r: Report :: r.severity == severity ==> multiset(rs)[r] == multiset(reports)[r]
    {
      if !connected {
        return [];
      }
      var matching := WithSeverity(reports, severity);
      WithSeverityExact(reports, severity);
      SortNewestFirstCorrect(matching);
      rs := SortNewestFirst(matching);
    }

    /**
     * `updateReportStatus`: `findByIdAndUpdate` with `{ status, updatedAt }` and
     * `{ new: true }`. It answers with the updated report, or with nothing when
     * no report has that id; it throws without a connection. Update validators
     * are off, so the new status is not checked against the enumeration, and
     * the pre-save hook does not run.
     */
    method UpdateStatus(id: nat, status: string, now: nat) returns (result: Result<Option<Report>, StoreError>)
      requires Valid()
      modifies this
      ensures Valid() && connected == old(connected) && |reports| == |old(reports)|
      ensures !old(connected) ==> result == Failure(NotConnected)
      ensures old(connected) ==> result.Success?
      ensures old(connected) && (exists i :: 0 <= i < |old(reports)| && old(reports)[i].id == id) ==> result.value.Some?
      ensures result.Success? && result.value.None? <==>
        old(connected) && forall i :: 0 <= i < |old(reports)| ==> old(reports)[i].id != id
      ensures forall i :: 0 <= i < |reports| ==>
        reports[i] == if old(connected) && old(reports)[i].id == id
                      then old(reports)[i].(status := status, updatedAt := now)
                      else old(reports)[i]
      ensures result.Success? && result.value.Some? ==>
        exists i :: 0 <= i < |old(reports)| && old(reports)[i].id == id
          && result.value.value == old(reports)[i].(status := status, updatedAt := now)
    {
      if !connected {
        return Failure(NotConnected);
      }
      var i := 0;
      while i < |reports| && reports[i].id != id
        invariant 0 <= i <= |reports|
        invariant forall k :: 0 <= k < i ==> reports[k].id != id
      {
        i := i + 1;
      }
      if i == |reports| {
        return Success(None);
      }
      var updated := reports[i].(status := status, updatedAt := now);
      reports := reports[i := updated];
      result := Success(Some(updated));
    }
  }

  /**
   * Because the status update skips validation, a stored report can leave the
   * enumeration: updating a conforming report to "done" gives a report that
   * no longer conforms.
   */
  lemma StatusUpdateCanLeaveEnum(r: Report, now: nat)
    requires Conforms(r)
    ensures !Conforms(r.(status := "done", updatedAt := now))
    ensures ConformsCreated(r.(status := "done", updatedAt := now))
  {
    assert "done" != Statuses[0] && "done" != Statuses[1] && "done" != Statuses[2] && "done" != Statuses[3];
  }
}
