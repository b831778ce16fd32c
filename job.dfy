/** The Job model: the `jobs` row with its snake_case columns, the row-level salary check,
    the status predicates, the two counters and the open-job queries. */
module Jobs {
  import opened Base
  import opened Text

  datatype JobStatus = Open | Closed | Draft
  datatype EmploymentType = FullTime | PartTime | Contract | Internship | Freelance
  datatype ExperienceLevel = Entry | Junior | Mid | Senior | Lead

  /** A `jobs` row; salaries are whole amounts. */
  datatype Job = Job(
    id: Id, title: string, description: string, requirements: Option<string>, location: Option<string>,
    salary_min: Option<int>, salary_max: Option<int>, status: JobStatus, created_by: Id,
    company_name: Option<string>, employment_type: EmploymentType, experience_level: ExperienceLevel,
    remote_work: bool, benefits: Option<string>, application_deadline: Option<Time>,
    views_count: int, applications_count: int)

  /** A row built from the required columns: status `open`, `full-time`, `mid`, on-site,
      both counters at 0 and every optional column null. */
  function NewJob(id: Id, title: string, description: string, createdBy: Id): (j: Job)
    ensures j.id == id && j.title == title && j.description == description && j.created_by == createdBy
    ensures IsOpen(j) && j.employment_type == FullTime && j.experience_level == Mid && !j.remote_work
    ensures j.views_count == 0 && j.applications_count == 0
    ensures j.salary_min.None? && j.salary_max.None? && SalaryRangeOk(j)
  {
    Job(id, title, description, None, None, None, None, Open, createdBy, None, FullTime, Mid, false, None, None, 0, 0)
  }

  predicate IsOpen(j: Job) { j.status == Open }
  predicate IsClosed(j: Job) { j.status == Closed }
  predicate IsDraft(j: Job) { j.status == Draft }

  lemma ExactlyOneStatus(j: Job)
    ensures (if IsOpen(j) then 1 else 0) + (if IsClosed(j) then 1 else 0) + (if IsDraft(j) then 1 else 0) == 1
  {}

  /** The `salaryRange` model validator: it throws only when both salaries are truthy and
      the minimum exceeds the maximum. */
  predicate SalaryRangeOk(j: Job) {
    !(TruthyNumber(j.salary_min) && TruthyNumber(j.salary_max) && j.salary_min.value > j.salary_max.value)
  }

  lemma SalaryRangeCases(j: Job)
    ensures !SalaryRangeOk(j) <==> j.salary_min.Some? && j.salary_max.Some?
                                   && j.salary_min.value != 0 && j.salary_max.value != 0
                                   && j.salary_min.value > j.salary_max.value
    ensures j.salary_min == j.salary_max ==> SalaryRangeOk(j)
    ensures j.salary_min.None? || j.salary_max.None? ==> SalaryRangeOk(j)
  {}

  /** Every validator on the row: title length 3..200, non-negative salaries when present,
      and the salary range. */
  predicate Valid(j: Job) {
    3 <= |j.title| <= 200
    && (j.salary_min.None? || j.salary_min.value >= 0)
    && (j.salary_max.None? || j.salary_max.value >= 0)
    && SalaryRangeOk(j)
  }

  /** Which text `getSalaryRange` produces; the amounts' formatting is not modelled. */
  datatype SalaryText = Range(min: int, max: int) | From(min: int) | UpTo(max: int) | ToBeAgreed

  function GetSalaryRange(j: Job): (t: SalaryText)
    ensures TruthyNumber(j.salary_min) && TruthyNumber(j.salary_max) ==> t == Range(j.salary_min.value, j.salary_max.value)
    ensures TruthyNumber(j.salary_min) && !TruthyNumber(j.salary_max) ==> t == From(j.salary_min.value)
    ensures !TruthyNumber(j.salary_min) && TruthyNumber(j.salary_max) ==> t == UpTo(j.salary_max.value)
    ensures !TruthyNumber(j.salary_min) && !TruthyNumber(j.salary_max) ==> t == ToBeAgreed
  {
    if TruthyNumber(j.salary_min) && TruthyNumber(j.salary_max) then Range(j.salary_min.value, j.salary_max.value)
    else if TruthyNumber(j.salary_min) then From(j.salary_min.value)
    else if TruthyNumber(j.salary_max) then UpTo(j.salary_max.value)
    else ToBeAgreed
  }

  /** A salary of 0 counts as absent: the text then offers no amount for it. */
  lemma ZeroSalaryIsUnstated(j: Job)
    requires j.salary_min == Some(0) && j.salary_max == Some(0)
    ensures GetSalaryRange(j) == ToBeAgreed
  {}

  /** `findOpenJobs(options)`: `options` is spread after `where`, so a caller's own
      `where` replaces the status filter instead of joining it. */
  function FindOpenJobs(jobs: seq<Job>, optionsWhere: Option<Job -> bool>): (r: seq<Job>)
    ensures optionsWhere.None? ==> forall j :: j in r <==> j in jobs && IsOpen(j)
    ensures optionsWhere.Some? ==> forall j :: j in r <==> j in jobs && optionsWhere.value(j)
  {
    match optionsWhere
    case None => Select(jobs, (j: Job) => IsOpen(j))
    case Some(w) => Select(jobs, w)
  }

  /** `findByCreator(createdBy, options)`, with the same override. */
  function FindByCreator(jobs: seq<Job>, createdBy: Id, optionsWhere: Option<Job -> bool>): (r: seq<Job>)
    ensures optionsWhere.None? ==> forall j :: j in r <==> j in jobs && j.created_by == createdBy
    ensures optionsWhere.Some? ==> forall j :: j in r <==> j in jobs && optionsWhere.value(j)
  {
    match optionsWhere
    case None => Select(jobs, (j: Job) => j.created_by == createdBy)
    case Some(w) => Select(jobs, w)
  }

  /** The `iLike '%term%'` test on one nullable column: a null column never matches. */
  predicate ColumnMatches(column: Option<string>, term: string) {
    column.Some? && ContainsIgnoringCase(column.value, term)
  }

  predicate MatchesSearch(j: Job, term: string) {
    IsOpen(j)
    && (ContainsIgnoringCase(j.title, term) || ContainsIgnoringCase(j.description, term) || ColumnMatches(j.location, term))
  }

  /** `searchJobs(term, options)`: open jobs whose title, description or location contains the
      term ignoring case, unless `options.where` replaces the whole filter. */
  function SearchJobs(jobs: seq<Job>, term: string, optionsWhere: Option<Job -> bool>): (r: seq<Job>)
    ensures optionsWhere.None? ==> forall j :: j in r <==> j in jobs && MatchesSearch(j, term)
    ensures optionsWhere.Some? ==> forall j :: j in r <==> j in jobs && optionsWhere.value(j)
  {
    match optionsWhere
    case None => Select(jobs, (j: Job) => MatchesSearch(j, term))
    case Some(w) => Select(jobs, w)
  }

  /** Searching for the empty term lists every open job. */
  lemma EmptySearchListsOpenJobs(jobs: seq<Job>)
    ensures forall j :: j in SearchJobs(jobs, "", None) <==> j in jobs && IsOpen(j)
  {
    forall j | j in jobs ensures MatchesSearch(j, "") <==> IsOpen(j) {
      EmptyIsContained(ToLower(j.title));
      assert ToLower("") == "";
    }
  }

  /** A caller-supplied `where` can surface draft jobs from `findOpenJobs`. */
  lemma OverrideAdmitsDrafts(j: Job)
    requires IsDraft(j)
    ensures j in FindOpenJobs([j], Some(_ => true))
    ensures j !in FindOpenJobs([j], None)
  {}

  /** A model instance whose counter methods assign a field and then save. */
  class Instance {
    var row: Job

    constructor Load(j: Job)
      ensures row == j
    {
      row := j;
    }

    /** `incrementViews`: the count goes up by 1 in memory; the save persists the row only
        if it passes validation (`None` is the rejected save). */
    method IncrementViews() returns (saved: Option<Job>)
      modifies this
      ensures row == old(row).(views_count := old(row).views_count + 1)
      ensures saved.Some? <==> Valid(row)
      ensures saved.Some? ==> saved.value == row
    {
      row := row.(views_count := row.views_count + 1);
      saved := Save();
    }

    /** `incrementApplications`: the same for the application counter. */
    method IncrementApplications() returns (saved: Option<Job>)
      modifies this
      ensures row == old(row).(applications_count := old(row).applications_count + 1)
      ensures saved.Some? <==> Valid(row)
      ensures saved.Some? ==> saved.value == row
    {
      row := row.(applications_count := row.applications_count + 1);
      saved := Save();
    }

    method Save() returns (saved: Option<Job>)
      ensures saved.Some? <==> Valid(row)
      ensures saved.Some? ==> saved.value == row
    {
      saved := if Valid(row) then Some(row) else None;
    }
  }

  /** The counters do not take part in validation, so incrementing keeps a valid row valid. */
  lemma CounterKeepsValidity(j: Job, k: int)
    requires Valid(j)
    ensures Valid(j.(views_count := k)) && Valid(j.(applications_count := k))
  {}
}
