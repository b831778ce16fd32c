/** The job handlers over a store of jobs as the controllers see them (camelCase fields, a
    free-text status with `published` as the listing default), the where-clauses of the two
    listing endpoints, and the view counter. */
module JobController {
  import opened Base
  import opened Text

  /** A job as the controllers read and write it. */
  datatype JobRow = JobRow(
    id: Id, title: string, description: string, requirements: Option<string>, location: Option<string>,
    employmentType: Option<string>, experienceLevel: Option<string>,
    salaryMin: Option<int>, salaryMax: Option<int>, skills: seq<string>, status: string,
    createdById: Id, viewsCount: int, applicationsCount: int)

  type Jobs = map<Id, JobRow>

  predicate WellKeyed(jobs: Jobs) {
    forall id :: id in jobs ==> jobs[id].id == id
  }

  datatype Step<+T> = Step(reply: Reply<T>, store: Jobs)

  const NotFound: string := "Vaga não encontrada"
  const ServerError: string := "Erro interno do servidor"

  // ---- Where-clauses ----

  /** The query-string filters of `getAllJobs`. */
  datatype ListQuery = ListQuery(status: Option<string>, employmentType: Option<string>,
                                 experienceLevel: Option<string>, location: Option<string>)

  /** `{ [column]: { [Op.iLike]: '%text%' } }` on a nullable column. */
  predicate Like(column: Option<string>, text: string) {
    column.Some? && ContainsIgnoringCase(column.value, text)
  }

  /** A truthy filter is an equality constraint; a falsy one is no constraint. */
  predicate EqualsIfGiven(filter: Option<string>, column: Option<string>) {
    !TruthyText(filter) || column == filter
  }

  /** `getAllJobs`'s where-clause: the status (default `published`) AND every truthy filter. */
  predicate ListMatches(q: ListQuery, j: JobRow) {
    j.status == q.status.GetOr("published")
    && EqualsIfGiven(q.employmentType, j.employmentType)
    && EqualsIfGiven(q.experienceLevel, j.experienceLevel)
    && (!TruthyText(q.location) || Like(j.location, q.location.value))
  }

  /** The extra filters of `searchJobs`. */
  datatype SearchQuery = SearchQuery(base: ListQuery, q: Option<string>, salaryMin: Option<int>,
                                     salaryMax: Option<int>, skills: Option<seq<string>>)

  predicate Overlaps(a: seq<string>, b: seq<string>) {
    exists x :: x in a && x in b
  }

  /** `searchJobs`'s where-clause: the listing clause, the text search over title, description
      and requirements, the salary bounds (a null salary fails a comparison) and the skill overlap.
      The salary bounds arrive as query text, which is truthy whenever present, so `salaryMin=0`
      still adds `salaryMin >= 0`. */
  predicate SearchMatches(s: SearchQuery, j: JobRow) {
    ListMatches(s.base, j)
    && (!TruthyText(s.q) || ContainsIgnoringCase(j.title, s.q.value) || ContainsIgnoringCase(j.description, s.q.value)
                         || Like(j.requirements, s.q.value))
    && (s.salaryMin.None? || (j.salaryMin.Some? && j.salaryMin.value >= s.salaryMin.value))
    && (s.salaryMax.None? || (j.salaryMax.Some? && j.salaryMax.value <= s.salaryMax.value))
    && (s.skills.None? || Overlaps(j.skills, s.skills.value))
  }

  function ListJobs(rows: seq<JobRow>, q: ListQuery): (r: seq<JobRow>)
    ensures forall j :: j in r <==> j in rows && ListMatches(q, j)
    ensures q.status.None? ==> forall j :: j in r ==> j.status == "published"
  {
    Select(rows, (j: JobRow) => ListMatches(q, j))
  }

  function SearchJobs(rows: seq<JobRow>, s: SearchQuery): (r: seq<JobRow>)
    ensures forall j :: j in r <==> j in rows && SearchMatches(s, j)
    ensures forall j :: j in r ==> j in ListJobs(rows, s.base)
  {
    Select(rows, (j: JobRow) => SearchMatches(s, j))
  }

  /** Without filters the listing is exactly the published jobs; a given status replaces the default. */
  lemma ListWithoutFilters(rows: seq<JobRow>, status: Option<string>)
    ensures forall j :: j in ListJobs(rows, ListQuery(status, None, None, None)) <==>
                          j in rows && j.status == status.GetOr("published")
  {}

  /** Adding an employment-type filter can only narrow the listing. */
  lemma EmploymentFilterNarrows(rows: seq<JobRow>, q: ListQuery, employmentType: string)
    requires q.employmentType.None?
    ensures forall j :: j in ListJobs(rows, q.(employmentType := Some(employmentType))) ==> j in ListJobs(rows, q)
    ensures employmentType != "" ==>
      forall j :: j in ListJobs(rows, q.(employmentType := Some(employmentType))) ==> j.employmentType == Some(employmentType)
  {}

  // ---- Handlers ----

  /** `getJobById`: a failing database is 500 (the `catch`); 404 for a missing id; otherwise
      one more view is counted. On PostgreSQL the instance `increment` reads back the updated
      row, so the reply already carries the new count. `storeFails` stands for the lookup
      throwing, before anything is written. */
  function GetJobByIdOutcome(jobs: Jobs, id: Id, storeFails: bool): (s: Step<JobRow>)
    ensures storeFails ==> s == Step(Failure(500, ServerError), jobs)
    ensures !storeFails && id !in jobs ==> s == Step(Failure(404, NotFound), jobs)
    ensures s.reply.Success? <==> !storeFails && id in jobs
    ensures s.reply.Success? ==> s.store == jobs[id := jobs[id].(viewsCount := jobs[id].viewsCount + 1)]
    ensures s.reply.Success? ==> s.reply == Success(200, s.store[id])
    ensures s.reply.Success? ==> s.reply.data.viewsCount == jobs[id].viewsCount + 1
    ensures s.reply.Failure? ==> s.store == jobs
    ensures WellKeyed(jobs) ==> WellKeyed(s.store)
  {
    if storeFails then Step(Failure(500, ServerError), jobs)
    else if id !in jobs then Step(Failure(404, NotFound), jobs)
    else
      var viewed := jobs[id].(viewsCount := jobs[id].viewsCount + 1);
      Step(Success(200, viewed), jobs[id := viewed])
  }

  /** The body `createJob` reads. */
  datatype JobInput = JobInput(
    title: string, description: string, requirements: Option<string>, location: Option<string>,
    employmentType: Option<string>, experienceLevel: Option<string>,
    salaryMin: Option<int>, salaryMax: Option<int>, skills: Option<seq<string>>, status: Option<string>)

  /** The row `createJob` writes: skills default to the empty list, status to `draft`, the
      creator is the caller, and both counters start at 0. */
  function NewJobRow(id: Id, input: JobInput, caller: Id): (j: JobRow)
    ensures j.id == id && j.createdById == caller && j.viewsCount == 0 && j.applicationsCount == 0
    ensures input.status.None? ==> j.status == "draft"
    ensures input.skills.None? ==> j.skills == []
  {
    JobRow(id, input.title, input.description, input.requirements, input.location, input.employmentType,
           input.experienceLevel, input.salaryMin, input.salaryMax, input.skills.GetOr([]),
           input.status.GetOr("draft"), caller, 0, 0)
  }

  /** `createJob`: a failing insert is 500 and changes nothing, whether the database throws
      (`storeFails`, which includes a validator of the model refusing the row) or the fresh id
      collides; otherwise exactly one row is added. */
  function CreateJobOutcome(jobs: Jobs, freshId: Id, input: JobInput, caller: Id, storeFails: bool): (s: Step<JobRow>)
    ensures storeFails || freshId in jobs ==> s == Step(Failure(500, ServerError), jobs)
    ensures s.reply.Success? <==> !storeFails && freshId !in jobs
    ensures s.reply.Success? ==>
      s == Step(Success(201, NewJobRow(freshId, input, caller)), jobs[freshId := NewJobRow(freshId, input, caller)])
    ensures s.reply.Success? ==> |s.store| == |jobs| + 1
    ensures WellKeyed(jobs) ==> WellKeyed(s.store)
  {
    if storeFails || freshId in jobs then Step(Failure(500, ServerError), jobs)
    else Step(Success(201, NewJobRow(freshId, input, caller)), jobs[freshId := NewJobRow(freshId, input, caller)])
  }

  /** The body of `updateJob`, passed to `job.update` as it is: absent keys stay as they were. */
  datatype JobPatch = JobPatch(
    title: Option<string>, description: Option<string>, requirements: Option<string>, location: Option<string>,
    employmentType: Option<string>, experienceLevel: Option<string>,
    salaryMin: Option<int>, salaryMax: Option<int>, skills: Option<seq<string>>, status: Option<string>,
    createdById: Option<Id>, viewsCount: Option<int>, applicationsCount: Option<int>)

  function Patched(j: JobRow, p: JobPatch): (r: JobRow)
    ensures r.id == j.id
    ensures p == JobPatch(None, None, None, None, None, None, None, None, None, None, None, None, None) ==> r == j
    ensures p.status.Some? ==> r.status == p.status.value
    ensures p.status.None? ==> r.status == j.status
  {
    JobRow(j.id, p.title.GetOr(j.title), p.description.GetOr(j.description),
           if p.requirements.Some? then p.requirements else j.requirements,
           if p.location.Some? then p.location else j.location,
           if p.employmentType.Some? then p.employmentType else j.employmentType,
           if p.experienceLevel.Some? then p.experienceLevel else j.experienceLevel,
           if p.salaryMin.Some? then p.salaryMin else j.salaryMin,
           if p.salaryMax.Some? then p.salaryMax else j.salaryMax,
           p.skills.GetOr(j.skills), p.status.GetOr(j.status), p.createdById.GetOr(j.createdById),
           p.viewsCount.GetOr(j.viewsCount), p.applicationsCount.GetOr(j.applicationsCount))
  }

  /** `updateJob`: a failing database is 500; 404 for a missing id; otherwise that one row is patched. */
  function UpdateJobOutcome(jobs: Jobs, id: Id, patch: JobPatch, storeFails: bool): (s: Step<JobRow>)
    ensures storeFails ==> s == Step(Failure(500, ServerError), jobs)
    ensures !storeFails && id !in jobs ==> s == Step(Failure(404, NotFound), jobs)
    ensures !storeFails && id in jobs ==>
      s == Step(Success(200, Patched(jobs[id], patch)), jobs[id := Patched(jobs[id], patch)])
    ensures s.store.Keys == jobs.Keys
    ensures WellKeyed(jobs) ==> WellKeyed(s.store)
  {
    if storeFails then Step(Failure(500, ServerError), jobs)
    else if id !in jobs then Step(Failure(404, NotFound), jobs)
    else Step(Success(200, Patched(jobs[id], patch)), jobs[id := Patched(jobs[id], patch)])
  }

  /** The body goes to `update` unfiltered, so it can reset the counters it carries. */
  lemma UpdateCanResetCounters(jobs: Jobs, id: Id)
    requires id in jobs
    ensures var p := JobPatch(None, None, None, None, None, None, None, None, None, None, None, Some(0), Some(0));
            var after := UpdateJobOutcome(jobs, id, p, false).store[id];
            after.viewsCount == 0 && after.applicationsCount == 0
  {}

  /** `deleteJob`: a failing database is 500; 404 for a missing id; otherwise exactly that row
      disappears. */
  function DeleteJobOutcome(jobs: Jobs, id: Id, storeFails: bool): (s: Step<()>)
    ensures storeFails ==> s == Step(Failure(500, ServerError), jobs)
    ensures !storeFails && id !in jobs ==> s == Step(Failure(404, NotFound), jobs)
    ensures !storeFails && id in jobs ==> s.reply == Success(200, ()) && s.store.Keys == jobs.Keys - {id}
    ensures forall k :: k in s.store ==> k in jobs && s.store[k] == jobs[k]
    ensures WellKeyed(jobs) ==> WellKeyed(s.store)
  {
    if storeFails then Step(Failure(500, ServerError), jobs)
    else if id !in jobs then Step(Failure(404, NotFound), jobs)
    else Step(Success(200, ()), jobs - {id})
  }

  /** A deleted job is not found afterwards. */
  lemma DeletedJobIsGone(jobs: Jobs, id: Id)
    requires id in jobs
    ensures GetJobByIdOutcome(DeleteJobOutcome(jobs, id, false).store, id, false).reply == Failure(404, NotFound)
  {}

  const JobStatuses: seq<string> := ["draft", "published", "closed"]

  /** `updateJobStatus`: a status outside the three is 400 before any database call; then a
      failing database is 500 and a missing id 404; otherwise only the status changes. */
  function UpdateJobStatusOutcome(jobs: Jobs, id: Id, status: Option<string>, storeFails: bool): (s: Step<JobRow>)
    ensures !(status.Some? && status.value in JobStatuses) ==> s == Step(Failure(400, "Status inválido"), jobs)
    ensures status.Some? && status.value in JobStatuses && storeFails ==> s == Step(Failure(500, ServerError), jobs)
    ensures status.Some? && status.value in JobStatuses && !storeFails && id !in jobs ==> s == Step(Failure(404, NotFound), jobs)
    ensures s.reply.Success? <==> status.Some? && status.value in JobStatuses && !storeFails && id in jobs
    ensures s.reply.Success? ==> s.store == jobs[id := jobs[id].(status := status.value)] && s.reply.data == s.store[id]
    ensures WellKeyed(jobs) ==> WellKeyed(s.store)
  {
    if !(status.Some? && status.value in JobStatuses) then Step(Failure(400, "Status inválido"), jobs)
    else if storeFails then Step(Failure(500, ServerError), jobs)
    else if id !in jobs then Step(Failure(404, NotFound), jobs)
    else
      var updated := jobs[id].(status := status.value);
      Step(Success(200, updated), jobs[id := updated])
  }

  /** Viewing a job twice counts two views. */
  lemma TwoViewsCountTwice(jobs: Jobs, id: Id)
    requires id in jobs
    ensures var once := GetJobByIdOutcome(jobs, id, false).store;
            GetJobByIdOutcome(once, id, false).store[id].viewsCount == jobs[id].viewsCount + 2
  {}

  /** The handlers performed on a mutable job table. */
  class Controller {
    var jobs: Jobs

    ghost predicate Valid()
      reads this
    {
      WellKeyed(jobs)
    }

    constructor ()
      ensures Valid() && jobs == map[]
    {
      jobs := map[];
    }

    method GetJobById(id: Id, storeFails: bool) returns (reply: Reply<JobRow>)
      requires Valid()
      modifies this
      ensures Valid()
      ensures Step(reply, jobs) == GetJobByIdOutcome(old(jobs), id, storeFails)
    {
      if storeFails {
        return Failure(500, ServerError);
      }
      if id !in jobs {
        return Failure(404, NotFound);
      }
      var job := jobs[id].(viewsCount := jobs[id].viewsCount + 1);
      jobs := jobs[id := job];
      reply := Success(200, job);
    }

    method CreateJob(freshId: Id, input: JobInput, caller: Id, storeFails: bool) returns (reply: Reply<JobRow>)
      requires Valid()
      modifies this
      ensures Valid()
      ensures Step(reply, jobs) == CreateJobOutcome(old(jobs), freshId, input, caller, storeFails)
    {
      if storeFails || freshId in jobs {
        return Failure(500, ServerError);
      }
      var skills := if input.skills.Some? then input.skills.value else [];
      var status := if input.status.Some? then input.status.value else "draft";
      var job := JobRow(freshId, input.title, input.description, input.requirements, input.location,
                        input.employmentType, input.experienceLevel, input.salaryMin, input.salaryMax,
                        skills, status, caller, 0, 0);
      jobs := jobs[freshId := job];
      reply := Success(201, job);
    }

    method UpdateJob(id: Id, patch: JobPatch, storeFails: bool) returns (reply: Reply<JobRow>)
      requires Valid()
      modifies this
      ensures Valid()
      ensures Step(reply, jobs) == UpdateJobOutcome(old(jobs), id, patch, storeFails)
    {
      if storeFails {
        return Failure(500, ServerError);
      }
      if id !in jobs {
        return Failure(404, NotFound);
      }
      var job := Patched(jobs[id], patch);
      jobs := jobs[id := job];
      reply := Success(200, job);
    }

    method DeleteJob(id: Id, storeFails: bool) returns (reply: Reply<()>)
      requires Valid()
      modifies this
      ensures Valid()
      ensures Step(reply, jobs) == DeleteJobOutcome(old(jobs), id, storeFails)
    {
      if storeFails {
        return Failure(500, ServerError);
      }
      if id !in jobs {
        return Failure(404, NotFound);
      }
      jobs := jobs - {id};
      reply := Success(200, ());
    }

    method UpdateJobStatus(id: Id, status: Option<string>, storeFails: bool) returns (reply: Reply<JobRow>)
      requires Valid()
      modifies this
      ensures Valid()
      ensures Step(reply, jobs) == UpdateJobStatusOutcome(old(jobs), id, status, storeFails)
    {
      if status.None? || status.value !in JobStatuses {
        return Failure(400, "Status inválido");
      }
      if storeFails {
        return Failure(500, ServerError);
      }
      if id !in jobs {
        return Failure(404, NotFound);
      }
      var job := jobs[id].(status := status.value);
      jobs := jobs[id := job];
      reply := Success(200, job);
    }
  }
}
