/** The candidate-service handlers that change state: profile creation and the application
    workflow (apply, withdraw, status change, interview) over candidates, jobs and applications,
    with the per-job `applicationsCount` kept equal to the number of applications whenever it
    was before. The job service's writes to the same database (`updateJob`, and `deleteJob`
    with its cascade) are transitions of the same tables. */
module CandidateController {
  import opened Base
  import opened Candidates
  import opened JobApplications
  import JC = JobController

  /** The three tables the handlers touch, in the one database every service shares. */
  datatype Db = Db(candidates: map<Id, Candidate>, jobs: JC.Jobs, applications: map<Id, Application>)

  datatype Step<+T> = Step(reply: Reply<T>, db: Db)

  const NoProfile: string := "Perfil de candidato não encontrado"
  const NoApplication: string := "Candidatura não encontrada"
  const ServerError: string := "Erro interno do servidor"

  /** The ids of the applications to one job. */
  function AppsFor(apps: map<Id, Application>, jobId: Id): set<Id> {
    set a | a in apps && apps[a].jobId == jobId
  }

  /** Profiles are keyed by id and there is at most one per user. */
  predicate ProfilesOk(candidates: map<Id, Candidate>) {
    (forall c :: c in candidates ==> candidates[c].id == c)
    && (forall a, b :: a in candidates && b in candidates && a != b ==> candidates[a].userId != candidates[b].userId)
  }

  /** Applications are keyed by id, point at an existing job and profile (the foreign keys),
      carry a valid score, and are unique per `(jobId, candidateId)`. */
  predicate ApplicationsOk(db: Db) {
    (forall a :: a in db.applications ==>
       db.applications[a].id == a && db.applications[a].jobId in db.jobs
       && db.applications[a].candidateId in db.candidates && ScoreValid(db.applications[a].score))
    && UniquePairs(db.applications)
  }

  /** Every job's counter equals the number of its applications. No constraint of the
      database enforces this: the handlers keep it when it holds, and `updateJob` can break it. */
  predicate CountersOk(db: Db) {
    forall j :: j in db.jobs ==> db.jobs[j].applicationsCount == |AppsFor(db.applications, j)|
  }

  /** What the database's keys and constraints guarantee: primary keys, foreign keys, the
      unique `(jobId, candidateId)` index and the column validators. */
  predicate DbOk(db: Db) {
    ProfilesOk(db.candidates) && JC.WellKeyed(db.jobs) && ApplicationsOk(db)
  }

  predicate HasProfile(db: Db, userId: Id) {
    exists c :: c in db.candidates && db.candidates[c].userId == userId
  }

  /** `Candidate.findOne({ where: { userId } })`. */
  function FindProfile(db: Db, userId: Id): (r: Option<Id>)
    requires ProfilesOk(db.candidates)
    ensures r.Some? <==> HasProfile(db, userId)
    ensures r.Some? ==> r.value in db.candidates && db.candidates[r.value].userId == userId
  {
    if HasProfile(db, userId) then
      var c :| c in db.candidates && db.candidates[c].userId == userId;
      Some(c)
    else None
  }

  predicate HasApplied(db: Db, jobId: Id, candidateId: Id) {
    exists a :: a in db.applications && db.applications[a].jobId == jobId && db.applications[a].candidateId == candidateId
  }

  // ---- Counting lemmas ----

  lemma AppsForInsert(apps: map<Id, Application>, x: Id, a: Application, j: Id)
    requires x !in apps
    ensures AppsFor(apps[x := a], j) == AppsFor(apps, j) + (if a.jobId == j then {x} else {})
    ensures |AppsFor(apps[x := a], j)| == |AppsFor(apps, j)| + (if a.jobId == j then 1 else 0)
  {
    assert AppsFor(apps[x := a], j) == AppsFor(apps, j) + (if a.jobId == j then {x} else {});
  }

  lemma AppsForRemove(apps: map<Id, Application>, x: Id, j: Id)
    requires x in apps
    ensures |AppsFor(apps - {x}, j)| == |AppsFor(apps, j)| - (if apps[x].jobId == j then 1 else 0)
  {
    if apps[x].jobId == j {
      assert AppsFor(apps - {x}, j) == AppsFor(apps, j) - {x};
    } else {
      assert AppsFor(apps - {x}, j) == AppsFor(apps, j);
    }
  }

  lemma AppsForReplace(apps: map<Id, Application>, x: Id, a: Application, j: Id)
    requires x in apps && a.jobId == apps[x].jobId
    ensures AppsFor(apps[x := a], j) == AppsFor(apps, j)
  {}

  lemma InsertKeepsPairs(apps: map<Id, Application>, app: Application)
    requires UniquePairs(apps) && app.id !in apps
    requires forall k :: k in apps ==> apps[k].jobId != app.jobId || apps[k].candidateId != app.candidateId
    ensures UniquePairs(apps[app.id := app])
  {
    var apps' := apps[app.id := app];
    forall a, b | a in apps' && b in apps' && a != b
      ensures apps'[a].jobId != apps'[b].jobId || apps'[a].candidateId != apps'[b].candidateId
    {
      if a != app.id && b != app.id {
        assert apps'[a] == apps[a] && apps'[b] == apps[b];
      }
    }
  }

  lemma ReplaceKeepsPairs(apps: map<Id, Application>, x: Id, app: Application)
    requires UniquePairs(apps) && x in apps
    requires app.jobId == apps[x].jobId && app.candidateId == apps[x].candidateId
    ensures UniquePairs(apps[x := app])
  {
    var apps' := apps[x := app];
    forall a, b | a in apps' && b in apps' && a != b
      ensures apps'[a].jobId != apps'[b].jobId || apps'[a].candidateId != apps'[b].candidateId
    {
      assert apps'[a].jobId == apps[a].jobId && apps'[a].candidateId == apps[a].candidateId;
      assert apps'[b].jobId == apps[b].jobId && apps'[b].candidateId == apps[b].candidateId;
    }
  }

  /** Replacing one application by a copy with the same id, job, candidate and a valid score
      keeps the constraints. */
  lemma ReplaceKeepsDbOk(db: Db, x: Id, a: Application)
    requires DbOk(db) && x in db.applications
    requires a.id == x && a.jobId == db.applications[x].jobId && a.candidateId == db.applications[x].candidateId
    requires ScoreValid(a.score)
    ensures DbOk(db.(applications := db.applications[x := a]))
  {
    var db' := db.(applications := db.applications[x := a]);
    ReplaceKeepsPairs(db.applications, x, a);
    forall k | k in db'.applications
      ensures db'.applications[k].id == k && db'.applications[k].jobId in db'.jobs
      ensures db'.applications[k].candidateId in db'.candidates && ScoreValid(db'.applications[k].score)
    {
      if k != x {
        assert db'.applications[k] == db.applications[k];
      }
    }
    assert ApplicationsOk(db');
  }

  /** Such a replacement keeps the counters right if they were. */
  lemma ReplaceKeepsCounters(db: Db, x: Id, a: Application)
    requires x in db.applications && a.jobId == db.applications[x].jobId
    ensures CountersOk(db) ==> CountersOk(db.(applications := db.applications[x := a]))
  {
    forall j | j in db.jobs ensures AppsFor(db.applications[x := a], j) == AppsFor(db.applications, j) {
      AppsForReplace(db.applications, x, a, j);
    }
  }

  /** The store after inserting `app` and raising its job's counter. */
  function WithApplication(db: Db, app: Application): Db
    requires app.jobId in db.jobs
  {
    var job := db.jobs[app.jobId];
    db.(applications := db.applications[app.id := app], jobs := db.jobs[app.jobId := job.(applicationsCount := job.applicationsCount + 1)])
  }

  /** The store after deleting application `appId` and lowering its job's counter. */
  function WithoutApplication(db: Db, appId: Id): Db
    requires appId in db.applications && db.applications[appId].jobId in db.jobs
  {
    var jobId := db.applications[appId].jobId;
    var job := db.jobs[jobId];
    db.(applications := db.applications - {appId}, jobs := db.jobs[jobId := job.(applicationsCount := job.applicationsCount - 1)])
  }

  /** Inserting a new, valid application that pairs its job and candidate for the first time
      keeps the constraints. */
  lemma InsertKeepsDbOk(db: Db, app: Application)
    requires DbOk(db) && app.id !in db.applications
    requires app.jobId in db.jobs && app.candidateId in db.candidates && ScoreValid(app.score)
    requires !HasApplied(db, app.jobId, app.candidateId)
    ensures DbOk(WithApplication(db, app))
  {
    var db' := WithApplication(db, app);
    assert JC.WellKeyed(db'.jobs);
    InsertKeepsPairs(db.applications, app);
    forall k | k in db'.applications
      ensures db'.applications[k].id == k && db'.applications[k].jobId in db'.jobs
      ensures db'.applications[k].candidateId in db'.candidates && ScoreValid(db'.applications[k].score)
    {
      if k != app.id {
        assert db'.applications[k] == db.applications[k];
      }
    }
    assert ApplicationsOk(db');
  }

  /** Inserting an application and raising its job's counter keeps the counters right if they were. */
  lemma InsertKeepsCounters(db: Db, app: Application)
    requires app.id !in db.applications && app.jobId in db.jobs
    ensures CountersOk(db) ==> CountersOk(WithApplication(db, app))
  {
    var db' := WithApplication(db, app);
    if CountersOk(db) {
      forall j | j in db'.jobs ensures db'.jobs[j].applicationsCount == |AppsFor(db'.applications, j)| {
        AppsForInsert(db.applications, app.id, app, j);
      }
    }
  }

  /** Deleting an application keeps the constraints. */
  lemma RemoveKeepsDbOk(db: Db, appId: Id)
    requires DbOk(db) && appId in db.applications
    ensures DbOk(WithoutApplication(db, appId))
  {
    var db' := WithoutApplication(db, appId);
    forall k | k in db'.applications ensures db'.applications[k] == db.applications[k] {}
  }

  /** Deleting an application and lowering its job's counter keeps the counters right if they were. */
  lemma RemoveKeepsCounters(db: Db, appId: Id)
    requires appId in db.applications && db.applications[appId].jobId in db.jobs
    ensures CountersOk(db) ==> CountersOk(WithoutApplication(db, appId))
  {
    var db' := WithoutApplication(db, appId);
    if CountersOk(db) {
      forall j | j in db'.jobs ensures db'.jobs[j].applicationsCount == |AppsFor(db'.applications, j)| {
        AppsForRemove(db.applications, appId, j);
      }
    }
  }

  /** A counter that is already 0 goes to -1 when an application to that job is withdrawn:
      the decrement is unconditional. */
  lemma RemoveUnderflows(db: Db, appId: Id)
    requires appId in db.applications && db.applications[appId].jobId in db.jobs
    requires db.jobs[db.applications[appId].jobId].applicationsCount == 0
    ensures WithoutApplication(db, appId).jobs[db.applications[appId].jobId].applicationsCount == -1
    ensures !CountersOk(db)
  {
    AppsForRemove(db.applications, appId, db.applications[appId].jobId);
  }

  /** Deleting an application just inserted restores the store. */
  lemma RemoveUndoesInsert(db: Db, app: Application)
    requires app.jobId in db.jobs && app.id !in db.applications
    ensures WithoutApplication(WithApplication(db, app), app.id) == db
  {
    var after := WithApplication(db, app);
    assert after.applications - {app.id} == db.applications;
    assert after.jobs[app.jobId].(applicationsCount := after.jobs[app.jobId].applicationsCount - 1) == db.jobs[app.jobId];
    assert after.jobs[app.jobId := db.jobs[app.jobId]] == db.jobs;
  }

  // ---- createProfile ----

  /** The profile fields `createProfile` reads from the body; the enums arrive as text. */
  datatype ProfileInput = ProfileInput(
    resume: Option<string>, skills: Option<seq<string>>, experience: Option<string>, education: Option<string>,
    portfolio: Option<string>, linkedin: Option<string>, github: Option<string>, expectedSalary: Option<int>,
    availability: Option<string>, workPreference: Option<string>)

  /** An absent enum takes the column default; a given one must be a literal of the ENUM. */
  predicate EnumsOk(input: ProfileInput) {
    (input.availability.None? || ParseAvailability(input.availability.value).Some?)
    && (input.workPreference.None? || ParseWorkPreference(input.workPreference.value).Some?)
  }

  /** The row `Candidate.create` persists, its score set by the `beforeSave` hook. */
  function ProfileRow(id: Id, userId: Id, input: ProfileInput): (c: Candidate)
    requires EnumsOk(input)
    ensures c.id == id && c.userId == userId && c.profileCompleteness == Completeness(c)
  {
    var availability := if input.availability.Some? then ParseAvailability(input.availability.value) else None;
    var workPreference := if input.workPreference.Some? then ParseWorkPreference(input.workPreference.value) else None;
    var c := NewCandidate(id, userId, input.resume, input.skills, input.experience, input.education,
                          input.portfolio, input.linkedin, input.github, input.expectedSalary, availability, workPreference);
    assert Filled(c.(profileCompleteness := Completeness(c))) == Filled(c);
    c.(profileCompleteness := Completeness(c))
  }

  /** `createProfile`: a failing database is 500; a user who has a profile gets 409 and
      nothing is created; a row the validators refuse, or a colliding id, is 500; otherwise
      the one new profile is stored. `storeFails` stands for the first lookup throwing. */
  function CreateProfileOutcome(db: Db, freshId: Id, userId: Id, input: ProfileInput, isUrl: string -> bool,
                                storeFails: bool)
    : (s: Step<Candidate>)
    requires DbOk(db)
    ensures DbOk(s.db)
    ensures CountersOk(db) ==> CountersOk(s.db)
    ensures storeFails ==> s == Step(Failure(500, ServerError), db)
    ensures !storeFails && HasProfile(db, userId) ==> s == Step(Failure(409, "Perfil de candidato já existe"), db)
    ensures s.reply.Success? <==>
      !storeFails && !HasProfile(db, userId) && freshId !in db.candidates && EnumsOk(input)
      && RowValid(ProfileRow(freshId, userId, input), isUrl)
    ensures s.reply.Success? ==>
      s == Step(Success(201, ProfileRow(freshId, userId, input)),
                db.(candidates := db.candidates[freshId := ProfileRow(freshId, userId, input)]))
    ensures s.reply.Failure? ==> s.db == db
    ensures s.reply.Failure? && !HasProfile(db, userId) ==> s.reply == Failure(500, ServerError)
  {
    if storeFails then Step(Failure(500, ServerError), db)
    else if HasProfile(db, userId) then Step(Failure(409, "Perfil de candidato já existe"), db)
    else if freshId in db.candidates || !EnumsOk(input) || !RowValid(ProfileRow(freshId, userId, input), isUrl) then
      Step(Failure(500, ServerError), db)
    else
      var c := ProfileRow(freshId, userId, input);
      var db' := db.(candidates := db.candidates[freshId := c]);
      assert forall j :: j in db.jobs ==> AppsFor(db'.applications, j) == AppsFor(db.applications, j);
      Step(Success(201, c), db')
  }

  /** A second profile for the same user is refused. */
  lemma SecondProfileRefused(db: Db, id1: Id, id2: Id, userId: Id, in1: ProfileInput, in2: ProfileInput, isUrl: string -> bool)
    requires DbOk(db) && CreateProfileOutcome(db, id1, userId, in1, isUrl, false).reply.Success?
    ensures var after := CreateProfileOutcome(db, id1, userId, in1, isUrl, false).db;
            CreateProfileOutcome(after, id2, userId, in2, isUrl, false) == Step(Failure(409, "Perfil de candidato já existe"), after)
  {
    var after := CreateProfileOutcome(db, id1, userId, in1, isUrl, false).db;
    assert after.candidates[id1].userId == userId;
  }

  // ---- applyToJob ----

  /** The checks of `applyToJob`, in their order; `None` when all pass. */
  function ApplyRefusal(db: Db, userId: Id, jobId: Id): (r: Option<Reply<Application>>)
    requires DbOk(db)
    ensures !HasProfile(db, userId) ==> r == Some(Failure(404, NoProfile))
    ensures HasProfile(db, userId) && jobId !in db.jobs ==> r == Some(Failure(404, "Vaga não encontrada"))
    ensures HasProfile(db, userId) && jobId in db.jobs && db.jobs[jobId].status != "published" ==>
      r == Some(Failure(400, "Esta vaga não está disponível para candidaturas"))
    ensures HasProfile(db, userId) && jobId in db.jobs && db.jobs[jobId].status == "published"
            && HasApplied(db, jobId, FindProfile(db, userId).value) ==>
      r == Some(Failure(409, "Você já se candidatou a esta vaga"))
    ensures r.None? <==> HasProfile(db, userId) && jobId in db.jobs && db.jobs[jobId].status == "published"
                         && !HasApplied(db, jobId, FindProfile(db, userId).value)
  {
    match FindProfile(db, userId)
    case None => Some(Failure(404, NoProfile))
    case Some(cid) =>
      if jobId !in db.jobs then Some(Failure(404, "Vaga não encontrada"))
      else if db.jobs[jobId].status != "published" then Some(Failure(400, "Esta vaga não está disponível para candidaturas"))
      else if HasApplied(db, jobId, cid) then Some(Failure(409, "Você já se candidatou a esta vaga"))
      else None
  }

  /** `applyToJob`: a failing database is 500; the first failing check answers and nothing
      changes; a colliding id is 500; otherwise one pending application is added and the
      job's counter rises by 1. `storeFails` stands for the first lookup throwing. */
  function ApplyToJobOutcome(db: Db, freshId: Id, userId: Id, jobId: Id, coverLetter: Option<string>, now: Time,
                             storeFails: bool)
    : (s: Step<Application>)
    requires DbOk(db)
    ensures DbOk(s.db)
    ensures CountersOk(db) ==> CountersOk(s.db)
    ensures storeFails ==> s == Step(Failure(500, ServerError), db)
    ensures !storeFails && ApplyRefusal(db, userId, jobId).Some? ==> s == Step(ApplyRefusal(db, userId, jobId).value, db)
    ensures s.reply.Success? <==> !storeFails && ApplyRefusal(db, userId, jobId).None? && freshId !in db.applications
    ensures s.reply.Failure? ==> s.db == db
    ensures s.reply.Success? ==>
      var app := NewApplication(freshId, jobId, FindProfile(db, userId).value, coverLetter, now);
      s == Step(Success(201, app), WithApplication(db, app))
  {
    if storeFails then Step(Failure(500, ServerError), db)
    else if ApplyRefusal(db, userId, jobId).Some? then Step(ApplyRefusal(db, userId, jobId).value, db)
    else if freshId in db.applications then Step(Failure(500, ServerError), db)
    else
      var app := NewApplication(freshId, jobId, FindProfile(db, userId).value, coverLetter, now);
      InsertKeepsDbOk(db, app);
      InsertKeepsCounters(db, app);
      Step(Success(201, app), WithApplication(db, app))
  }

  /** Applying twice to the same job is refused with 409 and changes nothing. */
  lemma SecondApplicationRefused(db: Db, id1: Id, id2: Id, userId: Id, jobId: Id, c1: Option<string>, c2: Option<string>, t1: Time, t2: Time)
    requires DbOk(db) && ApplyToJobOutcome(db, id1, userId, jobId, c1, t1, false).reply.Success?
    ensures var after := ApplyToJobOutcome(db, id1, userId, jobId, c1, t1, false).db;
            ApplyToJobOutcome(after, id2, userId, jobId, c2, t2, false) == Step(Failure(409, "Você já se candidatou a esta vaga"), after)
  {
    var after := ApplyToJobOutcome(db, id1, userId, jobId, c1, t1, false).db;
    var cid := FindProfile(db, userId).value;
    assert after.candidates == db.candidates;
    assert FindProfile(after, userId) == Some(cid);
    assert after.applications[id1].jobId == jobId && after.applications[id1].candidateId == cid;
  }

  // ---- withdrawApplication ----

  /** `withdrawApplication`: a failing database is 500; no profile is 404; an application that
      is missing or belongs to another candidate is 404; one that is neither pending nor
      reviewing is 400; otherwise it is deleted and its job's counter falls by 1.
      `storeFails` stands for the first lookup throwing, before anything is written. */
  function WithdrawOutcome(db: Db, userId: Id, appId: Id, storeFails: bool): (s: Step<()>)
    requires DbOk(db)
    ensures DbOk(s.db)
    ensures CountersOk(db) ==> CountersOk(s.db)
    ensures storeFails ==> s == Step(Failure(500, ServerError), db)
    ensures !storeFails && !HasProfile(db, userId) ==> s == Step(Failure(404, NoProfile), db)
    ensures !storeFails && HasProfile(db, userId) && !Owns(db, FindProfile(db, userId).value, appId) ==>
      s == Step(Failure(404, NoApplication), db)
    ensures !storeFails && HasProfile(db, userId) && Owns(db, FindProfile(db, userId).value, appId)
            && !Withdrawable(db.applications[appId]) ==>
      s == Step(Failure(400, "Não é possível retirar esta candidatura"), db)
    ensures s.reply.Success? <==>
      !storeFails && HasProfile(db, userId) && Owns(db, FindProfile(db, userId).value, appId)
      && Withdrawable(db.applications[appId])
    ensures s.reply.Failure? ==> s.db == db
    ensures s.reply.Success? ==> s == Step(Success(200, ()), WithoutApplication(db, appId))
  {
    if storeFails then Step(Failure(500, ServerError), db)
    else match FindProfile(db, userId)
    case None => Step(Failure(404, NoProfile), db)
    case Some(cid) =>
      if !Owns(db, cid, appId) then Step(Failure(404, NoApplication), db)
      else if !Withdrawable(db.applications[appId]) then Step(Failure(400, "Não é possível retirar esta candidatura"), db)
      else
        RemoveKeepsDbOk(db, appId);
        RemoveKeepsCounters(db, appId);
        Step(Success(200, ()), WithoutApplication(db, appId))
  }

  /** `['pending', 'reviewing'].includes(application.status)`. */
  predicate Withdrawable(a: Application) {
    a.status == Pending || a.status == Reviewing
  }

  /** The lookup is by `(id, candidateId)` of the caller's profile. */
  predicate Owns(db: Db, candidateId: Id, appId: Id) {
    appId in db.applications && db.applications[appId].candidateId == candidateId
  }

  /** The early statuses `withdrawApplication` accepts are exactly those `canBeReviewed` names. */
  lemma WithdrawableIsReviewable(a: Application)
    ensures Withdrawable(a) <==> CanBeReviewed(a.status)
  {}

  /** Withdrawing right after applying restores all three tables exactly. */
  lemma WithdrawUndoesApply(db: Db, freshId: Id, userId: Id, jobId: Id, coverLetter: Option<string>, now: Time)
    requires DbOk(db) && ApplyToJobOutcome(db, freshId, userId, jobId, coverLetter, now, false).reply.Success?
    ensures var after := ApplyToJobOutcome(db, freshId, userId, jobId, coverLetter, now, false).db;
            WithdrawOutcome(after, userId, freshId, false) == Step(Success(200, ()), db)
  {
    var cid := FindProfile(db, userId).value;
    var app := NewApplication(freshId, jobId, cid, coverLetter, now);
    var after := WithApplication(db, app);
    assert ApplyToJobOutcome(db, freshId, userId, jobId, coverLetter, now, false).db == after;
    assert FindProfile(after, userId) == Some(cid) by {
      assert after.candidates == db.candidates;
    }
    assert Owns(after, cid, freshId) && Withdrawable(after.applications[freshId]);
    RemoveUndoesInsert(db, app);
  }

  // ---- updateApplicationStatus ----

  /** The fields `updateApplicationStatus` writes: the status always; for `reviewing` the
      review stamp, the notes if truthy and the score if the key is present (`Some(None)` is
      an explicit null); for `rejected` the reason if truthy. */
  function StatusUpdated(a: Application, status: Status, reviewer: Id, now: Time, notes: Option<string>,
                         score: Option<Option<int>>, rejectionReason: Option<string>): (r: Application)
    ensures r.id == a.id && r.jobId == a.jobId && r.candidateId == a.candidateId && r.status == status
    ensures status != Reviewing ==> r.score == a.score && r.reviewedAt == a.reviewedAt
    ensures status == Reviewing ==> r.reviewedAt == Some(now) && r.reviewedBy == Some(reviewer)
    ensures status == Reviewing && score.Some? ==> r.score == score.value
    ensures status == Rejected && TruthyText(rejectionReason) ==> r.rejectionReason == rejectionReason
    ensures !(status == Rejected && TruthyText(rejectionReason)) ==> r.rejectionReason == a.rejectionReason
  {
    var withStatus := a.(status := status);
    var reviewed := if status == Reviewing then
                      withStatus.(reviewedAt := Some(now), reviewedBy := Some(reviewer), notes := IfTruthy(notes, a.notes),
                                  score := if score.Some? then score.value else a.score)
                    else withStatus;
    if status == Rejected && TruthyText(rejectionReason) then reviewed.(rejectionReason := rejectionReason) else reviewed
  }

  /** `updateApplicationStatus`: a status outside the five is 400 before the database is
      asked; then a failing database is 500 and a missing application 404; a score the
      column validator refuses fails the update (500); otherwise the fields are written
      whatever the current status is. */
  function UpdateApplicationStatusOutcome(db: Db, appId: Id, status: Option<string>, reviewer: Id, now: Time,
                                          notes: Option<string>, score: Option<Option<int>>, rejectionReason: Option<string>,
                                          storeFails: bool)
    : (s: Step<Application>)
    requires DbOk(db)
    ensures DbOk(s.db)
    ensures CountersOk(db) ==> CountersOk(s.db)
    ensures (status.None? || ParseStatus(status.value).None?) ==> s == Step(Failure(400, "Status inválido"), db)
    ensures status.Some? && ParseStatus(status.value).Some? && storeFails ==> s == Step(Failure(500, ServerError), db)
    ensures status.Some? && ParseStatus(status.value).Some? && !storeFails && appId !in db.applications ==>
      s == Step(Failure(404, NoApplication), db)
    ensures s.reply.Failure? ==> s.db == db
    ensures s.reply.Success? ==>
      var updated := StatusUpdated(db.applications[appId], ParseStatus(status.value).value, reviewer, now, notes, score, rejectionReason);
      s == Step(Success(200, updated), db.(applications := db.applications[appId := updated]))
    ensures s.reply.Success? <==>
      (status.Some? && ParseStatus(status.value).Some? && !storeFails && appId in db.applications
       && ScoreValid(StatusUpdated(db.applications[appId], ParseStatus(status.value).value, reviewer, now, notes, score, rejectionReason).score))
  {
    if status.None? || ParseStatus(status.value).None? then Step(Failure(400, "Status inválido"), db)
    else if storeFails then Step(Failure(500, ServerError), db)
    else if appId !in db.applications then Step(Failure(404, NoApplication), db)
    else
      var updated := StatusUpdated(db.applications[appId], ParseStatus(status.value).value, reviewer, now, notes, score, rejectionReason);
      if !ScoreValid(updated.score) then Step(Failure(500, ServerError), db)
      else
        ReplaceKeepsDbOk(db, appId, updated);
        ReplaceKeepsCounters(db, appId, updated);
        Step(Success(200, updated), db.(applications := db.applications[appId := updated]))
  }

  /** There is no state machine: even a decided application can be moved back to `pending`. */
  lemma AcceptedCanReturnToPending(db: Db, appId: Id, reviewer: Id, now: Time)
    requires DbOk(db) && appId in db.applications && db.applications[appId].status == Accepted
    ensures var s := UpdateApplicationStatusOutcome(db, appId, Some("pending"), reviewer, now, None, None, None, false);
            s.reply.Success? && s.db.applications[appId].status == Pending
  {}

  /** A status change never touches the counters or the pairs. */
  lemma StatusChangeKeepsCounters(db: Db, appId: Id, status: Option<string>, reviewer: Id, now: Time,
                                  notes: Option<string>, score: Option<Option<int>>, reason: Option<string>)
    requires DbOk(db)
    ensures UpdateApplicationStatusOutcome(db, appId, status, reviewer, now, notes, score, reason, false).db.jobs == db.jobs
    ensures UpdateApplicationStatusOutcome(db, appId, status, reviewer, now, notes, score, reason, false).db.applications.Keys == db.applications.Keys
  {}

  // ---- scheduleInterview ----

  /** The fields `scheduleInterview` writes; `interviewNotes` only when the key is present. */
  function Scheduled(a: Application, date: Time, interviewNotes: Option<string>): Application {
    a.(status := Interview, interviewDate := Some(date),
       interviewNotes := if interviewNotes.Some? then interviewNotes else a.interviewNotes)
  }

  /** `scheduleInterview`: a failing database is 500; a missing application is 404; one not
      under review is 400; otherwise the status becomes `interview` with the date, and the
      notes when the key is present. */
  function ScheduleInterviewOutcome(db: Db, appId: Id, date: Time, interviewNotes: Option<string>, storeFails: bool)
    : (s: Step<Application>)
    requires DbOk(db)
    ensures DbOk(s.db)
    ensures CountersOk(db) ==> CountersOk(s.db)
    ensures storeFails ==> s == Step(Failure(500, ServerError), db)
    ensures !storeFails && appId !in db.applications ==> s == Step(Failure(404, NoApplication), db)
    ensures !storeFails && appId in db.applications && !CanScheduleInterview(db.applications[appId].status) ==>
      s == Step(Failure(400, "Não é possível agendar entrevista para esta candidatura"), db)
    ensures s.reply.Success? <==>
      !storeFails && appId in db.applications && CanScheduleInterview(db.applications[appId].status)
    ensures s.reply.Failure? ==> s.db == db
    ensures s.reply.Success? ==>
      var updated := Scheduled(db.applications[appId], date, interviewNotes);
      s == Step(Success(200, updated), db.(applications := db.applications[appId := updated]))
  {
    if storeFails then Step(Failure(500, ServerError), db)
    else if appId !in db.applications then Step(Failure(404, NoApplication), db)
    else if !CanScheduleInterview(db.applications[appId].status) then
      Step(Failure(400, "Não é possível agendar entrevista para esta candidatura"), db)
    else
      var updated := Scheduled(db.applications[appId], date, interviewNotes);
      ReplaceKeepsDbOk(db, appId, updated);
      ReplaceKeepsCounters(db, appId, updated);
      Step(Success(200, updated), db.(applications := db.applications[appId := updated]))
  }

  /** Moving an application to `reviewing` makes an interview possible, whatever its status was. */
  lemma ReviewEnablesInterview(db: Db, appId: Id, reviewer: Id, now: Time, date: Time)
    requires DbOk(db) && appId in db.applications
    ensures var r := UpdateApplicationStatusOutcome(db, appId, Some("reviewing"), reviewer, now, None, None, None, false);
            r.reply.Success? && ScheduleInterviewOutcome(r.db, appId, date, None, false).reply.Success?
  {
    var a := db.applications[appId];
    assert ParseStatus("reviewing") == Some(Reviewing);
    var updated := StatusUpdated(a, Reviewing, reviewer, now, None, None, None);
    assert updated.score == a.score;
    var r := UpdateApplicationStatusOutcome(db, appId, Some("reviewing"), reviewer, now, None, None, None, false);
    assert r.reply.Success? && r.db.applications[appId] == updated;
    assert CanScheduleInterview(Reviewing);
  }

  /** An interview cannot be scheduled twice: the first one leaves the status at `interview`. */
  lemma InterviewNotRescheduled(db: Db, appId: Id, date: Time, later: Time, notes: Option<string>)
    requires DbOk(db)
    ensures var once := ScheduleInterviewOutcome(db, appId, date, notes, false);
            once.reply.Success? ==>
              ScheduleInterviewOutcome(once.db, appId, later, notes, false)
              == Step(Failure(400, "Não é possível agendar entrevista para esta candidatura"), once.db)
  {
    var once := ScheduleInterviewOutcome(db, appId, date, notes, false);
    if once.reply.Success? {
      assert once.db.applications[appId].status == Interview;
      assert !CanScheduleInterview(Interview);
    }
  }

  // ---- the job service's writes to the same tables ----

  /** `updateJob` on the shared database: the job row is patched as the job service patches
      it, and the constraints still hold. */
  function JobPatched(db: Db, id: Id, patch: JC.JobPatch): (r: Db)
    ensures r.jobs == JC.UpdateJobOutcome(db.jobs, id, patch, false).store
    ensures r.candidates == db.candidates && r.applications == db.applications
    ensures DbOk(db) ==> DbOk(r)
  {
    db.(jobs := JC.UpdateJobOutcome(db.jobs, id, patch, false).store)
  }

  /** The body of `updateJob` is not filtered, so a client can reset the counter of a job that
      has applications: the counters are not an invariant of the database. */
  lemma PatchCanBreakCounters(db: Db, id: Id)
    requires id in db.jobs && AppsFor(db.applications, id) != {}
    ensures var p := JC.JobPatch(None, None, None, None, None, None, None, None, None, None, None, None, Some(0));
            !CountersOk(JobPatched(db, id, p))
  {
    var p := JC.JobPatch(None, None, None, None, None, None, None, None, None, None, None, None, Some(0));
    var r := JobPatched(db, id, p);
    assert r.jobs[id].applicationsCount == 0;
    assert |AppsFor(r.applications, id)| > 0;
  }

  /** `deleteJob` on the shared database: the job row goes, and `onDelete: 'CASCADE'` on
      `JobApplication.jobId` takes its applications with it. Constraints and counters survive. */
  function JobDeleted(db: Db, jobId: Id): (r: Db)
    ensures r.jobs == JC.DeleteJobOutcome(db.jobs, jobId, false).store
    ensures r.candidates == db.candidates
    ensures forall a :: a in r.applications <==> a in db.applications && db.applications[a].jobId != jobId
    ensures forall a :: a in r.applications ==> r.applications[a] == db.applications[a]
    ensures DbOk(db) ==> DbOk(r)
    ensures CountersOk(db) ==> CountersOk(r)
  {
    var apps := map a | a in db.applications && db.applications[a].jobId != jobId :: db.applications[a];
    var r := db.(jobs := db.jobs - {jobId}, applications := apps);
    assert forall j :: j in r.jobs ==> AppsFor(apps, j) == AppsFor(db.applications, j);
    r
  }

  /** After the cascade nothing points at the deleted job, and applying to it is 404. */
  lemma DeletedJobTakesItsApplications(db: Db, jobId: Id, freshId: Id, userId: Id, coverLetter: Option<string>, now: Time)
    requires DbOk(db) && HasProfile(db, userId)
    ensures AppsFor(JobDeleted(db, jobId).applications, jobId) == {}
    ensures ApplyToJobOutcome(JobDeleted(db, jobId), freshId, userId, jobId, coverLetter, now, false).reply
            == Failure(404, "Vaga não encontrada")
  {
    var r := JobDeleted(db, jobId);
    assert HasProfile(r, userId);
  }

  /** Builds `updateData` field by field and applies it to the application. */
  method StatusUpdateData(a: Application, status: Status, reviewer: Id, now: Time, notes: Option<string>,
                          score: Option<Option<int>>, rejectionReason: Option<string>) returns (updated: Application)
    ensures updated == StatusUpdated(a, status, reviewer, now, notes, score, rejectionReason)
  {
    updated := a.(status := status);
    if status == Reviewing {
      updated := updated.(reviewedAt := Some(now), reviewedBy := Some(reviewer));
      if TruthyText(notes) {
        updated := updated.(notes := notes);
      }
      if score.Some? {
        updated := updated.(score := score.value);
      }
    }
    if status == Rejected && TruthyText(rejectionReason) {
      updated := updated.(rejectionReason := rejectionReason);
    }
  }

  /** The handlers performed on mutable tables. */
  class Controller {
    var candidates: map<Id, Candidate>
    var jobs: JC.Jobs
    var applications: map<Id, Application>

    function Tables(): Db
      reads this
    {
      Db(candidates, jobs, applications)
    }

    ghost predicate Valid()
      reads this
    {
      DbOk(Tables())
    }

    constructor (jobs: JC.Jobs)
      requires JC.WellKeyed(jobs)
      ensures Valid() && Tables() == Db(map[], jobs, map[])
      ensures CountersOk(Tables()) <==> forall j :: j in jobs ==> jobs[j].applicationsCount == 0
    {
      candidates := map[];
      this.jobs := jobs;
      applications := map[];
    }

    method CreateProfile(freshId: Id, userId: Id, input: ProfileInput, isUrl: string -> bool, storeFails: bool)
      returns (reply: Reply<Candidate>)
      requires Valid()
      modifies this
      ensures Valid()
      ensures Step(reply, Tables()) == CreateProfileOutcome(old(Tables()), freshId, userId, input, isUrl, storeFails)
      ensures old(CountersOk(Tables())) ==> CountersOk(Tables())
    {
      if storeFails {
        return Failure(500, ServerError);
      }
      if exists c :: c in candidates && candidates[c].userId == userId {
        return Failure(409, "Perfil de candidato já existe");
      }
      if freshId in candidates || !EnumsOk(input) {
        return Failure(500, ServerError);
      }
      var availability := if input.availability.Some? then ParseAvailability(input.availability.value) else None;
      var workPreference := if input.workPreference.Some? then ParseWorkPreference(input.workPreference.value) else None;
      var row := NewCandidate(freshId, userId, input.resume, input.skills, input.experience, input.education,
                              input.portfolio, input.linkedin, input.github, input.expectedSalary, availability, workPreference);
      var instance := new Candidates.Instance.Load(row);
      var saved := instance.Save(isUrl);
      if saved.None? {
        return Failure(500, ServerError);
      }
      ghost var before := Tables();
      candidates := candidates[freshId := saved.value];
      assert forall j :: j in jobs ==> AppsFor(applications, j) == AppsFor(before.applications, j);
      reply := Success(201, saved.value);
    }

    method ApplyToJob(freshId: Id, userId: Id, jobId: Id, coverLetter: Option<string>, now: Time, storeFails: bool)
      returns (reply: Reply<Application>)
      requires Valid()
      modifies this
      ensures Valid()
      ensures Step(reply, Tables()) == ApplyToJobOutcome(old(Tables()), freshId, userId, jobId, coverLetter, now, storeFails)
      ensures old(CountersOk(Tables())) ==> CountersOk(Tables())
    {
      ghost var before := Tables();
      if storeFails {
        return Failure(500, ServerError);
      }
      var profile := FindProfile(Tables(), userId);
      if profile.None? {
        return Failure(404, NoProfile);
      }
      var cid := profile.value;
      if jobId !in jobs {
        return Failure(404, "Vaga não encontrada");
      }
      var job := jobs[jobId];
      if job.status != "published" {
        return Failure(400, "Esta vaga não está disponível para candidaturas");
      }
      if HasApplied(Tables(), jobId, cid) {
        return Failure(409, "Você já se candidatou a esta vaga");
      }
      assert ApplyRefusal(before, userId, jobId).None?;
      if freshId in applications {
        return Failure(500, ServerError);
      }
      var application := NewApplication(freshId, jobId, cid, coverLetter, now);
      applications := applications[freshId := application];
      jobs := jobs[jobId := job.(applicationsCount := job.applicationsCount + 1)];
      assert Tables() == WithApplication(before, application);
      assert ApplyToJobOutcome(before, freshId, userId, jobId, coverLetter, now, false) == Step(Success(201, application), Tables());
      reply := Success(201, application);
    }

    method WithdrawApplication(userId: Id, appId: Id, storeFails: bool) returns (reply: Reply<()>)
      requires Valid()
      modifies this
      ensures Valid()
      ensures Step(reply, Tables()) == WithdrawOutcome(old(Tables()), userId, appId, storeFails)
      ensures old(CountersOk(Tables())) ==> CountersOk(Tables())
    {
      ghost var before := Tables();
      if storeFails {
        return Failure(500, ServerError);
      }
      var profile := FindProfile(Tables(), userId);
      if profile.None? {
        return Failure(404, NoProfile);
      }
      var cid := profile.value;
      if appId !in applications || applications[appId].candidateId != cid {
        return Failure(404, NoApplication);
      }
      var application := applications[appId];
      if application.status != Pending && application.status != Reviewing {
        return Failure(400, "Não é possível retirar esta candidatura");
      }
      assert Owns(before, cid, appId) && Withdrawable(application);
      applications := applications - {appId};
      if application.jobId in jobs {
        var job := jobs[application.jobId];
        jobs := jobs[application.jobId := job.(applicationsCount := job.applicationsCount - 1)];
      }
      assert Tables() == WithoutApplication(before, appId);
      assert WithdrawOutcome(before, userId, appId, false) == Step(Success(200, ()), Tables());
      reply := Success(200, ());
    }

    method UpdateApplicationStatus(appId: Id, status: Option<string>, reviewer: Id, now: Time, notes: Option<string>,
                                   score: Option<Option<int>>, rejectionReason: Option<string>, storeFails: bool)
      returns (reply: Reply<Application>)
      requires Valid()
      modifies this
      ensures Valid()
      ensures Step(reply, Tables()) ==
              UpdateApplicationStatusOutcome(old(Tables()), appId, status, reviewer, now, notes, score, rejectionReason, storeFails)
      ensures old(CountersOk(Tables())) ==> CountersOk(Tables())
    {
      ghost var before := Tables();
      if status.None? || ParseStatus(status.value).None? {
        return Failure(400, "Status inválido");
      }
      if storeFails {
        return Failure(500, ServerError);
      }
      if appId !in applications {
        return Failure(404, NoApplication);
      }
      var updated := StatusUpdateData(applications[appId], ParseStatus(status.value).value, reviewer, now, notes, score, rejectionReason);
      if !ScoreValid(updated.score) {
        return Failure(500, ServerError);
      }
      applications := applications[appId := updated];
      assert UpdateApplicationStatusOutcome(before, appId, status, reviewer, now, notes, score, rejectionReason, false)
             == Step(Success(200, updated), Tables());
      reply := Success(200, updated);
    }

    method ScheduleInterview(appId: Id, date: Time, interviewNotes: Option<string>, storeFails: bool)
      returns (reply: Reply<Application>)
      requires Valid()
      modifies this
      ensures Valid()
      ensures Step(reply, Tables()) == ScheduleInterviewOutcome(old(Tables()), appId, date, interviewNotes, storeFails)
      ensures old(CountersOk(Tables())) ==> CountersOk(Tables())
    {
      ghost var before := Tables();
      if storeFails {
        return Failure(500, ServerError);
      }
      if appId !in applications {
        return Failure(404, NoApplication);
      }
      var application := applications[appId];
      if !CanScheduleInterview(application.status) {
        return Failure(400, "Não é possível agendar entrevista para esta candidatura");
      }
      var updated := application.(status := Interview, interviewDate := Some(date));
      if interviewNotes.Some? {
        updated := updated.(interviewNotes := interviewNotes);
      }
      applications := applications[appId := updated];
      assert Tables() == ScheduleInterviewOutcome(before, appId, date, interviewNotes, false).db;
      reply := Success(200, updated);
    }
  }
}
