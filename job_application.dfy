/** The JobApplication model: a candidate's submission to one job, its five statuses,
    the two guard predicates and the four mutators that assign an instance's fields. */
module JobApplications {
  import opened Base

  datatype Status = Pending | Reviewing | Interview | Rejected | Accepted

  /** The ENUM's literals, in declaration order. */
  const StatusNames: seq<string> := ["pending", "reviewing", "interview", "rejected", "accepted"]

  function StatusName(s: Status): (name: string)
    ensures name in StatusNames
  {
    match s
    case Pending => "pending"
    case Reviewing => "reviewing"
    case Interview => "interview"
    case Rejected => "rejected"
    case Accepted => "accepted"
  }

  /** Reads a status literal; anything outside the five ENUM values is refused. */
  function ParseStatus(text: string): (r: Option<Status>)
    ensures r.Some? <==> text in StatusNames
    ensures r.Some? ==> StatusName(r.value) == text
  {
    if text == "pending" then Some(Pending)
    else if text == "reviewing" then Some(Reviewing)
    else if text == "interview" then Some(Interview)
    else if text == "rejected" then Some(Rejected)
    else if text == "accepted" then Some(Accepted)
    else None
  }

  lemma ParseStatusName(s: Status)
    ensures ParseStatus(StatusName(s)) == Some(s)
  {}

  /** A persisted `job_applications` row. */
  datatype Application = Application(
    id: Id, jobId: Id, candidateId: Id, coverLetter: Option<string>,
    status: Status, appliedAt: Time,
    reviewedAt: Option<Time>, reviewedBy: Option<Id>, notes: Option<string>, score: Option<int>,
    interviewDate: Option<Time>, interviewNotes: Option<string>, rejectionReason: Option<string>)

  /** The column validator on `score`: absent, or an integer in 0..100. */
  predicate ScoreValid(score: Option<int>) {
    score.None? || 0 <= score.value <= 100
  }

  /** A new row: status defaults to `pending`, `appliedAt` to the current time, everything optional is null. */
  function NewApplication(id: Id, jobId: Id, candidateId: Id, coverLetter: Option<string>, now: Time): (a: Application)
    ensures a.id == id && a.jobId == jobId && a.candidateId == candidateId && a.coverLetter == coverLetter
    ensures a.status == Pending && a.appliedAt == now
    ensures a.reviewedAt.None? && a.reviewedBy.None? && a.notes.None? && a.score.None?
    ensures a.interviewDate.None? && a.interviewNotes.None? && a.rejectionReason.None?
    ensures ScoreValid(a.score)
  {
    Application(id, jobId, candidateId, coverLetter, Pending, now, None, None, None, None, None, None, None)
  }

  predicate IsPending(s: Status) { s == Pending }
  predicate IsReviewing(s: Status) { s == Reviewing }
  predicate IsInterview(s: Status) { s == Interview }
  predicate IsRejected(s: Status) { s == Rejected }
  predicate IsAccepted(s: Status) { s == Accepted }

  /** `canBeReviewed`: the status is one of `pending`, `reviewing`. */
  predicate CanBeReviewed(s: Status) {
    StatusName(s) in ["pending", "reviewing"]
  }

  /** `canScheduleInterview`: the status is `reviewing`. */
  predicate CanScheduleInterview(s: Status) {
    StatusName(s) in ["reviewing"]
  }

  lemma CanBeReviewedExactly(s: Status)
    ensures CanBeReviewed(s) <==> (IsPending(s) || IsReviewing(s))
  {}

  lemma CanScheduleInterviewExactly(s: Status)
    ensures CanScheduleInterview(s) <==> IsReviewing(s)
    ensures CanScheduleInterview(s) ==> CanBeReviewed(s)
  {}

  /** Exactly one of the five `is*` predicates holds of every status. */
  lemma ExactlyOneStatusPredicate(s: Status)
    ensures (if IsPending(s) then 1 else 0) + (if IsReviewing(s) then 1 else 0) + (if IsInterview(s) then 1 else 0)
          + (if IsRejected(s) then 1 else 0) + (if IsAccepted(s) then 1 else 0) == 1
  {}

  /** The table's unique index on `(jobId, candidateId)`. */
  predicate UniquePairs(apps: map<Id, Application>) {
    forall a, b :: a in apps && b in apps && a != b ==>
      apps[a].jobId != apps[b].jobId || apps[a].candidateId != apps[b].candidateId
  }

  /** The number of applications in `apps` whose status is `s`. */
  function CountWith(apps: seq<Application>, s: Status): (n: nat)
    ensures n <= |apps|
    ensures n > 0 <==> exists i :: 0 <= i < |apps| && apps[i].status == s
  {
    if apps == [] then 0
    else
      var rest := CountWith(apps[1..], s);
      assert forall i :: 1 <= i < |apps| ==> apps[i] == apps[1..][i - 1];
      (if apps[0].status == s then 1 else 0) + rest
  }

  /** `getStatusCounts`: grouping by status yields one row per status that occurs, and the
      `reduce` turns those rows into an object from status to count (keyed here by the
      enum value rather than its literal). */
  function StatusCounts(apps: seq<Application>): (m: map<Status, nat>)
    ensures forall s :: s in m <==> exists i :: 0 <= i < |apps| && apps[i].status == s
    ensures forall s :: s in m ==> 0 < m[s] == CountWith(apps, s)
  {
    map s: Status | CountWith(apps, s) > 0 :: CountWith(apps, s)
  }

  /** The counts of the five statuses add up to the number of applications. */
  lemma {:induction false} CountsAddUp(apps: seq<Application>)
    ensures CountWith(apps, Pending) + CountWith(apps, Reviewing) + CountWith(apps, Interview)
          + CountWith(apps, Rejected) + CountWith(apps, Accepted) == |apps|
  {
    if apps != [] {
      CountsAddUp(apps[1..]);
    }
  }

  /** `getApplicationsByDateRange`: the applications whose `appliedAt` lies between the two
      bounds, both included. The source sorts them by `appliedAt`, newest first; the model
      keeps the order of `apps` and states only which applications are returned. */
  function AppliedBetween(apps: seq<Application>, start: Time, end: Time): (r: seq<Application>)
    ensures |r| <= |apps|
    ensures forall a :: a in r <==> a in apps && start <= a.appliedAt <= end
  {
    Select(apps, (a: Application) => start <= a.appliedAt <= end)
  }

  /** A model instance: an in-memory copy of a row whose mutators assign its fields. */
  class Instance {
    var id: Id
    var jobId: Id
    var candidateId: Id
    var coverLetter: Option<string>
    var status: Status
    var appliedAt: Time
    var reviewedAt: Option<Time>
    var reviewedBy: Option<Id>
    var notes: Option<string>
    var score: Option<int>
    var interviewDate: Option<Time>
    var interviewNotes: Option<string>
    var rejectionReason: Option<string>

    /** The instance's current field values. */
    function Row(): Application
      reads this
    {
      Application(id, jobId, candidateId, coverLetter, status, appliedAt, reviewedAt, reviewedBy,
                  notes, score, interviewDate, interviewNotes, rejectionReason)
    }

    constructor Load(a: Application)
      ensures Row() == a
    {
      id, jobId, candidateId, coverLetter := a.id, a.jobId, a.candidateId, a.coverLetter;
      status, appliedAt := a.status, a.appliedAt;
      reviewedAt, reviewedBy, notes, score := a.reviewedAt, a.reviewedBy, a.notes, a.score;
      interviewDate, interviewNotes, rejectionReason := a.interviewDate, a.interviewNotes, a.rejectionReason;
    }

    /** `markAsReviewed(reviewerId, notes = null, score = null)`: no guard on the current status;
        a falsy note keeps the old one, and any non-null score (0 included) overwrites. */
    method MarkAsReviewed(reviewerId: Id, now: Time, newNotes: Option<string>, newScore: Option<int>)
      modifies this
      ensures Row() == old(Row()).(status := Reviewing, reviewedAt := Some(now), reviewedBy := Some(reviewerId),
                                   notes := IfTruthy(newNotes, old(notes)),
                                   score := if newScore.Some? then newScore else old(score))
    {
      status := Reviewing;
      reviewedAt := Some(now);
      reviewedBy := Some(reviewerId);
      if TruthyText(newNotes) {
        notes := newNotes;
      }
      if newScore.Some? {
        score := newScore;
      }
    }

    /** `scheduleInterview(interviewDate, notes = null)`: interview notes change only for a truthy note. */
    method ScheduleInterview(date: Time, newNotes: Option<string>)
      modifies this
      ensures Row() == old(Row()).(status := Interview, interviewDate := Some(date),
                                   interviewNotes := IfTruthy(newNotes, old(interviewNotes)))
    {
      status := Interview;
      interviewDate := Some(date);
      if TruthyText(newNotes) {
        interviewNotes := newNotes;
      }
    }

    /** `reject(reason = null)`: the reason changes only for a truthy reason. */
    method Reject(reason: Option<string>)
      modifies this
      ensures Row() == old(Row()).(status := Rejected, rejectionReason := IfTruthy(reason, old(rejectionReason)))
    {
      status := Rejected;
      if TruthyText(reason) {
        rejectionReason := reason;
      }
    }

    /** `accept()`: only the status changes, whatever it was. */
    method Accept()
      modifies this
      ensures Row() == old(Row()).(status := Accepted)
    {
      status := Accepted;
    }
  }

  /** The mutators carry no guard: accepting a pending application succeeds at this level. */
  method AcceptFromPending(a: Application) returns (after: Application)
    requires a.status == Pending
    ensures after == a.(status := Accepted)
  {
    var inst := new Instance.Load(a);
    inst.Accept();
    after := inst.Row();
  }
}
