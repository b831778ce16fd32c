/** The Candidate model: a profile's fields, the completeness score recomputed before
    every save, and the lower-cased skill list. */
module Candidates {
  import opened Base
  import opened Text

  datatype Availability = Immediate | TwoWeeks | OneMonth | Negotiable
  datatype WorkPreference = Remote | Onsite | Hybrid

  function ParseAvailability(text: string): (r: Option<Availability>)
    ensures r.Some? <==> text in ["immediate", "two-weeks", "one-month", "negotiable"]
  {
    if text == "immediate" then Some(Immediate)
    else if text == "two-weeks" then Some(TwoWeeks)
    else if text == "one-month" then Some(OneMonth)
    else if text == "negotiable" then Some(Negotiable)
    else None
  }

  function ParseWorkPreference(text: string): (r: Option<WorkPreference>)
    ensures r.Some? <==> text in ["remote", "onsite", "hybrid"]
  {
    if text == "remote" then Some(Remote)
    else if text == "onsite" then Some(Onsite)
    else if text == "hybrid" then Some(Hybrid)
    else None
  }

  /** A persisted `candidates` row; `expectedSalary` is a whole amount. */
  datatype Candidate = Candidate(
    id: Id, userId: Id, resume: Option<string>, skills: Option<seq<string>>,
    experience: Option<string>, education: Option<string>,
    portfolio: Option<string>, linkedin: Option<string>, github: Option<string>,
    expectedSalary: Option<int>, availability: Option<Availability>,
    workPreference: Option<WorkPreference>, isActive: bool, profileCompleteness: int)

  /** The seven fields the score looks at, in their listed order, each as "filled or not":
      the skill array counts only when non-empty, the other fields when truthy. */
  function Filled(c: Candidate): (flags: seq<bool>)
    ensures |flags| == 7
  {
    [ TruthyText(c.resume),
      c.skills.Some? && |c.skills.value| > 0,
      TruthyText(c.experience),
      TruthyText(c.education),
      TruthyNumber(c.expectedSalary),
      c.availability.Some?,
      c.workPreference.Some? ]
  }

  function CountTrue(flags: seq<bool>): (n: nat)
    ensures n <= |flags|
  {
    if flags == [] then 0
    else CountTrue(flags[..|flags| - 1]) + (if flags[|flags| - 1] then 1 else 0)
  }

  /** `CountTrue` is the number of `true` entries. */
  lemma {:induction false} CountTrueCounts(flags: seq<bool>)
    ensures CountTrue(flags) == multiset(flags)[true]
  {
    if flags != [] {
      CountTrueCounts(flags[..|flags| - 1]);
      assert flags == flags[..|flags| - 1] + [flags[|flags| - 1]];
    }
  }

  /** The number of filled fields among the seven. */
  function FilledCount(c: Candidate): (n: nat)
    ensures n <= 7
  {
    CountTrue(Filled(c))
  }

  /** What `calculateProfileCompleteness` stores: 14 points per filled field. */
  function Completeness(c: Candidate): int {
    14 * FilledCount(c)
  }

  /** The score is a multiple of 14 between 0 and 98: it never reaches 100, so the
      column's 0..100 validator always passes. */
  lemma CompletenessRange(c: Candidate)
    ensures Completeness(c) in {0, 14, 28, 42, 56, 70, 84, 98}
    ensures 0 <= Completeness(c) <= 98 && Completeness(c) != 100
  {}

  /** `isProfileComplete`: a stored score of at least 80. */
  predicate IsProfileComplete(c: Candidate) {
    c.profileCompleteness >= 80
  }

  /** With an up-to-date score, the profile is complete exactly when six or seven fields are filled. */
  lemma CompleteIffSixFilled(c: Candidate)
    requires c.profileCompleteness == Completeness(c)
    ensures IsProfileComplete(c) <==> FilledCount(c) >= 6
  {}

  /** The column validators: a non-negative expected salary, a score in 0..100, and URL
      fields that are either null or accepted by `isUrl`. */
  predicate RowValid(c: Candidate, isUrl: string -> bool) {
    (c.expectedSalary.None? || c.expectedSalary.value >= 0)
    && 0 <= c.profileCompleteness <= 100
    && (c.portfolio.None? || isUrl(c.portfolio.value))
    && (c.linkedin.None? || isUrl(c.linkedin.value))
    && (c.github.None? || isUrl(c.github.value))
  }

  /** `getSkillsCount`: the list length, 0 for a null list. */
  function SkillsCount(c: Candidate): (n: nat)
    ensures c.skills.None? ==> n == 0
    ensures c.skills.Some? ==> n == |c.skills.value|
  {
    if c.skills.Some? then |c.skills.value| else 0
  }

  /** `hasSkill`: the lower-cased skill is an entry of a non-null list. */
  predicate HasSkill(skills: Option<seq<string>>, skill: string) {
    skills.Some? && ToLower(skill) in skills.value
  }

  predicate NoDuplicates(l: seq<string>) {
    forall i, j :: 0 <= i < j < |l| ==> l[i] != l[j]
  }

  /** The list `addSkill` leaves: null becomes empty, and the lower-cased skill is appended
      only when it is not already there. */
  function WithSkill(skills: Option<seq<string>>, skill: string): (r: seq<string>)
    ensures ToLower(skill) in r
    ensures |r| == |skills.GetOr([])| + (if HasSkill(skills, skill) then 0 else 1)
    ensures skills.Some? ==> r[..|skills.value|] == skills.value
    ensures skills.None? ==> r == [ToLower(skill)]
  {
    var list := skills.GetOr([]);
    var norm := ToLower(skill);
    if norm in list then list else list + [norm]
  }

  /** The list `removeSkill` leaves: every entry equal to the lower-cased skill is dropped,
      the others keep their order; a null list stays null. */
  function Without(skills: Option<seq<string>>, skill: string): (r: Option<seq<string>>)
    ensures r.None? <==> skills.None?
    ensures r.Some? ==> forall x :: x in r.value <==> x in skills.value && x != ToLower(skill)
  {
    if skills.None? then None else Some(Drop(skills.value, ToLower(skill)))
  }

  /** `filter(s => s !== norm)`. */
  function Drop(l: seq<string>, norm: string): (r: seq<string>)
    ensures |r| <= |l|
    ensures forall x :: x in r <==> x in l && x != norm
    ensures multiset(r) == multiset(l)[norm := 0]
  {
    if l == [] then []
    else
      var rest := Drop(l[1..], norm);
      assert forall x :: x in l <==> x == l[0] || x in l[1..];
      assert l == [l[0]] + l[1..];
      if l[0] != norm then [l[0]] + rest else rest
  }

  /** Dropping an absent entry leaves the list exactly as it was, order included. */
  lemma {:induction false} DropAbsent(l: seq<string>, norm: string)
    requires norm !in l
    ensures Drop(l, norm) == l
  {
    if l != [] {
      assert norm !in l[1..];
      DropAbsent(l[1..], norm);
      assert [l[0]] + l[1..] == l;
    }
  }

  lemma AddSkillIdempotent(skills: Option<seq<string>>, skill: string)
    ensures WithSkill(Some(WithSkill(skills, skill)), skill) == WithSkill(skills, skill)
  {}

  lemma AddSkillNoDuplicates(skills: Option<seq<string>>, skill: string)
    requires skills.Some? ==> NoDuplicates(skills.value)
    ensures NoDuplicates(WithSkill(skills, skill))
  {}

  lemma HasSkillAfterAdd(skills: Option<seq<string>>, skill: string)
    ensures HasSkill(Some(WithSkill(skills, skill)), skill)
  {}

  lemma NoSkillAfterRemove(skills: Option<seq<string>>, skill: string)
    ensures !HasSkill(Without(skills, skill), skill)
  {}

  /** `addSkill` raises `getSkillsCount` by one exactly when the skill was not yet listed. */
  lemma SkillsCountAfterAdd(c: Candidate, skill: string)
    ensures SkillsCount(c.(skills := Some(WithSkill(c.skills, skill))))
         == SkillsCount(c) + (if HasSkill(c.skills, skill) then 0 else 1)
  {}

  /** `removeSkill` lowers `getSkillsCount` by the number of entries equal to the
      lower-cased skill, and a null list keeps the count at 0. */
  lemma SkillsCountAfterRemove(c: Candidate, skill: string)
    ensures SkillsCount(c.(skills := Without(c.skills, skill)))
         == SkillsCount(c) - (if c.skills.Some? then multiset(c.skills.value)[ToLower(skill)] else 0)
  {
    if c.skills.Some? {
      var l := c.skills.value;
      var norm := ToLower(skill);
      var m := multiset(l);
      assert m == m[norm := 0] + multiset{}[norm := m[norm]];
      assert |multiset(Drop(l, norm))| == |Drop(l, norm)|;
    }
  }

  /** Removing a skill that was just added to a list lacking it restores the list. */
  lemma RemoveUndoesAdd(skills: seq<string>, skill: string)
    requires !HasSkill(Some(skills), skill)
    ensures Without(Some(WithSkill(Some(skills), skill)), skill) == Some(skills)
  {
    var norm := ToLower(skill);
    assert WithSkill(Some(skills), skill) == skills + [norm];
    DropAppend(skills, [norm], norm);
    DropAbsent(skills, norm);
    assert [norm][1..] == [];
    assert Drop([norm], norm) == [];
    assert skills + [] == skills;
  }

  lemma {:induction false} DropAppend(a: seq<string>, b: seq<string>, norm: string)
    ensures Drop(a + b, norm) == Drop(a, norm) + Drop(b, norm)
  {
    if a == [] {
      assert a + b == b;
    } else {
      assert (a + b)[1..] == a[1..] + b;
      DropAppend(a[1..], b, norm);
    }
  }

  /** A row created from a request: the fresh id, the caller's user id, `skills` defaulting
      to the empty list, `availability`/`workPreference` to `negotiable`/`hybrid`, an active
      profile and a score computed by the save hook. */
  function NewCandidate(id: Id, userId: Id, resume: Option<string>, skills: Option<seq<string>>,
                        experience: Option<string>, education: Option<string>,
                        portfolio: Option<string>, linkedin: Option<string>, github: Option<string>,
                        expectedSalary: Option<int>, availability: Option<Availability>,
                        workPreference: Option<WorkPreference>): (c: Candidate)
    ensures c.id == id && c.userId == userId && c.isActive
    ensures c.skills == Some(skills.GetOr([]))
    ensures c.availability == Some(availability.GetOr(Negotiable))
    ensures c.workPreference == Some(workPreference.GetOr(Hybrid))
    ensures c.profileCompleteness == 0
  {
    Candidate(id, userId, resume, Some(skills.GetOr([])), experience, education, portfolio, linkedin, github,
              expectedSalary, Some(availability.GetOr(Negotiable)), Some(workPreference.GetOr(Hybrid)), true, 0)
  }

  /** An empty request already yields a score of 28: the two enum defaults count as filled. */
  lemma BareProfileScore(id: Id, userId: Id)
    ensures Completeness(NewCandidate(id, userId, None, None, None, None, None, None, None, None, None, None)) == 28
  {
    var c := NewCandidate(id, userId, None, None, None, None, None, None, None, None, None, None);
    var f := [false, false, false, false, false, true, true];
    assert Filled(c) == f;
    assert CountTrue(f[..1]) == 0;
    assert CountTrue(f[..2]) == 0 by { assert f[..2][..1] == f[..1]; }
    assert CountTrue(f[..3]) == 0 by { assert f[..3][..2] == f[..2]; }
    assert CountTrue(f[..4]) == 0 by { assert f[..4][..3] == f[..3]; }
    assert CountTrue(f[..5]) == 0 by { assert f[..5][..4] == f[..4]; }
    assert CountTrue(f[..6]) == 1 by { assert f[..6][..5] == f[..5]; }
    assert CountTrue(f) == 2 by { assert f[..6] == f[..|f| - 1]; }
  }

  /** A model instance whose methods assign its fields. */
  class Instance {
    var id: Id
    var userId: Id
    var resume: Option<string>
    var skills: Option<seq<string>>
    var experience: Option<string>
    var education: Option<string>
    var portfolio: Option<string>
    var linkedin: Option<string>
    var github: Option<string>
    var expectedSalary: Option<int>
    var availability: Option<Availability>
    var workPreference: Option<WorkPreference>
    var isActive: bool
    var profileCompleteness: int

    function Row(): Candidate
      reads this
    {
      Candidate(id, userId, resume, skills, experience, education, portfolio, linkedin, github,
                expectedSalary, availability, workPreference, isActive, profileCompleteness)
    }

    constructor Load(c: Candidate)
      ensures Row() == c
    {
      id, userId, resume, skills := c.id, c.userId, c.resume, c.skills;
      experience, education := c.experience, c.education;
      portfolio, linkedin, github := c.portfolio, c.linkedin, c.github;
      expectedSalary, availability, workPreference := c.expectedSalary, c.availability, c.workPreference;
      isActive, profileCompleteness := c.isActive, c.profileCompleteness;
    }

    /** `calculateProfileCompleteness`: walks the seven fields adding floor(100/7) for each
        filled one, then stores the minimum of the sum and 100. */
    method CalculateProfileCompleteness()
      modifies this
      ensures Row() == old(Row()).(profileCompleteness := Completeness(old(Row())))
    {
      var fields := Filled(Row());
      var completeness := 0;
      var i := 0;
      while i < |fields|
        invariant 0 <= i <= |fields|
        invariant completeness == 14 * CountTrue(fields[..i])
      {
        assert fields[..i + 1][..i] == fields[..i];
        if fields[i] {
          completeness := completeness + 100 / |fields|;
        }
        i := i + 1;
      }
      assert fields[..|fields|] == fields;
      profileCompleteness := if completeness < 100 then completeness else 100;
    }

    /** `addSkill`: the list becomes `WithSkill` of the old one; nothing else changes. */
    method AddSkill(skill: string)
      modifies this
      ensures Row() == old(Row()).(skills := Some(WithSkill(old(skills), skill)))
    {
      if skills.None? {
        skills := Some([]);
      }
      var normalized := ToLower(skill);
      if normalized !in skills.value {
        skills := Some(skills.value + [normalized]);
      }
    }

    /** `removeSkill`: the list becomes `Without` of the old one; nothing else changes. */
    method RemoveSkill(skill: string)
      modifies this
      ensures Row() == old(Row()).(skills := Without(old(skills), skill))
    {
      if skills.Some? {
        var normalized := ToLower(skill);
        skills := Some(Drop(skills.value, normalized));
      }
    }

    /** `save`: the `beforeSave` hook recomputes the score, then the column validators decide
        whether the row is persisted (`Some`) or the save fails (`None`). */
    method Save(isUrl: string -> bool) returns (persisted: Option<Candidate>)
      modifies this
      ensures Row() == old(Row()).(profileCompleteness := Completeness(old(Row())))
      ensures persisted.Some? <==> RowValid(Row(), isUrl)
      ensures persisted.Some? ==> persisted.value == Row()
    {
      CalculateProfileCompleteness();
      CompletenessRange(old(Row()));
      if RowValid(Row(), isUrl) {
        persisted := Some(Row());
      } else {
        persisted := None;
      }
    }
  }
}
