# Recruitment platform core, modelled in Dafny

The system is a recruitment platform built from three services:

- an authentication service: registration, login, rotating refresh tokens, logout, and password change and reset;
- a job service: listing, searching, viewing and administering job offers;
- a candidate service: candidate profiles, and applications that move through a review workflow.

This project models the logic those services share with their data models and middleware:

- the Sequelize models `User`, `Job`, `Candidate` and `JobApplication`: their columns, validators, hooks and instance helpers;
- the bearer-token middleware (`authenticate`, `authorize`, `requireAdmin`, `requireCandidate`);
- the request validators and `handleValidationErrors`;
- the state-changing handlers of the three controllers.

It also proves what those pieces promise.

Layout, one module per file:

| file | module | models |
|---|---|---|
| base.dfy | Base | `Option`, `Reply` (`Success(code, data)` / `Failure(code, message)`), JavaScript truthiness |
| text.dfy | Text | JavaScript `trim` (the `\s` class), `toLowerCase` on Latin-1, substring search |
| pagination.dfy | Pagination | offset, `Math.ceil(count / limit)` with JavaScript's `NaN`/`Infinity`, and the page meta block |
| crypto.dfy | Crypto | bcrypt as a symbolic hash, jsonwebtoken `sign`/`verify` over an abstract library |
| user.dfy | Users | `User` row, roles, `toJSON`, hash-on-change hooks, `findActiveById` |
| accounts.dfy | Accounts | the user store of the auth service, a refresh-token slot per user, the JWT settings |
| auth_middleware.dfy | AuthMiddleware | `authenticate`, `authorize`, `requireAdmin`, `requireCandidate` |
| auth_controller.dfy | AuthController | the seven auth handlers, as outcome functions and a `Controller` class holding the store |
| job.dfy | Jobs | `Job` row, status predicates, salary validator, `getSalaryRange`, finders, counters |
| job_application.dfy | JobApplications | statuses, guards, mutators, the unique `(jobId, candidateId)` index, status counts |
| candidate.dfy | Candidates | profile completeness, the skill-list helpers, the `beforeSave` hook |
| job_controller.dfy | JobController | listing and search filters, view counter, create, update, delete, status change |
| candidate_controller.dfy | CandidateController | profile creation and the application workflow over maps of candidates, jobs and applications |
| validation.dfy | Validation | the express-validator chains and the error reply |

## How each handler is modelled

Each handler is modelled twice:

- a pure function `XxxOutcome(state, inputs)` returns the reply together with the new state;
- a method of a `Controller` class updates the class's map fields in place, and its `ensures` ties the reply and the new fields to that function.

The lemmas state the behaviour across calls, always about the outcome functions. Examples:

- a second profile or application is refused;
- withdrawing undoes applying;
- logout revokes the refresh token;
- a rotation makes the previous token unusable.

The Sequelize instances whose methods mutate a row are classes:

- `Jobs.Instance`;
- `JobApplications.Instance`;
- `Candidates.Instance`;
- `Users.Instance`.

The environment is passed in as parameters:

- the clock as `now`;
- fresh primary keys as `freshId`;
- the JWT library as a `Library` value whose soundness is stated as a predicate;
- `isEmail` and `isURL` as predicates;
- database failures as booleans such as `storeFails`.

## Behaviour of the code worth knowing

- The withdrawal lookup is by `(id, candidateId)`, so withdrawing another candidate's application gives 404.
- Application statuses follow no fixed order of transitions:
  - `updateApplicationStatus` moves to any of the five statuses, including out of `accepted` and `rejected`;
  - the model mutators have no guard at all.
- `Job.js` declares the statuses `open`/`closed`/`draft`, while the controllers filter on and write `published`. Each file is modelled with its own vocabulary: `Jobs` uses the enum, `JobController` uses free text.
- The enums differ between `Job.js` and the validators. The validators accept no `freelance` employment type and no `junior` experience level, and accept `published` where the model declares `open`. Each file keeps its own list.
- `authenticate` checks only that the user row exists, never `is_active`.
- `login` does not check `is_active` either. An inactive account logs in.
- `forgotPassword` answers with the same message in every case, but it includes the reset token only when the email exists. This tells the caller whether the email is registered.
- The reset token is signed with the access secret. So an access token from login resets the password, and a reset token passes the `authenticate` gate.
- `register` accepts `role: "admin"` from the request body.
- Refresh tokens carry only `userId`, `iat` and `exp`. Two refreshes in the same second yield the same token, and the rotation then changes nothing.
- The password regex is anchored only at its start:
  - characters after the first may be anything, spaces included;
  - its lookaheads inspect only the first line, because `.` stops at line terminators.
- The name character class `À-ÿ` admits `×` and `÷`.
- The salary cross-check is skipped when `salaryMin` is 0 (a falsy value), so `salaryMin: 0, salaryMax: anything` passes.
- Profile completeness is 14 per filled field out of 7. It never reaches 100, and `isProfileComplete` needs 6 of the 7 fields.

## Model

| member | source | states |
|---|---|---|
| Base.IfTruthy | src/models/JobApplication.js:123-140 | the `if (x) this.f = x` idiom: the new value is taken exactly when it is truthy, otherwise the field keeps its value |
| Base.Select | src/models/Job.js:144-171 | a `where` clause keeps exactly the rows it admits and never adds one |
| Pagination.TotalPages | src/services/job-service/controllers/jobController.js:51 | `Math.ceil(count / limit)`: for a positive limit, the least n with n·limit ≥ count; for limit 0, `NaN` or `Infinity`; for a negative limit, a finite non-positive value |
| Pagination.Paginate | src/services/job-service/controllers/jobController.js:51-63 | the meta block echoes page, count and limit, carries `totalPages`, and has `hasPrevPage` exactly when page > 1 |
| Pagination.HasNextPageIffItemsRemain | src/services/job-service/controllers/jobController.js:21-62 | for a positive limit, `hasNextPage` holds exactly when rows remain after the current page's window |
| Pagination.Window | src/services/job-service/controllers/jobController.js:44-49 | LIMIT/OFFSET: at most `limit` rows, empty past the end, and row i of the page is row offset+i of the full result |
| Pagination.FirstPagesArePrefix | src/services/job-service/controllers/jobController.js:21-49 | concatenating the first k pages gives the first min(k·limit, count) rows |
| Pagination.PagesCoverItems | src/services/job-service/controllers/jobController.js:21-63 | pages 1..totalPages together return every row exactly once, in order |
| Pagination.PagesBeyondTotalAreEmpty | src/services/job-service/controllers/jobController.js:21-63 | a page number above `totalPages` yields no rows |
| Text.LineTerminatorIsSpace | src/middleware/validationMiddleware.js:24-41 | every line terminator is in JavaScript's `\s` class |
| Text.TrimStart | src/middleware/validationMiddleware.js:24 | the result is a suffix of the input, everything removed is whitespace, and the result does not start with whitespace |
| Text.TrimEnd | src/middleware/validationMiddleware.js:24 | the result is a prefix of the input, everything removed is whitespace, and the result does not end with whitespace |
| Text.Trim | src/middleware/validationMiddleware.js:24 | the trimmed text is no longer than the input and neither starts nor ends with whitespace |
| Text.TrimIsInfix | src/middleware/validationMiddleware.js:24 | the trimmed text is the slice of the input between a whitespace-only prefix and a whitespace-only suffix |
| Text.TrimIdempotent | src/middleware/validationMiddleware.js:24 | trimming twice is trimming once |
| Text.TrimStartNoop | src/middleware/validationMiddleware.js:24 | text that does not start with whitespace is unchanged by `trimStart` |
| Text.TrimEndNoop | src/middleware/validationMiddleware.js:24 | text that does not end with whitespace is unchanged by `trimEnd` |
| Text.LowerChar | src/models/Candidate.js:131-151 | a Latin-1 upper-case letter (A–Z, À–Þ except ×) maps to its lower-case partner (code + 32); every other character is unchanged |
| Text.ToLower | src/models/Candidate.js:131-151 | keeps the length and lowers each character independently, on the Latin-1 range only |
| Text.ToLowerIdempotent | src/models/Candidate.js:131-151 | lowered text has no Latin-1 upper-case letters, and lowering it again changes nothing |
| Text.EmptyIsContained | src/models/Job.js:158-171 | a `%%` pattern (empty search term) matches every text |
| Users.RoleName | src/models/User.js:31-35 | every role renders as `admin` or `candidate` |
| Users.ParseRole | src/models/User.js:31-35 | exactly the two enum texts parse, and each parses back to its own name |
| Users.ParseRoleName | src/models/User.js:31-35 | rendering then parsing a role gives the role back |
| Users.ExactlyOneRole | src/models/User.js:92-98 | `isAdmin` and `isCandidate` each match their role, and exactly one of them holds |
| Users.ToJSON | src/models/User.js:83-90 | the JSON has exactly the row's keys minus the four secret ones, with unchanged values, and includes no password digest |
| Users.ProjectionKeepsPublicColumns | src/models/User.js:83-90 | the four removed keys are columns of the row, and `email` and `role` survive the projection |
| Users.FindActiveById | src/models/User.js:105-107 | a row is found exactly when the id exists and the row is active, and the row found has that id |
| Users.CreateHook | src/models/User.js:65-69 | `beforeCreate` hashes a truthy password and leaves an empty one as it is |
| Users.UpdateHook | src/models/User.js:70-75 | `beforeUpdate` re-hashes only when `password_hash` changed, otherwise keeps the stored digest |
| Users.CreatedPasswordVerifies | src/models/User.js:65-81 | after creation, `validatePassword` accepts the chosen password and no other |
| Users.EmptyPasswordNeverVerifies | src/models/User.js:65-81 | an empty password is stored unhashed, and then no attempt validates |
| Users.UnchangedHashStillVerifies | src/models/User.js:70-81 | an update that leaves the digest alone keeps the old password valid |
| Users.Instance.Load | src/models/User.js:6-56 | a loaded instance holds the row and remembers its persisted digest |
| Users.Instance.Create | src/models/User.js:64-69 | the instance built by `create` holds the row with its password passed through `beforeCreate` |
| Users.Instance.ValidatePassword | src/models/User.js:79-81 | answers exactly the bcrypt comparison of the attempt with the stored digest |
| Users.Instance.UpdatePasswordHash | src/models/User.js:70-75 | an assignment followed by save stores the hook's result and changes no other column |
| Accounts.FindByEmail | src/models/User.js:101-103 | finds a row exactly when the email is registered, and the row found carries that email |
| Accounts.UpdateKeepsStoreOk | src/models/User.js:12-19 | an update that keeps the email keeps the store keyed and email-unique |
| Accounts.Public | src/services/auth-service/controllers/authController.js:29-30 | the user block in replies carries the row's id, email, name and role |
| Accounts.PublicHidesSecrets | src/services/auth-service/controllers/authController.js:29-30 | the user block does not depend on the password or the refresh-token slot |
| Accounts.DefaultConfigOk | src/config/config.js:25-30 | the default secrets are distinct and non-empty, and the refresh lifetime is 7 days |
| Crypto.Hash | src/models/User.js:65-75 | a digest differs from its input and records it, one round deeper |
| Crypto.CompareAcceptsOnlyTheHashedPassword | src/models/User.js:79-81 | `bcrypt.compare` accepts the hashed password and only it, never a plain text, never a digest of a digest |
| Crypto.Sign | src/services/auth-service/controllers/authController.js:68-82 | a signed token decodes to the payload with `iat` = now and `exp` = now + lifetime, and is signed with the given secret |
| Crypto.Verify | src/middleware/authMiddleware.js:20-61 | a token verifies exactly when it is non-empty, decodes and carries the secret's signature; verified claims are the decoded ones; expiry is reported only for a properly signed token |
| Crypto.SignThenVerify | src/middleware/authMiddleware.js:20-61 | a token verifies under its own secret before its expiry and is reported as expired afterwards |
| Crypto.OtherSecretRejects | src/middleware/authMiddleware.js:20-50 | a token is refused as malformed under any other secret |
| Crypto.DistinctClaimsDistinctTokens | src/services/auth-service/controllers/authController.js:146-152 | different claims give different tokens |
| AuthMiddleware.BearerToken | src/middleware/authMiddleware.js:9-18 | a token is extracted exactly when the header starts with `Bearer `, and the header is that prefix followed by the token |
| AuthMiddleware.BearerTokenOfPrefixed | src/middleware/authMiddleware.js:18 | `substring(7)` of `Bearer ` + t is t |
| AuthMiddleware.Authenticate | src/middleware/authMiddleware.js:7-63 | a missing or non-bearer header gives 401 `Token de acesso é obrigatório`; a malformed or badly signed token 401 `Token inválido`; an expired one 401 `Token expirado`; a not-yet-valid one, or a failing lookup, 500; a verified token naming no row 401 `Token inválido`; the gate passes exactly when the token verifies, the lookup does not fail and the id has a row, with `req.user` taken from the row |
| AuthMiddleware.UnknownUserIsInvalid | src/middleware/authMiddleware.js:20-31 | a verified token whose id has no row gives 401 `Token inválido` |
| AuthMiddleware.AccessTokenAdmitsOwner | src/middleware/authMiddleware.js:20-38 | a login access token admits its owner until it expires, with email, role and name from the current row |
| AuthMiddleware.AccessTokenExpires | src/middleware/authMiddleware.js:45-52 | the same token after its lifetime gives 401 `Token expirado` |
| AuthMiddleware.RefreshTokenIsNoAccessToken | src/middleware/authMiddleware.js:41-45 | a refresh token is refused as invalid at the access gate while the two secrets differ |
| AuthMiddleware.Authorize | src/middleware/authMiddleware.js:65-83 | no user gives 401; the gate passes exactly when the list is empty or holds the user's role; any other refusal is 403 `Acesso negado` |
| AuthMiddleware.RequireAdmin | src/middleware/authMiddleware.js:85-101 | passes exactly for an admin; refuses with 401 `Usuário não autenticado` without a user and with 403 `Acesso restrito a administradores` otherwise |
| AuthMiddleware.RequireCandidate | src/middleware/authMiddleware.js:103-119 | passes exactly for a candidate; refuses with 401 `Usuário não autenticado` without a user and with 403 `Acesso restrito a candidatos` otherwise |
| AuthMiddleware.GatesAgreeWithAuthorize | src/middleware/authMiddleware.js:65-119 | the two fixed gates admit the same users as `authorize` with the matching one-role list, an empty list admits every user, and no user passes both gates |
| AuthController.RegisterOutcome | src/services/auth-service/controllers/authController.js:9-46 | a failing database gives 500 with no change; then a taken email gives 400 with the store unchanged; success, exactly when the database works, the email is new and the row is valid, adds one user with the role defaulting to `candidate` and a hashed password; any other failure is 500 with no change; the store stays keyed and email-unique |
| AuthController.RegisterRoleChoice | src/services/auth-service/controllers/authController.js:11-27 | without a role the new user is a candidate, and a client asking for `admin` becomes an admin |
| AuthController.LoginOutcome | src/services/auth-service/controllers/authController.js:48-108 | a failing database gives 500; every other failure is the same 401 `Credenciais inválidas`; no failure changes anything; success, exactly when the database answers, the email exists and the password compares, returns both tokens and writes the new refresh token into that user's slot only |
| AuthController.RefreshOutcome | src/services/auth-service/controllers/authController.js:110-169 | a missing token gives 401 `Refresh token é obrigatório`; a failing database and every other failure give 401 `Refresh token inválido` with no change; success, exactly when the database works, the token verifies under the refresh secret and equals the user's stored slot, issues a new pair and stores the new refresh token |
| AuthController.LogoutOutcome | src/services/auth-service/controllers/authController.js:171-191 | a failing database gives 500 with no change; otherwise 200, clearing the caller's refresh slot and changing nothing else |
| AuthController.ChangePasswordOutcome | src/services/auth-service/controllers/authController.js:258-293 | a failing database gives 500, an unknown user 404 and a wrong current password 400, all with no change; success, exactly when the database answers and the current password compares, stores the hash of the new password and nothing else |
| AuthController.ForgotPasswordOutcome | src/services/auth-service/controllers/authController.js:295-327 | never changes the store; a failing database gives 500; otherwise 200 with the same message, and a reset token exactly when the email is registered, signed with the access secret for one hour |
| AuthController.ResetPasswordOutcome | src/services/auth-service/controllers/authController.js:329-358 | a token that does not verify under the access secret, or a failing database, gives 400 `Token inválido ou expirado`; a verified token naming no user gives 400 `Token inválido`; success, exactly when the database works and a verified token names an existing user, stores the hash of the new password for that user only; the store is otherwise unchanged |
| AuthController.LoginThenRefresh | src/services/auth-service/controllers/authController.js:78-152 | the refresh token returned by a login is accepted by `refreshToken` until it expires |
| AuthController.RotationRevokesPreviousToken | src/services/auth-service/controllers/authController.js:146-152 | after a successful refresh issued at a different second, the token just used is refused |
| AuthController.OneLiveRefreshTokenPerUser | src/services/auth-service/controllers/authController.js:117-134 | at any moment at most one refresh token per user is accepted |
| AuthController.LogoutRevokesRefresh | src/services/auth-service/controllers/authController.js:173-176 | after logout, every refresh token of that user is refused |
| AuthController.ChangePasswordKeepsSessions | src/services/auth-service/controllers/authController.js:278 | changing the password leaves an accepted refresh token accepted |
| AuthController.ChangedPasswordLogsIn | src/services/auth-service/controllers/authController.js:258-293 | after a change, login with the new password succeeds and with the old one fails |
| AuthController.ForgotThenReset | src/services/auth-service/controllers/authController.js:295-358 | the token handed out by `forgotPassword` resets the password within the hour |
| AuthController.AccessTokenResetsPassword | src/services/auth-service/controllers/authController.js:333-343 | an unexpired login access token is accepted by `resetPassword` |
| AuthController.ResetTokenAuthenticates | src/services/auth-service/controllers/authController.js:308-312 | a reset token passes the `authenticate` gate as its user |
| AuthController.InactiveAccountLogsIn | src/services/auth-service/controllers/authController.js:52-66 | a deactivated account with the right password logs in |
| AuthController.Controller.constructor | src/services/auth-service/controllers/authController.js:4-8 | an empty user store with the given JWT library and settings |
| AuthController.Controller.Register | src/services/auth-service/controllers/authController.js:9-46 | reply and new store are those of `RegisterOutcome`, the failing database included; the store invariant is kept |
| AuthController.Controller.Login | src/services/auth-service/controllers/authController.js:48-108 | reply and new store are those of `LoginOutcome` |
| AuthController.Controller.RefreshToken | src/services/auth-service/controllers/authController.js:110-169 | reply and new store are those of `RefreshOutcome`, the failing database included |
| AuthController.Controller.Logout | src/services/auth-service/controllers/authController.js:171-191 | reply and new store are those of `LogoutOutcome` |
| AuthController.Controller.ChangePassword | src/services/auth-service/controllers/authController.js:258-293 | reply and new store are those of `ChangePasswordOutcome` |
| AuthController.Controller.ForgotPassword | src/services/auth-service/controllers/authController.js:295-327 | the reply is that of `ForgotPasswordOutcome`, and the store is untouched |
| AuthController.Controller.ResetPassword | src/services/auth-service/controllers/authController.js:329-358 | reply and new store are those of `ResetPasswordOutcome`, the failing database included |
| Jobs.NewJob | src/models/Job.js:4-80 | a new row has status `open`, type `full-time`, level `mid`, no remote work, no salaries and zero counters |
| Jobs.ExactlyOneStatus | src/models/Job.js:39-120 | exactly one of `isOpen`, `isClosed`, `isDraft` holds |
| Jobs.SalaryRangeCases | src/models/Job.js:100-106 | the model validator fails only when both salaries are set; equal bounds and a missing bound pass |
| Jobs.GetSalaryRange | src/models/Job.js:122-131 | a range, "A partir de", "Até" or "Salário a combinar", according to which bounds are truthy |
| Jobs.ZeroSalaryIsUnstated | src/models/Job.js:122-131 | salaries of 0 are falsy and read as "Salário a combinar" |
| Jobs.FindOpenJobs | src/models/Job.js:144-149 | exactly the open jobs, unless the caller's `where` replaces the condition |
| Jobs.FindByCreator | src/models/Job.js:151-156 | exactly the creator's jobs, unless the caller's `where` replaces the condition |
| Jobs.SearchJobs | src/models/Job.js:158-171 | exactly the open jobs whose title, description or location contains the term ignoring case, unless a `where` replaces the condition |
| Jobs.EmptySearchListsOpenJobs | src/models/Job.js:158-171 | an empty term lists every open job |
| Jobs.OverrideAdmitsDrafts | src/models/Job.js:144-149 | because the caller's options are spread after the default, a `where` override can list a draft that the default excludes |
| Jobs.Instance.Load | src/models/Job.js:4-80 | a loaded instance holds the row |
| Jobs.Instance.IncrementViews | src/models/Job.js:133-136 | `views_count` rises by exactly 1 and nothing else changes; the save succeeds exactly when the row is valid |
| Jobs.Instance.IncrementApplications | src/models/Job.js:138-141 | `applications_count` rises by exactly 1 and nothing else changes; the save succeeds exactly when the row is valid |
| Jobs.Instance.Save | src/models/Job.js:4-106 | a save persists the row exactly when the column and model validators accept it |
| Jobs.CounterKeepsValidity | src/models/Job.js:73-80 | changing a counter never makes a valid row invalid |
| JobApplications.StatusName | src/models/JobApplication.js:32-36 | every status renders as one of the five enum texts |
| JobApplications.ParseStatus | src/models/JobApplication.js:32-36 | exactly the five enum texts parse, and each parses back to its own name |
| JobApplications.ParseStatusName | src/models/JobApplication.js:32-36 | rendering then parsing a status gives it back |
| JobApplications.NewApplication | src/models/JobApplication.js:32-65 | a new application is `pending` with no review, score, interview or rejection data, and its absent score is valid |
| JobApplications.CanBeReviewedExactly | src/models/JobApplication.js:115-117 | `canBeReviewed` holds exactly for `pending` and `reviewing` |
| JobApplications.CanScheduleInterviewExactly | src/models/JobApplication.js:119-121 | `canScheduleInterview` holds exactly for `reviewing`, so it implies `canBeReviewed` |
| JobApplications.ExactlyOneStatusPredicate | src/models/JobApplication.js:95-113 | exactly one of the five `is*` predicates holds |
| JobApplications.CountWith | src/models/JobApplication.js:146-160 | the count of a status is at most the number of rows and positive exactly when some row has it |
| JobApplications.StatusCounts | src/models/JobApplication.js:146-160 | the grouped counts list exactly the statuses present, each with its positive count |
| JobApplications.CountsAddUp | src/models/JobApplication.js:146-160 | the five counts add up to the number of applications |
| JobApplications.AppliedBetween | src/models/JobApplication.js:162-171 | exactly the applications whose `appliedAt` lies within the closed range |
| JobApplications.Instance.Load | src/models/JobApplication.js:4-93 | a loaded instance holds the row |
| JobApplications.Instance.MarkAsReviewed | src/models/JobApplication.js:123-129 | status `reviewing`, review time and reviewer set, notes replaced only when truthy, score replaced whenever one is given (0 included), nothing else changed, from any status |
| JobApplications.Instance.ScheduleInterview | src/models/JobApplication.js:131-135 | status `interview` and the date set, notes replaced only when truthy, nothing else changed, from any status |
| JobApplications.Instance.Reject | src/models/JobApplication.js:137-140 | status `rejected`, the reason replaced only when truthy, nothing else changed |
| JobApplications.Instance.Accept | src/models/JobApplication.js:142-144 | only the status changes, to `accepted` |
| JobApplications.AcceptFromPending | src/models/JobApplication.js:142-144 | `accept` from `pending` yields the row with status `accepted`: the mutators check no prior status |
| Candidates.ParseAvailability | src/models/Candidate.js:73-77 | exactly the four availability texts parse |
| Candidates.ParseWorkPreference | src/models/Candidate.js:78-82 | exactly the three work-preference texts parse |
| Candidates.CompletenessRange | src/models/Candidate.js:107-121 | completeness is 14 times a count in 0..7, so it lies in {0, 14, …, 98} and never reaches 100 |
| Candidates.CountTrueCounts | src/models/Candidate.js:114-118 | the count of filled fields is the number of `true` flags among the seven |
| Candidates.CompleteIffSixFilled | src/models/Candidate.js:123-125 | `isProfileComplete` (≥ 80) holds exactly when at least six of the seven fields are filled |
| Candidates.SkillsCountAfterAdd | src/models/Candidate.js:127-144 | after `addSkill` the skill count is one higher exactly when the skill was not listed, and unchanged otherwise |
| Candidates.SkillsCountAfterRemove | src/models/Candidate.js:127-151 | after `removeSkill` the skill count falls by the number of entries equal to the lowered skill; a null list keeps 0 |
| Candidates.WithSkill | src/models/Candidate.js:135-144 | the lowered skill is present afterwards; one entry is appended only when it was absent; the existing entries keep their order |
| Candidates.Without | src/models/Candidate.js:146-151 | a null list stays null; otherwise exactly the entries other than the lowered skill remain |
| Candidates.Drop | src/models/Candidate.js:146-151 | `filter` keeps exactly the entries other than the given one, each as often as before, and never grows |
| Candidates.AddSkillIdempotent | src/models/Candidate.js:135-144 | adding the same skill twice is adding it once |
| Candidates.AddSkillNoDuplicates | src/models/Candidate.js:135-144 | adding a skill to a list without duplicates leaves it without duplicates |
| Candidates.HasSkillAfterAdd | src/models/Candidate.js:131-144 | after `addSkill(s)`, `hasSkill(s)` holds |
| Candidates.NoSkillAfterRemove | src/models/Candidate.js:131-151 | after `removeSkill(s)`, `hasSkill(s)` does not hold |
| Candidates.RemoveUndoesAdd | src/models/Candidate.js:135-151 | removing a skill that was just added to a list lacking it gives the list back |
| Candidates.NewCandidate | src/services/candidate-service/controllers/candidateController.js:64-77 | a new profile is active, with skills defaulting to the empty list, availability to `negotiable`, work preference to `hybrid` and completeness 0 before the hook runs |
| Candidates.BareProfileScore | src/models/Candidate.js:107-121 | a profile created with nothing but its defaults scores 28: availability and work preference take their column defaults and count, the default empty skills list does not |
| Candidates.Instance.Load | src/models/Candidate.js:4-96 | a loaded instance holds the row |
| Candidates.Instance.CalculateProfileCompleteness | src/models/Candidate.js:107-121 | stores the completeness of the current row and changes nothing else |
| Candidates.Instance.AddSkill | src/models/Candidate.js:135-144 | replaces the skills by `WithSkill` of the old list and changes nothing else |
| Candidates.Instance.RemoveSkill | src/models/Candidate.js:146-151 | replaces the skills by `Without` of the old list and changes nothing else |
| Candidates.Instance.Save | src/models/Candidate.js:100-104 | every save recomputes completeness first, and the row persists exactly when it is valid |
| JobController.ListJobs | src/services/job-service/controllers/jobController.js:8-74 | exactly the rows matching status, type, level and location; without a status only `published` rows |
| JobController.SearchJobs | src/services/job-service/controllers/jobController.js:76-172 | exactly the rows matching the listing filters and the text and skills conditions, and the salary conditions whenever a bound is given (0 included), so never more than the listing |
| JobController.ListWithoutFilters | src/services/job-service/controllers/jobController.js:13-37 | with no optional filter, exactly the rows with the requested (or default) status |
| JobController.EmploymentFilterNarrows | src/services/job-service/controllers/jobController.js:23-31 | adding an employment-type filter only removes rows, and keeps exactly the rows of that type |
| JobController.GetJobByIdOutcome | src/services/job-service/controllers/jobController.js:174-206 | a failing database gives 500 and a missing id 404, both with no change; a success, exactly when neither applies, raises the job's `viewsCount` by one and replies with the stored, incremented row |
| JobController.TwoViewsCountTwice | src/services/job-service/controllers/jobController.js:186-193 | two fetches raise `viewsCount` by two |
| JobController.NewJobRow | src/services/job-service/controllers/jobController.js:219-236 | a created job belongs to the caller, has zero counters, status `draft` and no skills unless given |
| JobController.CreateJobOutcome | src/services/job-service/controllers/jobController.js:208-260 | a failing insert (database error or a validator refusing the row) or a key collision gives 500 with no change; success, exactly when neither applies, is 201 with the new row, and the store grows by exactly that row |
| JobController.Patched | src/services/job-service/controllers/jobController.js:262-299 | `update` keeps the id, an empty patch changes nothing, and the status changes exactly when given |
| JobController.UpdateJobOutcome | src/services/job-service/controllers/jobController.js:262-299 | a failing database gives 500 and a missing id 404, both with no change; otherwise 200 with the patched row, which replaces the old one and nothing else |
| JobController.UpdateCanResetCounters | src/services/job-service/controllers/jobController.js:262-299 | the update body may set the counters, so an update can zero `viewsCount` and `applicationsCount` |
| JobController.DeleteJobOutcome | src/services/job-service/controllers/jobController.js:301-328 | a failing database gives 500 and a missing id 404, both with no change; otherwise exactly that job is removed and every other row is kept |
| JobController.DeletedJobIsGone | src/services/job-service/controllers/jobController.js:301-328 | after a delete, fetching the job gives 404 |
| JobController.UpdateJobStatusOutcome | src/services/job-service/controllers/jobController.js:330-366 | a status outside {draft, published, closed} gives 400 before the database is asked; then a failing database gives 500 and a missing id 404; no failure changes anything; success changes only that job's status |
| JobController.Controller.constructor | src/services/job-service/controllers/jobController.js:3-7 | an empty job table |
| JobController.Controller.GetJobById | src/services/job-service/controllers/jobController.js:174-206 | reply and new table are those of `GetJobByIdOutcome`: the reply carries the incremented row |
| JobController.Controller.CreateJob | src/services/job-service/controllers/jobController.js:208-260 | reply and new table are those of `CreateJobOutcome`, the failing insert included |
| JobController.Controller.UpdateJob | src/services/job-service/controllers/jobController.js:262-299 | reply and new table are those of `UpdateJobOutcome` |
| JobController.Controller.DeleteJob | src/services/job-service/controllers/jobController.js:301-328 | reply and new table are those of `DeleteJobOutcome` |
| JobController.Controller.UpdateJobStatus | src/services/job-service/controllers/jobController.js:330-366 | reply and new table are those of `UpdateJobStatusOutcome` |
| CandidateController.FindProfile | src/services/candidate-service/controllers/candidateController.js:205-210 | a profile is found exactly when the user has one, and it is that user's |
| CandidateController.AppsForInsert | src/services/candidate-service/controllers/candidateController.js:245-252 | a new application adds one to its job's set of applications and leaves the other jobs' sets alone |
| CandidateController.AppsForRemove | src/services/candidate-service/controllers/candidateController.js:361-366 | removing an application takes one from its job's count only |
| CandidateController.ReplaceKeepsDbOk | src/services/candidate-service/controllers/candidateController.js:738-793 | rewriting an application in place, with the same keys and a valid score, keeps the keys, foreign keys, unique pairs and score validity |
| CandidateController.InsertKeepsDbOk | src/services/candidate-service/controllers/candidateController.js:245-252 | inserting a fresh, valid application for a new pair keeps the keys, foreign keys, unique pairs and score validity |
| CandidateController.RemoveKeepsDbOk | src/services/candidate-service/controllers/candidateController.js:361-366 | deleting an application keeps the keys, foreign keys, unique pairs and score validity |
| CandidateController.ReplaceKeepsCounters | src/services/candidate-service/controllers/candidateController.js:738-793 | rewriting an application without changing its job keeps every counter equal to its job's number of applications, if it was |
| CandidateController.InsertKeepsCounters | src/services/candidate-service/controllers/candidateController.js:245-252 | inserting an application and incrementing its job's `applicationsCount` keeps the counters right, if they were |
| CandidateController.RemoveKeepsCounters | src/services/candidate-service/controllers/candidateController.js:361-366 | deleting an application and decrementing its job's `applicationsCount` keeps the counters right, if they were |
| CandidateController.RemoveUnderflows | src/services/candidate-service/controllers/candidateController.js:361-366 | the decrement is unconditional: a counter already at 0 becomes -1 when an application to that job is withdrawn |
| CandidateController.RemoveUndoesInsert | src/services/candidate-service/controllers/candidateController.js:245-366 | inserting then removing the same application restores the tables |
| CandidateController.ProfileRow | src/services/candidate-service/controllers/candidateController.js:64-77 | the created profile belongs to the caller and carries the completeness of its own fields |
| CandidateController.CreateProfileOutcome | src/services/candidate-service/controllers/candidateController.js:38-101 | a failing database gives 500 with no change; then an existing profile gives 409 with no change; success, exactly when the database works, there is no profile, the key is fresh, the enums parse and the row is valid, adds one profile; other failures are 500 with no change; the constraints, and the counters if right, are kept |
| CandidateController.SecondProfileRefused | src/services/candidate-service/controllers/candidateController.js:40-49 | after a successful creation, a second one for the same user gives 409 |
| CandidateController.ApplyRefusal | src/services/candidate-service/controllers/candidateController.js:205-243 | the checks in their order: no profile 404, no job 404, job not `published` 400, an existing application for the pair 409; none applies exactly when the job is published and not yet applied to |
| CandidateController.ApplyToJobOutcome | src/services/candidate-service/controllers/candidateController.js:201-276 | a failing database gives 500 with no change; each refusal changes nothing; success, exactly when the database works, no refusal applies and the key is fresh, adds one `pending` application for the caller's candidate and raises that job's `applicationsCount` by one; the constraints, and the counters if right, are kept |
| CandidateController.SecondApplicationRefused | src/services/candidate-service/controllers/candidateController.js:235-243 | after a successful application, a second one to the same job gives 409 |
| CandidateController.WithdrawOutcome | src/services/candidate-service/controllers/candidateController.js:325-381 | a failing database gives 500; no profile, or an application the caller's candidate does not own, gives 404; a status other than `pending`/`reviewing` gives 400; all with no change; success deletes the application and lowers its job's counter; the counters, if right, stay right |
| CandidateController.WithdrawableIsReviewable | src/services/candidate-service/controllers/candidateController.js:354-359 | the withdraw condition is exactly the model's `canBeReviewed` |
| CandidateController.WithdrawUndoesApply | src/services/candidate-service/controllers/candidateController.js:201-381 | withdrawing the application just made succeeds and restores the tables, counters included |
| CandidateController.StatusUpdated | src/services/candidate-service/controllers/candidateController.js:738-751 | keys and the new status set; moving to `reviewing` stamps time and reviewer and takes a given score; moving to `rejected` takes a truthy reason; other fields kept |
| CandidateController.UpdateApplicationStatusOutcome | src/services/candidate-service/controllers/candidateController.js:718-767 | a status outside the five gives 400 before the database is asked; then a failing database gives 500 and a missing application 404, all with no change; success rewrites only that application as `StatusUpdated` says, from any current status; the counters, if right, stay right |
| CandidateController.AcceptedCanReturnToPending | src/services/candidate-service/controllers/candidateController.js:723-751 | an accepted application can be moved back to `pending` |
| CandidateController.StatusChangeKeepsCounters | src/services/candidate-service/controllers/candidateController.js:718-767 | a status update never touches the jobs nor adds or removes applications |
| CandidateController.ScheduleInterviewOutcome | src/services/candidate-service/controllers/candidateController.js:769-809 | a failing database gives 500, a missing application 404 and a status other than `reviewing` 400, all with no change; success sets status `interview`, the date and the notes; the counters, if right, stay right |
| CandidateController.ReviewEnablesInterview | src/services/candidate-service/controllers/candidateController.js:718-809 | after moving an application to `reviewing`, scheduling an interview succeeds |
| CandidateController.InterviewNotRescheduled | src/services/candidate-service/controllers/candidateController.js:782-787 | once scheduled, a second scheduling gives 400 |
| CandidateController.StatusUpdateData | src/services/candidate-service/controllers/candidateController.js:738-751 | the `updateData` object built field by field is exactly `StatusUpdated` |
| CandidateController.JobPatched | src/services/job-service/controllers/jobController.js:262-299 | `updateJob` on the shared tables patches the job row as the job service does and keeps the constraints |
| CandidateController.PatchCanBreakCounters | src/services/job-service/controllers/jobController.js:262-299 | an update body carrying `applicationsCount: 0` breaks the counter of a job that has applications |
| CandidateController.JobDeleted | src/models/JobApplication.js:10-17 | `deleteJob` on the shared tables removes the job row as the job service does and, by `onDelete: 'CASCADE'`, exactly the applications to it; the constraints, and the counters if right, are kept |
| CandidateController.DeletedJobTakesItsApplications | src/models/JobApplication.js:10-17 | after the cascade no application points at the deleted job, and applying to it gives 404 |
| CandidateController.Controller.constructor | src/services/candidate-service/controllers/candidateController.js:3-6 | empty profile and application tables over a given, well-keyed job table; the counters are right exactly when every job's counter is zero |
| CandidateController.Controller.CreateProfile | src/services/candidate-service/controllers/candidateController.js:38-101 | reply and new tables are those of `CreateProfileOutcome`, the failing database included; the constraints are kept, and the counters if they were right |
| CandidateController.Controller.ApplyToJob | src/services/candidate-service/controllers/candidateController.js:201-276 | reply and new tables are those of `ApplyToJobOutcome`, the failing database included; the constraints are kept, and the counters if they were right |
| CandidateController.Controller.WithdrawApplication | src/services/candidate-service/controllers/candidateController.js:325-381 | reply and new tables are those of `WithdrawOutcome`; the constraints are kept, and the counters if they were right |
| CandidateController.Controller.UpdateApplicationStatus | src/services/candidate-service/controllers/candidateController.js:718-767 | reply and new tables are those of `UpdateApplicationStatusOutcome`, the failing database included; the constraints are kept, and the counters if they were right |
| CandidateController.Controller.ScheduleInterview | src/services/candidate-service/controllers/candidateController.js:769-809 | reply and new tables are those of `ScheduleInterviewOutcome`; the constraints are kept, and the counters if they were right |
| Validation.Decimal | src/middleware/validationMiddleware.js:227-231 | an index renders as its decimal digits: they spell the number, with no leading zero |
| Validation.HandleValidationErrors | src/middleware/validationMiddleware.js:5-20 | `next` exactly when there are no errors; otherwise 400 `Dados inválidos` with one entry per error, in order, each with its path, message and value |
| Validation.Check | src/middleware/validationMiddleware.js:22-313 | one validator of a chain contributes no error when it passes and exactly its own error when it fails |
| Validation.NameAdmitsOperatorSigns | src/middleware/validationMiddleware.js:27-28 | the class `À-ÿ` admits `×` and `÷` |
| Validation.LineEnd | src/middleware/validationMiddleware.js:38-41 | the first line terminator at or after a position, or the end |
| Validation.FirstLine | src/middleware/validationMiddleware.js:38-41 | the longest prefix without a line terminator, which is where `.*` stops |
| Validation.PasswordPatternExtends | src/middleware/validationMiddleware.js:38-41 | appending anything to an accepted password keeps it accepted: the pattern has no end anchor |
| Validation.PasswordAdmitsSpaces | src/middleware/validationMiddleware.js:37-41 | `Aa1!` followed by four spaces passes both the length and the pattern |
| Validation.PasswordIgnoresLaterLines | src/middleware/validationMiddleware.js:38-41 | an upper-case letter on the second line does not satisfy the lookahead |
| Validation.PasswordErrors | src/middleware/validationMiddleware.js:37-41 | no error exactly when the text has at least 8 characters and matches the pattern; errors name the checked field |
| Validation.NameErrors | src/middleware/validationMiddleware.js:24-29 | no error exactly when the trimmed name has 2..100 characters and only letters, Latin-1 letters and whitespace |
| Validation.MissingNameReportedTwice | src/middleware/validationMiddleware.js:24-29 | a missing name yields both the length error and the letters error, since the chain does not stop at the first failure |
| Validation.ValidateRegister | src/middleware/validationMiddleware.js:22-50 | no error exactly when name, email, password and the optional role all pass their rules |
| Validation.RegisterErrorFields | src/middleware/validationMiddleware.js:22-50 | every register error concerns name, email, password or role |
| Validation.ValidateChangePassword | src/middleware/validationMiddleware.js:120-140 | no error exactly when the current password is given and the new one passes the password rule and differs from it; errors concern only those two fields |
| Validation.SamePasswordRefused | src/middleware/validationMiddleware.js:131-136 | a new password equal to the current one is reported |
| Validation.ValidateResetPassword | src/middleware/validationMiddleware.js:154-168 | no error exactly when the token is non-empty and the new password passes the password rule |
| Validation.ChangeImpliesResetRules | src/middleware/validationMiddleware.js:120-168 | a new password accepted by the change rules is accepted by the reset rules |
| Validation.SkillItemErrors | src/middleware/validationMiddleware.js:227-231 | no error exactly when every skill, trimmed, has 2..50 characters; at most one error per item |
| Validation.SalaryAndSkillErrors | src/middleware/validationMiddleware.js:200-231 | no error exactly when the salary bounds, the cross-check and the skill rules hold |
| Validation.TextErrors | src/middleware/validationMiddleware.js:172-190 | an omitted optional field passes; otherwise no error exactly when the trimmed text is within the bounds |
| Validation.EnumErrors | src/middleware/validationMiddleware.js:192-198 | an omitted optional field passes; otherwise no error exactly when the text is one of the listed values |
| Validation.JobTextErrors | src/middleware/validationMiddleware.js:172-198 | no error exactly when the four text fields and the two enums pass |
| Validation.ValidateJobCreate | src/middleware/validationMiddleware.js:170-235 | no error exactly when all required text and enum fields pass and the salary and skills rules hold |
| Validation.ValidateJobUpdate | src/middleware/validationMiddleware.js:237-313 | no error exactly when every given field passes the same rule as on creation and a given status is one of the three |
| Validation.EmptyBodies | src/middleware/validationMiddleware.js:170-313 | an empty update passes, an empty creation does not |
| Validation.CreateRulesImplyUpdateRules | src/middleware/validationMiddleware.js:170-313 | a body accepted on creation, with a valid or absent status, is accepted on update |
| Validation.SalaryBoundsQuirks | src/middleware/validationMiddleware.js:205-214 | equal bounds pass; a minimum of 0 disables the cross-check; a maximum below a positive minimum is reported |
| Validation.TooManySkills | src/middleware/validationMiddleware.js:216-225 | more than 20 skills are reported |

## Left out

- HTTP and ORM wiring (Express routing, middleware order, helmet, CORS, rate limiting, database connections, associations and `server.js`) is not modelled. Each handler is reduced to its reply (status code, message and data) and its effect on the tables.
- Logging (`console.error`) is not modelled.
- Concurrency is not modelled. Two requests interleaving between a check and a write are outside the model, so each handler runs atomically.
- Exceptions thrown by the database become a `storeFails` input of every handler that reaches the database, or a failing save (`Option` results). Each leads to the reply of that handler's `catch`: 500 in most handlers, 401 `Refresh token inválido` in `refreshToken`, 400 `Token inválido ou expirado` in `resetPassword`. Which SQL errors occur is not modelled.
- JobController.CreateJobOutcome: a model validator refusing the new row and a database error both throw inside `Job.create` and reach the same 500, so they are one input, `storeFails`. Which validator refused is not modelled.
- bcrypt is symbolic: salts, cost factors and the 72-byte input limit are not modelled.
- jsonwebtoken's cryptography and encoding are an abstract `Library` value. Only the outcome classes it reports (malformed or badly signed, expired, not yet valid) are modelled.
- The clock is a parameter. The text forms of lifetimes (`1h`, `7d`) are given as seconds.
- `config.js`'s reading of environment variables is not modelled; the JWT settings are a parameter, with the defaults as a constant.
- Dates do not carry the ISO 8601 parsing of `isISO8601`, and the age checks of the profile validators are not modelled.
- `isEmail`, `isURL` and `normalizeEmail` are parameters. Their definitions belong to the validator library.
- `parseInt` is modelled only on numeric input. The pagination arithmetic takes page and limit as integers, so a non-numeric query string (`NaN` pages) is not modelled.
- Floating-point salaries, `toFixed` and `DECIMAL` columns are not modelled. Salaries are integers.
- Explicit JSON `null` in the body is not modelled. A field is given or absent: `Option`.
- A `skills` value that is not an array is not modelled, so the `isArray` check always passes. Skill items are text.
- A non-numeric salary is not modelled, so `isNumeric` always passes.
- The JSON rendering of a validation error's `value` is not modelled. As in express-validator, the model reports the value after the chain's `trim`.
- `iLike` patterns: the search term is taken literally. `%` and `_` typed by the user keep their SQL wildcard meaning in the source.
- The ordering of list results (`ORDER BY createdAt DESC`) is not modelled. Listing and search are stated as the set of rows they keep.
- JobApplications.AppliedBetween: the source orders the applications by `appliedAt`, newest first; the model keeps the input order and states only which applications are kept.
- Listing in `Jobs.FindOpenJobs`, `Jobs.FindByCreator` and `Jobs.SearchJobs` is modelled only through the `where` option. Other `findAll` options (order, limit, include) are not modelled.
- The services share one database. `JobController.Controller` holds the `Job` table on its own, for the job service's handlers. `CandidateController.Db` holds the three tables together, and the job service's writes to them are the transitions `JobPatched` and `JobDeleted`. `JobDeleted` applies `onDelete: 'CASCADE'` from `JobApplication.jobId`. The cascade from `Candidate.userId` to users is not modelled, because no modelled handler deletes a user.
- The counters (`applicationsCount` equal to the number of applications) are not required by any handler, because `updateJob` can break them (`PatchCanBreakCounters`). The handlers keep them when they hold.
- A database that fails after a partial write is not modelled. For example, `withdrawApplication` could fail after the `destroy` but before the decrement. A failing database (`storeFails`) is a failure of its first call, before anything is written.
- JobController.SearchMatches: the query's salary bounds are given as numbers. An empty or non-numeric `salaryMin`/`salaryMax` query text is not modelled. Every given bound counts as truthy, as any non-empty query text does in the source, so `salaryMin=0` still adds its condition.
- Jobs.Instance.Save, Jobs.Instance.IncrementViews, Jobs.Instance.IncrementApplications and Candidates.Instance.Save validate and write the whole row. Sequelize's `save` on a loaded instance runs the column validators only on the changed attributes (the model validator `salaryRange` always runs) and writes only the changed columns. The two agree when the loaded row was valid, which `Jobs.CounterKeepsValidity` shows for the counters; a row stored invalid by other means is not modelled.
- Candidates.Instance.AddSkill: on a non-null list the source pushes onto the array in place, which Sequelize does not mark as changed, so a later `save` may not write the new skill. The model treats the list as a value that is assigned, so it always counts as changed. A null list is replaced by a new array and is marked changed in the source too.
- Attribute names: `User.js` declares `password_hash` and no `password` or `refreshToken` attribute, while `authController.js` writes `password` and `refreshToken`; `Job.js` declares `salary_min` and `views_count`, while `jobController.js` uses `salaryMin` and `viewsCount`. Each side is modelled with its own names (`Users` and `Jobs` with the model files' columns, `AuthController` and `JobController` with the controllers' attributes). What those controllers do against `User.js` and `Job.js` as written (attributes that Sequelize would not persist) is not modelled.
- Validation.LengthIn and Jobs.Valid count every character of the text. validator.js's `isLength` leaves U+FE0E and U+FE0F (variation selectors) out of the count, and Sequelize's `len` uses the same function; text holding them is not modelled.
- Text.ToLower: only Latin-1 upper-case letters are lowered (A–Z and À–Þ except ×), not all of Unicode's case mappings. The same holds for Text.LowerChar, Text.ToLowerIdempotent and the skill members built on them (Candidates.WithSkill, Candidates.Without, Candidates.HasSkill).
- `getJobStats`, `getJobApplications`, `getProfile`, `updateProfile`, `getMyApplications`, `getApplicationById`, `getRecommendedJobs`, `getCandidateStats`, `getAllCandidates`, `searchCandidates`, `getCandidateById`, `getCandidateApplications` and `getAdminStats` are read-only or profile-editing handlers outside this core. Their pagination follows `Pagination` exactly.
- `validateLogin`, `validateRefreshToken`, `validateForgotPassword`, `validateProfileUpdate` and the profile validators are not part of this model.
- CandidateController.Controller.constructor: the job table is given from outside, because the candidate service reads jobs that the job service owns.
