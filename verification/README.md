# WorkSync client core, modelled in Dafny

WorkSync is a freelance marketplace with a React front end and an Ethereum back end. The
escrow contract that back end would run is not part of this model. What is modelled is
the client's own logic, which in the shipped configuration never reaches a chain.

- **The provider's mock-mode ledger** (`Web3Context`). Mock mode is always on, so registering,
  posting a job, applying and loading the user read and write a local key-value store. That
  store holds one user record per account under `user_<account>`, an ordered job list and an
  ordered application list. The model is a class, `Web3Context.Provider`, whose methods update
  those fields.
- **The access and role rules.** This covers the route guard's decision table, the ordered
  submit checks of the post-job page and of the apply modal, and the role-dependent
  navigation links.
- **The list and string operations.** These are:
  - the job search and category filter;
  - skill-tag add and remove;
  - comma-separated skill parsing;
  - the recent-searches list;
  - the counting and slicing of the two dashboards;
  - the helpers: address and text truncation, relative times, deadlines, e-mail validation
    and colour tables.

The pages whose handlers change component state step by step are classes whose methods have
`modifies` clauses. Examples are `PostJob.PostJobPage`, `JobModal.JobModalState`,
`JobsPage.JobsPageState`, `ProfilePage.ProfilePageState`, both dashboards and the
local-storage hooks. The decision tables and list transformations they use are functions, and
lemmas state the properties of those functions.

**Role codes are kept as the code has them.** The registration form stores the *numbers* 0, 1
and 2 (`clients/src/pages/Register.jsx:16`, `:176-206`). The provider stores that record
verbatim. Every guard, however, compares with the *strings* "0", "1" and "2" using `===`.
`Records.RoleCode` therefore keeps numeric and string codes apart, and every guard is
modelled with the strict comparison. The consequences are stated as lemmas about the code as
written:

- a numerically coded freelancer passes the post-job check (`PostJob.NumericFreelancerPassesGuard`);
- a numerically coded client passes the apply check (`JobModal.NumericClientPassesGuard`);
- the route guard reads every numeric code as "both" (`ProtectedRoute.NumericCodeReadsAsBoth`);
- the dashboard page runs neither of its branches for a numeric code (`DashboardPage.NumericCodeDashboard`);
- the navigation bar offers no Post Job link for a numeric code and shows the plain icon (`Navigation.NumericCodeNavigation`);
- the profile page labels a numeric freelancer "Freelancer" but hides the hourly rate (`ProfilePage.NumericFreelancerProfile`).

Object lookups such as `USER_TYPES[code]` coerce their key to text, so they do find the role of
a numeric code (`Constants.UserTypeNameAgreesWithRole`).

Other conventions of the model:
- Times are whole numbers. "Now" (`Date.now()`) is a parameter in milliseconds, and job and
  application ids, which are `Date.now()`, come from it.
- Reads from a live contract are parameters. `None` stands for a read that throws.
- Only ASCII letters are lower-cased.
- Strings are sequences of Unicode scalar values, so lengths count characters rather than UTF-16 code units.
- White space is the ECMAScript white-space and line-terminator set.
- Dafny's `/` agrees with `Math.floor(x / n)` for positive `n`.

Modules: `Wrappers`, `Seqs` (filters, subsequences, counts), `Js` (the JavaScript string and
number built-ins used), `Records` (record shapes), `Constants` (the constants tables), then one
module per source file.

## Model

| member | source | states |
|---|---|---|
| Js.Trim | clients/src/pages/PostJob.jsx:75 | the `trim()` result sits inside the input with only white space before and after it, and starts and ends with a non-space character |
| Js.TrimEmptyIffAllSpace | clients/src/components/JobModal.jsx:31 | the trim is empty exactly when every character is white space |
| Js.TrimOfTrimmed | clients/src/pages/Profile.jsx:121 | a string that starts and ends with a non-space character is its own trim |
| Js.ToLowerIdempotent | clients/src/pages/Jobs.jsx:49 | lower-casing twice is lower-casing once |
| Js.SplitJoin | clients/src/pages/Profile.jsx:119-122 | splitting the comma-join of comma-free pieces on "," gives the pieces back |
| Js.SlicePrefix | clients/src/utils/helpers.js:105 | `slice(0, n)` keeps the first `n` characters, or all of a shorter string |
| Js.SliceSuffix | clients/src/utils/helpers.js:105 | `slice(-n)` keeps the last `n` characters, or all of a shorter string |
| Js.NatToStringInjective | clients/src/pages/Jobs.jsx:150-152 | different counts print as different decimal texts |
| Js.ReadNumberBack | clients/src/pages/Jobs.jsx:150-152 | a number printed between a prefix and a text starting with a space reads back: the digits up to the first space denote it, and the rest follows unchanged |
| Constants.JobCategoryName | clients/src/utils/constants.js:2-19 | a category name exactly for the keys "0" to "15" |
| Constants.JobStatusName | clients/src/utils/constants.js:21-28 | a status label exactly for the keys "0" to "5" |
| Constants.NetworkLabel | clients/src/utils/constants.js:36-45 | a label exactly for the ids 1, 3, 4, 5, 137, 80001, 56 and 97 |
| Constants.UserTypeName | clients/src/utils/constants.js:30-34 | `USER_TYPES[code]` is defined exactly when the code's key text is "0", "1" or "2" |
| Constants.PropertyKeyOfNumber | clients/src/utils/constants.js:30-34 | only the numbers 0, 1 and 2 print as the keys "0", "1" and "2" |
| Constants.UserTypeNameAgreesWithRole | clients/src/utils/constants.js:30-34 | the label table names the role of a numeric or string code alike, and nothing else |
| Constants.RoleOf | clients/src/pages/Register.jsx:176-206 | a freelancer code, numeric 1 or string "1", stands for the Freelancer role |
| Constants.SupportedNetworksLabelled | clients/src/utils/constants.js:36-47 | every supported network has a label; the two BSC networks are labelled but unsupported |
| Web3Context.MockMode | clients/src/context/Web3Context.jsx:25 | mock mode is on whatever the environment flag says |
| Web3Context.UserKey | clients/src/context/Web3Context.jsx:218 | the store key `user_<account>`; `UserKeyInjective` proves distinct accounts get distinct keys |
| Web3Context.UserKeyInjective | clients/src/context/Web3Context.jsx:218 | different accounts have different `user_<account>` keys |
| Web3Context.NewUserRecord | clients/src/context/Web3Context.jsx:304-308 | the stored record is the submitted data, registered, with the account as address and the submitted code unchanged |
| Web3Context.NewJob | clients/src/context/Web3Context.jsx:347-355 | the new job has id now, the poster as client, status "0", createdAt in whole seconds, no applicants and the form's budget and skills |
| Web3Context.ApplicantName | clients/src/context/Web3Context.jsx:407 | `user?.name \|\| "Unknown"` is never empty and is the user's name when it has one |
| Web3Context.NewApplication | clients/src/context/Web3Context.jsx:403-411 | the application carries the job id, the account as freelancer, the proposal and status "pending" |
| Web3Context.AddApplicant | clients/src/context/Web3Context.jsx:419-424 | only the applicants field changes, gaining the application at its end |
| Web3Context.WithApplicant | clients/src/context/Web3Context.jsx:418-426 | same length and order; a job with the id gains the application, every other job is unchanged |
| Web3Context.WithApplicantNoMatch | clients/src/context/Web3Context.jsx:418-426 | when no job has the id, the job list is unchanged |
| Web3Context.WithApplicantKeepsIds | clients/src/context/Web3Context.jsx:418-426 | every job keeps its id and a matching job gains exactly one applicant |
| Web3Context.LoadedUser | clients/src/context/Web3Context.jsx:217-224 | the stored record when there is one, else an unregistered record for the account |
| Web3Context.Provider.constructor | clients/src/context/Web3Context.jsx:18-20 | no account, no user and no contract, over whatever the store holds |
| Web3Context.Provider.LoadUserData | clients/src/context/Web3Context.jsx:215-224 | the user becomes the loaded record; the store and account are unchanged |
| Web3Context.Provider.ConnectAccount | clients/src/context/Web3Context.jsx:187-192 | the account is set, the mock contract installed and the user loaded |
| Web3Context.Provider.HandleAccountsChanged | clients/src/context/Web3Context.jsx:248-258 | an empty list clears account and user; otherwise the first account is set and its user loaded only if a contract is in scope |
| Web3Context.Provider.DisconnectWallet | clients/src/context/Web3Context.jsx:291-295 | account and user are cleared; the store keeps everything |
| Web3Context.Provider.RefreshUserData | clients/src/context/Web3Context.jsx:464-468 | a connected account's user is reloaded; otherwise nothing changes |
| Web3Context.Provider.RegisterUser | clients/src/context/Web3Context.jsx:297-313 | no account: fails with the connect message and stores nothing; else the record overwrites the account's key, with no already-registered check, and becomes the user |
| Web3Context.Provider.PostJob | clients/src/context/Web3Context.jsx:339-361 | no account: fails and changes nothing; else exactly the new job is appended, earlier jobs unchanged in order, and its id returned |
| Web3Context.Provider.ApplyForJob | clients/src/context/Web3Context.jsx:392-430 | no account: fails and changes nothing; else one pending application is appended and added to every job with that id, with no status, role or duplicate check |
| Web3Context.Provider.GetAllJobs | clients/src/context/Web3Context.jsx:447-451 | the stored job list |
| Web3Context.RegisterThenReconnect | clients/src/context/Web3Context.jsx:291-313 | registering, disconnecting and reconnecting the same account brings back the registered record |
| Web3Context.PostThenApply | clients/src/context/Web3Context.jsx:340-427 | posting and then applying to the new job leaves earlier jobs unchanged and the new job with exactly that one application |
| ProtectedRoute.RouteRole | clients/src/components/ProtectedRoute.js:38-43 | "client" exactly for the string "0", "freelancer" exactly for the string "1", "both" otherwise |
| ProtectedRoute.Decide | clients/src/components/ProtectedRoute.js:8-57 | spinner while loading, whatever else holds; then the connect redirect, the register redirect and the permission redirect in that order; renders exactly when every check passes and no already-registered redirect applies |
| ProtectedRoute.DecideDefault | clients/src/components/ProtectedRoute.js:10-12 | with the defaults, an unconnected user goes to "/" and the page renders exactly for a connected registered user |
| ProtectedRoute.BothAdmitsEveryRole | clients/src/components/ProtectedRoute.js:45-48 | a role list containing "both", as the post-job route's does, admits every registered user and never redirects for permission |
| ProtectedRoute.RoleCheckDecides | clients/src/components/ProtectedRoute.js:37-48 | without "both", a listed role renders and an unlisted one is sent to "/dashboard" |
| ProtectedRoute.EmptyRolesNoCheck | clients/src/components/ProtectedRoute.js:37 | an empty role list decides as if every role were allowed |
| ProtectedRoute.RegisterRouteDecides | clients/src/components/ProtectedRoute.js:51-56 | without requireAuth, a connected registered user goes to "/dashboard" and everyone else sees the page |
| ProtectedRoute.NumericCodeReadsAsBoth | clients/src/components/ProtectedRoute.js:38-43 | every numeric code reads as "both" |
| PostJob.WithField | clients/src/pages/PostJob.jsx:67-72 | only the named field takes the value; the other fields and the tags are unchanged |
| PostJob.WithSkill | clients/src/pages/PostJob.jsx:74-83 | an accepted input (non-empty trim, not yet a tag) appends its trim; otherwise the list is unchanged |
| PostJob.WithSkillKeepsTagsClean | clients/src/pages/PostJob.jsx:76 | adding a tag keeps the list free of duplicates and never adds an empty tag |
| PostJob.AddAllNoDuplicates | clients/src/pages/PostJob.jsx:76 | any series of adds from a duplicate-free list, the empty one included, leaves no duplicates |
| PostJob.WithoutSkill | clients/src/pages/PostJob.jsx:85-90 | every copy of the tag is gone, every other tag remains and nothing new appears |
| PostJob.WithoutSkillOrdered | clients/src/pages/PostJob.jsx:88 | removal keeps the remaining tags in order and keeps a duplicate-free list duplicate-free |
| PostJob.AddThenRemove | clients/src/pages/PostJob.jsx:74-90 | removing a tag right after adding it gives back the earlier list |
| PostJob.SubmitGuard | clients/src/pages/PostJob.jsx:27-45 | connect, register, clients-only (string "1") and at-least-one-skill checks in that order, each failing check giving its own message; the job is posted exactly when all pass |
| PostJob.NumericFreelancerPassesGuard | clients/src/pages/PostJob.jsx:37 | a freelancer whose record holds the number 1 passes the clients-only check |
| PostJob.ClassifyPostError | clients/src/pages/PostJob.jsx:55-61 | "User rejected" wins, then "insufficient funds"; the generic text is given exactly when neither occurs |
| PostJob.RejectionWinsOverFunds | clients/src/pages/PostJob.jsx:55-58 | any message containing "User rejected" is reported as a rejection |
| PostJob.PageView | clients/src/pages/PostJob.jsx:100-130 | the form is shown exactly to a registered user whose code is not the string "1" |
| PostJob.PostJobPage.constructor | clients/src/pages/PostJob.jsx:11-20 | the empty form with category "0", an empty skill input, not loading |
| PostJob.PostJobPage.HandleChange | clients/src/pages/PostJob.jsx:67-72 | the form becomes `WithField` of the old form; nothing else changes |
| PostJob.PostJobPage.SetSkillInput | clients/src/pages/PostJob.jsx:19 | the skill input takes the typed text; nothing else changes |
| PostJob.PostJobPage.AddSkill | clients/src/pages/PostJob.jsx:74-83 | the tags become `WithSkill`; the input is cleared when the tag is accepted and kept when it is rejected |
| PostJob.PostJobPage.RemoveSkill | clients/src/pages/PostJob.jsx:85-90 | the tags become `WithoutSkill`; nothing else changes |
| PostJob.PostJobPage.HandleSubmit | clients/src/pages/PostJob.jsx:24-65 | a failed check shows its message and posts nothing; otherwise exactly the form's job is appended to the ledger, the page goes to "/dashboard" and loading ends false |
| PostJob.PostOneTag | clients/src/pages/PostJob.jsx:24-83 | typing a title, adding a tag and submitting as a client posts one job with that title and tag |
| JobModal.ApplyGuard | clients/src/components/JobModal.jsx:16-34 | contract/account, register, freelancers-only (string "0") and blank-proposal checks in that order, each failing check giving its own message; sends exactly when all pass |
| JobModal.BlankProposalRefused | clients/src/components/JobModal.jsx:31-34 | a proposal of white space only is refused, with "Please write a proposal" once the earlier checks pass |
| JobModal.NumericClientPassesGuard | clients/src/components/JobModal.jsx:26 | a client whose record holds the number 0 passes the freelancers-only check |
| JobModal.FailureNotice | clients/src/components/JobModal.jsx:47 | the error message when it has one, else the default text; never empty |
| JobModal.Renders | clients/src/components/JobModal.jsx:53-56 | drawn exactly when there is a job and the modal is open |
| JobModal.JobModalState.constructor | clients/src/components/JobModal.jsx:10-12 | empty proposal, not loading, open as the parent says |
| JobModal.JobModalState.SetProposal | clients/src/components/JobModal.jsx:11 | the proposal takes the typed text; nothing else changes |
| JobModal.JobModalState.HandleApply | clients/src/components/JobModal.jsx:15-51 | a failed check sends nothing; otherwise the untrimmed proposal is sent for the job's id from the account; success closes the modal and clears the proposal, failure keeps it; loading ends false |
| JobModal.RetryAfterFailure | clients/src/components/JobModal.jsx:36-50 | a failed send keeps the proposal, so a retry sends the same application |
| JobsPage.PostedOnly | clients/src/pages/Jobs.jsx:33-35 | exactly the jobs with status "0" or no status are kept, in their order and as many as there are |
| JobsPage.IsOpen | clients/src/pages/Jobs.jsx:34 | posted (status "0") or without a status; `PostedOnly` keeps exactly these |
| JobsPage.MatchesSearch | clients/src/pages/Jobs.jsx:49-57 | the lower-cased title or description contains the term, or a tag of a tag array does; `SearchIgnoresCase` proves the term's case is irrelevant |
| JobsPage.InCategory | clients/src/pages/Jobs.jsx:61 | the job's category equals the selected one; `CategoryOnly` proves a category alone keeps exactly these |
| JobsPage.Filtered | clients/src/pages/Jobs.jsx:45-65 | `filterJobs` as a value, never longer than the loaded list; `FilteredMembers` and `FilteredIsSubsequence` characterise it |
| JobsPage.FilteredMembers | clients/src/pages/Jobs.jsx:45-65 | a job is shown exactly when it is loaded and passes the search and category tests |
| JobsPage.FilteredIsSubsequence | clients/src/pages/Jobs.jsx:45-65 | the shown jobs are a subsequence of the loaded ones, in their order |
| JobsPage.NoFiltersShowAll | clients/src/pages/Jobs.jsx:48-62 | with no term and no category every loaded job is shown |
| JobsPage.CategoryOnly | clients/src/pages/Jobs.jsx:60-62 | with no term, a category keeps exactly its jobs |
| JobsPage.SearchIgnoresCase | clients/src/pages/Jobs.jsx:49-56 | a term and its lower-cased form show the same jobs |
| JobsPage.ResultCountText | clients/src/pages/Jobs.jsx:148-152 | "No jobs found" exactly for zero; otherwise "Showing " followed by digits that read back as the count, then " job", or " jobs" exactly when the count is not 1 |
| JobsPage.ResultCountTextInjective | clients/src/pages/Jobs.jsx:148-152 | different counts give different lines |
| JobsPage.JobsPageState.constructor | clients/src/pages/Jobs.jsx:12-16 | no jobs, loading, empty term and category |
| JobsPage.JobsPageState.FilterJobs | clients/src/pages/Jobs.jsx:45-65 | the shown list becomes `Filtered` of the loaded jobs; nothing else changes |
| JobsPage.JobsPageState.LoadJobs | clients/src/pages/Jobs.jsx:29-42 | the open jobs of the provider are loaded, the filter re-runs and loading ends false |
| JobsPage.JobsPageState.SetSearchTerm | clients/src/pages/Jobs.jsx:25-27 | the term changes and the filter re-runs |
| JobsPage.JobsPageState.SetCategory | clients/src/pages/Jobs.jsx:25-27 | the category changes and the filter re-runs |
| JobsPage.JobsPageState.ClearFilters | clients/src/pages/Jobs.jsx:153-158 | both filters are emptied, so every loaded job is shown |
| LocalStorage.InitialState | clients/src/hooks/useLocalStorage.js:10-11 | the stored entry when present, else the initial value |
| LocalStorage.StoredValue.constructor | clients/src/hooks/useLocalStorage.js:5-16 | the hook's state starts as `InitialState` |
| LocalStorage.StoredValue.SetValue | clients/src/hooks/useLocalStorage.js:19-33 | state and entry both take the value; no other entry changes |
| LocalStorage.StoredValue.Update | clients/src/hooks/useLocalStorage.js:22-29 | the function is applied to the current state, and state and entry get the same result |
| LocalStorage.StoredValue.RemoveValue | clients/src/hooks/useLocalStorage.js:36-45 | the state returns to the initial value and the entry is deleted |
| LocalStorage.StoredValue.OnStorageEvent | clients/src/hooks/useLocalStorage.js:49-59 | only an event for this key with a value replaces the state |
| LocalStorage.WriteThenReopen | clients/src/hooks/useLocalStorage.js:10-29 | a value written through the hook is read back by a new hook on the same key |
| LocalStorage.AddSearch | clients/src/hooks/useLocalStorage.js:102-107 | the search first, no other copy of it, the rest from the earlier list; the length is one more than the number of other entries, capped at ten |
| LocalStorage.AddSearchKeepsOrder | clients/src/hooks/useLocalStorage.js:104-105 | the entries after the search keep their earlier relative order |
| LocalStorage.AddSearchKeepsRecent | clients/src/hooks/useLocalStorage.js:104-105 | an earlier entry other than the search with fewer than nine other entries before it survives, placed right after those entries: the nine most recent others are kept |
| LocalStorage.AddSearchIdempotent | clients/src/hooks/useLocalStorage.js:103-106 | adding the same search twice gives the list of adding it once |
| LocalStorage.AddSearchNoDuplicates | clients/src/hooks/useLocalStorage.js:104-105 | a list without repeats stays without repeats |
| LocalStorage.RecentSearches.constructor | clients/src/hooks/useLocalStorage.js:100 | the hook on key "recentSearches" with the empty list as initial value |
| LocalStorage.RecentSearches.Add | clients/src/hooks/useLocalStorage.js:102-107 | the stored list becomes `AddSearch` of the previous one |
| LocalStorage.RecentSearches.Clear | clients/src/hooks/useLocalStorage.js:109-111 | the stored list becomes empty |
| Helpers.TruncateAddress | clients/src/utils/helpers.js:103-106 | "" for a missing or empty address, else the first `length` characters, "..." and the last four |
| Helpers.TruncateAddressShape | clients/src/utils/helpers.js:103-106 | an address of ten or more characters shortens to thirteen, starting with its first six |
| Helpers.TruncateText | clients/src/utils/helpers.js:108-111 | "" for missing text, the text when within the limit, else its first `length` characters and "..." |
| Helpers.TruncateTextBound | clients/src/utils/helpers.js:108-111 | the result is never longer than the limit plus three |
| Helpers.UnitChain | clients/src/utils/helpers.js:62-67 | the chained floored divisions equal one division by the unit's milliseconds |
| Helpers.FormatTimeAgo | clients/src/utils/helpers.js:57-75 | the largest unit (years of 12 months, months of 30 days, days, hours, minutes) whose count is positive, plural above 1, else "Just now" |
| Helpers.JustNowIffUnderAMinute | clients/src/utils/helpers.js:69-74 | "Just now" exactly when less than a minute has passed |
| Helpers.FutureIsJustNow | clients/src/utils/helpers.js:60-74 | a timestamp in the future reads "Just now" |
| Helpers.FormatDeadline | clients/src/utils/helpers.js:88-101 | "Expired" exactly for a past deadline; else days left, hours left or "Less than 1 hour left", in that precedence |
| Helpers.ValidateEmail | clients/src/utils/helpers.js:113-116 | accepts exactly the strings matching the pattern: plain local part, "@", plain run, ".", plain run |
| Helpers.EmailPatternIff | clients/src/utils/helpers.js:114 | the pattern holds exactly when there is no space, exactly one "@" after the first character, and a "." in the domain that is neither its first nor its last character |
| Helpers.PatternGivesChecks | clients/src/utils/helpers.js:114 | a string matching the pattern passes every check |
| Helpers.ChecksGivePattern | clients/src/utils/helpers.js:114 | a string passing every check matches the pattern |
| Helpers.JobStatusColor | clients/src/utils/helpers.js:131-144 | a non-grey colour exactly for the six status labels |
| Helpers.StatusLabelsColoured | clients/src/utils/helpers.js:131-144 | every status label is coloured, while a raw status code gets grey |
| Helpers.UserTypeColor | clients/src/utils/helpers.js:146-154 | a non-grey colour exactly for the three role labels |
| Helpers.RoleColoursDistinct | clients/src/utils/helpers.js:146-154 | the three role labels have three different colours |
| DashboardPanel.ComputeStats | clients/src/components/Dashboard.jsx:54-68 | total is the sum of both lengths; active ("1"/"2") and completed ("3") are counted over both lists and never exceed the total; pending is the number of the user's own jobs with status "0" |
| DashboardPanel.PendingIgnoresFreelancerJobs | clients/src/components/Dashboard.jsx:66-67 | the freelancer jobs never change the pending count |
| DashboardPanel.RecentJobs | clients/src/components/Dashboard.jsx:71 | the last up-to-five jobs, newest first |
| DashboardPanel.StatusColor | clients/src/components/Dashboard.jsx:170-185 | grey for anything but "0" to "4" |
| DashboardPanel.StatusColorsDistinct | clients/src/components/Dashboard.jsx:170-185 | the five codes have five different non-grey colours, and "5" gets grey |
| DashboardPanel.ExpertHint | clients/src/components/Dashboard.jsx:404 | the hint and the reputation add up to 5000 |
| DashboardPanel.RisingStarNearExpert | clients/src/components/Dashboard.jsx:362-404 | a rising star is at most 3500 points from expert; without a reputation the hint is 5000 |
| DashboardPanel.Reputation | clients/src/components/Dashboard.jsx:389 | the user's reputation, or 0 when there is no user or no reputation |
| DashboardPanel.JobMaster | clients/src/components/Dashboard.jsx:351 | the badge shows from five completed jobs; `JobMasterRule` ties it to the jobs |
| DashboardPanel.JobMasterRule | clients/src/components/Dashboard.jsx:351 | the "Job Master" badge shows exactly when the posted and worked-on jobs together hold at least five with status "3" |
| DashboardPanel.RisingStar | clients/src/components/Dashboard.jsx:362 | a present reputation of at least 1500; `RisingStarNearExpert` bounds the hint for it |
| DashboardPanel.DashboardPanelState.constructor | clients/src/components/Dashboard.jsx:24-33 | zero statistics, no recent jobs, loading |
| DashboardPanel.DashboardPanelState.LoadDashboardData | clients/src/components/Dashboard.jsx:43-77 | successful reads set `ComputeStats` and `RecentJobs`; a throwing read changes neither; loading ends false |
| DashboardPanel.DashboardPanelState.OnContext | clients/src/components/Dashboard.jsx:37-41 | with both a contract and an account, a successful read sets `ComputeStats` and `RecentJobs` and loading ends false; otherwise nothing changes |
| DashboardPanel.MockPanel | clients/src/components/Dashboard.jsx:48-51 | against the mock contract, whose missing `getUserJobs` makes the read throw, the panel keeps zero statistics |
| DashboardPage.ClientJobs | clients/src/pages/Dashboard.jsx:54-56 | the filter throws exactly when some job has no client, or when there is no account and any job; otherwise it keeps the account's jobs in order |
| DashboardPage.ClientJobsAreTheAccounts | clients/src/pages/Dashboard.jsx:54-56 | the kept jobs are a subsequence of all jobs and are exactly those whose client matches the account |
| DashboardPage.ClientMatchIgnoresCase | clients/src/pages/Dashboard.jsx:55 | accounts differing only in letter case match the same jobs |
| DashboardPage.ClientStats | clients/src/pages/Dashboard.jsx:60-69 | total is the client's job count; active is the number with status "0" and completed the number with status "3", never exceeding the total; the application counts are dropped by the replacement |
| DashboardPage.DashboardPageState.constructor | clients/src/pages/Dashboard.jsx:26-36 | loading, zero statistics, no recent jobs or applications |
| DashboardPage.DashboardPageState.LoadDashboardData | clients/src/pages/Dashboard.jsx:44-84 | nothing without a contract; a client (or both) gets the first five of its jobs and `ClientStats`; a throwing filter stops the load; a freelancer (or both) gets an empty application list; loading ends false |
| DashboardPage.DashboardPageState.OnContext | clients/src/pages/Dashboard.jsx:38-42 | for a registered user, the new state of `LoadDashboardData` per branch (client jobs and `ClientStats`, the throwing filter, the emptied applications) and loading false; otherwise nothing changes |
| DashboardPage.MockClientDashboard | clients/src/pages/Dashboard.jsx:50-63 | a client on the mock contract, whose `getAllJobs` returns no jobs, sees no recent jobs and zero totals |
| DashboardPage.NumericCodeDashboard | clients/src/pages/Dashboard.jsx:52-77 | a numeric code runs neither branch, so the initial statistics stay |
| ProfilePage.WithField | clients/src/pages/Profile.jsx:53-58 | only the named field takes the value |
| ProfilePage.FormOf | clients/src/pages/Profile.jsx:38-51 | each form field is the user's field or "" |
| ProfilePage.SkillsArray | clients/src/pages/Profile.jsx:119-122 | every tag is non-empty, its own trim and free of commas |
| ProfilePage.TrimKeepsOut | clients/src/pages/Profile.jsx:121 | trimming adds no character, so a piece of the split holds no comma |
| ProfilePage.SkillsArrayJoin | clients/src/pages/Profile.jsx:119-122 | the comma-join of clean tags parses back to the same tags |
| ProfilePage.SkillsArrayOrdered | clients/src/pages/Profile.jsx:119-122 | the tags are a subsequence of the trimmed pieces; every non-blank piece gives its trimmed tag; there are exactly as many tags as non-blank pieces, so only blank pieces are dropped |
| ProfilePage.HourlyRateText | clients/src/pages/Profile.jsx:381-383 | "Not specified" exactly when the rate is empty; otherwise the rate followed by " ETH/hour" |
| ProfilePage.ShowsHourlyRate | clients/src/pages/Profile.jsx:362 | the hourly-rate section shows for the string codes "1" and "2" only; `NumericFreelancerProfile` shows a numeric code misses it |
| ProfilePage.RoleLabel | clients/src/pages/Profile.jsx:242 | the coerced `USER_TYPES` lookup of the user's code; `NumericFreelancerProfile` shows the number 1 reads "Freelancer" |
| ProfilePage.NumericFreelancerProfile | clients/src/pages/Profile.jsx:242-362 | a numerically coded freelancer is labelled "Freelancer" but gets no hourly-rate section |
| ProfilePage.ProfilePageState.constructor | clients/src/pages/Profile.jsx:25-51 | not editing, not loading, the form filled from the user when there is one |
| ProfilePage.ProfilePageState.StartEditing | clients/src/pages/Profile.jsx:25 | edit mode on; nothing else changes |
| ProfilePage.ProfilePageState.HandleChange | clients/src/pages/Profile.jsx:53-58 | the form becomes `WithField` of the old form |
| ProfilePage.ProfilePageState.HandleCancel | clients/src/pages/Profile.jsx:78-90 | every field back to the user's value and edit mode off |
| ProfilePage.ProfilePageState.HandleSave | clients/src/pages/Profile.jsx:60-76 | the store is unchanged; edit mode and loading end false; a reloaded user refills the form from the stored record |
| ProfilePage.EditThenSave | clients/src/pages/Profile.jsx:38-76 | an edit followed by save is discarded: the form shows the stored record |
| JobCard.Title | clients/src/components/JobCard.jsx:13 | the title, or "Untitled Job" only when it is missing |
| JobCard.Description | clients/src/components/JobCard.jsx:14 | the description, or "No description provided" only when it is missing |
| JobCard.Budget | clients/src/components/JobCard.jsx:15 | the budget, or "0" only when it is missing |
| JobCard.CategoryLabel | clients/src/components/JobCard.jsx:17-101 | the table name of the category (default "0") when it has one, else "Other" |
| JobCard.CardSkills | clients/src/components/JobCard.jsx:56-60 | an array as it is, text split on "," with each piece trimmed and none dropped, and nothing otherwise |
| JobCard.EmptySkillTextOneBlankChip | clients/src/components/JobCard.jsx:58-59 | an empty skills text gives one empty chip |
| JobCard.TextAndListAgree | clients/src/components/JobCard.jsx:56-60 | clean tags stored as a list or as comma text give the same chips |
| JobCard.Chips | clients/src/components/JobCard.jsx:108 | exactly min(3, n) chips, the first skills in order |
| JobCard.MoreChip | clients/src/components/JobCard.jsx:116-120 | the "+k more" chip appears exactly when there are more than three skills |
| JobCard.ChipsAccountForAll | clients/src/components/JobCard.jsx:108-120 | above three skills, three chips and "+k more" with k = n − 3; otherwise every skill is a chip and there is no more-chip |
| JobCard.ClientLabel | clients/src/components/JobCard.jsx:80-82 | "Anonymous" exactly for a missing client, else what `truncateAddress` gives at length 6 |
| JobCard.ApplicantsLabel | clients/src/components/JobCard.jsx:138-140 | digits that read back as the count, then " applicant", or " applicants" exactly when the count is not 1 |
| JobCard.ApplicantsLabelInjective | clients/src/components/JobCard.jsx:138-140 | different counts give different labels |
| JobCard.DeadlineText | clients/src/components/JobCard.jsx:40-53 | "No deadline set" exactly for a missing or empty deadline, else the date string |
| JobCard.PostedText | clients/src/components/JobCard.jsx:132 | "Just posted" for a missing or zero timestamp, else `formatTimeAgo` of it |
| JobCard.Card | clients/src/components/JobCard.jsx:8-144 | nothing without a job; otherwise at most three chips, the more chip exactly for over three skills, "Anonymous" exactly without a client |
| Navigation.OffersPostJob | clients/src/components/Navigation.js:69 | the Post Job link is offered for the string codes "0" and "2"; `PostJobLinkNarrowerThanRoute` compares it with the route |
| Navigation.UserNavItems | clients/src/components/Navigation.js:66-74 | nothing for an unregistered user; else Dashboard first, Profile last, and Post Job between them exactly for the string codes "0" and "2" |
| Navigation.MobileItems | clients/src/components/Navigation.js:349 | the public items followed by the user items |
| Navigation.MobileItemsDistinct | clients/src/components/Navigation.js:59-74 | no two mobile links share a name or a path, whoever is signed in |
| Navigation.PostJobLinkNarrowerThanRoute | clients/src/components/Navigation.js:69-71 | the post-job route renders for every connected registered user, but the link is offered only for "0" and "2" |
| Navigation.NetworkName | clients/src/components/Navigation.js:89-98 | "Unknown" exactly for a missing id or one outside 1, 137, 56, 97 and 80001 |
| Navigation.NetworkColor | clients/src/components/Navigation.js:100-109 | grey exactly for a missing id or one outside 1, 137, 56, 97 and 80001 |
| Navigation.NameAndColorAgree | clients/src/components/Navigation.js:89-109 | "Unknown" exactly when grey; every named network is in the network table; testnet 3 is labelled there but "Unknown" here |
| Navigation.UserTypeIcon | clients/src/components/Navigation.js:76-87 | the plain icon exactly for anything but the string codes "0", "1", "2" |
| Navigation.NumericCodeNavigation | clients/src/components/Navigation.js:69-87 | a numerically coded user gets Dashboard and Profile only and the plain icon, though the label table names the role |

## Left out

- The escrow contract and the job lifecycle (selecting a freelancer, submitting work, sharing keys, completion, fees, cancellation, reviews) are not part of this model. Their source is absent, and the client only forwards those calls.
- The live-contract branches of `registerUser`, `postJob`, `applyForJob`, `getAllJobs` and `loadUserData` are left out. Mock mode is always on, so they never run.
- Web3 initialisation, wallet connection, network switching, event subscriptions and toasts are left out because they are I/O. A notice that a handler pops up is kept as a `notice` field.
- Floating-point code is left out: ether formatting, fee and deposit calculation, the budget formatting on job cards, the spent and earned totals, and progress percentages.
- JSON serialisation of the store is left out. The store is a typed map and typed lists.
- The one-second wait of the profile save, and the loading flags while a call is in flight, are left out. Each handler's loading flag is modelled at its end state only, because the model has no concurrency.
- `getReputationLevel` is left out. It is imported by the profile and dashboard components but not defined in the helpers, so its tiers have no source.
- The locale date format is left out: a job card's date-string deadline is shown through `toLocaleDateString`.
- JobCard.DeadlineText: the numeric-deadline branch (`formatTimeAgo` of a number) is not modelled, because the modelled job records hold deadlines as the date strings the post-job form stores.
- Object-prototype keys are left out. A lookup of a key such as "toString" in an object table finds an inherited function. The colour and label tables are modelled as plain finite maps.
- The other keyed hooks built on `useLocalStorage` (preferences, wallet history, job filters, draft jobs) are left out. They are `StoredValue` with other keys and initial values.
- Menu-open flags, animations and the markup are left out because they are presentation.
- Only ASCII letters are lower-cased: `toLowerCase` on non-ASCII text is not modelled.
- Helpers.TruncateText: lengths and slices count characters (Unicode scalar values), not UTF-16 code units; text with characters outside the Basic Multilingual Plane is cut later than in JavaScript.
- Helpers.TruncateAddress: `slice` offsets count characters, not UTF-16 code units (the same gap as TruncateText).
- JobCard.ClientLabel: the client address is sliced by characters, not UTF-16 code units (the same gap as TruncateText).
- Helpers.FormatTimeAgo: the timestamp is an already-parsed integer; `parseInt` of a string and the NaN result of a missing or non-numeric timestamp (which gives "Just now") are not modelled.
- Helpers.FormatDeadline: the timestamp is an already-parsed integer; the NaN path of a missing or non-numeric timestamp (which gives "Less than 1 hour left") is not modelled.
- Web3Context.Provider.HandleAccountsChanged: whether a contract is in scope is a parameter. The listener registered on mount sees the initial, empty contract.
- JobModal.JobModalState.HandleApply: whether the send fails is a parameter. The mock contract accepts every send and stores nothing, so the provider's store is untouched.
- DashboardPanel.DashboardPanelState.LoadDashboardData: the two contract reads are a parameter, and a read that throws is `None`.
- DashboardPage.DashboardPageState.LoadDashboardData: what the contract's `getAllJobs` returns is a parameter. The mock returns the empty list, not the provider's stored jobs.
