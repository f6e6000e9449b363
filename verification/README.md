# Portfolio builder: a Dafny model of its scoring rules, editor, store and page helpers

This project models the pure core of a portfolio-builder web application. Users register, sign in, edit a portfolio made of a bio, links, skills, projects, education and experience, and publish it at `/portfolio/:username`. The public page renders it with one of several role templates. An "AI mentor" scores the portfolio, and when the language-model service is unusable it falls back to fixed rules.

Modules, in dependency order:

- `Wrappers`: `Option` and `Result`.
- `Text`: JavaScript string behaviour over ASCII.
  - Truthiness of a nullable string, `x || y`, and template-literal rendering of `undefined`.
  - `trim`, `toLowerCase` / `toUpperCase`, `split` on one character, `join`, and `slice(0, n)`.
- `Lists`: filter, conditional map, first-index search, and their laws.
- `Schema`: the shared record shapes and the zod validators. These are the register, login and list-entry schemas, the portfolio update schema, and the nine-value role enum.
- `Json`: `JSON.stringify` of the project and experience lists, with string escaping.
- `Metrics`: the regular expression `/\d+%|\d+x|\$\d+/` as a left-to-right scanner, proved equal to its reference meaning. It also proves that a match inside any serialised field is seen.
- `Mentor`: the analysis service.
  - `getFallbackAnalysis` with its completeness, ATS, metric and bio rules.
  - `formatAIResponse` with `parseInt` and `sanitizeScore`.
  - `analyzePortfolioWithAI`'s choice between the fallback and the normalised reply.
- `MentorProperties`: exact outcomes and bounds of the service.
- `Dashboard`: `getCompletionScore` and `getIntelligenceSuggestions`.
- `Editor`: the portfolio editor's state and list operations, what it loads, and the save payload.
- `Store`: the in-memory storage. A JavaScript `Map` is modelled as an insertion-ordered sequence whose ids are distinct.
- `Auth`: Bearer-header extraction (section 2.1 of RFC 6750) and the middleware's three outcomes.
- `Routes`: the register, login, GET and PUT `/api/portfolio`, and public GET handlers. Each is a function from a store and a request to a store and a response.
- `PublicPage`:
  - initials, social links, `hasContent` and the date suffix;
  - the page state reached from a fetch.
- `Templated`: the own-versus-public endpoint choice and the role-to-template switch.
- `Templates`: arithmetic shared by the developer, premium, data-analyst and AI/ML templates.
  - Carousel stepping with JavaScript's truncating `%`, and the three-card window.
  - Marquee repetition and the skill split.
  - Stat counters and the premium fallback text.
- `MentorView`: score colours, score labels and badge variants of the analysis dialog.
- `Resume`: the PDF resume's file name, picture format, contact line, date range, degree line, skills and technology lines, and its section list.

Foreign services are parameters:

- The language-model reply is a `Reply` value: it threw, it had no content, it was unparseable, or it parsed.
- `randomUUID` is a stream of uuids, `nat -> string`; the distinct-id lemma assumes the stream never repeats.
- The clock is a timestamp string.
- bcrypt and JWT are the `Services` record: `hash`, `checkPassword`, `sign` and `verify`.
- zod's `email()` and `url()` are the predicates `isEmail` and `isUrl`.

Three behaviours of the code worth knowing:

- The fallback's "missing social proof" rule fires when GitHub **or** LinkedIn is missing, not only when both are missing.
- An API key made only of whitespace counts as missing.
- The code defines no rule-based job-description optimiser, so none is modelled.

## Model

| member | source | states |
|---|---|---|
| Mentor.Analyze | server/ai-mentor.ts:21-70 | Never fails and always returns bounded scores. The service is called exactly when a non-blank key exists. Without a key, or after a throw, an empty reply or an unparseable reply, the result is the rule-based fallback. A parsed reply is normalised. |
| Mentor.Completeness | server/ai-mentor.ts:164-167 | Completeness, the sum of the four checklist awards, is a multiple of ten between 0 and 100. |
| Mentor.FallbackIssues | server/ai-mentor.ts:170-189 | One issue per rule that fires. "Missing social proof" comes first when GitHub or LinkedIn is missing, then "low keyword density" when there are fewer than six skills. Each issue draws the next uuid. |
| Mentor.FallbackSuggestions | server/ai-mentor.ts:192-216 | The "quantify" suggestion comes first when no metric is found, then the bio suggestion when the bio is absent or under 150 characters. It holds at most two entries. |
| Mentor.FallbackScores | server/ai-mentor.ts:161-227 | All five scores lie in 0..100. Completeness is the checklist sum. ATS starts at 60 and loses 20 for missing social proof and 15 for fewer than six skills. Content quality starts at 60 and loses 10 without a metric and 20 for a weak bio. Impact is 50 with a metric and 20 without. Overall is the mean rounded half up. |
| Mentor.RoundQuarter | server/ai-mentor.ts:218 | `Math.round(s / 4)` is the integer r with 4r - 2 <= s < 4r + 2. |
| Mentor.ClampedMean | server/ai-mentor.ts:218-227 | Scores already in range are kept. The overall score is the rounded mean, within two quarter-steps of the sum. |
| Mentor.Fallback | server/ai-mentor.ts:157-233 | The fallback result is made of the rule scores, the issues, and the suggestions numbered after the issues, none cut by `slice(0, 5)`. It also carries the fixed disclosure summary and the injected timestamp. |
| Mentor.ParseUnsigned | server/ai-mentor.ts:125 | The numeral after the sign: with a `0x` marker, the value of the longest run of hex digits after it; otherwise the value of the longest run of decimal digits. It is NaN exactly when that run is empty, so a number always starts with a decimal digit. |
| Mentor.ParseInt | server/ai-mentor.ts:125 | `parseInt` with no radix: empty text is NaN, leading whitespace is skipped, a minus sign negates the numeral, a plus sign is dropped, and otherwise the numeral is read unsigned. A number is read only when the text holds a decimal digit. |
| Mentor.SanitizeScore | server/ai-mentor.ts:125 | A sanitised score always lies in 0..100. A missing or non-numeric value, and a literal 0, become 50. Negatives become 0 and values over 100 become 100. |
| Mentor.NormalizeScores | server/ai-mentor.ts:128-134 | Each of the five scores is `sanitizeScore` of the matching raw field, so all are bounded. A missing `scores` object gives 50 everywhere. |
| Mentor.NormalizeSuggestion | server/ai-mentor.ts:135-141 | The id is always "ai-" plus a fresh uuid, whatever the reply supplied. A falsy category, title, description or section defaults to "recommended", "Refine Content", "" or "general". |
| Mentor.NormalizeIssue | server/ai-mentor.ts:142-147 | The id is "ats-" plus a fresh uuid, a falsy severity defaults to "medium", and a falsy issue or suggestion text becomes "". |
| Mentor.NormalizeSuggestions | server/ai-mentor.ts:135 | The count and order of suggestions are kept. The k-th suggestion is the normalised k-th raw entry. |
| Mentor.NormalizeIssues | server/ai-mentor.ts:142 | The count and order of ATS issues are kept. The k-th issue is the normalised k-th raw entry. |
| Mentor.Normalize | server/ai-mentor.ts:124-151 | `formatAIResponse` takes its scores from the reply's scores, field by field, so they are bounded. Suggestions draw uuids first and issues after them. A missing summary becomes the success sentence. |
| MentorProperties.EmptyProfile | server/ai-mentor.ts:161-227 | An empty profile scores exactly 30 / 25 / 0 / 20 with 19 overall. It gets two issues and two suggestions. |
| MentorProperties.EmptyListsNoMetric | server/ai-mentor.ts:192-193 | With no projects and no experience, the scanned text contains no metric. |
| MentorProperties.CompletenessValues | server/ai-mentor.ts:164-167 | Completeness takes only the subset sums of 20, 20, 30 and 30. It is 100 exactly when all four checks pass. |
| MentorProperties.ExperienceMetricAvoidsPenalty | server/ai-mentor.ts:192-205 | A metric in any experience description keeps impact at 50, and no critical suggestion is raised. |
| MentorProperties.NoMetricPenalised | server/ai-mentor.ts:195-205 | Without a metric, impact drops to 20 and the first suggestion is the critical one for the experience section. |
| MentorProperties.MiddleLengthBio | server/ai-mentor.ts:164-216 | A bio of 51 to 149 characters both earns completeness and is penalised as weak. |
| MentorProperties.WeakBioPenalised | server/ai-mentor.ts:207-216 | A weak bio caps content quality at 40, and the bio suggestion comes last. |
| MentorProperties.FallbackDisclosed | server/ai-mentor.ts:230 | The fallback summary contains the marker "AI analysis is currently unavailable". |
| MentorProperties.AnalyzeFallbackDetectable | server/ai-mentor.ts:26-69 | Without a key, or without a parsed reply, the summary carries the marker and the scores are the rule scores. |
| MentorProperties.SanitizeDecimal | server/ai-mentor.ts:125 | Decimal text from 1 to 100 is read back as its value, and a fractional part is cut off. Larger values give 100 and negative values give 0. |
| MentorProperties.SanitizeZero | server/ai-mentor.ts:125 | The text "0" is falsy after parsing and falls back to 50. |
| MentorProperties.NormalizedIdsDistinct | server/ai-mentor.ts:135-147 | With distinct uuids, every normalised suggestion and issue has its own id. No suggestion shares an id with an issue. |
| MentorProperties.DecimalStringShape | server/ai-mentor.ts:125 | The decimal numeral of n is all digits, has no leading zero, and has value n. |
| MentorProperties.ParseDecimalString | server/ai-mentor.ts:125 | `parseInt` reads the decimal numeral of a positive n back as n, with or without a minus sign, whatever non-digit follows. |
| Metrics.TestCorrect | server/ai-mentor.ts:193 | The scanner answers `/\d+%\|\d+x\|\$\d+/.test` exactly: it is true iff some digit is followed by `%` or `x`, or some `$` is followed by a digit. |
| Metrics.ExperienceFieldMetric | server/ai-mentor.ts:192-193 | A metric in any always-serialised field of an experience entry, ids and dates included, is found in the serialised list. |
| Metrics.ProjectFieldMetric | server/ai-mentor.ts:192-193 | A metric in a project's id, title or description is found in the serialised list. |
| Metrics.EscapeKeepsMetric | server/ai-mentor.ts:192 | JSON string escaping never hides a metric. |
| Metrics.ControlCharLooksLikeMetric | server/ai-mentor.ts:192-193 | A control character followed by `x` has no metric itself. Its `\u0001` escape makes the scan report one. |
| Json.EscapeAppend | server/ai-mentor.ts:192 | Escaping distributes over concatenation. |
| Dashboard.RawScore | client/src/pages/dashboard.tsx:132-144 | The raw sum of the ten increments lies between 0 and 110. |
| Dashboard.CompletionScore | client/src/pages/dashboard.tsx:130-148 | No portfolio gives 0 and "Getting started". Otherwise the score is the raw sum capped at 100, and the level is "Job-ready" iff the score is at least 80, "In progress" iff it is 50..79, and "Getting started" below. |
| Dashboard.FullProfileCapped | client/src/pages/dashboard.tsx:133-145 | The raw maximum 110 is reached exactly by a full profile, which is capped to 100 and "Job-ready". |
| Dashboard.RawScoreMonotone | client/src/pages/dashboard.tsx:133-144 | Filling in fields or adding entries never lowers the raw sum. |
| Dashboard.CompletionMonotone | client/src/pages/dashboard.tsx:130-147 | Filling in fields or adding entries never lowers the shown score or the level. |
| Dashboard.Pushed | client/src/pages/dashboard.tsx:171-202 | At most four hints are pushed for a saved portfolio. |
| Dashboard.PushedOrdered | client/src/pages/dashboard.tsx:171-202 | The pushed hints keep the order bio, skills, projects, GitHub. |
| Dashboard.PushedMembers | client/src/pages/dashboard.tsx:171-202 | A hint is pushed exactly when its condition holds. |
| Dashboard.HintKinds | client/src/pages/dashboard.tsx:157-203 | No portfolio gives only "create-portfolio". A saved one gets, in order, exactly the hints whose conditions hold. |
| Dashboard.HintKindsApply | client/src/pages/dashboard.tsx:168-202 | Each hint is listed iff its condition holds. The GitHub hint's condition requires the developer or AI/ML role, and an empty role counts as developer. |
| Dashboard.IntelligenceSuggestions | client/src/pages/dashboard.tsx:157-204 | The final `slice(0, 4)` never cuts anything. Each entry is the text of its hint. |
| Dashboard.HintIdsDistinct | client/src/pages/dashboard.tsx:157-203 | No hint appears twice. |
| Dashboard.BlankPortfolioHints | client/src/pages/dashboard.tsx:168-203 | A bare developer portfolio gets exactly the four hints, in order. |
| Schema.RolesShape | shared/schema.ts:98 | The role enum has nine distinct values and includes the default "developer". |
| Schema.UsernameIssue | shared/schema.ts:71 | A username is accepted iff it has 3..30 characters, all letters, digits or underscores. Otherwise the first failing check's message is reported. |
| Schema.ValidateRegister | shared/schema.ts:70-75 | Registration is accepted iff username, e-mail, password (at least 6 characters) and name (non-empty) are all valid. Otherwise the first failing field's message is reported. |
| Schema.ValidateLogin | shared/schema.ts:78-81 | Login is accepted iff the e-mail is valid and the password is non-empty. |
| Schema.ProjectIssue | shared/schema.ts:6-12 | A project passes iff its title is non-empty and its link is absent, empty or a URL. |
| Schema.EducationIssue | shared/schema.ts:15-23 | An education entry passes iff its institution is non-empty. |
| Schema.ExperienceIssue | shared/schema.ts:26-34 | An experience entry passes iff its company and position are non-empty. |
| Schema.ValidateUpdate | shared/schema.ts:84-99 | An update passes unchanged iff every entry is valid and the role, when present, is in the enum. The enum message names the received value. |
| Editor.AddSkill | client/src/pages/edit-portfolio.tsx:137-143 | The trimmed input is appended only when it is non-empty and not already present; the input box is then cleared. Otherwise nothing changes. |
| Editor.AddSkillDistinct | client/src/pages/edit-portfolio.tsx:139-140 | Adding a skill keeps a duplicate-free list duplicate-free. |
| Editor.AddSkillTrimmed | client/src/pages/edit-portfolio.tsx:137-143 | A skill that was added is trimmed, so surrounding whitespace never enters the list. |
| Editor.RemoveSkill | client/src/pages/edit-portfolio.tsx:145-147 | Every occurrence of the value is removed, and everything else stays. |
| Editor.RemoveSkillAppend | client/src/pages/edit-portfolio.tsx:145-147 | Removal works piecewise on concatenated lists, so the order of the rest is kept. |
| Editor.RemoveSkillAbsent | client/src/pages/edit-portfolio.tsx:145-147 | Removing a value that is not present changes nothing. |
| Editor.RemoveAddedSkill | client/src/pages/edit-portfolio.tsx:137-147 | Removing a skill just added restores the previous list. |
| Editor.BlankProject | client/src/pages/edit-portfolio.tsx:149-160 | A new project has the fresh id, an empty title and description, an empty link and no technologies. |
| Editor.AddProject | client/src/pages/edit-portfolio.tsx:149-160 | One blank project is appended at the end, and existing entries are unchanged. |
| Editor.UpdateProject | client/src/pages/edit-portfolio.tsx:162-164 | Length and order are kept. Entries with the id are merged with the patch, and the others are unchanged. |
| Editor.RemoveProject | client/src/pages/edit-portfolio.tsx:166-168 | Exactly the entries with the id are dropped. |
| Editor.RemoveProjectAppend | client/src/pages/edit-portfolio.tsx:166-168 | Removal keeps the relative order of the rest. |
| Editor.RemoveAddedProject | client/src/pages/edit-portfolio.tsx:149-168 | Removing a project just added under a fresh id restores the list. |
| Editor.UpdateProjectAbsent | client/src/pages/edit-portfolio.tsx:162-164 | Updating an id that is not present changes nothing. |
| Editor.RemoveAfterUpdateProject | client/src/pages/edit-portfolio.tsx:162-168 | Removing after updating the same id, without changing the id, equals removing alone. |
| Editor.BlankEducation | client/src/pages/edit-portfolio.tsx:170-183 | A new education entry has the fresh id, an empty institution, degree, field, start date and end date, and is not current. |
| Editor.AddEducation | client/src/pages/edit-portfolio.tsx:170-183 | One blank entry is appended, and the others are unchanged. |
| Editor.UpdateEducation | client/src/pages/edit-portfolio.tsx:185-187 | Only matching entries are merged, and length and order are kept. |
| Editor.RemoveEducation | client/src/pages/edit-portfolio.tsx:189-191 | Exactly the entries with the id are dropped. |
| Editor.RemoveEducationAppend | client/src/pages/edit-portfolio.tsx:189-191 | Removal keeps the relative order of the rest. |
| Editor.RemoveAfterUpdateEducation | client/src/pages/edit-portfolio.tsx:185-191 | Removing after an id-preserving update equals removing alone. |
| Editor.RemoveAddedEducation | client/src/pages/edit-portfolio.tsx:170-191 | Removing an entry just added restores the list. |
| Editor.ToggleEducation | client/src/pages/edit-portfolio.tsx:684-686 | Ticking "current" sets it and clears the end date. Unticking keeps the end date the entry had. Other entries and fields are unchanged. |
| Editor.EducationTickUntick | client/src/pages/edit-portfolio.tsx:684-686 | Ticking and then unticking leaves the entry not current, with an empty end date. |
| Editor.BlankExperience | client/src/pages/edit-portfolio.tsx:193-206 | A new experience entry has the fresh id, an empty company, position, description, start date and end date, and is not current. |
| Editor.AddExperience | client/src/pages/edit-portfolio.tsx:193-206 | One blank entry is appended, and the others are unchanged. |
| Editor.UpdateExperience | client/src/pages/edit-portfolio.tsx:208-210 | Only matching entries are merged, and length and order are kept. |
| Editor.RemoveExperience | client/src/pages/edit-portfolio.tsx:212-214 | Exactly the entries with the id are dropped. |
| Editor.RemoveExperienceAppend | client/src/pages/edit-portfolio.tsx:212-214 | Removal keeps the relative order of the rest. |
| Editor.RemoveAfterUpdateExperience | client/src/pages/edit-portfolio.tsx:208-214 | Removing after an id-preserving update equals removing alone. |
| Editor.RemoveAddedExperience | client/src/pages/edit-portfolio.tsx:193-214 | Removing an entry just added restores the list. |
| Editor.ToggleExperience | client/src/pages/edit-portfolio.tsx:815-817 | The current checkbox on an experience entry behaves the same way: tick clears the end date, and untick keeps it. |
| Editor.ExperienceTickUntick | client/src/pages/edit-portfolio.tsx:815-817 | Ticking and then unticking leaves the entry not current, with an empty end date. |
| Editor.TextOf | client/src/pages/edit-portfolio.tsx:90-96 | `value \|\| ""` gives the stored text, or the empty string for null. |
| Editor.Load | client/src/pages/edit-portfolio.tsx:87-101 | No portfolio leaves the blank initial state. A stored row fills each of the seven form fields with the matching text, or "" when it is falsy, and the lists with its items. |
| Editor.SavePayload | client/src/pages/edit-portfolio.tsx:112-121 | The form scalars and the four lists are sent exactly as held. Role and picture are not sent. |
| Store.EmptyValid | server/storage.ts:20-23 | The empty store is well formed. |
| Store.UserIndex | server/storage.ts:29-39 | Where `find` over the users stops: an index whose user's lower-cased key, name or e-mail, matches the lower-cased value, with no match before it; none exactly when no user matches. |
| Store.GetUserBy | server/storage.ts:29-39 | The shared lookup: the user at the first matching index in insertion order, or none when no user matches. |
| Store.GetUserByUsername | server/storage.ts:29-33 | The first user, in insertion order, whose lower-cased name matches, or none when no user matches. |
| Store.GetUserByEmail | server/storage.ts:35-39 | The first user, in insertion order, whose lower-cased e-mail matches, or none when no user matches. |
| Store.LookupIgnoresCase | server/storage.ts:29-39 | Names or e-mails equal up to case find the same user. |
| Store.CreateUser | server/storage.ts:41-46 | The input is stored unchanged under the fresh id and appended. Portfolios are untouched. |
| Store.CreateUserValid | server/storage.ts:41-46 | Creating a user under a fresh id keeps ids distinct. |
| Store.CreateUserFoundByEmail | server/storage.ts:35-46 | A newly created user is then found by its e-mail. |
| Store.GetPortfolioByUserId | server/storage.ts:48-52 | The first inserted portfolio of that user, or none when the user has no portfolio. |
| Store.GetPortfolioByUsername | server/storage.ts:54-58 | An unknown user has no portfolio. Otherwise this is the lookup by the user's id. |
| Store.Defaults | server/storage.ts:60-80 | Role defaults to "developer", each of the eight text fields becomes null when falsy and is kept otherwise, and missing lists become empty. |
| Store.DefaultsNormal | server/storage.ts:60-80 | A created row has a role, no empty-string scalars and every list present. |
| Store.CreatePortfolio | server/storage.ts:60-83 | The defaulted row is appended under the fresh id, and users are untouched. |
| Store.CreatePortfolioValid | server/storage.ts:60-83 | Creating under a fresh id keeps ids distinct. |
| Store.SecondPortfolioHidden | server/storage.ts:48-83 | A second portfolio for the same user is stored, but lookups keep returning the first. |
| Store.Merge | server/storage.ts:89-94 | Each of the thirteen other fields takes the patch's value when supplied and keeps the stored one otherwise. `id` and `userId` are always the stored ones. |
| Store.MergeLaws | server/storage.ts:89-94 | An empty patch changes nothing, and applying a patch twice equals applying it once. |
| Store.UpdatePortfolio | server/storage.ts:85-97 | Without a portfolio, returns nothing and leaves the store unchanged. Otherwise it stores and returns the merged row. |
| Store.UpdateInPlace | server/storage.ts:85-97 | The update replaces the row in place, keeps ids distinct, and a later lookup returns the merged row. |
| Auth.BearerToken | server/auth.ts:43-50 | A token exists iff the header starts with "Bearer ". The header is then exactly the scheme followed by the token. |
| Auth.BearerTokenRoundTrip | server/auth.ts:43-50 | "Bearer " plus any token gives that token back. |
| Auth.SchemeIsCaseSensitive | server/auth.ts:43-48 | A lower-case "bearer " is rejected. |
| Auth.Authenticate | server/auth.ts:38-60 | A missing or malformed header gives 401 "Authorization token required". A failed verification gives 401 "Invalid or expired token". Otherwise the verified payload is admitted. |
| Routes.WithoutPassword | server/routes.ts:65 | The public user keeps id, username, e-mail and name, and drops the password. |
| Routes.Register | server/routes.ts:23-79 | An invalid body is a 400 with the schema message. A taken e-mail answers "Email already registered". A free e-mail with a taken username answers "Username already taken". Success is 201 and creates the user and a blank portfolio. Every failure leaves the store unchanged. |
| Routes.EmailCheckedFirst | server/routes.ts:27-37 | When both e-mail and username are taken, the e-mail message is reported. |
| Routes.RegisterCreates | server/routes.ts:39-61 | A successful registration stores the user with the hashed password and exactly one portfolio for it, which the owner lookup then returns. The store stays valid. |
| Routes.RegisteredPortfolioBlank | server/routes.ts:48-61 | The registered portfolio has the default role, null scalars and empty lists. |
| Routes.Login | server/routes.ts:81-113 | Succeeds iff the body is valid, the e-mail is known and the password checks. It then returns the user without password and a token. |
| Routes.LoginFailuresAlike | server/routes.ts:86-95 | An unknown e-mail and a wrong password give the identical 401 response. |
| Routes.GetOwn | server/routes.ts:115-130 | Unauthenticated requests get the middleware's 401. Otherwise the response is the caller's portfolio, or 404. |
| Routes.ScalarUpdate | server/routes.ts:158-164 | A supplied scalar is stored as `value \|\| null`, so an empty string becomes null. An absent scalar is untouched. |
| Routes.ListUpdate | server/routes.ts:165-168 | A supplied list replaces the stored one wholesale. |
| Routes.UpdatesOf | server/routes.ts:156-170 | The patch never touches id, userId, role or picture. Each of the seven text fields is `value || null` when the request supplies it, each of the four lists is the supplied list, and absent fields are absent from the patch. |
| Routes.Put | server/routes.ts:132-182 | 401 without authentication, 400 with the schema message for an invalid body, otherwise 200. Only a 200 changes the store. |
| Routes.PutPatches | server/routes.ts:156-170 | For an existing portfolio, the response is 200 with the old row merged with the request's patch. That merged row replaces the user's first row in place, and the users are unchanged. Field by field, key, owner, role and picture stay, supplied texts become `value || null`, supplied lists replace the stored ones, and absent fields keep their values. |
| Routes.PutIgnoresRoleAndPicture | server/routes.ts:140-170 | Changing the request's role or picture, as the schema allows, never changes the outcome. |
| Routes.PutCreates | server/routes.ts:140-154 | Without a portfolio, PUT appends a row owned by the user with the fresh id, role "developer", no picture, each text field `value || null` and each list `value || []`. It returns that row, which the owner lookup then finds. |
| Routes.GetPublic | server/routes.ts:184-211 | An unknown user or a missing portfolio gives 404. Otherwise the body is the portfolio with only the owner's username and name. |
| Routes.EditorSaveRoundTrip | client/src/pages/edit-portfolio.tsx:87-135 | Loading a created row into the editor and saving it unchanged returns the same row and leaves the store as it was. |
| PublicPage.WordStarts | client/src/pages/public-portfolio.tsx:67-74 | The reference scanner yields at most one character per input character and never a space. |
| PublicPage.HeadsSplit | client/src/pages/public-portfolio.tsx:67-74 | Splitting on spaces and taking first characters yields exactly the word starts. Empty segments contribute nothing. |
| PublicPage.Initials | client/src/pages/public-portfolio.tsx:67-74 | `getInitials` is the upper-cased word starts, cut to at most two after upper-casing. |
| PublicPage.InitialsOfTwoWords | client/src/pages/dashboard.tsx:98-105 | "First Last" gives the two upper-cased first letters, and one word gives one. |
| PublicPage.InitialsOfEmpty | client/src/pages/public-portfolio-templated.tsx:72-79 | The empty name gives the empty string. |
| PublicPage.SocialLinks | client/src/pages/public-portfolio.tsx:112-117 | A link is shown iff its address is truthy. |
| PublicPage.SocialLinksOrdered | client/src/pages/public-portfolio.tsx:112-117 | The shown links keep the order website, GitHub, LinkedIn, Twitter. |
| PublicPage.SocialLinksTruthy | client/src/pages/public-portfolio.tsx:112-117 | Every shown link has a truthy address. |
| PublicPage.NoContentIff | client/src/pages/public-portfolio.tsx:119-124 | There is no content iff the bio is empty or absent and every list is empty or absent. |
| PublicPage.DateSuffix | client/src/pages/public-portfolio.tsx:316 | " - Present" when current. Otherwise " - " and a non-empty end date, or nothing. |
| PublicPage.Settle | client/src/pages/public-portfolio.tsx:36-53 | No username keeps the page loading. A thrown fetch or null data is not found, and data is shown. |
| Templated.ChooseEndpoint | client/src/pages/public-portfolio-templated.tsx:29 | The own endpoint is used iff a user is signed in and the route names that user exactly, case included. |
| Templated.OwnPage | client/src/pages/public-portfolio-templated.tsx:34-40 | The own row is shown with the session user's username and name. |
| Templated.Settle | client/src/pages/public-portfolio-templated.tsx:25-59 | Not found iff the chosen fetch threw or returned nothing. Otherwise the page shows what the chosen endpoint returned. |
| Templated.TemplateFor | client/src/pages/public-portfolio-templated.tsx:118-139 | premium, tester, ai_ml and data_analyst select their own templates. |
| Templated.DeveloperIsDefault | client/src/pages/public-portfolio-templated.tsx:127-139 | An empty role and the developer, minimal, creative, modern and compact roles all render the developer template. |
| Templated.DeveloperIff | client/src/pages/public-portfolio-templated.tsx:127-139 | The developer template is used iff the role is none of the four with their own template. |
| Templates.JsRem | client/src/components/templates/DeveloperTemplate.tsx:44-50 | JavaScript `%` takes the sign of the dividend and agrees with the mathematical remainder for non-negative operands. |
| Templates.Slots | client/src/components/templates/DeveloperTemplate.tsx:44-50 | `Math.max(n, 1)` is at least 1 and equals n for a non-empty list. |
| Templates.CarouselInRange | client/src/components/templates/DeveloperTemplate.tsx:44-50 | From an index in range, both `next` and `prev` stay in range, including for an empty list. |
| Templates.CarouselInverse | client/src/components/templates/PremiumTemplate.tsx:40-54 | `prev` undoes `next`, and `next` undoes `prev`. |
| Templates.Window | client/src/components/templates/DeveloperTemplate.tsx:310 | The window from i is the next min(3, n - i) cards. |
| Templates.NoArrowsShowAll | client/src/components/templates/DeveloperTemplate.tsx:380 | Without arrows (three cards or fewer), the window from 0 shows every card. |
| Templates.TechBadges | client/src/components/templates/PremiumTemplate.tsx:255 | The badges are the first min(4, n) technologies. |
| Templates.Repeat | client/src/components/templates/DeveloperTemplate.tsx:65-67 | Repeating `times` copies has length `times` times n. |
| Templates.RepeatAt | client/src/components/templates/DeveloperTemplate.tsx:65-67 | Element k of a repetition is element k mod n. |
| Templates.Repeats | client/src/components/templates/DeveloperTemplate.tsx:65 | `Math.ceil(20 / n)` is the least number of copies reaching twenty items. |
| Templates.MarqueeItems | client/src/components/templates/DeveloperTemplate.tsx:61-68 | Empty input gives empty output. Otherwise there are whole copies totalling at least twenty items. |
| Templates.MarqueeCycles | client/src/components/templates/DeveloperTemplate.tsx:61-68 | The marquee runs through the items in order, cyclically. |
| Templates.TripleIsRepeat | client/src/components/templates/DataAnalystTemplate.tsx:105 | The data-analyst marquee is the list repeated three times, of length 3n. |
| Templates.SplitSkills | client/src/components/templates/DeveloperTemplate.tsx:39-41 | The two columns concatenate to the skills, and the first holds ceil(n/2). |
| Templates.Internships | client/src/components/templates/PremiumTemplate.tsx:28-30 | The internship count is at most the experience count. It equals it iff every position mentions "intern", and it is 0 iff none does. |
| Templates.DeveloperStats | client/src/components/templates/DeveloperTemplate.tsx:31-36 | Months equals the number of experience entries, and internships never exceed it. |
| Templates.SixMonthStats | client/src/components/templates/AIMLTemplate.tsx:27-30 | Months is six per experience entry, and internships never exceed the entry count. |
| Templates.StatsAgree | client/src/components/templates/DataAnalystTemplate.tsx:29-32 | The six-month counters equal the developer ones except for months, which are six times larger. |
| Templates.ExperienceBlurb | client/src/components/templates/PremiumTemplate.tsx:346 | A description is shown as is. An empty one becomes "Worked at {company} from {start} to {Present or end date}". |
| Templates.BlurbEnds | client/src/components/templates/PremiumTemplate.tsx:346 | The fallback sentence starts with "Worked at " and ends in "Present" when current. A missing end date prints "undefined". |
| MentorView.ScoreColor | client/src/components/AIMentor.tsx:28-32 | Green iff the score is at least 80, yellow iff 60..79, red below 60. |
| MentorView.CardScoreColor | client/src/components/AIMentor.tsx:233-237 | The score card's copy is red exactly below 60. |
| MentorView.ColorCopiesAgree | client/src/components/AIMentor.tsx:233-237 | Both colour copies agree on every score. |
| MentorView.ScoreLabel | client/src/components/AIMentor.tsx:34-39 | "Excellent" from 80, "Good" from 60, "Fair" from 40, and "Needs Work" below. |
| MentorView.ColorMatchesLabel | client/src/components/AIMentor.tsx:28-39 | Green iff Excellent, yellow iff Good, and red iff Fair or Needs Work. |
| MentorView.LabelMonotone | client/src/components/AIMentor.tsx:34-39 | A higher score never gets a worse label. |
| MentorView.BadgeVariant | client/src/components/AIMentor.tsx:54-65 | critical maps to destructive, important to default, recommended to secondary, and anything else to outline. |
| Resume.Underscored | client/src/lib/resume-generator.ts:15 | The underscored name contains no whitespace and is no longer than the input. |
| Resume.UnderscoredNoSpace | client/src/lib/resume-generator.ts:15 | A name without whitespace is kept as it is. |
| Resume.UnderscoredIdempotent | client/src/lib/resume-generator.ts:15 | Replacing twice equals replacing once. |
| Resume.UnderscoredTwoWords | client/src/lib/resume-generator.ts:15 | Any run of whitespace between two words becomes exactly one underscore. |
| Resume.Filename | client/src/lib/resume-generator.ts:89 | A given file name is used verbatim. Otherwise the name is the underscored user name plus "_Resume.pdf", free of whitespace. |
| Resume.Format | client/src/lib/resume-generator.ts:160-167 | PNG iff the data mentions png. Otherwise JPEG for jpeg or jpg, WEBP for webp alone, and JPEG when nothing matches. |
| Resume.ContactParts | client/src/lib/resume-generator.ts:206-210 | At most four non-empty parts. There are none iff location, GitHub, LinkedIn and website are all falsy. |
| Resume.ContactLine | client/src/lib/resume-generator.ts:206-217 | The line is omitted iff there are no parts. Otherwise it is the parts joined by "  \|  ". |
| Resume.FullContactLine | client/src/lib/resume-generator.ts:206-217 | With all four present, the line lists location, GitHub, LinkedIn and website in that order, separated. |
| Resume.DateRange | client/src/lib/resume-generator.ts:230 | The start date and an en dash, then "Present" when current or the end date otherwise. A missing end date prints "undefined". |
| Resume.DegreeLine | client/src/lib/resume-generator.ts:231 | The degree alone when the field is empty, otherwise "degree - field". The line always starts with the degree. |
| Resume.SkillsLine | client/src/lib/resume-generator.ts:244 | A single skill is written alone. |
| Resume.SkillsLineSnoc | client/src/lib/resume-generator.ts:244 | One more skill appends ", " and that skill. |
| Resume.TechLine | client/src/lib/resume-generator.ts:285 | The line is omitted iff there are no technologies. Otherwise it is "Tech Used: " followed by them joined by ", ". |
| Resume.Sections | client/src/lib/resume-generator.ts:219-273 | Each section appears exactly when it has content: profile for a truthy bio, and each list section for a non-empty list. |

## Left out

- The language-model call, its client and the prompt text: a foreign network service. Its reply is an input, whether it threw, was empty, unparseable or parsed.
- `JSON.parse` of the reply and the shapes on which `formatAIResponse` throws: folded into the "unparseable" reply.
- `randomUUID` and `new Date().toISOString()`: injected as a uuid stream and a timestamp string.
- bcrypt hashing and comparison, and JWT signing and verification: abstract functions in `Services`. The randomness of bcrypt salts is therefore not modelled.
- zod's `email()` and `url()` checks: abstract predicates. zod's other messages are modelled as the first failing check of each field.
- Unicode: `toLowerCase`, `toUpperCase`, `trim` and `\s` are modelled over ASCII. Lengths count code points, not UTF-16 units.
- Request bodies are modelled as string-typed only: every text field is a string or absent, and every list holds well-formed entries. zod's type errors for a wrongly typed value, such as "Expected string, received number" or a list sent as a string, are not modelled.
- `parseInt` of non-string values: the model reads the value's string form. Numbers, booleans and objects as score fields are left out.
- The Radix checkbox's indeterminate state: the checked value is a plain boolean.
- The developer template's achievement carousel and the `achievements` column: the field is not part of the schema and is read through `as any`.
- The job-description optimiser: it is not defined in the code.
- The client calls `/api/portfolio/analyze` and `/optimize`, but the server has no such routes. Those handlers are not modelled.
- PDF layout, fonts, page breaks and floating-point positions in the resume generator, and the canvas image loading.
- React rendering, hooks, toasts, routing and the `fetch` and `localStorage` wrappers. Only the values these components compute are modelled.
- The creative, modern, minimal and compact templates: they only lay out data, beyond duplicating lists.
- The tester template: its file is not part of this model, so it appears only as a choice of the role switch.
- `undefined` versus `null`: both are `None`. Where the distinction is visible (template literals), it is written out as "undefined".
- 500 responses from thrown storage or library errors: the in-memory store never throws in the modelled operations.
- Concurrency between requests: every handler is one atomic step on the store.
- `getUser` by id, and the token's expiry time: not used by the modelled handlers except through `verify`.
