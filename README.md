# Admin control panel: verified model of its self-contained logic

The admin routes of the wiki (`src/server/routes/admin.js`) are mostly request glue: render a page, call a persistence model, flash a message, redirect. This project models the few pieces in that file that are logic of their own, and proves what they promise:

- **createPager** (`pagination.dfy`, module `Pagination`): the pagination-window calculator behind the user, external-account and user-group lists. It is a method that reassigns the window bounds and builds the page list in a loop, as the source does. Its result is tied to the pure bound function `WindowBounds` and the run `Run(lo, hi)`. The lemmas cover the window: it stays inside `1..pagesCount`, it lists the current page, it has at most `MAX_PAGE_LIST + 1` entries, it shows every page when there are few, and the dots flags mark hidden pages.
- **stringToArray** (`string_to_array.dfy`, module `StringToArray`): `split(',')` followed by `trim()` on every piece. It is used for the XSS tag and attribute white lists. Split and join are proved to be exact inverses. Trim is given its ECMAScript whitespace set and characterised as "whitespace, result, whitespace".
- **getNotificationEvents** (`global_notification.dfy`, module `GlobalNotification`): first the filter on `triggerEvent…` keys, then a loop that pushes every truthy value. The lemmas show which values are selected, that form order is kept, and that other entries are dropped.
- **Passport strategy re-initialisation** (`passport_settings.dfy`, module `PassportSettings`): a class `PassportAdmin` with the `crowi` configuration namespace and the passport service's strategy state. There is one handler method for SAML/Google/GitHub/Twitter, which rolls back a failed setup (fail-closed). The LDAP handler is a separate method and has no rollback. The client method `FailedSetupScenario` runs both handlers against the same failing setup and shows the difference: SAML ends disabled with an error message; LDAP ends with the aborted setup in place and no answer, or status true when the setup rejects later.
- **securitySetting guard** (`security_settings.dfy`) and **SMTP option building** in validateMailSetting (`mail_settings.dfy`).

Shared pieces: `Wrappers.Option` stands for `null`/`undefined`; `Strings.Join` is `Array.prototype.join`; `ApiResponses` is the `{status, message?}` envelope.

Modelling choices:
- JavaScript numbers are modelled as unbounded `int`. Every value here is a small integer, which a double holds exactly.
- `Math.ceil(page - m/2)` and `Math.floor(page + m/2)` become `page - m / 2` and `page + m / 2`. Dafny's `/` with divisor 2 is floor division, so these are equal for every integer `m`.
- The dots flags and `previous`/`next` are `Option` values. They end as `true`/a number or `null`, never `false`.
- The window properties need `maxPageList == MAX_PAGE_LIST` (50), which every caller passes. The edge corrections use the constant, not the parameter. With a larger `maxPageList` the current page can fall outside the window. Staying inside `1..pagesCount` holds for any `maxPageList`.
- The window is not capped at `MAX_PAGE_LIST`: a mid-range window, or one moved to the right edge, lists `MAX_PAGE_LIST + 1` pages (page 60 of 100 gives 35..85, see `MidRangeExample`). The bound proved is `MAX_PAGE_LIST + 1`.
- The form of getNotificationEvents is an ordered sequence of `(key, value)` entries in `Object.keys` order. Keys starting with `triggerEvent` are never integer-like, so among them that order is insertion order. A value is truthy when it is a non-empty string.
- `Config.isEnabledPassport<X>` is modelled as "the key `security:passport-<x>:isEnabled` holds `"true"`". `updateNamespaceByArray` plus `updateConfigCache` is modelled as a map merge. How setting up a strategy ends is an oracle parameter, `SetupOutcome`. It is `Succeeds`, `Throws(message)` (the call throws while it runs) or `Rejects(message)` (the call returns a promise that rejects later).
- SAML/Google/GitHub/Twitter `await` the setup, so `Throws` and `Rejects` are both caught and rolled back.
- The LDAP handler calls the setup inside a `.then` callback without `return` or `await`. A throwing setup rejects the chain, and nothing catches it: the model returns `None` (no response is sent). A setup that rejects later goes unnoticed: the chain still answers `{status: true}`. In both cases the strategy stays `SetupAborted` (setup failed, no reset).
- securitySetting compares with `!= ''`, and `undefined != ''` is true in JavaScript. So on a public-wiki-only installation a form that lacks the Basic fields is refused (`MissingBasicFieldsRefused`).
- SMTP `secure` uses `=== 465`. A port that reaches it as the string `"465"` never sets `secure` (`TextPortNotSecure`). The app-settings form definition, which decides how the port is bound, is not part of this model.

## Model

| member | source | states |
|---|---|---|
| Pagination.CreatePager | src/server/routes/admin.js:32-86 | page, pagesCount and total echoed; previous is page-1 iff page > 1, next is page+1 iff page < pagesCount; pages is the ascending run of the window bounds; previousDots set iff the window starts after 1, nextDots iff it ends before pagesCount; the dots are never false |
| Pagination.WindowBounds | src/server/routes/admin.js:52-67 | for any window size, the corrected bounds never start below page 1 and never end after pagesCount |
| Pagination.RunShape | src/server/routes/admin.js:81-83 | the pushed list from lo to hi has hi-lo+1 entries (none if hi < lo) and its k-th entry is lo+k |
| Pagination.RunMembers | src/server/routes/admin.js:81-83 | a number is listed iff it lies between the window's first and last page |
| Pagination.WindowWithinPages | src/server/routes/admin.js:52-69 | every listed page lies in 1..pagesCount, and nothing is listed when pagesCount <= 0, for any window size |
| Pagination.WindowContainsPage | src/server/routes/admin.js:52-67 | with maxPageList == MAX_PAGE_LIST, the current page is listed whenever 1 <= page <= pagesCount |
| Pagination.WindowSize | src/server/routes/admin.js:55-67 | with maxPageList == MAX_PAGE_LIST, at most MAX_PAGE_LIST + 1 pages are listed |
| Pagination.FewPagesShowAll | src/server/routes/admin.js:54-79 | with maxPageList == MAX_PAGE_LIST and pagesCount <= MAX_PAGE_LIST, for any page the list is exactly 1..pagesCount and neither dots flag is set |
| Pagination.DotsMarkHiddenPages | src/server/routes/admin.js:71-79 | whenever there is at least one page, for any page, previousDots is set iff page 1 is not listed and nextDots iff the last page is not listed |
| Pagination.MidRangeExample | src/server/routes/admin.js:52-69 | page 60 of 100 lists 35..85, which is MAX_PAGE_LIST + 1 pages |
| Pagination.FirstPageExample | src/server/routes/admin.js:54-61 | page 1 of 50 lists 1..50 |
| StringToArray.Split | src/server/routes/admin.js:189 | split(',') yields one more segment than there are commas, none containing a comma |
| StringToArray.TrimStart | src/server/routes/admin.js:190 | result is a suffix that does not start with whitespace, preceded only by whitespace |
| StringToArray.TrimEnd | src/server/routes/admin.js:190 | result is a prefix that does not end with whitespace, followed only by whitespace |
| StringToArray.Trim | src/server/routes/admin.js:190 | the input is whitespace, then the result, then whitespace, and the result neither starts nor ends with whitespace |
| StringToArray.StringToArray | src/server/routes/admin.js:188-191 | one element per comma-separated segment (commas + 1), each the trimmed segment, none containing a comma or starting or ending with whitespace |
| StringToArray.JoinSplit | src/server/routes/admin.js:189 | joining the segments with commas gives back the input |
| StringToArray.SplitJoin | src/server/routes/admin.js:189 | splitting comma-free segments joined with commas gives back the segments |
| StringToArray.SplitNoComma | src/server/routes/admin.js:189 | a comma-free string is one segment |
| StringToArray.SplitAfter | src/server/routes/admin.js:189 | a comma-free prefix followed by a comma becomes the first segment |
| GlobalNotification.TriggerEventEntries | src/server/routes/admin.js:418 | the filtered keys are all triggerEvent keys and no more than the form's entries |
| GlobalNotification.GetNotificationEvents | src/server/routes/admin.js:416-425 | returns the truthy values of the triggerEvent keys in key order; at most one per matching key; none empty |
| GlobalNotification.NotificationEventsMembers | src/server/routes/admin.js:416-425 | a value is an event iff some entry with a triggerEvent key carries it and it is non-empty |
| GlobalNotification.NotificationEventsInOrder | src/server/routes/admin.js:419-423 | the events of a form split in two are the first part's events followed by the second's (key order kept) |
| GlobalNotification.DroppedEntry | src/server/routes/admin.js:418-422 | an entry with another key or an empty value contributes no event |
| GlobalNotification.TruthyValuesAppend | src/server/routes/admin.js:419-423 | pushing truthy values distributes over concatenation |
| GlobalNotification.TriggerEventEntriesAppend | src/server/routes/admin.js:418 | the key filter distributes over concatenation |
| PassportSettings.PassportAdmin.SecurityPassportSetting | src/server/routes/admin.js:1070-1181 | invalid form: status false with the joined errors and no config or strategy change; valid: settings merged into the config; strategy reset, then active iff enabled and setup succeeds; a setup that throws or rejects is reset again (left disabled) with status false and its message; never left half set up; other providers untouched |
| PassportSettings.PassportAdmin.SecurityPassportLdapSetting | src/server/routes/admin.js:1045-1068 | same as above up to setup; a failed setup is not rolled back (strategy left as the failed setup left it); a setup that throws leaves no response sent, one that rejects later is answered with status true |
| PassportSettings.PassportAdmin.SaveSetting | src/server/routes/admin.js:1452-1463 | the form's keys are merged into the crowi namespace |
| PassportSettings.PassportAdmin.ResetStrategy | src/server/routes/admin.js:1080-1081 | the provider's strategy is torn down, nothing else changes |
| PassportSettings.PassportAdmin.SetupStrategy | src/server/routes/admin.js:1082-1085 | the strategy becomes active when setup succeeds, and aborted when it throws or rejects |
| SecuritySettings.SecuritySetting | src/server/routes/admin.js:1018-1043 | saved iff the form is valid and, on a public-wiki-only installation, asks for neither Basic auth nor guest Deny; each refusal appends its own message to the validator's errors; status false on every refusal |
| SecuritySettings.MissingBasicFieldsRefused | src/server/routes/admin.js:1024-1026 | on a public-wiki-only installation a form without Basic fields is refused (undefined differs from '') |
| MailSettings.SmtpOptions | src/server/routes/admin.js:1467-1479 | host and port copied; auth present iff user and password are both truthy, carrying them; secure set (true) iff the port is the number 465 |
| MailSettings.TextPortNotSecure | src/server/routes/admin.js:1477-1479 | a port given as the string "465" does not set secure |

## Left out

- Rendering, redirects, flash messages and session handling: framework plumbing with no logic to state.
- Persistence (`Config.updateNamespaceByArray`, `updateConfigCache`, the User, UserGroup, Page, ExternalAccount and GlobalNotificationSetting models): their code is not part of this model. The crowi namespace write is a map merge.
- PassportSettings.PassportAdmin.SaveSetting: does not model a failing namespace write (the promise of saveSettingAsync rejecting). The handlers do not catch that failure, and the persistence layer that would produce it is not part of this model.
- The passport service's real reset and setup: external code. Setup success or failure is an oracle parameter.
- The user-delete cascade, group create/rename/delete, Slack OAuth, sending the test mail, file upload, importers, `crowi.xss.process`, search-index rebuild and socket events: external services, I/O and promise chains over unseen persistence.
- Async ordering and `Promise.all` joins: every modelled handler runs to completion in order.
- `src/server/form/admin/securityPassportSlack.js`: a declarative field list. Its trimming and boolean coercion live in a form library that is not part of this model.
- StringToArray.StringToArray: takes a string. The source throws a TypeError when the field is missing (`undefined.split`), and that case is not modelled.
- The other settings handlers (app, markdown, customize, notification) share the validate-then-save pattern. Only the security and passport handlers are modelled.
