# CrewPlanner reminder and notification fan-out, in Dafny

CrewPlanner is a team-planning web application. This project models its
engine for reminders and notifications, together with the rules those
parts depend on:

- the reminder sweep cron route (`ReminderSweep`) and the birthday cron
  route (`BirthdayCron`), with their shared bearer-secret check (`CronAuth`);
- the notification fan-out to members or admins and the read state
  (`Notifications`, `Store.CreateNotifications`);
- the web-push dispatcher with its cleanup of expired subscriptions (`Push`)
  and the subscribe and unsubscribe routes (`PushSubscribeRoute`,
  `PushUnsubscribeRoute`);
- the email dispatcher (`Emails`);
- the server actions that fan out: events and availability (`EventActions`),
  comments (`CommentActions`), posts (`PostActions`), tasks (`TaskActions`),
  user roles (`UserRoles`) and calendar tokens (`CalendarTokens`);
- session helpers (`Auth`) and display-name resolution (`UserDirectory`);
- the form schemas (`Schema`, `EventValidation`, `CommentValidation`,
  `PostValidation`, `TaskValidation`, `UserValidation`);
- the iCalendar feed serialiser (`ICal`);
- the participation statistics (`Stats`);
- the chat route's rate limiter (`ChatRateLimit`);
- the deadline-urgency badge (`EventCard`) and the relative-date label
  (`RelativeDate`).

The store is a class `Store.Db`. It holds one field per table: maps keyed
by id, or sequences where the order of rows matters. The actions and routes
are methods whose `modifies` clauses name exactly the tables they write.
Each route or action is specified by pure functions of the old state.
The fan-out, cleanup and sweep properties are proved as lemmas about
those functions.

Some inputs come from outside the program. They are parameters here:

- the clock (`now`);
- environment variables (the cron secret, the VAPID keys, the Resend key,
  the application URL);
- the identity provider's answers (user listings and lookups);
- the push transport's outcome per subscription (an oracle function);
- date parsing;
- a store fault position for the sweep;
- freshly generated ids and tokens.

## Model

| member | source | states |
|---|---|---|
| Auth.CurrentUserIdThrowsIffSignedOut | src/lib/auth.ts:3-7 | getCurrentUserId throws exactly when the session's user id is missing or empty, and otherwise returns that id |
| Auth.RoleDefaultsToMember | src/lib/auth.ts:11-15 | the role is the metadata role, or "member" when none is set |
| Auth.IsAdminIffAdminRole | src/lib/auth.ts:17-20 | isAdmin holds exactly when the role is "admin" |
| Auth.RequireAdminIffAdmin | src/lib/auth.ts:22-27 | requireAdmin returns the caller's id if and only if the caller has a non-empty user id and is an admin; every other case throws |
| CronAuth.UnsetSecretAdmitsLiteralHeader | src/app/api/cron/herinneringen/route.ts:8-11 | as written, with no CRON_SECRET the header "Bearer undefined" is accepted; the corrected check refuses it |
| CronAuth.AuthorizedNeedsSecret | src/app/api/cron/herinneringen/route.ts:8-11 | the corrected check authorises nothing without a configured secret, and agrees with the written check on every header once a secret is set |
| ReminderSweep.NonRespondersExact | src/app/api/cron/herinneringen/route.ts:43-46 | a user is a non-responder exactly when invited to the event and without an availability answer to it |
| ReminderSweep.AudienceIsInviteesMinusResponders | src/app/api/cron/herinneringen/route.ts:43-46 | the set of reminded users is the invitees minus the responders |
| ReminderSweep.SentBounded | src/app/api/cron/herinneringen/route.ts:92-98 | the `sent` counter grows by at most one per visited rule |
| ReminderSweep.SentFlagMonotone | src/app/api/cron/herinneringen/route.ts:50-53 | the sweep only sets `verzonden` to true and stamps `verzondenOp`; no other field changes and no rule is added or removed |
| ReminderSweep.SweepOnlyAppends | src/app/api/cron/herinneringen/route.ts:67-84 | rows already in the notification and log tables are never changed; the sweep only appends |
| ReminderSweep.RemindsOnlyNonResponders | src/app/api/cron/herinneringen/route.ts:58-84 | every user the sweep reminds, by log row, notification or mail, was invited to that event and had not answered; every notification is a HERINNERING about the event, by its creator |
| ReminderSweep.RemindersAreDue | src/app/api/cron/herinneringen/route.ts:35-40 | every log row, notification and mail is about an event that a visited rule made due (trigger instant reached) and whose date has not passed |
| ReminderSweep.QuietSweepIsNoOp | src/app/api/cron/herinneringen/route.ts:35-40 | visiting only rules that are not yet due or whose event is past writes nothing |
| ReminderSweep.SecondRunIsQuiet | src/app/api/cron/herinneringen/route.ts:17-18 | a second sweep at the same instant over the state the first left changes nothing, whether it starts from the first sweep's ledger or from fresh counters |
| ReminderSweep.VisitRule | src/app/api/cron/herinneringen/route.ts:31-93 | one loop iteration leaves the tables as the step function of the old state says |
| ReminderSweep.SweepLoaded | src/app/api/cron/herinneringen/route.ts:31-93 | the loop over the loaded rules, stopped at a store fault, leaves the state the sweep function gives for the rules it visited |
| ReminderSweep.Run | src/app/api/cron/herinneringen/route.ts:6-107 | 401 unless the corrected bearer check passes; otherwise the sweep over the unsent rules, reporting processed and sent, or 500 with the rules visited before the fault already written |
| BirthdayCron.RecipientsExact | src/app/api/cron/verjaardagen/route.ts:56-58 | a birthday person is never among their own recipients, and every other roster member is |
| BirthdayCron.NotifiedBounded | src/app/api/cron/verjaardagen/route.ts:41-86 | `notified` counts at most one per birthday person |
| BirthdayCron.GreetingsNotifyOthers | src/app/api/cron/verjaardagen/route.ts:62-71 | every notification the route writes is a VERJAARDAG row from a birthday person to another roster member; existing rows are kept |
| BirthdayCron.GreetAppendsRows | src/app/api/cron/verjaardagen/route.ts:62-71 | congratulating one person keeps existing rows and adds only VERJAARDAG rows from that person to others |
| BirthdayCron.GreetPushesRecipients | src/app/api/cron/verjaardagen/route.ts:74-80 | every push sent while congratulating a person goes to a registered subscription of another roster member |
| BirthdayCron.GreetOne | src/app/api/cron/verjaardagen/route.ts:43-85 | one loop iteration leaves the state the greeting function gives |
| BirthdayCron.Run | src/app/api/cron/verjaardagen/route.ts:5-99 | 401 unless the corrected bearer check passes; no birthday means no write; otherwise every birthday person is greeted in roster order |
| Notifications.MemberIdsExact | src/lib/actions/notifications.ts:58-60 | a member recipient is exactly a listed non-admin other than the actor |
| Notifications.AdminIdsExact | src/lib/actions/notifications.ts:99-101 | an admin recipient is exactly a listed admin other than the actor |
| Notifications.ActorNeverRecipient | src/lib/actions/notifications.ts:58-60 | the actor receives no notification from either broadcast |
| Notifications.RoleSplitPartitions | src/lib/actions/notifications.ts:58-60 | every listed user other than the actor lands in exactly one of the members list and the admins list |
| Notifications.BeyondLimitIgnored | src/lib/actions/notifications.ts:56 | users past the first 100 of the listing are never notified |
| Notifications.ReadOneScoped | src/lib/actions/notifications.ts:10-16 | markAsRead changes only the caller's row with that id, and only its read flag |
| Notifications.ReadAllScoped | src/lib/actions/notifications.ts:24-30 | markAllAsRead marks every row of the caller read and changes nothing else |
| Notifications.ReadAllIdempotent | src/lib/actions/notifications.ts:27-30 | marking everything read twice is the same as once |
| Notifications.MarkAsRead | src/lib/actions/notifications.ts:10-22 | fails without a signed-in user and writes nothing; otherwise the table becomes the scoped update |
| Notifications.MarkAllAsRead | src/lib/actions/notifications.ts:24-36 | fails without a signed-in user and writes nothing; otherwise the table becomes the scoped update |
| Notifications.NotifyMembers | src/lib/actions/notifications.ts:41-77 | appends one unread row per member recipient, in listing order; a failing listing appends nothing |
| Notifications.NotifyAdmins | src/lib/actions/notifications.ts:82-119 | appends one unread row per admin recipient, in listing order; a failing listing appends nothing |
| Store.CreateNotifications | src/lib/actions/notifications.ts:64-73 | createMany appends one unread row per recipient with the shared fields and fresh ids |
| Push.InitWebPush | src/lib/push.ts:6-23 | the flag is set once both VAPID keys are present, and is never cleared |
| Push.ExpiredIdsExact | src/lib/push.ts:59-63 | an id is collected exactly when a target with that id reported 404 or 410 |
| Push.CleanupRemovesExactlyGone | src/lib/push.ts:71-76 | deleting by the collected ids removes exactly the targeted subscriptions whose send reported 404 or 410 |
| Push.SurvivorsExact | src/lib/push.ts:40-76 | a subscription survives a dispatch if and only if it was not targeted or its send did not report 404 or 410 |
| Push.SendAll | src/lib/push.ts:49-69 | one send per target, in order, with the target's endpoint and keys and the payload; other failures do not stop the loop |
| Push.SendPushToUsers | src/lib/push.ts:36-77 | without keys nothing is sent or deleted; otherwise every subscription of the given users is sent to and the registry becomes the survivors |
| Push.NoTargetsNoEffect | src/lib/push.ts:44 | with no subscription for the given users nothing is sent and nothing is deleted |
| PushSubscribeRoute.UpsertOneRowPerEndpoint | src/app/api/push/subscribe/route.ts:17-30 | after the upsert the endpoint has exactly one subscription, the caller's, with the new keys; ids and endpoints stay unique |
| PushSubscribeRoute.UpsertOthersUnchanged | src/app/api/push/subscribe/route.ts:17-30 | subscriptions with another endpoint are untouched |
| PushSubscribeRoute.ResubscribeIsNoOp | src/app/api/push/subscribe/route.ts:17-30 | subscribing the same endpoint again with the same keys changes nothing |
| PushSubscribeRoute.Post | src/app/api/push/subscribe/route.ts:5-33 | 401 without a user id or with an empty one, 400 without endpoint or keys, otherwise the upsert and 200; only a 200 writes |
| PushUnsubscribeRoute.RemoveMatchingExact | src/app/api/push/unsubscribe/route.ts:17-19 | exactly the subscriptions of the caller for that endpoint are removed; another user's subscription to it survives |
| PushUnsubscribeRoute.RemoveMatchingIdempotent | src/app/api/push/unsubscribe/route.ts:17-19 | unsubscribing twice is the same as once |
| PushUnsubscribeRoute.Post | src/app/api/push/unsubscribe/route.ts:5-22 | 401 without a user id or with an empty one, 400 without an endpoint, otherwise the deletion and 200 even when nothing matched |
| Emails.AddressesExact | src/lib/actions/emails.ts:46-48 | each looked-up user contributes exactly their first address when it is non-empty, and no address comes from anywhere else |
| Emails.SendBatch | src/lib/actions/emails.ts:26-62 | no request without an API key, after a failed lookup, or with no address; otherwise one batch message per address |
| Emails.BatchGoesToLookedUpUsers | src/lib/actions/emails.ts:92-105 | every batch address is the first address of a looked-up user, and a batch has no more messages than users looked up |
| Emails.SendTaskAssignedEmail | src/lib/actions/emails.ts:120-143 | at most one message, to the first address of the first user the lookup returns |
| EventActions.UpsertOneAnswerPerKey | src/lib/actions/events.ts:102-120 | after the upsert the user has exactly one answer for the event, the new one; a resubmission adds no row; the key stays unique |
| EventActions.UpsertOthersUnchanged | src/lib/actions/events.ts:102-120 | answers of other users, or for other events, are untouched |
| EventActions.LastAnswerWins | src/lib/actions/events.ts:109-113 | answering twice is the same as giving only the second answer |
| EventActions.AnsweredIsNotReminded | src/lib/actions/events.ts:102-120 | once a user has answered, the reminder sweep no longer counts them as a non-responder |
| EventActions.SetAvailability | src/lib/actions/events.ts:92-144 | fails and writes nothing without a user or a valid form; otherwise upserts the answer and notifies the admins other than the caller |
| EventActions.BuildEvent | src/lib/actions/events.ts:18-31 | the row exists exactly when every date parses; fields are copied, empty optional strings become null |
| EventActions.CreateEvent | src/lib/actions/events.ts:12-47 | admins only; a valid form stores the event and notifies the members other than the creator |
| EventActions.UpdateEvent | src/lib/actions/events.ts:49-77 | admins only; the form's fields replace the stored ones, the creator and creation time stay |
| EventActions.DeleteEvent | src/lib/actions/events.ts:79-90 | admins only; the event goes with its invitations, answers, reminder rules and logs |
| CommentActions.PreviewShape | src/lib/actions/comments.ts:39 | the preview is the text when at most 60 characters, otherwise its first 60 plus "..."; never longer than 63 |
| CommentActions.CommentGoesToTheOtherSide | src/lib/actions/comments.ts:40-59 | an admin's comment reaches only non-admins, a member's only admins, never the author |
| CommentActions.AudiencesDisjoint | src/lib/actions/comments.ts:40-59 | with unique user ids nobody is in both audiences |
| CommentActions.AddComment | src/lib/actions/comments.ts:18-68 | stores the comment for a valid form and then notifies the other side; a failing role lookup reports failure with the comment already stored |
| CommentActions.DeleteComment | src/lib/actions/comments.ts:70-95 | succeeds exactly when the comment exists and the caller is its author or an admin; otherwise nothing is deleted |
| PostActions.SubmissionDefaults | src/lib/actions/posts.ts:25-30 | a post is pinned exactly when the field is "true", and a missing attachment list is empty |
| PostActions.StaleUrlsExact | src/lib/actions/posts.ts:85-90 | a blob URL is deleted exactly when an old attachment had it and the new list does not |
| PostActions.FilesReplaced | src/lib/actions/posts.ts:93-112 | after the update the post's file rows are exactly the submitted list, in order; other posts' rows stay |
| PostActions.CollectStaleUrls | src/lib/actions/posts.ts:85-90 | the loop collects the stale URLs in the order of the old attachments |
| PostActions.CreatePost | src/lib/actions/posts.ts:18-64 | admins only; the post and its file rows are stored together and the members other than the author are notified |
| PostActions.UpdatePost | src/lib/actions/posts.ts:66-121 | admins only; stale blobs are deleted, the fields replaced and the file rows replaced by the submitted list |
| PostActions.DeletePost | src/lib/actions/posts.ts:123-141 | admins only; every attachment's blob is deleted, then the post with its file rows |
| TaskActions.TransitionsAdvance | src/lib/actions/tasks.ts:53-63 | claim succeeds exactly on an OPEN task and completion exactly on a task not yet AFGEROND; each raises the status and changes only status, claimer and completion time |
| TaskActions.StatusMonotone | src/lib/actions/tasks.ts:55 | whatever requests arrive, the status never moves backwards and an AFGEROND task never changes again |
| TaskActions.AtMostTwoChanges | src/lib/actions/tasks.ts:55 | a task changes at most twice: claimed at most once and completed at most once |
| TaskActions.ClaimTask | src/lib/actions/tasks.ts:49-81 | claims an OPEN task for the caller and notifies the admins; any other status is refused without a write |
| TaskActions.CompleteTask | src/lib/actions/tasks.ts:83-116 | completes a task not yet AFGEROND, keeping its claimer or recording the caller, and notifies the admins |
| TaskActions.NewTask | src/lib/actions/tasks.ts:13-31 | the new task is OPEN, unclaimed and not completed; it exists exactly when the deadline is absent or parses |
| TaskActions.CreateTask | src/lib/actions/tasks.ts:10-47 | admins only; a valid form stores the task and notifies the members other than the creator |
| TaskActions.DeleteTask | src/lib/actions/tasks.ts:118-129 | admins only; the task is removed |
| TaskActions.GroupTitle | src/lib/actions/tasks.ts:134-135 | the stored title is the trimmed field, and is refused exactly when the field is absent or blank |
| TaskActions.CreateTaskGroup | src/lib/actions/tasks.ts:131-147 | admins only; a blank title is refused, otherwise the group is stored with the trimmed title |
| TaskActions.DeleteTaskGroup | src/lib/actions/tasks.ts:149-161 | admins only; the group is removed |
| UserRoles.WithRoleExact | src/lib/actions/users.ts:20-23 | after a role change the target's records carry exactly the requested role, and every other record is untouched |
| UserRoles.CallerKeepsAdmin | src/lib/actions/users.ts:15-18 | any role change the guard allows leaves the calling admin an admin |
| UserRoles.SetUserRole | src/lib/actions/users.ts:8-30 | admins only; self-demotion refused; an unknown user is a provider error; only a success writes |
| CalendarTokens.TokenOfExact | src/lib/actions/calendar.ts:9-11 | a user's token is found exactly when a row of theirs exists, and it is that row's token |
| CalendarTokens.GetOrCreateExact | src/lib/actions/calendar.ts:6-20 | afterwards the user has exactly one token, the one returned; an existing token is kept and nothing is written |
| CalendarTokens.GetOrCreateStable | src/lib/actions/calendar.ts:9-13 | asking again returns the same token and writes nothing |
| CalendarTokens.RegenerateExact | src/lib/actions/calendar.ts:22-34 | after regenerating the user has exactly one token, the new one; other users' rows stay |
| CalendarTokens.GetOrCreateCalendarToken | src/lib/actions/calendar.ts:6-20 | throws without a user; otherwise the table and the returned token are the get-or-create result |
| CalendarTokens.RegenerateCalendarToken | src/lib/actions/calendar.ts:22-34 | throws without a user; otherwise the table becomes the regenerated one |
| UserDirectory.FullNameShape | src/lib/users.ts:24-26 | the full name is never empty: "Onbekend" when both parts are empty, otherwise the non-empty parts joined by one space |
| UserDirectory.InitialsShape | src/lib/users.ts:27-30 | initials have one or two upper-cased characters, the first of each non-empty part, and "?" when there are none |
| UserDirectory.DedupExact | src/lib/users.ts:13 | de-duplication keeps exactly the ids given, each once |
| UserDirectory.ResolveUsers | src/lib/users.ts:12-43 | no query for an empty list; otherwise the de-duplicated ids are asked for and every returned user is in the map under their own id |
| UserDirectory.ResolveUser | src/lib/users.ts:45-48 | None exactly when the provider returned no user with that id |
| EventValidation.EventTypeNames | src/lib/validations/events.ts:4 | the enumeration accepts exactly the four names, each naming its own type |
| EventValidation.ParseEventExact | src/lib/validations/events.ts:3-11 | the schema accepts exactly the forms of in-bounds event data and passes every accepted value through unchanged |
| EventValidation.UnavailableNeedsReason | src/lib/validations/events.ts:21-24 | an accepted "niet beschikbaar" carries a reason that is not blank; a missing or blank reason is rejected |
| EventValidation.OtherStatusesNeedNoReason | src/lib/validations/events.ts:23 | "beschikbaar" and "twijfel" are accepted without a reason |
| EventValidation.AvailabilityRejections | src/lib/validations/events.ts:17-19 | a reason over 500 characters, an empty event id or an unknown status is rejected |
| CommentValidation.ParseComment | src/lib/validations/comments.ts:3-7 | accepts exactly a known parent type, a non-empty parent id and 1..2000 characters of content, passed through |
| CommentValidation.WhitespaceOnlyContentPasses | src/lib/validations/comments.ts:6 | length is checked on the untrimmed text: every form with a valid parent and 1..2000 characters of whitespace only, which trims to nothing, is accepted with that content |
| PostValidation.ParsePost | src/lib/validations/posts.ts:3-8 | accepts exactly a title of 1..200 characters, non-empty content and a known category; `gepind` defaults to false |
| PostValidation.ContentUnbounded | src/lib/validations/posts.ts:5 | with any valid title and category, every non-empty content is accepted and kept, whatever its length |
| TaskValidation.TaskOptionalFieldsFree | src/lib/validations/tasks.ts:6-8 | deadline, group and assignee never change the verdict |
| UserValidation.ParseMember | src/lib/validations/users.ts:3-12 | accepts exactly in-bound names, a valid e-mail and in-bound address fields, passed through with their defaults |
| UserValidation.MemberDefaults | src/lib/validations/users.ts:7-11 | the optional fields may all be absent; in every accepted form an absent address field or birth date becomes "", an absent manager flag false, and any non-empty flag true |
| UserValidation.ProfileAcceptsMemberPart | src/lib/validations/users.ts:29-36 | the profile schema accepts the name and address part of every accepted member form, with the same values |
| ICal.TimeOfDayExact | src/lib/ical.ts:5-7 | hour, minute and second are in range and, with the day number and milliseconds, give back the instant |
| ICal.TwoDigitsRoundTrip | src/lib/ical.ts:5-7 | a two-digit field reads back as the number written |
| ICal.PartsShape | src/lib/ical.ts:5-7 | the date part is eight digits and the time part six, each field in its place |
| ICal.FormatUtcShape | src/lib/ical.ts:5-7 | a four-digit year gives YYYYMMDDTHHMMSSZ: 16 characters, 'T' at index 8, 'Z' last, digits elsewhere |
| ICal.FormatICalDateShape | src/lib/ical.ts:5-7 | the basic form has 16 characters and its time part reads back as the instant's UTC time of day |
| ICal.EscapeChainIsPerCharacter | src/lib/ical.ts:9-15 | the chain of four replacements escapes each character on its own |
| ICal.EscapeOneCharacter | src/lib/ical.ts:9-15 | backslash, semicolon and comma get a backslash, a line feed becomes `\n`, anything else is kept |
| ICal.UnescapeEscape | src/lib/ical.ts:9-15 | decoding per section 3.3.11 of RFC 5545 gives the original text back |
| ICal.EscapeInjective | src/lib/ical.ts:9-15 | distinct texts never share an escape |
| ICal.EscapeLeavesNoLineFeed | src/lib/ical.ts:9-15 | an escaped text holds no line feed, and a carriage return only where the input has one |
| ICal.FoldLine | src/lib/ical.ts:17-28 | the loop builds the pieces of the fold: the first 75 characters, then a space and the next 74, joined by CRLF |
| ICal.FoldPartsShape | src/lib/ical.ts:17-28 | a short line stays; otherwise no physical line exceeds 75 characters and each continuation starts with a space |
| ICal.ChunksShape | src/lib/ical.ts:23-26 | each continuation piece is a space followed by 1..74 characters |
| ICal.UnfoldFold | src/lib/ical.ts:17-28 | unfolding per section 3.1 of RFC 5545 gives back a line without carriage returns |
| ICal.FoldShortOrLong | src/lib/ical.ts:17-28 | a fold leaves a line of at most 75 characters alone and makes a longer one longer still |
| ICal.PushBlock | src/lib/ical.ts:50-71 | pushes BEGIN:VEVENT, each content line folded, and END:VEVENT |
| ICal.PushEvent | src/lib/ical.ts:47-72 | pushes exactly one event's block |
| ICal.GenerateICalFeed | src/lib/ical.ts:35-77 | the feed is the header, the events' blocks in input order and END:VCALENDAR, joined by CRLF |
| ICal.EventPropertiesShape | src/lib/ical.ts:47-72 | DTEND, DESCRIPTION and LOCATION appear exactly when the field is set, carrying it; UID, DTSTAMP and DTSTART come first and URL and CATEGORIES last |
| ICal.EventBlockShape | src/lib/ical.ts:47-72 | a block opens with BEGIN:VEVENT, closes with END:VEVENT and holds the folded line of each property in between |
| ICal.FeedShape | src/lib/ical.ts:36-76 | the feed opens with the eight header lines, ends with END:VCALENDAR and holds the blocks in input order |
| ICal.OneBlockPerEvent | src/lib/ical.ts:47-72 | there is exactly one BEGIN:VEVENT line per event |
| Stats.FirstAppearancesExact | src/lib/queries/stats.ts:25-28 | every key appears exactly once among the groups, and nothing else does |
| Stats.GroupByUserExact | src/lib/queries/stats.ts:25-28 | one group per distinct key, holding that key's row count, which is at least one |
| Stats.CollectResponses | src/lib/queries/stats.ts:38-45 | the loop fills the map the tally function of all rows gives |
| Stats.ResponsesExact | src/lib/queries/stats.ts:38-45 | a member's tally counts exactly their rows of each status, and the three counts add up to their rows |
| Stats.CollectCounts | src/lib/queries/stats.ts:48-56 | the map holds exactly the grouped users, each with their group's count |
| Stats.OpkomstRounded | src/lib/queries/stats.ts:67-69 | the percentage is 100·b/u rounded to the nearest whole number, halves up, and at most 100 when b <= u |
| Stats.MemberParticipationStats | src/lib/queries/stats.ts:23-72 | one row per invited member, with their invitation count, answer tally, reminder count (0 when none) and rounded percentage |
| Stats.TaskCompletionStats | src/lib/queries/stats.ts:74-90 | one entry exactly per member who claimed a finished task, counting those tasks; unclaimed tasks are not counted |
| ChatRateLimit.CheckCharacterised | src/app/api/chat/route.ts:12-27 | a call is denied exactly when the caller's window is open and holds 50 calls; a new window starts at count 1; an allowed call inside the window adds one |
| ChatRateLimit.CheckKeepsOthersAndRange | src/app/api/chat/route.ts:14-25 | other users' entries are never touched, and counts stay in 1..50 |
| ChatRateLimit.WindowBound | src/app/api/chat/route.ts:21-26 | inside an open window at most 50 minus the current count further calls are allowed |
| ChatRateLimit.AtMostFiftyPerWindow | src/app/api/chat/route.ts:10-25 | a call that opens a window, followed by any calls up to its end, gets at most 50 through |
| ChatRateLimit.RateLimiter.CheckRateLimit | src/app/api/chat/route.ts:12-27 | the limiter's map and verdict are those of the check function |
| ChatRateLimit.Gate | src/app/api/chat/route.ts:29-40 | 401 without a user id or with an empty one, and no change; otherwise 429 exactly when the check denies |
| RelativeDate.CeilDaysExact | src/lib/utils.ts:41-42 | the rounded-up day count d is the one whole number with (d-1) days < diff <= d days |
| RelativeDate.RelatieveDatumByDistance | src/lib/utils.ts:38-50 | the label by distance: "Vandaag", "Morgen", "Gisteren", day counts within a week, the short date beyond |
| RelativeDate.RelatieveDatumWithinWeek | src/lib/utils.ts:47-48 | within a week ahead the label counts the days to go, within a week back the days gone |
| EventCard.LowRateIsBelowHalf | src/components/events/event-card.tsx:30-33 | a rate below 0.3 is also below one half |
| EventCard.DeadlineUrgencyExact | src/components/events/event-card.tsx:21-36 | the urgency in closed form by days left, response rate and the conflict rule |
| EventCard.DaysUntilReference | src/components/events/event-card.tsx:15-19 | the reference date is the availability deadline when set, else the event date, and the days left are rounded up |
| EventCard.NotRespondedExact | src/components/events/event-card.tsx:45 | never negative; with the answers it makes up the invitations while answers are fewer, and is zero once they are not |

## Left out

- Time zones and daylight saving: instants are integer milliseconds. The
  birthday route's local month and day are a `CivilDate` the caller passes.
  The reminder trigger adds whole days of 86 400 000 ms where the source
  uses `setDate`.
- UTF-16: strings are sequences of characters, and lengths (schema bounds,
  the 60-character preview, the 75-character fold) count characters, not
  UTF-16 code units.
- Locale formatting (`formatDatumKort`, `formatDatum`) is a parameter.
  Upper- and lower-casing cover ASCII letters only.
- Floating point: `Math.round(b / u * 100)` is modelled as exact half-up
  rounding of the rational 100·b/u. For some inputs the floating-point
  product lands just below a half, where the model rounds up.
- Floating point: the rate comparisons `< 0.5` and `< 0.3` are integer
  cross-multiplications.
- Concurrency: `Promise.all` and `Promise.allSettled` are sequential loops.
  Overlapping cron runs and interleaved actions are not modelled. The sweep
  takes no per-rule claim, so two overlapping runs could both remind for one
  rule; the model does not show this.
- Push: the transport's outcome is one function for the whole of a route
  run. Within one birthday run a subscription's send therefore ends the same
  way for every birthday person; a fate that changes between sends is not
  modelled.
- ReminderSweep.Run: a store failure is modelled only between rules, as a
  fault position. A failure in the middle of one rule's writes is not
  modelled.
- BirthdayCron.Run: the route's 500 path (a failing roster query or
  notification insert) is not modelled. A push failure is absorbed, as in
  the source.
- Email templates, HTML rendering and the email service's reply are not
  modelled; the result is the request that would be made. JSON parse
  errors of request bodies are not modelled.
- `getResponseTimelinessStats` is not part of this model: it averages
  floating-point hours.
- The assistant behind the chat route (model calls, tools, streaming) is
  not modelled; only the rate-limit gate is.
- Database cascades are not part of this model: the schema file is not
  available. DeleteEvent deletes the event's invitations, answers, reminder
  rules and logs together; DeletePost deletes its file rows;
  DeleteTaskGroup leaves the group's tasks in place.
- The blob store is an output list of deleted URLs. The application URL is
  a parameter.
- ICal.FormatICalDateShape: the 16-character shape is proved only for years
  0..9999. `IsoYear` renders other years in `toISOString`'s six-digit signed
  form, but no shape lemma covers them.
- UserDirectory.ResolveUsers: when the provider returns two records with
  one id, the contract says only that the entry is one of them, not which.
- The sweep has one kind of rule: it fires at event creation plus
  `dagenNaAanmaak` whole days (src/app/api/cron/herinneringen/route.ts:35-36).
- A rule whose event is already past is skipped and stays unsent
  (src/app/api/cron/herinneringen/route.ts:40); later sweeps load it again
  and skip it again.
- Emails: addresses come from the identity provider's lookup only
  (src/lib/actions/emails.ts:39-48).
- Emails.BatchGoesToLookedUpUsers: the provider's answer is a parameter
  that is not tied to the requested user ids. A provider that returned extra
  records would get mail sent to them as well.
- ReminderSweep.Run: gates on the corrected bearer check
  `CronAuth.Authorized`, not on the comparison as written at
  src/app/api/cron/herinneringen/route.ts:9. The two differ only when
  CRON_SECRET is unset or empty (`CronAuth.AuthorizedNeedsSecret`). Then the
  code runs the sweep for the header `Bearer undefined` or `Bearer `, and the
  model answers 401.
- BirthdayCron.Run: gates on the corrected bearer check in the same way. It
  differs from src/app/api/cron/verjaardagen/route.ts:8 only when CRON_SECRET
  is unset or empty.
- EventActions.CreateEvent writes no invitations or reminder rules,
  because the source's createEvent does not write them either.
- Push: `initWebPush` also logs a warning when keys are missing, and
  failed sends are logged. Logging is not modelled.

## Findings

| source | as written | input that shows it | evidently intended | confidence | as-written member | corrected member |
|---|---|---|---|---|---|---|
| src/app/api/cron/herinneringen/route.ts:8-11 | the header is compared with the template literal `Bearer ${CRON_SECRET}` (the same check is at src/app/api/cron/verjaardagen/route.ts:7-10), which renders an unset secret as the text "undefined" | CRON_SECRET unset and the header `Bearer undefined` | refuse every request when no secret is configured | not executed | CronAuth.UnsetSecretAdmitsLiteralHeader | CronAuth.AuthorizedNeedsSecret |
