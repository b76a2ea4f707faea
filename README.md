# Theia relay: a Dafny model

Theia is an iMessage relay assistant. The user (identified by a phone number)
sets an availability status. Messages from contacts are then relayed to the
user, marked urgent, or answered automatically with a signed reply. The user
sends relay commands back (`@target send: …`, `reply: …`, `/status …`,
`/digest`). Every relay is written to a relay log, and the digest summarises
that log per counterpart.

This project models the core of that system and proves properties of the model:

- the relay manager of `lib/relay` and the vocabulary it uses;
- the `new-message` handler of the bot script;
- the directive store and draft body of `src/relay`;
- identifier normalisation and get-or-create contact resolution;
- the validation-error formatter.

The store (Supabase or drizzle) is modelled as fields of classes and as
sequences of rows. The clock, the generated UUIDs and ids, and the language
model's answer are parameters. Store and transport failures are modelled as
a `reachable` flag and as a set of failing send attempts.

Modules, one per file:

| file | module | models |
|---|---|---|
| `wrappers.dfy` | `Wrappers` | `Option` and `Result` |
| `text.dfy` | `Text` | JavaScript `trim`, `\s`, `toLowerCase` (ASCII), `includes`, `startsWith`, `split`, `join`, number rendering |
| `relay_types.dfy` | `RelayTypes` | `lib/types/relay.ts`: enums, the log record and its schema checks, `URGENT_KEYWORDS`, `STATUS_MESSAGES` |
| `relay_commands.dfy` | `RelayCommands` | `parseRelayCommand` and its two regular expressions, as scanners |
| `urgency.dfy` | `Urgency` | `detectUrgency` |
| `digest.dfy` | `Digest` | the window, the `reduce` of `getDigest` as a function, and the digest text |
| `digest_builder.dfy` | `DigestBuilder` | the `reduce` and the `for` loop of `getDigest`, as loops |
| `relay_manager.dfy` | `Relay` | class `RelayManager`: status, preferences, auto-respond decision, signing, relay log, last sender, digest |
| `theia_bot.dfy` | `TheiaBot` | the `new-message` handler: the plan of effects of each branch, its execution with failures, and the handler as methods over the manager and a `Transport` |
| `directive.dfy` | `Directive` | `getDirective`, `setSendPolicy` (class `DirectiveStore`), `generateDraftBodyForContact` |
| `identifiers.dfy` | `Identifiers` | `normalizeIdentifier` |
| `resolve_contact.dfy` | `ResolveContact` | `resolveContactId` over the contacts and identifiers tables (class `ContactDirectory`) |
| `validation.dfy` | `Validation` | `formatZodError` |

The bot handler is modelled in three layers:

- `Plan` gives the effects each branch attempts, in order.
- `Run` and `Handle` say what those effects change. A failed send or a failed
  status write stops the run, and the handler then sends one error message.
- `HandleNewMessage` and its branch methods mutate a `RelayManager` and a
  `Transport`. Each method is proved to leave exactly the state that
  `Handle` computes.

Where the code and the written description of the system differ, the model
follows the code:

- The auto-response log record has `to_user` equal to the sender.
- The auto-response goes to the event's own chat guid, which is kept as an
  opaque contact-chat field.
- The status check is "one of the five enum values", because the
  `UserStatusSchema` that `lib/relay/relay-manager.ts` imports is not defined
  in `lib/types/relay.ts`.
- The draft body is only the truncation to six lines. It strips no emoji.
- Contact resolution uses the abstract key (workspace, type, value) that the
  code queries, not the schema's column names.

## Model

| member | source | states |
|---|---|---|
| RelayTypes.ParseStatus | lib/types/relay.ts:9 | only the five enum spellings parse: a parsed status is named by the input, and a refused input names no status |
| RelayTypes.ParseStatusName | lib/types/relay.ts:9 | every status's name parses back to that status |
| RelayTypes.ParseMethod | lib/types/relay.ts:13 | only `manual`, `auto` and `urgent` parse, each to the method it names |
| RelayTypes.IsUuid | lib/types/relay.ts:17-18 | `z.string().uuid()`: 36 characters, hyphens at 8, 13, 18 and 23, hex digits elsewhere |
| RelayTypes.ValidRecord | lib/types/relay.ts:16-28 | the schema's checks beyond field types: the conversation id, and the id when present, are UUIDs |
| RelayTypes.UrgentKeywordsShape | lib/types/relay.ts:46-58 | eleven keywords, each lower case, without whitespace and at least three characters long; `now` and `911` are among them |
| RelayTypes.StatusMessagesDomain | lib/types/relay.ts:60-65 | there is a status message for exactly the statuses other than `available` |
| Text.ToLower | lib/relay/relay-manager.ts:118 | lower-casing keeps the length and lowers each ASCII capital in place |
| Text.ToLowerIdempotent | src/lib/theiachat/identifiers.ts:13 | lower-casing twice is lower-casing once |
| Text.Trim | lib/relay/relay-manager.ts:94-95 | the trimmed text is no longer than the input and neither starts nor ends with whitespace |
| Text.TrimShape | lib/relay/relay-manager.ts:94-95 | the trimmed text is an infix of the input with only whitespace around it |
| Text.TrimIdempotent | src/lib/theiachat/identifiers.ts:15 | trimming twice is trimming once |
| Text.TrimIgnoresSurrounding | src/lib/theiachat/identifiers.ts:15 | whitespace added before and after a text does not change its trim |
| Text.TrimToLower | src/lib/theiachat/identifiers.ts:13 | trimming and lower-casing commute |
| Text.ContainsIff | lib/relay/relay-manager.ts:121 | the `includes` scan holds exactly when the word occurs at some position |
| Text.ContainsSurvivesTrim | lib/relay/relay-manager.ts:226-230 | a non-empty word without whitespace that occurs in a text still occurs after trimming |
| Text.CountIfMono | lib/relay/relay-manager.ts:131-132 | counting by a weaker test never gives less |
| Text.SplitWhitespace | scripts/theia-bot.ts:63 | `split(/\s+/)` yields at least one piece, and no piece holds whitespace |
| Text.SplitOn | src/relay/RelayManager.ts:70 | a split yields at least one piece, and no piece holds the separator |
| Text.SplitJoin | src/relay/RelayManager.ts:70 | splitting the join of separator-free parts gives the parts back |
| Text.JoinSplit | src/relay/RelayManager.ts:70 | joining the pieces of a split gives the text back |
| Text.TrimKeepsPrefix | src/relay/RelayManager.ts:66 | trimming keeps a prefix that starts and ends with a non-whitespace character |
| Text.NatToString | lib/relay/relay-manager.ts:314 | a number renders as a non-empty string of decimal digits that starts with `0` only for zero |
| RelayCommands.ParseRelayCommand | lib/relay/relay-manager.ts:86-110 | the parser never yields a broadcast, and a reply always has an empty target |
| RelayCommands.TargetRun | lib/relay/relay-manager.ts:90 | the target capture is the longest prefix of `[\w+-]` characters |
| RelayCommands.TailCapture | lib/relay/relay-manager.ts:90 | `\s*(.+)$` with the `s` flag matches exactly when something follows |
| RelayCommands.TailCaptureTrim | lib/relay/relay-manager.ts:95 | the trimmed capture equals the trimmed tail |
| RelayCommands.SendShapeParses | lib/relay/relay-manager.ts:89-97 | every `@target<whitespace>send:<rest>` text (keyword in any case, `rest` non-empty) parses to a send to that target with the trimmed rest |
| RelayCommands.SendParsesFromShape | lib/relay/relay-manager.ts:89-97 | conversely, every parsed send comes from a text of that shape |
| RelayCommands.ParseSendMatch | lib/relay/relay-manager.ts:90-96 | a parsed send holds the trimmed captures of the send match |
| RelayCommands.ReplyShapeParses | lib/relay/relay-manager.ts:99-107 | every `reply:<rest>` text with a non-empty rest parses to a reply with the trimmed rest, unless the send form matches first |
| RelayCommands.ReplyParsesFromShape | lib/relay/relay-manager.ts:99-107 | conversely, every parsed reply comes from `reply:<rest>` |
| RelayCommands.SlashIsNoCommand | lib/relay/relay-manager.ts:86-110 | a text starting with `/` is not a relay command |
| RelayCommands.ExampleSend | lib/relay/relay-manager.ts:89-97 | `@henry Send: call me` is a send of `call me` to `henry` |
| Urgency.HasKeyword | lib/relay/relay-manager.ts:121 | true exactly when some keyword occurs in the text |
| Urgency.DetectUrgency | lib/relay/relay-manager.ts:115-138 | the empty text is never urgent |
| Urgency.DetectUrgencyIff | lib/relay/relay-manager.ts:115-138 | urgent exactly when a keyword occurs as a substring of the lower-cased text, or it holds three `!`, or more than ten letters of which more than half are capitals |
| Urgency.BangCountIsMultiplicity | lib/relay/relay-manager.ts:126 | the `!` count is the multiplicity of `!` |
| Urgency.CapsAtMostLetters | lib/relay/relay-manager.ts:131-132 | there are never more capitals than letters |
| Urgency.KeywordMakesUrgent | lib/relay/relay-manager.ts:118-123 | a keyword anywhere, in any ASCII case, makes the text urgent |
| Urgency.BangsMakeUrgent | lib/relay/relay-manager.ts:126-128 | three exclamation marks make any text urgent |
| Urgency.CapsRuleNeedsSixCapitals | lib/relay/relay-manager.ts:131-135 | the caps rule needs at least eleven letters and six capitals |
| Urgency.ShortTextNotUrgent | lib/relay/relay-manager.ts:115-138 | a text of at most two characters is never urgent |
| Urgency.ExampleKnowIsUrgent | lib/relay/relay-manager.ts:121 | `I know` is urgent, because the keyword test matches substrings |
| Relay.RelayManager.GetStatus | lib/relay/relay-manager.ts:35-54 | a status other than `available` only comes from a reachable store whose row names it; a stored valid status is returned as is |
| Relay.RelayManager.SetStatus | lib/relay/relay-manager.ts:59-81 | succeeds exactly when the store is reachable; the row then names the status, so `GetStatus` returns it; nothing else changes |
| Relay.RelayManager.PreferenceOf | lib/relay/relay-manager.ts:152-159 | there is a preference exactly when the store is reachable and has a row for the contact |
| Relay.AutoRespondDecision | lib/relay/relay-manager.ts:143-178 | auto-respond exactly when the message is not urgent, the contact has not opted out, and the status is not `available` |
| Relay.RelayManager.ShouldAutoRespond | lib/relay/relay-manager.ts:143-178 | the same decision, stated over `DetectUrgency`, the stored preference and `GetStatus` |
| Relay.RelayManager.UnreachableNeverAutoResponds | lib/relay/relay-manager.ts:143-178 | with the store down nothing is answered automatically |
| Relay.SignReply | lib/relay/relay-manager.ts:225-235 | a generated text without `Theia` gets the signature appended; one with it is trimmed |
| Relay.SignatureHasTheia | lib/relay/relay-manager.ts:227 | the signature contains `Theia` |
| Relay.SignedReplyHasTheia | lib/relay/relay-manager.ts:225-235 | every reply contains `Theia`, the fallback included |
| Relay.LastToYou | lib/relay/relay-manager.ts:261-278 | the newest record addressed to the user; no later record is addressed to the user; none found means no record is |
| Relay.LastSenderIn | lib/relay/relay-manager.ts:261-278 | there is a last sender exactly when a record is addressed to the user, and it is that record's sender |
| Relay.LastSenderAfterAppend | lib/relay/relay-manager.ts:261-278 | a new record to the user makes its sender the last sender; any other record changes nothing |
| Relay.StoredRecord | lib/relay/relay-manager.ts:241-248 | the stored record keeps the conversation id, or takes the fresh one when it is empty; it gets the store's timestamp; every other field is unchanged |
| Relay.RelayManager.LogRelay | lib/relay/relay-manager.ts:241-256 | the record is appended exactly when the store is reachable and the record passes the schema; nothing else changes |
| Relay.RelayManager.GetLastSender | lib/relay/relay-manager.ts:261-278 | a last sender is known exactly when the store is reachable and some record is addressed to the user; it is the sender of the newest such record |
| Relay.LoggedSenderIsLast | lib/relay/relay-manager.ts:261-278 | after a record to the user is logged, its sender is the last sender |
| Relay.RelayManager.IsFromYou | lib/relay/relay-manager.ts:28-30 | a message is the user's when the transport marks it as sent by this account or its sender is the user's phone |
| Relay.RelayManager.DigestAt | lib/relay/relay-manager.ts:283-328 | the digest of the last `hoursBack` hours: the no-messages text when the store is down, otherwise the digest text of the window; its properties are those of `Digest.DigestText` stated by the `Digest` lemmas |
| Relay.RelayManager.GetDigest | lib/relay/relay-manager.ts:283-328 | the digest built by the loops equals the digest text of the window, in which a counterpart named like an inherited `Object` property gets no line |
| Digest.Counterpart | lib/relay/relay-manager.ts:299 | the key of a record: its recipient when the user sent it, otherwise its sender |
| Digest.InWindow | lib/relay/relay-manager.ts:289 | a record is in the window when its timestamp is at or after `since` |
| Digest.Window | lib/relay/relay-manager.ts:285-291 | the window holds the log records at or after `since`, each as many times as in the log, and no others |
| Digest.WindowNewestFirst | lib/relay/relay-manager.ts:285-291 | the window is the selected records in reverse write order, so the newest written comes first |
| Digest.FindKey | lib/relay/relay-manager.ts:300 | the first tally with the key, or the end when there is none |
| Digest.AddRecord | lib/relay/relay-manager.ts:298-311 | one step of the `reduce` over an object that starts as `{}`; its effect is stated by `Digest.AddRecordShape` |
| Digest.AddRecordShape | lib/relay/relay-manager.ts:298-310 | a counterpart named like an inherited `Object` property (`constructor`, `toString`, …) makes `!acc[sender]` false, and the step adds no tally; otherwise the step raises the counters of the record's counterpart (urgent and auto-responded only when flagged), a new key is added at the end, and other tallies are unchanged |
| Digest.Tallies | lib/relay/relay-manager.ts:298-311 | there are never more tallies than records |
| Digest.TalliesCover | lib/relay/relay-manager.ts:298-311 | a counterpart has a tally exactly when some record counts under it and its name is not an inherited `Object` property |
| Digest.TalliesDistinct | lib/relay/relay-manager.ts:298-311 | no counterpart has two tallies |
| Digest.TalliesMatch | lib/relay/relay-manager.ts:298-311 | each tally's count, urgent count and auto count equal reference counts over the records |
| Digest.TalliesSum | lib/relay/relay-manager.ts:298-314 | the tally counts plus the records under inherited names add up to the total number of messages |
| Digest.PrototypeNameGetsNoLine | lib/relay/relay-manager.ts:298-323 | one message from the user to `constructor` gives no tally, and the digest is the header and `Total: 1 messages` with no line for it |
| Digest.UrgentAtMostCount | lib/relay/relay-manager.ts:308 | no counterpart has more urgent messages than messages |
| Digest.AutoAtMostCount | lib/relay/relay-manager.ts:309 | no counterpart has more auto-responded messages than messages |
| Digest.TallyLineEnd | lib/relay/relay-manager.ts:317-320 | a digest line is non-empty and does not end in whitespace |
| Digest.TallyLine | lib/relay/relay-manager.ts:317-320 | the line of one counterpart: bullet, key, count, and the urgent and auto counts when non-zero; stated by `Digest.TallyLineEnd` |
| Digest.RenderTallies | lib/relay/relay-manager.ts:316-321 | one line per tally, in order, each ended by a newline; stated by `DigestBuilder.AppendLines` |
| Digest.DigestText | lib/relay/relay-manager.ts:293-323 | the digest of a window: the no-messages text for an empty one, otherwise header, total and lines, trimmed; stated by the two lemmas below |
| Digest.DigestTrimsLastNewline | lib/relay/relay-manager.ts:313-323 | when some counterpart has a tally, the final `trim` removes only the last newline |
| Digest.OnlyInheritedDigest | lib/relay/relay-manager.ts:293-323 | a non-empty window without tallies gives the header and the total line alone |
| DigestBuilder.AccumulateTallies | lib/relay/relay-manager.ts:298-311 | the loop computes the tallies of the `reduce`, skipping counterparts named like inherited `Object` properties |
| DigestBuilder.BumpTally | lib/relay/relay-manager.ts:300-310 | for a counterpart that is an own key, the loop body does one `reduce` step: the tally is created at the end on first sight and its counters raised |
| DigestBuilder.AppendLines | lib/relay/relay-manager.ts:313-321 | the loop appends one rendered line per tally, in order |
| TheiaBot.SenderOf | scripts/theia-bot.ts:182 | the contact is the handle's address when it is a non-empty string, otherwise `unknown` |
| TheiaBot.StatusPlan | scripts/theia-bot.ts:62-93 | the `/status` branch of the plan; stated by `TheiaBot.StatusPlanShape` and `TheiaBot.StatusChangesOnlyByCommand` |
| TheiaBot.ReplyPlan | scripts/theia-bot.ts:113-146 | the `reply:` branch of the plan; stated by `TheiaBot.ReplyGoesToLastSender` and `TheiaBot.ReplyWithoutLastSender` |
| TheiaBot.SendPlan | scripts/theia-bot.ts:148-171 | the send branch of the plan; stated by `TheiaBot.SendCommand` |
| TheiaBot.OwnPlan | scripts/theia-bot.ts:58-176 | scenario 1 of the plan: `/status`, then `/digest`, then the relay commands, else nothing; stated by `TheiaBot.OwnPlanShape` and the command lemmas |
| TheiaBot.UrgentPlan | scripts/theia-bot.ts:185-208 | the urgent branch of the plan; stated by `TheiaBot.UrgentIsAlwaysRelayed` |
| TheiaBot.AutoPlan | scripts/theia-bot.ts:210-243 | the auto-response branch of the plan; stated by `TheiaBot.AutoResponseIsSigned` |
| TheiaBot.ForwardPlan | scripts/theia-bot.ts:244-266 | the forward branch of the plan; stated by `TheiaBot.ContactMessageLoggedOnce` |
| TheiaBot.ContactPlan | scripts/theia-bot.ts:181-267 | scenario 2 of the plan: urgent first, then auto-response, else forward; stated by `TheiaBot.ContactPlanShape` |
| TheiaBot.Plan | scripts/theia-bot.ts:38-267 | the effects attempted for an event: none without text or chat, scenario 1 for the user's own messages, scenario 2 otherwise; stated by `TheiaBot.PlanWellShaped` |
| TheiaBot.Run | scripts/theia-bot.ts:38-267 | the effects of a plan in order, up to the first that throws; stated by `TheiaBot.HealthyRun` and `TheiaBot.FailedRunLogsNothing` |
| TheiaBot.Handle | scripts/theia-bot.ts:38-282 | the run, then after a failure one more send of the error text to the user; stated by `TheiaBot.FailureReportedOnce` |
| TheiaBot.Handled | scripts/theia-bot.ts:38-282 | the state the handler leaves for an event; `TheiaBot.HandleNewMessage` is proved to leave it |
| TheiaBot.Transport.SendMessage | scripts/theia-bot.ts:192-195 | a send either goes out and is appended to the outbox, or throws; it counts one attempt either way |
| TheiaBot.Step | scripts/theia-bot.ts:38-282 | only a send consumes a send attempt |
| TheiaBot.HandleStatus | scripts/theia-bot.ts:62-93 | the `/status` branch leaves exactly the state of running its plan; preferences and reachability are unchanged |
| TheiaBot.HandleReply | scripts/theia-bot.ts:113-146 | the reply branch leaves exactly the state of running its plan |
| TheiaBot.HandleSend | scripts/theia-bot.ts:148-171 | the send branch leaves exactly the state of running its plan |
| TheiaBot.HandleOwnMessage | scripts/theia-bot.ts:58-176 | a message from the user leaves exactly the state of running its plan |
| TheiaBot.HandleUrgent | scripts/theia-bot.ts:185-208 | the urgent branch leaves exactly the state of running its plan |
| TheiaBot.HandleAutoResponse | scripts/theia-bot.ts:210-243 | the auto-response branch leaves exactly the state of running its plan |
| TheiaBot.HandleForward | scripts/theia-bot.ts:244-266 | the forward branch leaves exactly the state of running its plan |
| TheiaBot.HandleContactMessage | scripts/theia-bot.ts:181-267 | a contact's message leaves exactly the state of running its plan |
| TheiaBot.HandleNewMessage | scripts/theia-bot.ts:38-282 | the handler leaves exactly the state of `Handle` on the plan of the event, error message included |
| TheiaBot.StatusPlanShape | scripts/theia-bot.ts:62-93 | `/status` writes a status exactly when the second word is a status and not `check`; it writes that word and then sends one confirmation to the user's chat; otherwise it only sends one answer there |
| TheiaBot.ReplyPlanShape | scripts/theia-bot.ts:113-146 | the reply branch never writes the status, and its plan is well shaped |
| TheiaBot.SendPlanShape | scripts/theia-bot.ts:148-171 | the send branch never writes the status, and its plan is well shaped |
| TheiaBot.OwnPlanShape | scripts/theia-bot.ts:58-176 | a message from the user has a well-shaped plan, with a status write only under `/status` |
| TheiaBot.ContactPlanShape | scripts/theia-bot.ts:181-267 | a contact's message has a well-shaped plan without a status write |
| TheiaBot.PlanWellShaped | scripts/theia-bot.ts:38-282 | every plan has at most three effects: a status write only first, a log record only last, sends between |
| TheiaBot.DroppedEventChangesNothing | scripts/theia-bot.ts:40-52 | an event with an empty text or no chat changes nothing |
| TheiaBot.RunKeepsStatusRow | scripts/theia-bot.ts:38-267 | a run without a status write keeps the status row |
| TheiaBot.HandleKeepsRunStatusRow | scripts/theia-bot.ts:268-281 | the error message after a failure does not touch the status row |
| TheiaBot.StatusChangesOnlyByCommand | scripts/theia-bot.ts:62-86 | the status row changes only for the user's own `/status <status>`, and then it names that status |
| TheiaBot.FailedRunLogsNothing | scripts/theia-bot.ts:38-267 | a run that fails stops before its log record |
| TheiaBot.FailedHandlingLogsNothing | scripts/theia-bot.ts:268-281 | a message whose handling fails is never logged |
| TheiaBot.HealthyStep | scripts/theia-bot.ts:38-267 | with the store up and the send going through, an effect appends its message and stored record |
| TheiaBot.HealthyRun | scripts/theia-bot.ts:38-267 | with the store up and no send failing, a run does not fail, and it appends all the plan's messages and records, in order |
| TheiaBot.HealthyHandling | scripts/theia-bot.ts:38-267 | with the store up and the next three sends going through, the handler sends every message of the plan and stores its records |
| TheiaBot.UrgentIsAlwaysRelayed | scripts/theia-bot.ts:185-208 | whatever the status and preferences, an urgent contact message is first relayed to the user |
| TheiaBot.ContactMessageLoggedOnce | scripts/theia-bot.ts:181-267 | a contact's message yields exactly one log record, placed last; its method is urgent, auto or manual according to the rule that applied |
| TheiaBot.AutoResponseIsSigned | scripts/theia-bot.ts:213-223 | an automatic answer goes to the contact's chat and contains `Theia` |
| TheiaBot.ReplyGoesToLastSender | scripts/theia-bot.ts:113-126 | `reply:` sends the message to the chat of whoever last wrote to the user |
| TheiaBot.OwnChatterChangesNothing | scripts/theia-bot.ts:58-176 | a message from the user that is neither `/status`, `/digest` nor a relay command has no effect at all |
| TheiaBot.ReplyWithoutLastSender | scripts/theia-bot.ts:113-146 | `reply:` with no last sender, or an empty one, sends exactly `No recent conversation` to the chat and logs nothing |
| TheiaBot.DigestCommand | scripts/theia-bot.ts:96-105 | `/digest` sends the two-hour digest to the chat and does nothing else |
| TheiaBot.FailureReportedOnce | scripts/theia-bot.ts:268-281 | after a failure exactly one more send is attempted, to the user's chat with the error text; whether it fails changes nothing else |
| TheiaBot.SendCommand | scripts/theia-bot.ts:148-171 | `@target send: m` sends `m` to `any;-;target`, then confirms to the chat, then logs a manual relay from the user to the target |
| TheiaBot.SendCommandTakesEffect | scripts/theia-bot.ts:148-171 | with the store up and both sends going through, the two messages are sent in that order and the manual record is stored; the status row is unchanged |
| TheiaBot.RelayedSenderBecomesLastSender | scripts/theia-bot.ts:185-266 | a relayed (urgent or forwarded) message, handled with the store up, makes its sender the last sender |
| Directive.PolicyNameInjective | src/relay/RelayManager.ts:5 | the two policies have different names |
| Directive.DirectiveOf | src/relay/RelayManager.ts:23-27 | no row gives no status, the `draft` policy and no context; otherwise status and context are the first row's, and a policy other than `draft` is the first row's |
| Directive.DirectiveStore.GetDirective | src/relay/RelayManager.ts:15-28 | an error exactly when the store is down; otherwise the directive of the first row |
| Directive.UpdateTouchesOnlyPolicy | src/relay/RelayManager.ts:39-46 | an update keeps the table's size and changes only the policy, of the rows sharing the first row's id |
| Directive.UpdateOnlyFirstRow | src/relay/RelayManager.ts:30-50 | with unique ids only the first row's policy changes |
| Directive.InsertsExactlyOne | src/relay/RelayManager.ts:48-49 | with no row, or a first row without a truthy id, exactly one row is inserted at the end, holding only the policy |
| Directive.SetThenGet | src/relay/RelayManager.ts:15-50 | after setting the policy, reading gives that policy with the old status and context |
| Directive.FalsyIdHidesWrite | src/relay/RelayManager.ts:32-49 | with a first row that has no truthy id, the write is invisible to the read |
| Directive.SetPolicyIdempotent | src/relay/RelayManager.ts:30-50 | setting the same policy twice is setting it once |
| Directive.DirectiveStore.SetSendPolicy | src/relay/RelayManager.ts:30-50 | fails, writing nothing, exactly when the store is down; otherwise leaves the update-or-insert table |
| Directive.SetPolicyOn | src/relay/RelayManager.ts:30-50 | the table after `setSendPolicy`; stated by the three lemmas above and by `Directive.SetThenGet` |
| Directive.Seed | src/relay/RelayManager.ts:63-66 | the trimmed context, status and incoming lines; stated by `Directive.SeedStarts` |
| Directive.DraftBody | src/relay/RelayManager.ts:53-71 | the first six lines of the seed; stated by `Directive.DraftLines` and the lemmas below |
| Directive.StripCR | src/relay/RelayManager.ts:70 | dropping the `\r` adds no line break and leaves a piece without `\r` as it is |
| Directive.Lines | src/relay/RelayManager.ts:70 | `split(/\r?\n/)` yields at least one line, and no line holds `\n` |
| Directive.Take | src/relay/RelayManager.ts:70 | `slice(0, n)` is the prefix of length `min(n, length)` |
| Directive.LineBreaks | src/relay/RelayManager.ts:70 | both `\n` and `\r\n` end a line |
| Directive.LinesWithoutCR | src/relay/RelayManager.ts:70 | without `\r`, the lines are the pieces of a split on `\n` |
| Directive.DraftLines | src/relay/RelayManager.ts:66-70 | the draft's lines are the seed's first lines, at most six |
| Directive.ShortSeedIsDraft | src/relay/RelayManager.ts:63-70 | a seed of at most six lines and without `\r` is the draft itself |
| Directive.SeedStarts | src/relay/RelayManager.ts:63-66 | the seed starts with the context label, else the status label, else `Incoming:` |
| Directive.DraftStarts | src/relay/RelayManager.ts:63-70 | so does the draft |
| Directive.DraftContextIff | src/relay/RelayManager.ts:63-70 | the draft starts with `Context: ` exactly when the context is truthy |
| Directive.DraftStatusIff | src/relay/RelayManager.ts:63-70 | without a context, the draft starts with `Status: ` exactly when the status is truthy |
| Identifiers.RemoveWhitespace | src/lib/theiachat/identifiers.ts:14 | the result holds no whitespace and is no longer than the input |
| Identifiers.RemoveWhitespaceOfClean | src/lib/theiachat/identifiers.ts:14 | a text without whitespace is unchanged |
| Identifiers.RemoveWhitespaceAppend | src/lib/theiachat/identifiers.ts:14 | removing whitespace distributes over concatenation |
| Identifiers.RemoveWhitespaceOfBlank | src/lib/theiachat/identifiers.ts:14 | a blank text disappears |
| Identifiers.Normalize | src/lib/theiachat/identifiers.ts:12-16 | the type is kept; a phone has no whitespace; an email has no ASCII capital; the other types are trimmed |
| Identifiers.NormalizeIdempotent | src/lib/theiachat/identifiers.ts:12-16 | normalising twice is normalising once |
| Identifiers.EmailCaseIgnored | src/lib/theiachat/identifiers.ts:13 | emails that differ only in letter case normalise alike |
| Identifiers.SurroundingWhitespaceIgnored | src/lib/theiachat/identifiers.ts:12-16 | whitespace around a value never matters, whatever the type |
| Identifiers.PhoneSpacingIgnored | src/lib/theiachat/identifiers.ts:14 | phones that differ only in inner whitespace normalise alike |
| Identifiers.ExampleCase | src/lib/theiachat/identifiers.ts:13-15 | an external id keeps its case, and an email is lowered |
| ResolveContact.ResolveOn | src/lib/theiachat/resolve-contact.ts:12-52 | the tables and id one call leaves; stated by the lemmas below |
| ResolveContact.FirstMatch | src/lib/theiachat/resolve-contact.ts:20-30 | the first row matching workspace, type and value; none found means no row matches |
| ResolveContact.ExistingIffMatch | src/lib/theiachat/resolve-contact.ts:20-32 | in well-formed tables a lookup hits exactly when some row matches |
| ResolveContact.ResolveFindsExisting | src/lib/theiachat/resolve-contact.ts:20-32 | a hit inserts nothing and returns the contact of the first row matching the normalised identifier |
| ResolveContact.ResolveCreates | src/lib/theiachat/resolve-contact.ts:34-51 | a miss inserts one contact in the workspace, with the display name, and one identifier row holding the normalised value and pointing to it, and returns the new id |
| ResolveContact.ResolveKeepsWellFormed | src/lib/theiachat/resolve-contact.ts:18-51 | resolution keeps every identifier row normalised, non-empty and pointing to a contact of its own workspace, with contact ids unique |
| ResolveContact.ResolvedInWorkspace | src/lib/theiachat/resolve-contact.ts:20-51 | the id returned names a contact of the workspace asked about |
| ResolveContact.ResolveRepeat | src/lib/theiachat/resolve-contact.ts:20-51 | a repeated call returns the same id, and neither table grows |
| ResolveContact.OtherWorkspaceUnaffected | src/lib/theiachat/resolve-contact.ts:25 | resolving in one workspace leaves every other workspace's lookups unchanged |
| ResolveContact.WorkspacesDoNotShare | src/lib/theiachat/resolve-contact.ts:20-51 | the same identifier resolved in two workspaces yields two distinct contacts |
| ResolveContact.EmailsResolveAlike | src/lib/theiachat/resolve-contact.ts:18 | emails that differ only in letter case resolve alike |
| ResolveContact.SurroundingWhitespaceResolvesAlike | src/lib/theiachat/resolve-contact.ts:18 | surrounding whitespace never changes the resolution |
| ResolveContact.PhonesResolveAlike | src/lib/theiachat/resolve-contact.ts:18 | phones that differ only in spacing resolve alike |
| ResolveContact.ContactDirectory.ResolveContactId | src/lib/theiachat/resolve-contact.ts:12-52 | the select-then-insert code leaves exactly the tables and id of the resolution |
| Validation.SegmentText | src/lib/utils/validation.ts:11 | a key renders as its name, and an index as a non-empty run of decimal digits |
| Validation.PathText | src/lib/utils/validation.ts:11 | the path's segments joined by `.`; stated by `Validation.PathOnOneLine` and `Validation.ExamplePath` |
| Validation.IssueLine | src/lib/utils/validation.ts:11 | every issue line starts with `  - ` |
| Validation.IssueLines | src/lib/utils/validation.ts:10-11 | one line per issue, in the issues' order |
| Validation.FormatZodError | src/lib/utils/validation.ts:9-12 | the message starts with `<context>:` and a newline |
| Validation.NoIssuesIsHeader | src/lib/utils/validation.ts:9-12 | with no issues the message is the header alone |
| Validation.DefaultHeader | src/lib/utils/validation.ts:9 | the default context is `Validation` |
| Validation.PathOnOneLine | src/lib/utils/validation.ts:11 | a path whose names hold no newline renders on one line |
| Validation.FormatLines | src/lib/utils/validation.ts:10-12 | split at newlines, the message is the header and then one line per issue, in order; without issues, the header and an empty line |
| Validation.ExamplePath | src/lib/utils/validation.ts:11 | `[user, 0, email]` renders as `user.0.email` |

## Left out

- The language model: `generateText`, the profile query and the prompt are not modelled. The generated text is a parameter (`None` when the call throws), so `STATUS_MESSAGES` appears only as data.
- I/O and the environment are not modelled: the SDK connection, the event handlers other than `new-message`, signal handling and console logging (including `sendToContact` in `src/relay/RelayManager.ts`).
- Parameters instead of sources: the clock (`now`, in milliseconds, with a timestamp as an integer), `crypto.randomUUID`, the ids the store assigns, and the texts of thrown errors.
- Store faults are one `reachable` flag per store: every query either works or fails. A store that fails some queries and not others is not modelled.
- `toLowerCase` is modelled on ASCII letters only. Unicode case mapping has no Dafny counterpart here.
- `Digest.Tallies`: groups appear in first-seen order. JavaScript's `Object.entries` would list integer-like keys first. Inherited `Object` property names are modelled as the fixed set `InheritedKeys`; names made inherited by code outside the core are not.
- `Digest.Window`: newest first is taken as the reverse of the log's write order (`Digest.WindowNewestFirst`). Records written out of timestamp order, and ties in `created_at`, are not modelled.
- `Relay.LastToYou`: the query orders by `created_at` descending (`lib/relay/relay-manager.ts:268-269`); the model takes the last-written record, so write order stands for timestamp order. `Relay.RelayManager.GetLastSender` inherits this.
- The `sender` field: `isFromYou` and the preference query read `msg.sender`, but the `MessageResponse` type delivered with `new-message` (`lib/types/message.ts:64-118`) declares no such field. The model keeps it as an opaque event field. When the transport leaves it out it stands for a value that is never the user's phone: `isFromYou` is then `isFromMe`, and the preference row looked up for `undefined` is taken as missing.
- The `catch` branch of `getDigest`: its error text needs an exception, and the model raises none there.
- The `metadata` field of a relay record, and the `updated_at` column of `setStatus`, are not modelled.
- `initializeUser` is not modelled: the handler never calls it.
- Emoji and mojibake strings are kept literally as constants, and their byte form is not modelled.
- `resolveContactId`: store errors, and a missing returned row (`insertedContacts[0]!`), are not modelled. The tables are taken as always reachable.
- `TheiaBot.Step`: its own contract states only the attempt count. Its effects are stated by `TheiaBot.HealthyStep` and by the handler lemmas.
