# Scuttlebot: models of its in-memory protocols

Scuttlebot is an IRC-based coordination server for agents and people. Around
its network plumbing it runs a number of small protocols that live in memory:
limiters, a relay filter, a rotating log store, a connector's reconnect loop, an
agent registry, message buffers, a report printer and its parser. This project
models those protocols in Dafny and proves what they keep over every run.

Each component has its own module. Where the program changes state step by step, the
module holds a class (or a method with a loop) that does the same, and its
contract ties the new state to a function of the old one; the theorems about
whole runs are then lemmas about that function. Where goroutines interleave
(the audit throttle, the IRC connector), the module holds a state machine whose steps
are the program's critical sections, the theorems hold for every order of those
steps, and the class shows that an uninterrupted call is a run of the machine.

| module | component |
|---|---|
| AuditThrottle, AuditBot, AuditEntries, AuditSerial, AuditBurst, AuditArrivals, AuditOverlap | the auditbot's fixed-window throttle with drop summaries |
| Connector, ConnectorRecovery | the IRC connector's Connect, dial, keepAlive, Touch and Close |
| TokenLedger, Herald | herald's token bucket, routing and delivery counters |
| RelayFilter, RelayVerdicts, RelayBudget, RelayPosts, RelayRounds, RelayWorstCase, RelayDelivery | claude-relay's handoff budgets and poll cursor |
| Wrapping, MirrorText, GreedyCuts, GreedyWrap | claude-relay's line wrapping |
| IncidentText, Incidents, IncidentFields, CommandRouting, Moderation, ModerationRuns | sentinel's reports and steward's reading of them, with the command router in between |
| Cooldown | the pruned cooldown maps of sentinel, steward and snitch |
| Windows, WindowSets, WindowTimes | the sliding windows of the login limiter and snitch |
| Buffers, Bridge, BridgeQueues | the two "last N" buffers and the bridge's fan-out |
| ScribeStore, ScribeNames, ScribeQuery, ScribeAnswers, ScribeRotation | scribe's rotating file store and its queries |
| Registry, RegistryRuns, RegistryAdmission, RegistryRemovals, TouchTimes, RegistryTouches, RegistrySaves | the agent registry, its database rows and its account server |
| AgentModes, AgentLevels, AgentWords, AgentMerges | the reconciliation of ChanServ AMODE entries |
| Seqs, Strings, Options | shared sequence and string functions |

Times are integers in nanoseconds (seconds in Connector, real seconds in
Herald). Clocks, generated passphrases, the account server's answers, the order
in which a Go map is ranged over and the result of an unstable sort are
parameters or nondeterministic choices, so every theorem holds whatever they are.
A theorem that needs a clock that never goes back says so in its requires clauses.

Where what the program does differs from what one would expect of it, the model follows
the program, and lemmas say what holds instead and, where the expectation holds on some
inputs, exactly on which:

- Of the audit events of one type whose clock readings lie within one window length, at
  most 2*Max are admitted by a window that had opened by their reading. Calls that do not
  overlap admit at most 2*Max - 1 in all. Overlapping ones also admit late events, by
  windows that opened after their reading: at most one when calls take the mutex in the
  order of their readings, and without that order any number, for every rule.
- The comment at cmd/claude-relay/main.go:1312-1314 has each operator message grant its
  hops once. But a post in a poll that accepts nothing is processed, and grants, again in
  the next. When the lists keep what is unread, every post on a channel grants once if and
  only if each poll before the last that processes one accepts something, in particular
  when every post there is addressed to the relay. Then hops number at most a grant for
  each post and one more; otherwise at most two grants for each and one more, which is
  reached for every grant and every number of posts.
- A message addressed to the relay and listed is lost if and only if it was first listed
  when the cursor had reached it, or was refused for want of budget by a poll that
  accepted something else.
- A bridge subscription made before the channel has a buffer never receives anything. The
  one caller joins first (internal/api/chat.go:222, then :235), so there it takes a
  LeaveChannel in between.
- Registering or adopting an agent whose config passes validation but cannot be
  written as JSON (a NaN or infinite number) reports failure after the agent and its
  passphrase are in place. This is latent: configs that come through the API are
  decoded from JSON and hold no such number, so only other Go callers can meet it.
- Reaping an agent that was not revoked leaves its last credential working. An agent marked
  online by a listing is not reaped, however long ago it was seen, until another listing.
- Registration insists that the ops channels are among the channels
  (internal/registry/engagement.go:80); new channels given later are stored unchecked, and
  the configs stay sound exactly when the new ones are sound and leave out no ops channel.
- The handler that updates an agent takes the record at internal/api/agents.go:258 and
  stores it at :295 or :316. A Revoke and a new Register of the nick in between make it
  store the old record over the new one: the nick is then revoked, while its account holds
  a passphrase that was handed out. An Update keeps credentials right if and only if it
  leaves the stored agent's revocation as it is.
- The stored last-seen time is up to date if and only if no touch less than a minute after
  the one before has come since the row was last written; between other writes, an agent
  that reports more often than once a minute is not written at all.
- A reload loses every agent's skills, which have no column.
- Pruning a cooldown map can change a decision once the cooldown exceeds a day and a nanosecond.
- The line wrapper looks for the last space among a line's first 360 characters, so a word
  that ends exactly at the limit moves to the next line.
- A posted incident reads back exactly only for a trimmed channel name without a bar.
- A mute whose channel name holds a colon is lifted in the wrong place.
- The comments of internal/api/agents.go name four prefixes that never get +o;
  the code checks three, so an `openclaw-` operator gets it.
- Two passes over one nick at once can leave it both op and voice on a channel, when its
  record declares different levels to them.
- With per-channel files, a file-store query for the empty channel reads one file only.
- With size rotation a query sees only what was written since the last rotation, so it
  agrees with the in-memory store if and only if every entry wanted was.

## Model

| member | source | states |
|---|---|---|
| AuditThrottle.StepKeepsInv | internal/bots/auditbot/auditbot.go:429-480 | Every critical section of recordPresence, taken by any call at any time, keeps drops accounted for, entries matched to calls, counts at most Max and admissions bounded per window, for every event type |
| AuditThrottle.EveryEventIsAccountedFor | internal/bots/auditbot/auditbot.go:407-480 | In every interleaving: offered = stored + reported in summaries + held by summaries in flight + pending in the bucket + unfinished calls, and dropped = reported + held + pending: no drop is lost or reported twice |
| AuditThrottle.QuiescentLogIsComplete | internal/bots/auditbot/auditbot.go:407-480 | Once every call of a type has returned, the log and the bucket account for every event offered |
| AuditThrottle.AdmissionsPerWindow | internal/bots/auditbot/auditbot.go:447-469 | In every interleaving a bucket's count never exceeds Max and a type is admitted at most Max times per window opened |
| AuditThrottle.RelockAlwaysEnabled | internal/bots/auditbot/auditbot.go:455-462 | A call that unlocked to write a summary always finds its bucket when it locks again |
| AuditBot.Bot.RecordPresence | internal/bots/auditbot/auditbot.go:409-423 | An uninterrupted call is a run of the machine that offers the event and ends filtered, logged or discarded: filtered exactly when types are configured and its own is not among them, and logged with a last entry that carries the channel, nick, type and detail passed in |
| AuditEntries.LogTellsEvents | internal/bots/auditbot/auditbot.go:409-423 | In every interleaving the presence entries of the log tell, in the order and with the times of their writes, the channel, nick, type and detail of the events whose calls are logged, each once; and with no audit types configured nothing is filtered, otherwise exactly the types not listed |
| AuditEntries.SummariesTellWindow | internal/bots/auditbot/auditbot.go:474-480 | In every interleaving every other entry is a summary of a positive number of drops of a capped type, with that type's configured window, or five minutes when it has none |
| AuditBot.Bot.ThrottleAdmit | internal/bots/auditbot/auditbot.go:429-470 | An uninterrupted call is a run of its critical sections and decides as the settled bucket does |
| AuditBot.Bot.AdmitFirst | internal/bots/auditbot/auditbot.go:430-460 | The part up to the first unlock is the machine's Lock step |
| AuditBot.Bot.AdmitSecond | internal/bots/auditbot/auditbot.go:459-470 | The part after taking the mutex again is the machine's Relock step |
| AuditBot.Bot.AdmitLocked | internal/bots/auditbot/auditbot.go:462-469 | Counts the event while there is room, drops it otherwise, and changes nothing else |
| AuditBot.Bot.AdmitAfterRollover | internal/bots/auditbot/auditbot.go:455-470 | After a rollover: a summary exactly when drops were held, then the decision |
| AuditBot.Bot.WriteThrottleSummary | internal/bots/auditbot/auditbot.go:474-480 | Appends one entry that reports the held drops, the machine's Summarise step |
| AuditBot.Bot.Write | internal/bots/auditbot/auditbot.go:490-509 | Appends the stamped entry to the store, and `recent` is the last 100 of its history |
| AuditBot.Bot.SetThrottle | internal/bots/auditbot/auditbot.go:165-173 | Replaces the rules and forgets every bucket, leaving store and recent entries alone |
| AuditBurst.BurstBound | internal/bots/auditbot/auditbot.go:429-470 | Calls that do not overlap: at most 2*Max - 1 events of a type are admitted in any half-open interval as long as the window (Max when the window is one nanosecond) |
| AuditBurst.BurstBoundIsTight | internal/bots/auditbot/auditbot.go:429-470 | No smaller bound holds, for any rule |
| AuditOverlap.StepKeepsWindows | internal/bots/auditbot/auditbot.go:439-470 | Every critical section, taken by any call at any time, keeps window starts at least a window apart, at most Max admitted per window, and no call judged by a window that ended before its clock reading |
| AuditOverlap.OverlappingBurstBound | internal/bots/auditbot/auditbot.go:429-470 | In every interleaving, of the events that read their clock in an interval as long as the window at most 2*Max are admitted on time (Max for a window of one nanosecond), every further one by a window that opened after its reading |
| AuditOverlap.LockOrderedBurstBound | internal/bots/auditbot/auditbot.go:439-470 | When calls of the type take the mutex in the order of their readings, at most one of those is late |
| AuditOverlap.LockOrderedBoundIsTight | internal/bots/auditbot/auditbot.go:455-465 | For every rule some such interleaving reaches that bound |
| AuditOverlap.OvertakingHasNoBound | internal/bots/auditbot/auditbot.go:439-448 | For every rule and every n some run whose clock readings never go back admits more than n events that read their clock within one window length |
| Connector.StepKeepsInv | pkg/sessionrelay/irc.go:114-311 | Every step of Connect, dial, keepAlive, Touch and Close keeps every client accounted for, held by one goroutine at most, and nothing installed once closed |
| Connector.EveryClientIsAccountedFor | pkg/sessionrelay/irc.go:227-253 | In every interleaving each client ever created is the installed one, has had Close called, or is held by exactly one goroutine |
| Connector.ClosedStaysEmpty | pkg/sessionrelay/irc.go:548-563 | After Close has set the flag no later step of any goroutine installs a client |
| Connector.NoClientOutlivesClose | pkg/sessionrelay/irc.go:227-253 | When the connector is closed and no goroutine holds a client, every client ever created has had Close called |
| Connector.BackoffStaysInRange | pkg/sessionrelay/irc.go:258-311 | The backoff stays between two and thirty seconds in every interleaving |
| Connector.BackoffDoubles | pkg/sessionrelay/irc.go:258-311 | From a fresh backoff, any n failed attempts in a row, refused credentials or lost connections in any mix, are a run that leaves keepAlive at 2^(n+1) seconds, capped at thirty |
| Connector.IrcConnector.DialLocked | pkg/sessionrelay/irc.go:230-242 | dial's critical section is the machine's Install step |
| Connector.IrcConnector.Dial | pkg/sessionrelay/irc.go:149-254 | An uninterrupted dial is a run, after which the new client is installed or closed |
| Connector.IrcConnector.DetachLocked | pkg/sessionrelay/irc.go:272-275 | keepAlive's critical section is the machine's Detach step |
| Connector.IrcConnector.RetireLost | pkg/sessionrelay/irc.go:264-279 | From a received error to the backoff: the installed client is out and closed |
| Connector.IrcConnector.ShutTaken | pkg/sessionrelay/irc.go:276-279 | Closes the client taken out, if there was one, outside the mutex |
| Connector.IrcConnector.CloseLocked | pkg/sessionrelay/irc.go:550-554 | Close's critical section is the machine's TakeForClose step |
| Connector.IrcConnector.Close | pkg/sessionrelay/irc.go:548-563 | An uninterrupted Close is a run that leaves the connector closed, empty, and its client closed |
| Connector.IrcConnector.Touch | pkg/sessionrelay/irc.go:390-437 | An uninterrupted Touch is a run that closes a client found dead and leaves an error, and changes nothing otherwise |
| ConnectorRecovery.TouchWakes | pkg/sessionrelay/irc.go:399-404 | After a Touch that found its client dead, whatever else happens, a keepAlive at the top of its loop goes on to reconnect as long as nobody has taken the error |
| ConnectorRecovery.ErrorWaits | pkg/sessionrelay/irc.go:262-266 | An error waits through every run in which no Connect and no keepAlive takes it |
| ConnectorRecovery.ReconnectRestores | pkg/sessionrelay/irc.go:258-311 | From an error, keepAlive on a connector that is not closed can always go on to close the old client and install a new one |
| ConnectorRecovery.JoinedIsWatched | pkg/sessionrelay/irc.go:114-146 | A Connect that sees its client join leaves a keepAlive with a fresh backoff at the top of its loop |
| ConnectorRecovery.CloseStopsKeepAlive | pkg/sessionrelay/irc.go:548-554 | From the moment Close starts, every keepAlive at the top of its loop or in its backoff can stop, whatever else happens |
| ConnectorRecovery.GivingUpCloses | pkg/sessionrelay/irc.go:128-134 | A Connect that gives up closes the client that is installed |
| ConnectorRecovery.RejoinResets | pkg/sessionrelay/irc.go:306-309 | A client that rejoins sets keepAlive's backoff back to two seconds and touches nothing else |
| Herald.RateLimiter.Allow | internal/bots/herald/herald.go:76-88 | Refills up to the burst by the time elapsed and grants exactly when a whole token is there |
| Herald.GrantsBounded | internal/bots/herald/herald.go:57-88 | Every sub-run: the calls granted between times s and t number at most burst + rate*(t - s) |
| Herald.GrantedIffConforming | internal/bots/herald/herald.go:57-88 | A call is granted exactly when granting it keeps that bound over every sub-run ending with it |
| Herald.TokensInRange | internal/bots/herald/herald.go:57-88 | Tokens stay within [0, burst], and a refusal means less than one was there |
| Herald.Route | internal/bots/herald/herald.go:304-317 | The channel of the longest matching prefix, or the default when none matches or it maps to the empty channel |
| Herald.RouteIsDetermined | internal/bots/herald/herald.go:304-317 | The map's iteration order cannot change where an event goes |
| Herald.BestIsUnique | internal/bots/herald/herald.go:304-317 | The longest matching prefix is unique |
| Herald.Bot.Start | internal/bots/herald/herald.go:222-234 | The client is there before delivery begins |
| Herald.Bot.Emit | internal/bots/herald/herald.go:134-145 | Enqueues, or counts a drop when the queue is full, keeping emitted = queued + delivered + dropped |
| Herald.Bot.Deliver | internal/bots/herald/herald.go:263-300 | Takes the oldest event and either delivers or drops it, moving exactly that one counter and keeping emitted = queued + delivered + dropped; the check for a client never fails |
| RelayFilter.RelayState.ResetHandoff | cmd/claude-relay/main.go:136-146 | Grants the channel its budget; no channel, no change |
| RelayFilter.RelayState.ConsumeHandoff | cmd/claude-relay/main.go:152-169 | Takes one hop when there is one, a channel never seen starting at the initial grant |
| RelayFilter.FilterFresh | cmd/claude-relay/main.go:1293-1328 | The verdict and the budgets after one message newer than the cursor: our own and a service bot's never pass and change no budget; an agent's passes exactly when it mentions the nick with a hop left, anybody else's when it mentions the nick or a group |
| RelayFilter.FilterMessagesState | cmd/claude-relay/main.go:1279-1331 | For whatever order an unstable sort yields, what passes, the newest timestamp and the budgets are those of the in-order run |
| RelayVerdicts.SkippedChangeNothing | cmd/claude-relay/main.go:1293-1301 | Leaving out of a list every message of ours or of a service bot changes neither what a poll accepts nor the budgets, whatever they were |
| RelayVerdicts.PassesExactly | cmd/claude-relay/main.go:1293-1328 | Over any run of polls a message passes if and only if it is neither ours nor a service bot's and: an agent's mentions the nick with a hop left on its channel, if it names one, since the last post there of somebody who is none of these; anybody else's mentions the nick or a group |
| RelayVerdicts.ProcessedExactly | cmd/claude-relay/main.go:1286-1292 | What a poll processes is exactly what its list has newer than the cursor, in order |
| RelayFilter.RelayInput.PollOnce | cmd/claude-relay/main.go:993-1001 | One poll: the cursor moves only when something passed |
| RelayFilter.HandoffSafety | cmd/claude-relay/main.go:136-169 | Any run of polls: hops accepted on a channel since the last operator post never exceed the grant, the stored budget is the grant minus them, and the whole run's hops are at most a grant per operator post and one more |
| RelayFilter.VerdictsFollowHistory | cmd/claude-relay/main.go:1286-1329 | Over any run of polls every verdict is what the processed history alone calls for: an addressed agent message passes exactly while hops are left since the last operator post on its channel |
| RelayFilter.DeliveredOnceInOrder | cmd/claude-relay/main.go:982-1001 | Accepted messages of a later poll are strictly newer than those of an earlier one, none is delivered in two polls, and each batch is in time order |
| RelayFilter.SortIsUnique | cmd/claude-relay/main.go:1284-1285 | With distinct timestamps the sorted list is unique |
| RelayFilter.PollIgnoresListOrder | cmd/claude-relay/main.go:1279-1331 | With distinct timestamps output, cursor and budgets are the same for every permutation of the listed messages |
| RelayFilter.TiesMatter | cmd/claude-relay/main.go:1284-1285 | With equal timestamps the tie can decide which of two agents is heard |
| RelayBudget.HopsPerPost | cmd/claude-relay/main.go:982-1001 | Over any run of polls whose lists keep what is unread, the hops accepted on a channel number at most two grants for each distinct operator post and one more |
| RelayWorstCase.PostsGrantTwice | cmd/claude-relay/main.go:998-1001 | That bound is reached: for every grant and every n, some such run with n posts has exactly that many hops |
| RelayWorstCase.RefusedPassesNext | cmd/claude-relay/main.go:998-1001 | From any cursor with no hops left: agents refused for want of budget, followed by a post, all pass in the next poll, where the post then grants again |
| RelayPosts.PostReturnsIff | cmd/claude-relay/main.go:996-1001 | When the lists keep what is unread, a post processed by one poll is processed by the next if and only if the first accepted nothing |
| RelayPosts.GrantsOnceIff | cmd/claude-relay/main.go:1306-1314 | Over any run of such lists every post on a channel grants once, as the comment has it, if and only if each poll before the last that processes one accepts something |
| RelayPosts.HopsWhenGrantedOnce | cmd/claude-relay/main.go:1306-1326 | Then the hops accepted on the channel number at most a grant for each distinct post and one more, whatever the lists keep |
| RelayPosts.AddressedPostsGrantOnce | cmd/claude-relay/main.go:1306-1329 | That is so whenever every post on the channel is addressed to the relay |
| RelayDelivery.LostIff | cmd/claude-relay/main.go:982-1001 | Over any run whose lists keep what is unread, a listed message addressed to the relay is passed by the cursor undelivered if and only if it was first listed when the cursor had reached it, or was refused for want of budget by a poll that accepted something |
| RelayDelivery.PassedStaysPassed | cmd/claude-relay/main.go:996-1001 | No later poll, whatever it lists, delivers a message the cursor has passed |
| MirrorText.SplitMirrorText | cmd/claude-relay/main.go:955-978 | The wrapping loop terminates and yields the wrapped lines of the text with its line ends normalised, which the next rows and GreedyWrap describe |
| MirrorText.OutputLinesAreGood | cmd/claude-relay/main.go:955-978 | Every output line is non-empty, newline-free and at most 360 long |
| MirrorText.ContentPreserved | cmd/claude-relay/main.go:955-978 | The output's characters, white space aside, are the input's in order |
| MirrorText.WrapReassembles | cmd/claude-relay/main.go:963-975 | The pieces of a line with white space between them give the line back, and a piece ends in mid-word only where 360 characters held no space |
| GreedyWrap.WrapIsGreedy | cmd/claude-relay/main.go:966-975 | A line of at most 360 characters is one piece; a longer one is cut where no space lies between the cut and place 360, or at place 360 when no space past the start lies before it; and so on with what is left |
| GreedyWrap.GreedyIsUnique | cmd/claude-relay/main.go:966-975 | No other pieces with white space between them give the line back and are cut so |
| GreedyWrap.NextWordDoesNotFit | cmd/claude-relay/main.go:966-970 | A piece, the white space after it and the first word of the next piece take 360 characters or more |
| GreedyWrap.ShortLinesStay | cmd/claude-relay/main.go:959-976 | A text whose trimmed lines have at most 360 characters comes out as those of them that are not empty |
| MirrorText.WordsPreserved | cmd/claude-relay/main.go:955-978 | When no line has more than 360 characters in a row without a space, the output has exactly the input's words |
| Incidents.ParseIncidentLine | internal/bots/sentinel/sentinel.go:429-449 | The nick, severity and reason read off an LLM line, with their defaults |
| Incidents.ParseSentinelReport | internal/bots/steward/steward.go:436-459 | The channel, nick, severity and reason read off a report |
| IncidentFields.LineFields | internal/bots/sentinel/sentinel.go:429-449 | Each field of an incident line is what stands behind the last part with its tag, or its default when that is empty |
| IncidentFields.LineWithoutField | internal/bots/sentinel/sentinel.go:442-448 | Without such a part the nick is "unknown", the severity "medium" and the reason empty |
| IncidentFields.LastPartCounts | internal/bots/steward/steward.go:445-458 | The same for a report, whose fields have no defaults |
| IncidentFields.ReportFields | internal/bots/steward/steward.go:436-445 | A report is read from behind its first "incident in", in any letter case; its channel is the first part |
| IncidentFields.NotAReport | internal/bots/steward/steward.go:438-441 | A text that says it nowhere reports nothing |
| Incidents.Dispatch | internal/bots/cmdparse/cmdparse.go:144-189 | Whether a message is a command and of which words, the bridge's "[nick] " tag stripped first |
| CommandRouting.ChannelCommand | internal/bots/cmdparse/cmdparse.go:176-189 | In a channel an untagged message is a command if and only if it is an exclamation mark, or the bot's nick in any letter case with a colon or comma, and something behind it, which is the command |
| CommandRouting.DirectCommand | internal/bots/cmdparse/cmdparse.go:172-175 | Sent to the bot, any untagged message that is not blank is a command |
| CommandRouting.OuterSpace | internal/bots/cmdparse/cmdparse.go:145-148 | White space around a message does not matter |
| CommandRouting.BridgedSpeaksAs | internal/bots/cmdparse/cmdparse.go:150-165 | A message the bridge relays as "[nick] text" counts as that nick's own text |
| Incidents.ParsedLineReportable | internal/bots/sentinel/sentinel.go:429-449 | What is read off any LLM line is trimmed, bar-free, and has a lower-case severity |
| Incidents.PromptedLineReads | internal/bots/sentinel/sentinel.go:373-449 | A line in the format the prompt asks for reads back as the nick, the lower-cased severity and the reason written in it |
| Incidents.SightedChannelIsClean | internal/bots/steward/steward.go:436-459 | Whatever the text, the channel steward reads is trimmed and has no bar |
| Incidents.ReportRoundTrip | internal/bots/steward/steward.go:436-459 | For every LLM line steward reads back exactly what sentinel read, if and only if the channel name is trimmed and has no bar |
| Incidents.RouterIgnoresReport | internal/bots/cmdparse/cmdparse.go:144-189 | A bot whose nick has no space takes no report posted to a channel for a command, and takes every one posted elsewhere for one |
| Incidents.ReportReachesSteward | internal/bots/steward/steward.go:270-279 | From LLM line to steward: the report passes the router, carries the tag, and reads back exactly |
| Cooldown.PruneTimeMap | internal/bots/sentinel/sentinel.go:464-471 | Deletes exactly the keys stamped before the cutoff, in whatever order the map yields them |
| Cooldown.RunsAgree | internal/bots/steward/steward.go:280-288 | The pruned and the never-pruned map decide alike over every run with a forward clock and cooldown up to a day and a nanosecond |
| Cooldown.PruningInvisible | internal/bots/steward/steward.go:464-471 | Pruning never changes a decision, on any such run, if and only if the cooldown is at most a day and a nanosecond |
| Cooldown.ActionsSpaced | internal/bots/snitch/snitch.go:332-347 | Two actions on a key that nobody dismissed in between are at least the cooldown apart |
| Cooldown.ActsExactly | internal/bots/sentinel/sentinel.go:402-411 | A request is acted on if and only if every earlier action on its key that nobody dismissed since is at least the cooldown old |
| Moderation.Sentinel.ParseAndReport | internal/bots/sentinel/sentinel.go:383-427 | Over an LLM answer: reports, cooldowns and recent incidents are those of its lines in order |
| Moderation.Sentinel.ConsiderLine | internal/bots/sentinel/sentinel.go:386-426 | One line is reported as sentinel's rule for it says, which ModerationRuns.PostsExactly states |
| ModerationRuns.PostsExactly | internal/bots/sentinel/sentinel.go:389-425 | A line is posted if and only if its first eight letters are "incident" in any letter case, its severity is not below the minimum, and no report on its channel and nick is younger than the cooldown; otherwise nothing at all changes |
| ModerationRuns.QuietAnswer | internal/bots/sentinel/sentinel.go:383-427 | An answer without such a line changes nothing |
| ModerationRuns.PostedExactly | internal/bots/sentinel/sentinel.go:389-425 | Over any run of lines with a forward clock and a cooldown of at most a day and a nanosecond, a line is posted if and only if it is such an incident and every earlier post on its channel and nick is at least the cooldown old |
| Moderation.Sentinel.RecordIncident | internal/bots/sentinel/sentinel.go:474-483 | The recent incidents are the last of their history |
| Moderation.Steward.HandleReport | internal/bots/steward/steward.go:270-301 | Acts on a tagged report that names a nick and a channel unless the nick is cooling |
| ModerationRuns.ActsOnExactly | internal/bots/steward/steward.go:270-301 | A message is acted on if and only if it starts with the tag, names a nick and a channel, and the nick is not cooling; otherwise nothing changes |
| Moderation.Steward.TakeAction | internal/bots/steward/steward.go:290-300 | Kick, warn and mute, warn, or nothing, by severity; only a mute is remembered |
| Moderation.Steward.CollectExpired | internal/bots/steward/steward.go:401-410 | Removes and returns exactly the mutes whose time has passed |
| Moderation.ReportTriggersAction | internal/bots/steward/steward.go:270-301 | A posted incident makes steward kick for high, warn and mute for medium, warn (unless silenced) for low and do nothing otherwise, on that nick and channel, unless the nick is cooling |
| Moderation.PromptedIncidentActedOn | internal/bots/steward/steward.go:270-301 | An incident in the prompted format, severe enough and not cooling, is posted as written, and the post makes steward act on it |
| Moderation.UnmuteFindsItsTarget | internal/bots/steward/steward.go:411-419 | An expired mute is lifted where it was set if and only if the channel name has no colon |
| Windows.LoginRateLimiter.Allow | internal/api/login.go:33-56 | Stores the attempts still in the window with the new one, and allows at most ten |
| Windows.LoginWindowExact | internal/api/login.go:33-56 | The stored list is the address's whole history cut to the window ending with its last attempt |
| Windows.LoginAllowedExact | internal/api/login.go:33-56 | An attempt is allowed exactly when the address made at most ten in the minute ending with it |
| WindowTimes.LoginAllowedInTimes | internal/api/login.go:33-56 | In the attempts' own times: allowed if and only if at most ten of the address, refused ones included, lie less than sixty seconds back |
| Windows.LoginBound | internal/api/login.go:22-56 | In any one-minute window, wherever it lies, an address gets at most ten attempts |
| Windows.FilterInPlace | internal/bots/snitch/snitch.go:86-102 | The in-place loop keeps exactly the times after the cutoff, in order |
| Windows.NickWindow.Trim | internal/bots/snitch/snitch.go:85-103 | Both lists keep exactly what lies in their windows |
| Windows.NickWindow.RecordMsg | internal/bots/snitch/snitch.go:309-316 | Trims, then adds the message |
| Windows.NickWindow.RecordJoinPart | internal/bots/snitch/snitch.go:318-330 | Trims, adds the event, and reports and forgets the list at the threshold |
| Windows.NickWindow.CheckFlood | internal/bots/snitch/snitch.go:332-338 | Trims and compares what is left with the threshold |
| Windows.Snitch.CheckFlood | internal/bots/snitch/snitch.go:332-347 | Alerts on a flood unless one was raised at most sixty seconds ago |
| Windows.PlayIsFaithful | internal/bots/snitch/snitch.go:85-103 | Over any run the trimmed lists can stand for the whole history at every later cutoff |
| Windows.FloodExact | internal/bots/snitch/snitch.go:332-347 | A check finds a flood exactly when FloodMessages of all messages ever recorded lie in the window |
| Windows.CyclingExact | internal/bots/snitch/snitch.go:318-330 | Cycling is reported exactly when the joins and parts since the last report that lie in the window reach the threshold |
| WindowTimes.FloodInTimes | internal/bots/snitch/snitch.go:332-347 | In the messages' own times: a flood if and only if enough of them lie less than the window back |
| WindowTimes.CyclingInTimes | internal/bots/snitch/snitch.go:318-330 | Cycling is reported if and only if this join or part, with those since the last report less than the window back, reaches the threshold |
| Buffers.RingBuf.Push | internal/bots/bridge/bridge.go:55-61 | The ring's contents become the last cap of contents plus the message |
| Buffers.RingBuf.Snapshot | internal/bots/bridge/bridge.go:64-76 | The contents, oldest first |
| Buffers.ShiftBuf.Append | pkg/sessionrelay/irc.go:565-573 | The shifted buffer's contents become the last cap of contents plus the message |
| Buffers.RingPush | internal/bots/bridge/bridge.go:55-61 | One write at the head keeps the ring's shape and drops only its oldest |
| Buffers.PushBoth | pkg/sessionrelay/irc.go:565-573 | After one history is pushed into both, the ring's snapshot and the shift-down buffer are its last cap messages in order |
| Bridge.Bot.Join | internal/bots/bridge/bridge.go:359-370 | Creates buffer and subscriber table when there is no buffer |
| Bridge.Bot.OnOwnJoin | internal/bots/bridge/bridge.go:241-251 | The same on the bridge's own first JOIN |
| Bridge.Bot.Leave | internal/bots/bridge/bridge.go:388-397 | Forgets the channel, its buffer and its subscribers |
| Bridge.Bot.AddSubscriber | internal/bots/bridge/bridge.go:424-434 | A new number and an empty queue in the channel's table |
| Bridge.Bot.RemoveSubscriber | internal/bots/bridge/bridge.go:436-441 | Removes that number only |
| Bridge.Bot.OnMessage | internal/bots/bridge/bridge.go:672-687 | Buffers the message and offers it once to every subscriber, in any order, dropping it for full queues |
| Bridge.MessagesAreTheLast | internal/bots/bridge/bridge.go:359-420 | After any run what Bot.Messages reads, a channel's buffer, is the last bufSize messages dispatched to it since the buffer was created |
| Bridge.SubscriberReceivesExactly | internal/bots/bridge/bridge.go:424-443 | A subscriber accepts exactly the messages dispatched while it is served and has room, in order |
| Bridge.AcceptedInOrder | internal/bots/bridge/bridge.go:672-687 | What a subscriber accepts is an in-order subsequence of what its channel was sent |
| Bridge.UndisturbedMissesNothing | internal/bots/bridge/bridge.go:672-687 | Undisturbed, a subscriber misses nothing if and only if the channel had a buffer when it subscribed or nothing was sent |
| Bridge.EarlySubscriberIsLost | internal/bots/bridge/bridge.go:359-370 | A subscription made before the channel has a buffer never receives anything |
| BridgeQueues.UnreadBounded | internal/bots/bridge/bridge.go:672-687 | Over any run a subscriber has between none and 64 messages to read |
| BridgeQueues.QueueMoves | internal/bots/bridge/bridge.go:672-687 | A message reaches a subscriber served on its channel if and only if fewer than 64 wait, a read takes one, and nothing else moves the queue |
| BridgeQueues.StalledKeepsOldest | internal/bots/bridge/bridge.go:672-687 | A full queue that nobody reads keeps its messages and takes no others |
| ScribeStore.FileStore.Append | internal/bots/scribe/store.go:121-150 | Appends the encoded line to its key's file, rotating first when due |
| ScribeStore.FileStore.FetchFile | internal/bots/scribe/store.go:154-192 | Opens, keeps or rotates the key's file as the size rule says |
| ScribeStore.FileStore.ShiftSizeBackups | internal/bots/scribe/store.go:195-200 | The rename chain shifts every backup up by one |
| ScribeStore.NamesDistinct | internal/bots/scribe/store.go:195-238 | No backup of one file is named like another backup or like any file |
| ScribeNames.PlainFile | internal/bots/scribe/store.go:348-365 | With per-channel files the entries of "#name" and "name" are written to and read from name.jsonl, when the name holds no character a file name must not |
| ScribeNames.SharedFile | internal/bots/scribe/store.go:355-365 | Two channels share a file if and only if, hash signs aside, they are as long and differ only where both have an underscore or such a character |
| ScribeStore.ShiftMoves | internal/bots/scribe/store.go:195-200 | The downward loop of renames moves each backup exactly one place and overwrites only the tenth |
| ScribeStore.AppendHolds | internal/bots/scribe/store.go:121-192 | An append keeps the key's files, size and backups in step with its log |
| ScribeStore.AppendLeavesOthers | internal/bots/scribe/store.go:121-192 | An append under one key changes no file of another |
| ScribeStore.RunHolds | internal/bots/scribe/store.go:121-200 | Over any run of appends every key's files are its log |
| ScribeStore.RotationLosesOnlyOldest | internal/bots/scribe/store.go:121-200 | Gapless backups 1..k with k at most ten; backups and file read in order are a suffix of everything written, all of it until the eleventh rotation; the tracked size is the file's; each rotated file passed the threshold with its last line |
| ScribeQuery.MemoryStore.Query | internal/bots/scribe/store.go:52-66 | The last limit entries of the channel, in order |
| ScribeQuery.ScanEntries | internal/bots/scribe/store.go:276-292 | Decodes what decodes and keeps the channel's, failing on an over-long line |
| ScribeAnswers.AnswerExactly | internal/bots/scribe/store.go:52-66 | A limit of zero or less asks for every entry of the channel, the empty channel for those of all; a positive limit for the last so many; and answers come in the order of the history |
| ScribeAnswers.FailsExactly | internal/bots/scribe/store.go:264-303 | Without rotation a query fails if and only if some entry under the key it reads was written as a line of more than 65535 characters |
| ScribeAnswers.NoiseIgnored | internal/bots/scribe/store.go:277-286 | Lines that are empty or do not decode add nothing, wherever they stand |
| ScribeAnswers.CarriageReturnIgnored | internal/bots/scribe/store.go:276-286 | A line reads the same with a carriage return behind it |
| ScribeQuery.Query | internal/bots/scribe/store.go:264-303 | The file store's answer over the file on disk |
| ScribeQuery.FileAnswerMeans | internal/bots/scribe/store.go:264-303 | The answer is that of the in-memory store on the entries under the scanned key, or an error when one of their lines is too long |
| ScribeQuery.FileStoreRefinesMemory | internal/bots/scribe/store.go:52-66 | For any history and named channel, per-channel files or not and even when two names share a file, the file store answers as the in-memory store does, or fails on an over-long line |
| ScribeQuery.EverythingQuery | internal/bots/scribe/store.go:348-353 | With per-channel files the empty channel's answer agrees if and only if the entries wanted all lie in the one file read |
| ScribeRotation.RotatedAnswerMeans | internal/bots/scribe/store.go:121-192 | With size rotation, a query's answer is that of an in-memory store holding only what was written under the key since its file was last rotated, or an error when one of those lines is too long |
| ScribeRotation.RotatedAnswerAgreesIff | internal/bots/scribe/store.go:264-303 | When those lines fit, it agrees with the in-memory store over the whole history if and only if every entry wanted was written since that rotation |
| Registry.Registry.RegisterAgent | internal/registry/registry.go:208-253 | Validates, provisions (or resets an existing account), stores the agent and returns its passphrase, failing late when the config cannot be signed |
| Registry.Registry.AdoptAgent | internal/registry/registry.go:259-283 | Stores the agent without touching its account |
| Registry.Registry.RotatePassphrase | internal/registry/registry.go:286-307 | An active agent's account gets the passphrase returned, or nothing changes |
| Registry.Registry.RevokeAgent | internal/registry/registry.go:311-332 | Locks the account, then marks the agent revoked, or nothing changes |
| Registry.Registry.DeleteAgent | internal/registry/registry.go:338-360 | Locks an active agent's account, then drops agent and row, or nothing changes; RegistryRemovals.DeleteRemoves says which, and that it stays so |
| RegistryRemovals.DeleteRemoves | internal/registry/registry.go:338-360 | A delete succeeds if and only if the agent is registered and was revoked or the server accepts the lockout; then, active or revoked before, it is in neither memory nor database, stays out over any operations but a Register or Adopt of the nick, and no reload brings it back |
| RegistryRemovals.RevokeKeepsListed | internal/registry/registry.go:311-332 | A revoke succeeds if and only if the agent is active and the server accepts; then it stays listed, revoked and otherwise as it was, over operations on other nicks and a reload |
| Registry.Registry.ReplaceChannels | internal/registry/registry.go:376-387 | Replaces both channel lists of an active agent and stores it |
| Registry.Registry.UpdateAgent | internal/registry/registry.go:365-374 | Stores the amended record of a registered agent, or fails for an unknown nick |
| Registry.Registry.TouchAgent | internal/registry/registry.go:409-422 | Sets the in-memory time, and stores it when the previous one is at least a minute old |
| Registry.Registry.ReapAgents | internal/registry/registry.go:443-472 | Drops exactly the offline agents not seen since the cutoff, with their rows, and counts them, in any map order |
| Registry.Registry.ListAgents | internal/registry/registry.go:475-486 | Lists every agent once and recomputes only who is online |
| RegistryRemovals.ReapedAfterList | internal/registry/registry.go:443-486 | A listing marks online exactly who was seen less than the timeout ago; a reap after it, whatever was done to others in between, drops exactly who was not and gave no sign for longer than the age, with the row and never the account |
| RegistryRemovals.ReapedExactly | internal/registry/registry.go:443-486 | With a timeout within the age, both at one time, it drops exactly who gave no sign for longer than the age |
| RegistryRemovals.OnlineIsNotReaped | internal/registry/registry.go:450-453 | No number of reaps drops an agent marked online before anybody lists the agents again |
| RegistryAdmission.SucceedsExactly | internal/registry/registry.go:208-387 | Exactly when each operation succeeds, in terms of the config's fields, the agent's state and the server's answers |
| RegistryAdmission.LeavesAlone | internal/registry/registry.go:208-486 | Rotating changes no agent and no row; only Register, Rotate, Revoke and Delete set a passphrase, only their nick's, to the one given; and listing writes no row |
| RegistryAdmission.StepKeepsSound | internal/registry/engagement.go:67-105 | Configs that meet the checks of registration stay so under every operation if and only if new channels are sound and leave out no ops channel, and an Update stores a sound config |
| RegistryAdmission.AdoptionSurvives | internal/registry/registry.go:259-283 | What was adopted is what a reload gives back after any operations on other nicks, and its account is the one it had |
| Registry.Registry.SaveOne | internal/registry/registry.go:145-160 | The agent's row becomes what the agent is |
| Registry.Registry.Reload | internal/registry/registry.go:112-141 | Rebuilds the agents from the rows, failing exactly when some row's config does not decode and then holding some of the others |
| RegistryRuns.StepKeepsMirror | internal/registry/registry.go:145-170 | Every operation keeps rows and agents equal on keys, type, team, config and revocation, the stored last-seen time no later than the in-memory one, and the convenience lists equal to the config's |
| RegistryRuns.ReloadRestores | internal/registry/registry.go:112-141 | After any run a reload succeeds if and only if every config can be written as JSON, and then gives back the same agents without their skills |
| RegistryRuns.ReloadKeepsMirror | internal/registry/registry.go:112-141 | The reloaded registry is mirrored by the same rows |
| RegistryRuns.OthersLeaveAlone | internal/registry/registry.go:208-422 | Any operations on other nicks leave a nick's agent, row and account alone |
| RegistryRuns.RegistrationSurvives | internal/registry/registry.go:236-252 | What was registered is what a reload gives back after any operations on other nicks, and its account holds the passphrase returned |
| RegistryRuns.ChannelsSurvive | internal/registry/registry.go:376-387 | New channels of an active agent are in force in memory and after a reload, and nothing else of it changes |
| RegistryRuns.AmendmentSurvives | internal/api/agents.go:285-321 | What the API's handlers change of an agent is in force at once and after any operations on other nicks, a reload then gives it back but for the skills, and nothing else of the agent changes |
| RegistryTouches.TouchesStored | internal/registry/registry.go:407-422 | After touches at any times the stored time is that of the last one at least a minute after the one before it, the in-memory time that of the last |
| RegistryTouches.StoredTimeCurrent | internal/registry/registry.go:407-422 | With the clock running on, the stored time is up to date after the touches if and only if the last one came at least a minute after the one before |
| RegistryTouches.FrequentTouchesNeverStored | internal/registry/registry.go:407-422 | Touches less than a minute apart leave the stored time where it was, however many |
| RegistrySaves.StoredTimeCurrentInRuns | internal/registry/registry.go:407-422 | Over any run of operations with the clock running on, an agent's stored time is up to date if and only if no touch that reached memory only has come since its row was last written, by whichever operation |
| RegistryRuns.FailureChangesNothing | internal/registry/registry.go:208-360 | A failing call changes nothing anywhere if and only if it did not fail in the final signing step |
| RegistryRuns.FailuresDropOut | internal/registry/registry.go:208-360 | Over whole runs without such a call: leaving the failing calls out leaves everything, accounts included, as it is |
| RegistryRuns.FailureCanRegister | internal/registry/registry.go:244-250 | The call that does: told it failed, the caller has registered an agent whose passphrase nobody holds, and no later reload succeeds |
| RegistryRuns.StepKeepsCredentials | internal/registry/registry.go:208-472 | That a credential handed out works if and only if it is the latest of an active agent, that it opens no other nick's account, and that every active agent was handed one: whatever the account server refuses, an operation with fresh passphrases keeps this if and only if it is not a Register that fails in the signing step, an Adopt that succeeds, a Reap that drops an agent not revoked, or an Update that revokes or reinstates |
| RegistryRuns.StaleUpdateRevokes | internal/api/agents.go:256-325 | The Update that breaks it: from any registry where it holds, a Revoke, a Register and an Update with the record read before leave the nick revoked while its account holds the passphrase just handed out |
| RegistryRuns.CredentialLifecycle | internal/registry/registry.go:208-360 | Over whole runs of the operations that keep it: an active agent's account holds the passphrase last returned for it, no passphrase returned for one nick opens another's account, and none opens that of a revoked or deleted nick |
| RegistryRuns.ReapedCredentialStillWorks | internal/registry/registry.go:443-472 | After a reap a credential of a dropped nick works if and only if it was the nick's latest and the agent was not revoked |
| AgentModes.Topology.RevokeAccess | internal/topology/topology.go:393-400 | Sends -o then -v, or nothing without a client |
| AgentModes.Topology.GrantAccess | internal/topology/topology.go:376-390 | Sends +o or +v as the level says, or nothing |
| AgentModes.HasAnyPrefix | pkg/ircagent/ircagent.go:502-509 | Whether the nick starts with one of the prefixes |
| AgentModes.Server.SetAgentModes | internal/api/agents.go:464-520 | Sends, channel by channel, the revocations and the agent's declared level, and the live -o off the allowlist path |
| AgentModes.Server.ReconcileAgentModes | internal/api/agents.go:546-560 | Does so for every listed agent that is not revoked, in the order listed |
| AgentModes.ReconcileMeans | internal/api/agents.go:453-560 | After a pass a listed agent's entry on each of its channels is its declared level whatever it was, and every other entry is unchanged |
| AgentModes.AnyOrderSameTable | internal/api/agents.go:550-556 | The table is the same for every listing order |
| AgentModes.ReconcileIdempotent | internal/api/agents.go:453-459 | A second pass changes nothing |
| AgentModes.AnyMergeSameTable | internal/api/agents.go:464-501 | However the commands of concurrent calls are merged, the table is the same while each nick's own stay in order |
| AgentMerges.MergedPasses | internal/api/agents.go:464-501 | However two passes over one nick are merged, for records that may declare different levels, each shared channel is left with one of the two levels or both and nothing else; it is exactly the second's if and only if the levels are the same or the last command about the first's is a revocation |
| AgentMerges.BothLevelsCanStay | internal/api/agents.go:464-501 | Any two such passes have a merge that leaves both levels |
| AgentMerges.LastWordDecides | internal/topology/topology.go:376-400 | After any commands an entry holds a mode if and only if the last of them that names it is a grant, or none names it and it was held before |
| AgentModes.WhoHoldsOp | internal/api/agents.go:461-496 | A listed agent holds +o on its channel if and only if its nick has no checked prefix and it is an operator or an orchestrator that listed the channel |
| AgentModes.DocumentedPrefixesNeverOp | internal/api/agents.go:431-451 | For a nick with one of the four documented prefixes no registration can give +o if and only if the prefix is not openclaw- |
| AgentModes.LiveDeops | internal/api/agents.go:503-519 | A live -o goes out exactly for the entries set to +v, except those of an orchestrator with an allowlist |
| AgentLevels.LevelExactly | internal/api/agents.go:435-497 | After a pass an operator, orchestrator or worker that is not revoked has exactly one mode on each of its channels: +o for an operator, or an orchestrator that listed the channel, whose nick starts with none of claude-, codex- and gemini-; +v otherwise; and other listed agents' entries are as they were |
| AgentLevels.LiveDeopExactly | internal/api/agents.go:478-519 | A live -o goes out exactly for a worker, an orchestrator that listed no channel, and whoever has such a prefix |

## Left out

- Network, PTY, subprocesses, HTTP handlers, the girc client, SQL, JSON and cryptography: they appear as maps, sequences, abstract codecs or parameters.
- Whether a girc socket outlives a Close that races with its Connect: the library decides that, so Connector speaks of installed and closed clients only.
- Connect's registration cleanup, channel joins and parts, credential requests, and Touch's requests to the API.
- AuditThrottle.EveryEventIsAccountedFor: does not model a store whose Append fails, nor SetThrottle during auditing.
- Herald.RateLimiter.Allow: real arithmetic, so floating-point rounding is not modelled.
- Herald: the queue is a sequence of capacity 256, its goroutine an explicit Deliver call; what a stopped bot still holds is not delivered.
- RelayFilter: mention matching, group mentions, service-bot membership and activity prefixes are booleans of a message; the nil-state variant that skips budgets is not modelled; what is injected afterwards is not either.
- MirrorText.SplitMirrorText: ASCII text, so a byte is a character.
- Incidents.ParseIncidentLine: lower-cases ASCII letters only.
- Incidents.ParseSentinelReport: lower-cases ASCII letters only, so a character keeps its place.
- Incidents.Dispatch: modelled up to the lookup of the command, and lower-cases ASCII letters only.
- Moderation.Sentinel.ConsiderLine: lower-cases ASCII letters only.
- Moderation: the client is connected; the LLM call, the message buffers that feed it, direct messages to operators and the IRC commands a moderation action sends are not modelled.
- Windows.NickWindow: the two-level lookup table that finds a nick's window.
- Bridge: a channel's ring is held by its contents, which Buffers.RingBuf implements, and a closed Go channel is not told apart from a removed one.
- ScribeStore.RotationLosesOnlyOldest: renames and writes succeed, time rotation is off, and the store is not closed and reopened (the first append after reopening skips the size test).
- ScribeQuery.FileStoreRefinesMemory: the line codec is abstract and lossless; csv and text output and PruneOld are not modelled.
- Registry: passphrase generation and database writes succeed, JSON gives back what it was given, and file persistence is not modelled, nor are handlers that change the shared record before they call Update.
- RegistryRuns.CredentialLifecycle: fresh passphrases, and only operations that keep credentials right, which RegistryRuns.StepKeepsCredentials singles out; RegistryRuns.StaleUpdateRevokes and RegistryRuns.ReapedCredentialStillWorks show what others leave.
- AgentModes: IRC's case folding of nicks and channels, ChanServ modes other than op and voice, and the bridge as a fallback for the live -o.
- codex-relay and gemini-relay hold copies of the relay functions and are not modelled again.
- Session-file discovery, configuration, the CLI, the web UI, the watchdog, policy merging and topology provisioning: branching but shallow, or I/O.
