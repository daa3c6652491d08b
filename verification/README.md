# Proved models of an exam-preparation platform's protocols

The platform trains learner drivers: it has live quiz duels, accounts that sign in by SMS, Telegram or a
refresh token, classroom licences for driving schools, profile photos taken from Telegram, and a watcher
that forwards payment notifications. This project models the parts of it that are hard to get right by
reading, and proves what they keep under every input, every interleaving and every run.

- **Arena duels** (`Arena*.dfy`). `ArenaDuel` is the match as a state machine over instants in
  nanoseconds; `ArenaSeatMoves` reduces every event to a pair of seat moves; `ArenaDuelRuns` and
  `ArenaDuelTime` prove the score ledger, finality, end reasons, earned forfeits and the time bound over all
  runs. `ArenaMatch` is the match as the program writes it, objects updated in place by one loop, proved to
  refine the state machine. `ArenaDuelTrail` follows every verdict, question and ending back to the event that
  brought it about. `ArenaRating` is the optimistic Redis transaction, one command at a time; `ArenaResult` joins it
  to the duel; `ArenaClaims` is the protocol that keeps a player in one duel, and `ArenaStart` what one start does
  when nobody disturbs it.
- **Accounts** (`Refresh*.dfy`, `Telegram*.dfy`, `RateLimit.dfy`). Concurrent refresh-token rotation and what
  reuse detection reaches; the two request machines that share one bot chat, and what they do when they overlap;
  the self-healing fixed-window limiter. `RefreshTrail` and `TelegramLaws` say when each step is taken, and where
  every pair, session, verified link and new password comes from.
- **Avatars** (`Avatar*.dfy`, `BoxScale.dfy`). The coalescing job queue, the pairing of rows and stored
  objects, what a pass does to a profile's photo, the base32 keys, and the box-scaling loops over pixel arrays.
- **Resources** (`Enroll*.dfy`, `Spool.dfy`). Seats of a licence under a stampede of enrolments, which licences,
  codes and stations count for them, and the crash-tolerant payment spool.
- **Transliteration** (`Cyrillic.dfy`). The context-sensitive Latin-to-Cyrillic scanner.

A concurrent protocol is a total step function over values and a run is any sequence of actions, so a
theorem about `Run(start, acts)` speaks of every interleaving; an action that is not possible changes nothing.
Fields named as history in a comment (logs, owners, places) are there for the theorems: no step decides by them,
and only other history is computed from them. Random draws, clocks, replies and failures are parameters of
actions. The modules named *Trail* and *Laws* state what the steps decide with their guards, constants and effects
written out, so that they do not lean on the definitions they are about. `dafny verify dfyconfig.toml` checks
everything.

Where the code and what is written about it disagree, the model follows the code:

- A duel whose every question has two verdicts does not always end as "completed": a player can leave while
  the other still sees the last verdict (`AllResolvedNeedNotBeCompleted`; the exact condition is
  `AllResolvedButNotCompleted`).
- The key test is documented as accepting exactly what minting produces. It accepts more: 26 symbols carry
  130 bits and an id only 128 (`ValidKeyNeverMinted`; the exact condition is `ValidKeyIsMinted`).
- The enrolment code is re-checked under the lock so that a long wait cannot outlive it. For revocation that
  works; for expiry it does not, because `now()` is the time the transaction began
  (`RecheckCatchesRevocationOnly`, `ExpiredCodeStillEnrols`).
- A photo's row and object agree only while database answers are definite: when a recording commits but its
  reply is lost, the pass deletes the object the row now names (`DanglingRow`; the exact condition is
  `LostAnswerDangles`).
- Reuse of a refresh token is documented as revoking every token of the profile. The statement revokes the rows
  it saw when it began; a rotation that gets to one of them first replaces it by a row that escapes
  (`EscapingRun`; the exact condition is `ReuseDetectionIsFinal`).
- A live classroom PC is said never to lose its seat to an enrolment. It can, when its renewal is not committed
  yet while the enrolment chooses (`FreshStationLosesSeat`, `RenewalComesTooLate`).
- A user's login and reset are meant never to wait at the same time. They do when the two commands run at once
  (`BothCanWait`; the exact condition is `BothWaitOnlyAfterOverlap` with `OverlapArmsBoth`).
- Rating is idempotent for as long as the result key lives, which is 90 days (`RatedAtMostOnce`,
  `LapsedKeyRatesTwice`).

## Model

| member | source | states |
|---|---|---|
| `ArenaRules.AnswerPointsLaws` | backend/internal/arena/rules.go:44-53 | Points lie in 0..100, a wrong answer earns none, and answering faster never earns less. |
| `ArenaRules.PointsAreNearest` | backend/internal/arena/rules.go:44-53 | A correct answer earns the whole number nearest to 100 * (window - response) / window, stated in integers. |
| `ArenaRules.BotDelayInsideWindow` | backend/internal/arena/rules.go:109-118 | Whatever the draw, the bot answers between 20% and 70% into the question window. |
| `ArenaRules.BotDelayFollowsDraw` | backend/internal/arena/rules.go:109-118 | The share of the window after which the bot answers grows evenly with the draw from 20% to 70%, rounded down. |
| `ArenaRules.ExpectedScoresSplit` | backend/internal/arena/rules.go:68-70 | Expected scores lie strictly between 0 and 1 and the two players' add up to 1, over exact reals. |
| `ArenaRules.EloDeltaLaws` | backend/internal/arena/rules.go:73-79 | The two deltas of one result cancel exactly after rounding, are at most K in size, a win never loses points and a loss never gains any. |
| `ArenaRules.EloDeltaIsNearest` | backend/internal/arena/rules.go:73-79 | A delta is the whole number nearest to K times score minus expected score. |
| `ArenaSeatMoves.HandleIsMoves` | backend/internal/arena/match.go:361-578 | Every event of the match loop changes each seat by one of a handful of moves (nothing, verdict, next question, finish line, drop, return, or two of them in one timer), the frame the run proofs stand on. |
| `ArenaDuelRuns.SeatLedger` | backend/internal/arena/match.go:444-561 | In every reachable state score, correct count and response sum are the folds over the verdicts recorded so far, each verdict is consistent with the scoring rules, and entries past the resolved count are untouched. |
| `ArenaDuelRuns.ScoreBound` | backend/internal/arena/match.go:508-543 | No run gives a seat more than 100 per correct answer or a negative score. |
| `ArenaDuelRuns.VerdictsAreFinal` | backend/internal/arena/match.go:508-561 | Recorded verdicts form a growing prefix: no later event rewrites, removes or reorders one. |
| `ArenaDuelRuns.CompletedMeansBothDone` | backend/internal/arena/match.go:545-561 | The end reason is "completed" exactly when both seats passed their last reveal, then every question has two verdicts; and no unfinished duel has both players offline. |
| `ArenaDuelRuns.AllResolvedNeedNotBeCompleted` | backend/internal/arena/match.go:407-437 | A concrete run in which every question has both verdicts and the duel ends as a forfeit: a leave during the last reveal. |
| `ArenaDuelRuns.AllResolvedButNotCompleted` | backend/internal/arena/match.go:545-561 | With every verdict in, the end reason is "completed" if and only if no seat is still showing a reveal. |
| `ArenaDuelRuns.ChecksAlwaysFit` | backend/internal/arena/match.go:407-437 | Every scheduled forfeit check that could still fire belongs to the player's current, unbroken absence; older generations are void. |
| `ArenaDuelRuns.TimeoutForfeitIsEarned` | backend/internal/arena/match.go:407-437 | A forfeit check ends a duel only against a player offline in every state since a drop at least the reconnect grace ago, and that player is the quitter. |
| `ArenaDuelTrail.AnswerIsRecorded` | backend/internal/arena/match.go:444-484 | With every guard and time written out: an answer to the open question, in time and of a known option, is recorded with its own id, right exactly when it is the correct option, timed from the dealing of the question, and touches no other verdict or seat; any other answer changes nothing. |
| `ArenaDuelTrail.VerdictTrail` | backend/internal/arena/match.go:444-543 | In every run each verdict goes back to one step: the very answer its player sent, by id and instant, or the timer 400 milliseconds past the deadline, or the bot's turn. |
| `ArenaDuelTrail.QuestionTrail` | backend/internal/arena/match.go:545-578 | In every run an open question was dealt exactly 15 seconds before its deadline, at the start or when the previous verdict had been shown. |
| `ArenaDuelTrail.EventPlays` | backend/internal/arena/match.go:361-578 | Every event leaves the play of a seat alone, or gives it one verdict, one question or the finish line, each only under its own condition. |
| `ArenaDuelTrail.EndTrail` | backend/internal/arena/match.go:395-443 | In every run a finished duel was ended by its last event, of the kind its reason names, and a forfeit by the quitter's own leave or absence. |
| `ArenaDuelTrail.EndingEvents` | backend/internal/arena/match.go:395-443 | A shutdown, a leave, a due check and the second drop each end an unfinished duel with their own reason; a first drop and a return do not. |
| `ArenaDuelTrail.AbsenceIsChecked` | backend/internal/arena/match.go:407-422 | In every run a player offline in an unfinished duel dropped at some step, and the check for that very absence, 20 seconds later, is pending. |
| `ArenaDuelTrail.LongAbsenceForfeits` | backend/internal/arena/match.go:407-437 | In every run a player away for 20 seconds can be made to forfeit from then on: the check may come and ends the duel against them. |
| `ArenaDuelTime.WorkNeverGrows` | backend/internal/arena/match.go:395-443 | No event of any kind increases the remaining-work measure of a duel. |
| `ArenaDuelTime.DueTimerMakesProgress` | backend/internal/arena/match.go:307-393 | An unfinished duel always has a next wake, and a timer fired at or after it strictly lowers the remaining work. |
| `ArenaDuelTime.RunStaysOnTime` | backend/internal/arena/match.go:508-578 | In every run whose loop is at most `lag` late, each seat's deadlines and reveal ends stay within the schedule of its question index. |
| `ArenaDuelTime.BoundedDuel` | backend/internal/arena/match.go:307-393 | Whatever the players do, no event of a duel is handled after start + n * (question time + grace + reveal), plus the loop's lateness. |
| `ArenaDuelTime.TimersAloneFinish` | backend/internal/arena/match.go:361-393 | Left alone at any moment of any timely run, a duel is finished by its timers, whatever is drawn for the bot at each tick, and by that bound. |
| `ArenaDuelTime.FinishedBeforePointerExpiry` | backend/internal/arena/service.go:773-776 | With the stock ten questions and countdown the duel is over before the Redis match pointers, set for 269 seconds at its start, expire. |
| `ArenaMatch.SeatObject.StartQuestion` | backend/internal/arena/match.go:563-578 | The in-place update equals the state machine's start of a question on the seat's value. |
| `ArenaMatch.SeatObject.Resolve` | backend/internal/arena/match.go:508-543 | The verdict is written at the seat's index only, and totals, phase and reveal end become the state machine's. |
| `ArenaMatch.SeatObject.Marks` | backend/internal/arena/match.go:685-707 | The loop returns exactly the marks of the resolved questions, in order. |
| `ArenaMatch.Match.Advance` | backend/internal/arena/match.go:545-561 | Refines the state machine's advance: next question, finish line, or the end of the match when both are done. |
| `ArenaMatch.Match.BotAnswer` | backend/internal/arena/match.go:486-506 | The bot's answer is scored and recorded in place as the state machine does. |
| `ArenaMatch.Match.TimerSeat` | backend/internal/arena/match.go:373-392 | One seat's share of a timer tick refines the state machine's, the other seat object unchanged. |
| `ArenaMatch.Match.OnTimer` | backend/internal/arena/match.go:361-393 | A whole timer tick refines the state machine's: countdown end, then both seats in order, stopping when the match finished. |
| `ArenaMatch.Match.OnAnswer` | backend/internal/arena/match.go:444-467 | An answer changes the match exactly when it is for the open question, in time and a known option. |
| `ArenaMatch.Match.OnDisconnect` | backend/internal/arena/match.go:407-422 | A drop raises the generation once, and ends the match when the other human is gone too. |
| `ArenaMatch.Match.Handle` | backend/internal/arena/match.go:395-443 | Every event handled in place gives the state machine's next duel. |
| `ArenaMatch.Match.Run` | backend/internal/arena/match.go:269-306 | The event loop leaves the duel the state machine reaches on the events it consumed, and stops exactly when finished or out of events. |
| `ArenaRating.DeltasAreFair` | backend/internal/arena/service.go:90-145 | Whatever two ratings a transaction read, the deltas are opposite, bounded by K and never against the scores. |
| `ArenaRating.EloScoreIs` | backend/internal/arena/service.go:90-145 | The score handed to the rating formula is 1, 0 or a half exactly as the first player won, lost or drew. |
| `ArenaRating.RunKeepsInv` | backend/internal/arena/service.go:90-145 | Under every interleaving of callers at Redis-command granularity, what a caller has read stays true until a watched key is written, and stored ratings are the start rating plus the logged deltas. |
| `ArenaRating.RatedAtMostOnce` | backend/internal/arena/service.go:90-145 | Under every interleaving a duel moves the ratings exactly as often as its result key has lapsed, and once more if the key is there: at most once while it never lapses. |
| `ArenaRating.CallsAgreeInOneLife` | backend/internal/arena/service.go:90-145 | Every successful call returns fair deltas that were applied, and two of them differ only if the result key lapsed between their answers. |
| `ArenaRating.LapsedKeyRatesTwice` | backend/internal/arena/service.go:90-145 | For the stock K factor, every power table on which 32 points make a favourite and every duel that was won: there is a run in which the result key lapses, the finish is retried, the duel is rated twice and the two calls return different deltas. |
| `ArenaRating.TotalRatingConserved` | backend/internal/arena/service.go:90-153 | The sum of all ratings never changes, with retries, lost replies and expired result keys included. |
| `ArenaRating.GivesUpAfterEight` | backend/internal/arena/service.go:90-145 | A caller whose transaction keeps failing tries eight times and then reports an error. |
| `ArenaResult.ReportedScoresTellOutcome` | backend/internal/arena/match.go:593-647 | The scores a rated duel hands to the rating store have the recorded outcomes as their outcome, forfeits included. |
| `ArenaResult.OutcomesAreRight` | backend/internal/arena/match.go:593-647 | In every finished run the higher score of a completed duel wins and only equal scores draw, a forfeit is lost by the quitter alone, and exactly ranked duels that completed or were forfeited are rated. |
| `ArenaResult.ReportedNumbers` | backend/internal/arena/match.go:616-647 | A rated duel hands over its scores, or 1 to 0 against the quitter. |
| `ArenaResult.RatingFollowsOutcome` | backend/internal/arena/match.go:593-647 | For every rated duel of every run, the recorded winner never loses rating and the recorded loser never gains any. |
| `ArenaClaims.Hub.Claim` | backend/internal/arena/service.go:689-702 | All players are claimed under one placeholder, or the map is unchanged and one of them was already claimed. |
| `ArenaClaims.Hub.Release` | backend/internal/arena/service.go:704-712 | Frees exactly the listed players still held by that placeholder. |
| `ArenaClaims.ReleaseUndoesClaim` | backend/internal/arena/service.go:684-712 | Releasing a claim gives back exactly the map before it. |
| `ArenaClaims.NoPlayerInTwoDuels` | backend/internal/arena/service.go:714-788 | For every interleaving of starts, failures and finishes, one map access at a time: a running duel's humans map to it, and no human is in two claimed or running duels. |
| `ArenaClaims.FailedStartLeavesPlayersFree` | backend/internal/arena/service.go:704-727 | A start that was refused, failed or is over holds nobody, and a failed start leaves its players unmapped when it lets go of the mutex. |
| `ArenaClaims.RefusedOnlyForClaimed` | backend/internal/arena/service.go:689-702 | A start is refused only when it meets one of its players claimed, and leaves the map as it was. |
| `ArenaStart.ClaimsAlone` | backend/internal/arena/service.go:689-702 | Undisturbed, the steps of a start do to the claim map what the sequential claim does. |
| `ArenaStart.FreePlayersPlay` | backend/internal/arena/service.go:714-788 | Free players do get their duel, everybody else stays where they were, and after the duel the map is what it was before. |
| `ArenaStart.FailedStartUndone` | backend/internal/arena/service.go:704-727 | A start whose work fails after the claim leaves the map as it found it. |
| `ArenaStart.EndsAlone` | backend/internal/arena/service.go:1022-1037 | The end of a duel frees exactly its players and takes it off the matches. |
| `RefreshTable.MoveKeepsDb` | backend/internal/auth/service.go:760-791 | Every statement of a rotation, a revocation, a sign-in or a logout keeps the token table consistent: a live token heads its chain, a held row is live and held once, and history only grows. |
| `RefreshRotation.RunKeepsInv` | backend/internal/auth/service.go:590-796 | Under every interleaving of callers, what each has read or rotated is true of the token table; every committed rotation stays the one on record. |
| `RefreshRotation.CallersAgree` | backend/internal/auth/service.go:680-796 | All calls that succeed with the same raw token return the same pair, with the claim lock failing open, Redis losing keys and commit replies lost. |
| `RefreshRotation.OneLiveTokenPerSignIn` | backend/internal/auth/service.go:760-791 | The chain of one sign-in never holds two unrevoked tokens. |
| `RefreshRotation.OneSuccessor` | backend/internal/auth/service.go:760-791 | A rotated token keeps its one successor for ever, is never live again, and no two tokens share a successor. |
| `RefreshRotation.RevokeAllNeedsReuse` | backend/internal/auth/service.go:695-728 | Revoke-all fires only for a token whose row had already been revoked, and for its own profile. |
| `RefreshTrail.OnlyActiveAccounts` | backend/internal/auth/service.go:590-606 | In every run whoever is given a pair, from the grace entry or by rotating, was found active by a step of its own call, after it presented its token. |
| `RefreshTrail.OnlyLiveTokensRotate` | backend/internal/auth/service.go:760-791 | In every run a token was rotated only by a call that presented it, at a step when its row was committed, unrevoked and unexpired. |
| `RefreshTrail.TokensLastThirtyDays` | backend/internal/auth/service.go:760-791 | In every run each row appeared unrevoked, and expires thirty days after it appeared. |
| `RefreshTrail.RevokesOnlyUnexcused` | backend/internal/auth/service.go:695-728 | A call goes over to revoking everything only if it saw no rotation of its revoked token under way, or waited for one in vain. |
| `RefreshTrail.LookupDecides` | backend/internal/auth/service.go:680-735 | An unknown or expired token is invalid, a revoked one is looked into, and exactly a live one goes on. |
| `RefreshTrail.ReuseDecides` | backend/internal/auth/service.go:695-728 | A revoked token is excused by a grace entry or a claim still held; a wait that ends in vain is reuse. |
| `RefreshTrail.ClaimDecides` | backend/internal/auth/service.go:624-648 | Of two callers with a live token the later one finds the claim and waits; without Redis both go on. |
| `RefreshTrail.WaitDecides` | backend/internal/auth/service.go:650-672 | A caller who waits for the winner gets its pair or gives up, and never revokes. |
| `RefreshTrail.RotateDecides` | backend/internal/auth/service.go:760-791 | The rotation waits for a held row, and goes on exactly with an unrevoked, unexpired one. |
| `RefreshTrail.CommittedPairIsReturned` | backend/internal/auth/service.go:780-796 | A pair whose rotation is committed is returned whether or not its grace entry could be written. |
| `RefreshTrail.LogoutRemoves` | backend/internal/auth/service.go:799-812 | A logout removes its own token's row and no other. |
| `RefreshTrail.LoneRefreshSucceeds` | backend/internal/auth/service.go:680-796 | From every reachable state a lone call with a live token of an active account succeeds, retires the token and leaves the grace entry. |
| `RefreshTrail.GraceServesLateCallers` | backend/internal/auth/service.go:680-694 | Whoever presents a token with a grace entry gets its pair if the account is active, and an error if not; the table is untouched. |
| `RefreshRevocation.ReuseDetectionIsFinal` | backend/internal/auth/service.go:695-728 | With no logout and no other revocation of the profile meanwhile, reuse detection is final in every continuation if and only if no row of its snapshot is rotated before the statement comes to it. |
| `RefreshRevocation.FinalExactly` | backend/internal/auth/service.go:695-728 | With no such proviso: it is final if and only if every snapshot row that was rotated before its visit has lost its whole chain by the time the statement commits. |
| `RefreshRevocation.FinalIfNoneRotated` | backend/internal/auth/service.go:695-728 | Under every interleaving, if no row of the snapshot is rotated before its visit, then for ever after every live token of the profile goes back to a sign-in made after the statement began. |
| `RefreshRevocation.SurvivorsWereMissed` | backend/internal/auth/service.go:695-728 | When the statement commits, every live token of the profile from before it belongs to a chain with a snapshot row that was rotated before its visit. |
| `RefreshRevocation.RotationOvertakes` | backend/internal/auth/service.go:760-791 | From any state in which the one row of the snapshot is held by a rotation, its commit, the skipped visit and the commit of the statement leave the new token live. |
| `RefreshRevocation.EscapingRun` | backend/internal/auth/service.go:680-796 | A concrete run: a stolen token is noticed while its successor is being rotated, and the new token outlives the revocation. |
| `TelegramRows.ApproveAfterLink` | backend/internal/auth/telegram_webapp_login.go:253-262 | The link step disarms the very row being answered, and the approval, guarded by status only, still approves it. |
| `TelegramRows.LoginIsMoved` | backend/internal/auth/telegram_login.go:423-730 | Every transaction of either flow moves every login row by one of seven moves. |
| `TelegramRows.ResetIsMoved` | backend/internal/auth/password_reset.go:213-575 | Every transaction of either flow moves every reset row by one of its moves. |
| `TelegramRows.RunKeepsInv` | backend/internal/auth/telegram_login.go:423-730 | In every run each row is consistent: an armed row is the one last armed for its user and was opened by that user, a decided row is disarmed, an approved one names its approver and profile. |
| `TelegramRuns.OneWaitingFlow` | backend/internal/auth/password_reset.go:261-291 | At most one live login request or unverified reset waits for any Telegram user in every reachable state. |
| `TelegramOverlap.BothWaitOnlyAfterOverlap` | backend/internal/auth/telegram_login.go:454-482 | Statement by statement, a login and a reset both wait for one user only if each had swept the other table before the other committed. |
| `TelegramOverlap.OverlapArmsBoth` | backend/internal/auth/password_reset.go:261-291 | In every reachable state with a login and a reset that have both swept, committing both in either order leaves both waiting. |
| `TelegramOverlap.SerialArmsOne` | backend/internal/auth/password_reset.go:261-291 | Of a login and a reset in either order, one that sweeps after the other has committed disarms it and waits alone. |
| `TelegramOverlap.ContactStraysOnlyAfterOverlap` | backend/internal/auth/telegram_login.go:545-568 | In every run, a number shared while a reset waits goes to anything but that reset only if a login overlapped with it. |
| `TelegramOverlap.OverlapStraysContact` | backend/internal/auth/telegram_login.go:545-568 | After every overlap the next shared number reaches the login if and only if the login still waits for one, and the one after it reaches the reset. |
| `TelegramOverlap.BothCanWait` | backend/internal/auth/telegram_login.go:454-482 | A concrete run of both commands at once that leaves both waiting, with the next number going to the login. |
| `TelegramRuns.RepliesGoToTheWaitingFlow` | backend/internal/auth/telegram_login.go:547-623 | While one flow waits for a user, that user's contacts and taps cannot change any other request. |
| `TelegramRuns.ContactNeverDecides` | backend/internal/auth/password_reset.go:344-380 | A shared contact alone never approves or completes a login and never verifies or uses a reset. |
| `TelegramRuns.ApprovalNeedsTap` | backend/internal/auth/telegram_login.go:634-730 | Every approved login was accepted by a tap with its current nonce while live and pending, by the recorded approver, for the recorded profile. |
| `TelegramRuns.OpenerOpenedFirst` | backend/internal/auth/telegram_login.go:423-504 | The recorded opener is the user who opened the link first. |
| `TelegramRuns.NumberWasShared` | backend/internal/auth/telegram_login.go:547-623 | A phone waiting on a request was shared as their own by the very user it is pending for. |
| `TelegramRuns.AtMostOneSession` | backend/internal/auth/telegram_login.go:322-392 | A request yields at most one session over any run. |
| `TelegramRuns.LoginSafety` | backend/internal/auth/telegram_login.go:262-392 | A session needs the browser secret, a time before expiry plus grace, and a first opening followed by an accepting tap of that same user, who held a verified link to the signed-in learner or shared that profile's own number. |
| `TelegramRuns.QuestionWasProved` | backend/internal/auth/password_reset.go:213-316 | A reset asks for confirmation only after that user proved to own the account's phone. |
| `TelegramRuns.VerificationWasTapped` | backend/internal/auth/password_reset.go:388-499 | Every verified reset was confirmed by a tap with its current nonce while live and unverified. |
| `TelegramRuns.ResetSafety` | backend/internal/auth/password_reset.go:501-575 | A password is replaced only after one user first proved the phone and then confirmed, in this order. |
| `TelegramLaws.VerifiedLinkTrail` | backend/internal/auth/telegram_webapp_login.go:206-268 | In every run each phone-verified link goes back to the Mini App, an approving tap for a number its own user shared, or a confirmed reset. |
| `TelegramLaws.VerifiedProfileIs` | backend/internal/auth/telegram_login.go:506-533 | The profile found for a Telegram user is exactly the learner of its verified link; an unverified link finds nobody. |
| `TelegramLaws.BeginLoginDecides` | backend/internal/auth/telegram_login.go:423-504 | Opening arms a live request for its first opener alone, with the question at once exactly for a verified active learner. |
| `TelegramLaws.LoginContactDecides` | backend/internal/auth/telegram_login.go:547-623 | A number counts only as the sender's own and while the request waits for one; an inactive holder blocks, anybody but a learner is refused. |
| `TelegramLaws.StaleTapIsIgnored` | backend/internal/auth/telegram_login.go:634-680 | A tap by another user, with an older nonce or out of time changes nothing. |
| `TelegramLaws.NoCancels` | backend/internal/auth/telegram_login.go:634-680 | A current tap on no cancels the request and disarms it. |
| `TelegramLaws.YesApproves` | backend/internal/auth/telegram_login.go:634-730 | A current tap on yes approves for the profile its user has proved, creating the learner of an unknown number, and links it as verified. |
| `TelegramLaws.CompleteDecides` | backend/internal/auth/telegram_login.go:322-392 | A session is given exactly to the browser with the secret, for an approved request at most two minutes past its end, for an active learner, and once. |
| `TelegramLaws.LoginWasStarted` | backend/internal/auth/telegram_login.go:170-216 | In every run each login row goes back to its start, with the same secret and five minutes to live. |
| `TelegramLaws.SessionIsPrompt` | backend/internal/auth/telegram_login.go:262-269 | A session comes less than seven minutes after its own browser started the request. |
| `TelegramLaws.KeptForADay` | backend/internal/db/queries/telegram_login.sql:6-14 | In every run a sign-in request is there until more than a day past its expiry. |
| `TelegramLaws.StartResetDecides` | backend/internal/auth/password_reset.go:105-165 | A reset is started for an active account only, lasts fifteen minutes and replaces the unused ones. |
| `TelegramLaws.BeginResetDecides` | backend/internal/auth/password_reset.go:213-316 | Opening a live unverified reset arms it for this user, with the question at once exactly for a verified link to that account. |
| `TelegramLaws.ResetContactDecides` | backend/internal/auth/password_reset.go:344-380 | The question is asked exactly after the waiting user shared the account's own number. |
| `TelegramLaws.ResetTapDecides` | backend/internal/auth/password_reset.go:388-499 | A current yes verifies the reset and links its user, a current no uses it up, any other tap changes nothing. |
| `TelegramLaws.CompleteResetDecides` | backend/internal/auth/password_reset.go:501-597 | A password is replaced exactly for a verified unused reset in time, and of the account's links only the confirmer's survives. |
| `TelegramLaws.ResetWasStarted` | backend/internal/auth/password_reset.go:105-165 | In every run each reset row goes back to its start for the same profile, fifteen minutes before its expiry. |
| `TelegramLaws.ResetIsPrompt` | backend/internal/auth/password_reset.go:501-575 | A password is replaced at most fifteen minutes after a reset of that very profile was started. |
| `AvatarQueue.Queue.Enqueue` | backend/internal/avatar/service.go:219-236 | The section keeps the stronger of the pending and the new kind, and starts a goroutine only for a profile without an entry. |
| `AvatarQueue.Queue.Take` | backend/internal/avatar/service.go:241-249 | Takes the pending kind and leaves an empty entry, or removes the entry when there was nothing. |
| `AvatarQueue.StrongerSuffices` | backend/internal/avatar/service.go:266-288 | A pass of one kind does all another would, whatever it finds, if and only if its kind is at least as strong. |
| `AvatarQueue.OneWorkerPerProfile` | backend/internal/avatar/service.go:219-264 | In every run a profile has a pending entry exactly when exactly one goroutine serves it. |
| `AvatarQueue.AtMostFourRun` | backend/internal/avatar/service.go:251-262 | At most four passes run at once in every run. |
| `AvatarQueue.NoRequestIsLost` | backend/internal/avatar/service.go:219-264 | Absent a shutdown, when nobody serves a profile each of its requests was followed by a pass that began later and does all it asked for. |
| `AvatarQueue.SomeoneCanMove` | backend/internal/avatar/service.go:238-264 | While anything is pending some goroutine can move: the semaphore cannot deadlock the queue. |
| `AvatarQueue.QueueDrains` | backend/internal/avatar/service.go:238-264 | After the last request every schedule ends within a bounded number of steps, with nothing pending and every request satisfied. |
| `AvatarQueue.StoppedForGood` | backend/internal/avatar/service.go:177-224 | In every run, once the service is stopped no request is taken and no goroutine started any more. |
| `AvatarObjects.RunKeepsInv` | backend/internal/avatar/service.go:290-412 | In every run, with any number of passes a profile, each minted key is in exactly one place: a row, a pass, or dropped for a recorded cause. |
| `AvatarObjects.StoredKeysExist` | backend/internal/avatar/service.go:363-380 | Every key stored in a row names an existing object, unless its recording took effect behind an error. |
| `AvatarObjects.NoSharedPhoto` | backend/internal/avatar/service.go:302-380 | A profile only ever shows an object minted for it, so no two profiles share one, lost answers and crashes included. |
| `AvatarObjects.PhotoIsTheLinkedUsers` | backend/internal/avatar/service.go:355-380 | Whatever links come and go meanwhile, the very key a row stores was recorded by a pass for that profile, from the Telegram user the profile was verified-linked to at that step. |
| `AvatarObjects.RowsAndObjectsAgree` | backend/internal/avatar/service.go:290-412 | With definite database answers every stored key names an object, crashes included; without crashes every object is in a row, held by a pass, or one whose delete failed. |
| `AvatarObjects.LostAnswerDangles` | backend/internal/avatar/service.go:346-389 | From any reachable state, recording an uploaded photo the row accepts and the pass's delete leave the row naming a missing object if and only if the database's answer was lost. |
| `AvatarObjects.DanglingRow` | backend/internal/avatar/service.go:369-375 | A concrete run with a lost answer that ends with a row naming a missing object. |
| `AvatarLaws.PassDecides` | backend/internal/avatar/service.go:266-288 | A pass drops the photo exactly of a profile without a verified link, and fetches always for a new link but only a stale photo otherwise. |
| `AvatarLaws.PhotoChangesOnly` | backend/internal/avatar/service.go:290-380 | A row's photo goes only while the profile is no verified learner, and comes only from the user linked at that moment. |
| `AvatarLaws.UnlinkedLosesPhoto` | backend/internal/avatar/service.go:266-300 | An answered pass over a profile without a verified link leaves no photo, no check and no object of it. |
| `AvatarLaws.NoPhotoIsRecorded` | backend/internal/avatar/service.go:302-380 | A fetch that finds no photo clears the stored one and counts as a check. |
| `AvatarLaws.TransientKeepsPhoto` | backend/internal/avatar/service.go:302-345 | A fetch that fails for the moment ends the pass and keeps the stored photo. |
| `AvatarLaws.PhotoIsRecorded` | backend/internal/avatar/service.go:302-380 | A photo that is fetched, uploaded and recorded is the profile's new key, and its object is there. |
| `AvatarKey.EncodeKeepsValue` | backend/internal/avatar/service.go:414-424 | The group-by-group base32 of section 6 of RFC 4648 is the base-32 numeral of the bytes' bits followed by two zero bits. |
| `AvatarKey.DecodeEncode` | backend/internal/avatar/service.go:414-424 | Decoding an encoded id gives the id back. |
| `AvatarKey.EncodingsExactly` | backend/internal/avatar/service.go:414-424 | A sequence of 26 symbols is an encoding if and only if its last symbol is a multiple of four. |
| `AvatarKey.ValidKey` | backend/internal/avatar/service.go:427-442 | The test accepts exactly prefix + 26 symbols of a..z, 2..7 + ".jpg". |
| `AvatarKey.NewKeyIsValid` | backend/internal/avatar/service.go:418-424 | Every minted key passes the test and gives back its random bits. |
| `AvatarKey.NewKeySpells` | backend/internal/avatar/service.go:414-424 | A minted key is the prefix, the base32 numeral of the id in the standard lower-case alphabet, and the suffix. |
| `AvatarKey.ValidKeyIsMinted` | backend/internal/avatar/service.go:426-442 | A key that passes the test could have been minted if and only if its last symbol is a multiple of four. |
| `AvatarKey.ValidKeyNeverMinted` | backend/internal/avatar/service.go:426-442 | A concrete key that passes the test and that no random bits give. |
| `BoxScale.SpanInside` | backend/internal/avatar/image.go:88-92 | No block is empty and none leaves the source, for every side and output size from 1 on. |
| `BoxScale.SpansTile` | backend/internal/avatar/image.go:88-92 | When shrinking, each span ends where the next begins and together they cover the side; when enlarging, each is one pixel. |
| `BoxScale.SpansPartition` | backend/internal/avatar/image.go:88-92 | When shrinking, every source coordinate lies in exactly one span. |
| `BoxScale.SpanStarts` | backend/internal/avatar/image.go:88-92 | Span i starts at the whole part of i * side / n, and the last one ends at the side. |
| `BoxScale.SpansAreEven` | backend/internal/avatar/image.go:88-92 | When shrinking, the widths of any two spans differ by at most one pixel. |
| `BoxScale.SumBlock` | backend/internal/avatar/image.go:97-107 | The two inner loops compute the three channel sums and the pixel count of the block, all reads in bounds. |
| `BoxScale.WritePixel` | backend/internal/avatar/image.go:108-112 | Writes the block's means and opaque alpha at the output pixel's four bytes and leaves every other byte alone. |
| `BoxScale.ScaleBox` | backend/internal/avatar/image.go:85-116 | The whole loop nest fills a fresh buffer with the specified output image. |
| `BoxScale.OutputHolds` | backend/internal/avatar/image.go:108-112 | Byte by byte, the output image holds the block mean of its pixel, and 255 for alpha. |
| `BoxScale.OutputWithinBlock` | backend/internal/avatar/image.go:97-111 | Each output channel lies between the least and the greatest source value of its block. |
| `BoxScale.OutputIsMean` | backend/internal/avatar/image.go:97-111 | An output byte times the pixel count is at most the sum of its block, and one more would exceed it. |
| `BoxScale.OnePixelBlock` | backend/internal/avatar/image.go:97-111 | A block of one pixel is copied. |
| `BoxScale.BlocksCoverImage` | backend/internal/avatar/image.go:85-116 | When shrinking, the block sums of all output pixels add up to the sum over the whole source image. |
| `BoxScale.CropIsCentred` | backend/internal/avatar/image.go:68-71 | The crop is the largest square, lies inside the image and is centred to within a pixel. |
| `Enroll.RunKeepsTxs` | backend/internal/b2b/enroll.go:158-301 | Under every interleaving, what a transaction established under the school's lock (code left, seat free, victim silent) still holds when it commits. |
| `Enroll.SeatCap` | backend/internal/b2b/enroll.go:197-253 | With fixed licences, no interleaving of enrolments, reactivations and unlocked writes takes a school's active stations above its seats. |
| `Enroll.UsesAreCounted` | backend/internal/b2b/enroll.go:185-195 | A code's counter is its start value plus the number of successful enrolments with it, and never exceeds its maximum. |
| `Enroll.SeatIsTakenOnlyWhenStale` | backend/internal/b2b/enroll.go:68-82 | A station loses its seat only to an administrator, or to an enrolment of its school on its hardware that had counted the licence full, after more than 30 minutes without a sign, unless a renewal held its row when it was chosen. |
| `Enroll.RenewalComesTooLate` | backend/internal/b2b/enroll.go:68-82 | Whenever a renewal holds the row of the station an enrolment chooses, committing it does not save the seat, however recent its sign. |
| `Enroll.FreshStationLosesSeat` | backend/internal/b2b/enroll.go:68-82 | A concrete run in which a station that has just given a sign loses its seat. |
| `Enroll.ActivationEarnsGrace` | backend/internal/b2b/station.go:161-167 | A station comes onto the licence only by a commit, and in every continuation in which it stays there, no enrolment that began within 30 minutes of that transaction takes its seat. |
| `Enroll.RecheckCatchesRevocationOnly` | backend/internal/b2b/enroll.go:180-195 | The re-check under the lock refuses if and only if the code is revoked or used up: its expiry half cannot fail. |
| `Enroll.ExpiredCodeStillEnrols` | backend/internal/b2b/enroll.go:180-195 | A concrete run in which a code that expired during the wait for the lock enrols a station. |
| `EnrollLaws.SeatsOfOne` | backend/internal/b2b/enroll.go:197-208 | A licence counts its seats for its own school from its start to before its end, and nothing otherwise. |
| `EnrollLaws.SeatsAdd` | backend/internal/b2b/enroll.go:197-208 | The seats of several licences add up. |
| `EnrollLaws.SeatsNeedLicence` | backend/internal/b2b/enroll.go:197-208 | There are seats if and only if some licence in force has some. |
| `EnrollLaws.UnlicensedIsRefused` | backend/internal/b2b/enroll.go:197-208 | Without a licence in force when it began, an enrolment or reactivation is refused. |
| `EnrollLaws.ReadyIsLicensed` | backend/internal/b2b/enroll.go:197-253 | In every run a transaction that may still commit has a licence of its school that was in force when it began. |
| `EnrollLaws.SeatsDecide` | backend/internal/b2b/enroll.go:197-253 | Refused without seats, ready below the cap, and at the cap an enrolment looks for a silent station while a reactivation is refused. |
| `EnrollLaws.ActiveOfOne` | backend/internal/b2b/station.go:67-73 | A station takes a seat exactly of its own school and while active. |
| `EnrollLaws.ActiveAdd` | backend/internal/b2b/station.go:67-73 | The seats taken add up over the stations. |
| `EnrollLaws.CodeDecides` | backend/internal/b2b/enroll.go:158-168 | The first read accepts exactly a code that exists, is not revoked and has not expired, and leads to its school. |
| `EnrollLaws.LockDecides` | backend/internal/b2b/enroll.go:170-178 | An unknown school is refused, a held lock waited for, and a suspended school refused once the lock is free. |
| `EnrollLaws.LockNeedsActiveSchool` | backend/internal/b2b/enroll.go:170-178 | In every run whoever holds a school's lock took it while the school was active. |
| `EnrollLaws.ReclaimDecides` | backend/internal/b2b/enroll.go:68-82 | The seat taken back is that of the least recently alive station of the school and hardware, silent for over thirty minutes; with none the enrolment is refused. |
| `EnrollLaws.JoinCommits` | backend/internal/b2b/enroll.go:268-301 | A commit adds one active station, revokes its victim, counts one use of its code, and touches nothing else. |
| `EnrollLaws.RestoreDecides` | backend/internal/b2b/station.go:168-242 | A reactivation goes on only for a revoked station of that very school. |
| `EnrollLaws.RestoreCommits` | backend/internal/b2b/station.go:168-242 | A reactivation makes its station active from the transaction's time on and touches no other. |
| `EnrollLaws.StaffFreesSeat` | backend/internal/b2b/station.go:132-144 | A station revoked or deleted by staff gives exactly its own seat back. |
| `EnrollLaws.RenewalShowsLife` | backend/internal/b2b/station_auth.go:171-177 | A committed renewal dates the station's last sign at the renewal's own start; a rolled-back one leaves no trace. |
| `EnrollLaws.BackOnlyByReactivation` | backend/internal/b2b/station.go:168-242 | In every run a station that lost its seat and has one later was reactivated in between, from being revoked. |
| `EnrollLaws.RemovedIsFinal` | backend/internal/b2b/station.go:263-295 | In every run a deleted station never comes back. |
| `RateLimit.Hit` | backend/internal/auth/ratelimit.go:37-48 | One script call counts the hit from the live count or from 1, and always leaves an expiry in the future, a full window away if there was none. |
| `RateLimit.Redis.RunHit` | backend/internal/auth/ratelimit.go:60-68 | The script changes its key by the counter function, leaves every other key, and returns the new count. |
| `RateLimit.Redis.Allow` | backend/internal/auth/ratelimit.go:50-58 | Allowed exactly while the new count is within the limit. |
| `RateLimit.PerLifetimeBound` | backend/internal/auth/ratelimit.go:37-58 | At most `limit` hits are allowed in each counter lifetime, and in the current one exactly min(limit, count). |
| `RateLimit.HitAlwaysExpires` | backend/internal/auth/ratelimit.go:37-48 | After every hit of every run the key expires within one window, also after its TTL was lost. |
| `RateLimit.WindowIsFixed` | backend/internal/auth/ratelimit.go:37-48 | Without TTL loss a counter lifetime ends exactly one window after its first hit: later hits do not prolong it. |
| `RateLimit.NeighbouringLifetimes` | backend/internal/auth/ratelimit.go:37-48 | Hits at most a window apart lie in the same or in neighbouring lifetimes. |
| `RateLimit.AtMostTwiceTheLimit` | backend/internal/auth/ratelimit.go:37-58 | At most twice the limit is allowed in any interval of one window length. |
| `Spool.DurableSpool.Put` | services/humo-watcher/watcher.py:75-81 | Adds the message unless its id is already queued, in which case the table is unchanged. |
| `Spool.DurableSpool.First` | services/humo-watcher/watcher.py:83-88 | Returns the oldest row, ties by id, or nothing exactly when the table is empty. |
| `Spool.Drain` | services/humo-watcher/watcher.py:104-120 | Delivers the oldest rows in order with their own text, exactly while ingests succeed, removes exactly those, stops short only at a failed ingest, and reports success exactly with the table empty. |
| `Spool.AtLeastOnce` | services/humo-watcher/watcher.py:75-120 | For every interleaving of puts, drains, lost replies and crashes, each id ever put is still queued or was accepted. |
| `Spool.RemovedOnlyWhenAccepted` | services/humo-watcher/watcher.py:104-120 | A row leaves the table only after its own text was accepted, and is never rewritten while it waits. |
| `Spool.DrainDelivers` | services/humo-watcher/watcher.py:104-120 | Undisturbed, four steps take the oldest row to the API and off the table. |
| `Spool.PutIsKept` | services/humo-watcher/watcher.py:75-81 | A put is queued with its text and time, or the row already queued under its id stays as it is. |
| `Spool.InterruptedDrain` | services/humo-watcher/watcher.py:104-120 | A refusal, a crash or a lost reply keeps every row and frees the lock. |
| `Cyrillic.ToCyrillic` | backend/cmd/gensigns/cyrillic.go:40-140 | The index-driven loop computes the recursive scan of the whole text. |
| `Cyrillic.SeparatorsSplit` | backend/cmd/gensigns/cyrillic.go:40-140 | For all texts s and t and every separator c, the transliteration of s + c + t is that of s, then c, then that of t. |
| `Cyrillic.WordByWord` | backend/cmd/gensigns/cyrillic.go:40-140 | Any number of words joined by a separator is transliterated word by word. |
| `Cyrillic.ScanUpToY` | backend/cmd/gensigns/cyrillic.go:40-140 | No digraph reaches over a y: the transliteration of a text is that of the part before the y, then that from the y on. |
| `Cyrillic.ScanLeavesNoLatin` | backend/cmd/gensigns/cyrillic.go:40-140 | No lower-case Latin letter except w is left anywhere in the output. |
| `Cyrillic.YodBeforeApostrophe` | backend/cmd/gensigns/cyrillic.go:89-92 | Wherever yo' stands in a text, it becomes й and ў, after the transliteration of what precedes it. |
| `Cyrillic.HardSignInLoanwords` | backend/cmd/gensigns/cyrillic.go:89-114 | Wherever ye stands in a text, it takes a hard sign if and only if the rune before it is a consonant. |
| `Cyrillic.ScanIsPieces` | backend/cmd/gensigns/cyrillic.go:53-137 | A transliteration is what is written at the scanner's stops, in order. |
| `Cyrillic.WidthLaw` | backend/cmd/gensigns/cyrillic.go:53-137 | Exactly o' and g', sh, ch, ts and the iotated pairs take two runes, everything else one. |
| `Cyrillic.PairLaws` | backend/cmd/gensigns/cyrillic.go:62-115 | What each pair becomes, at every position of every text, in the case of its first rune. |
| `Cyrillic.LoneE` | backend/cmd/gensigns/cyrillic.go:118-126 | A lone e is the hard letter exactly where a word begins or a vowel precedes. |
| `Cyrillic.LoneLetter` | backend/cmd/gensigns/cyrillic.go:11-38 | Every other lone letter becomes its partner in the alphabet. |
| `Cyrillic.OtherRunes` | backend/cmd/gensigns/cyrillic.go:116-137 | A lone apostrophe is the hard sign, and what is no letter of the alphabet stays. |

## Left out

- Transport and HTTP: WebSocket pumps, message payloads, handlers, routing and error mapping.
- Cryptography and hashing: tokens, secrets, nonces and random ids are opaque values, fresh ones never repeat.
- Floating point: points, expected scores and rating deltas are computed over exact reals, and the power of ten is any positive function with p(d) * p(-d) = 1.
- The matchmaking queue, rating buckets, invite codes, medals, bot accuracy and question selection: they would add easy members.
- The retry loop that persists a finished duel: the rating store is modelled under any number of retries, nothing is claimed about the loop's end.
- A handler of the match loop reads the clock once in the model; the program may read it again a moment later inside the same handler.
- ArenaDuelTime.FinishedBeforePointerExpiry: assumes that the loop's lateness, added up over the wakes of the duel, stays below 100 seconds; the pointer's slack is no larger.
- The protocols of refresh rotation, Telegram requests, ratings, claims, queue goroutines, avatar objects and enrolment are state machines over values: update in place is captured by the classes of `ArenaMatch`, `ArenaClaims`, `AvatarQueue`, `RateLimit` and `Spool` only.
- SQL runs at READ COMMITTED. Enrolment, token rotation and revocation are modelled statement by statement, a revocation row by row, with their row locks; the Telegram and avatar transactions, which lock the rows they decide on, are one step each.
- TelegramRuns.OneWaitingFlow: takes each command as one step; what two commands of one user can do to each other statement by statement is in `TelegramOverlap`, for the waiting rows only.
- AvatarObjects.RowsAndObjectsAgree: an upload reported as failed that lands after its own delete is not modelled, nor is a clear whose answer is lost counted as definite.
- The weekly refresh gate and back-off table of the avatar service, and the decoding and encoding of images.
- BoxScale.ScaleBox: sums are unbounded integers; the program's 64-bit sums cannot overflow for sources of at most a few thousand pixels a side.
- Enroll.SeatCap: licences do not change during a run; when one lapses the cap is the seats of the most generous moment, since the program revokes nothing then.
- The public key of a station and the unique index over it: a conflicting insert is one of the aborts a transaction may suffer.
- Kill switches and rate limits of the Telegram flows: a step they refuse is a step not taken.
- Unicode tables of the transliterator (letter, case) are parameters with the few properties the proofs name.
- Administration, billing, content, analytics, front end, deployment and the other command-line tools.
