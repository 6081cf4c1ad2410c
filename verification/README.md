# OutreachGraph, modelled and proved

A Dafny 4.11 model of the parts of OutreachGraph that loop over changing
tables, pay exactly once, enforce quotas, take turns and decide who may be
contacted, with proofs about every input, every run and every reachable state.
Tables are maps and sequences, each write of a handler is a step, and time is a
millisecond clock. Handlers that change state are class methods proved equal to
a step function; the laws are then proved over whole runs of steps. Where a
handler awaits between reading and writing, its reads and its writes are
separate steps, so the runs include those where handlers overlap or stop half
way; the places where several reads or a whole handler are still one step are
listed under "Left out".

| module | what it models |
|---|---|
| `PolicyEngine` | the gates of the policy engine and the capability matrix, as a join that can only tighten, and what they come to |
| `PacingClock` | when a held message may go, checked against the log of actions the limits are counted from |
| `ApprovalHold` | approving a card: which refusals are waived, and until when the send waits |
| `BulkApprove` | the scan that approves a queue while the queue shrinks under it, with a resumable cursor, alone and beside other people |
| `DirectoryWalk`, `DirectoryCursor` | keyset paging of the public directory against concurrent writers, and its cursor |
| `RateLimiter` | the fixed-window limiter with its lazy sweep, against a history-based rule |
| `PaymentIds`, `CreditLedger` | the ledger's keys, and its four payers under duplicates, overlap and crashes |
| `InviteBonus` | which accepted invites earn a bonus, and the monthly cap under overlap |
| `DailyQuota`, `ContentRadar`, `RadarRanking` | daily drafting turns, their quota and fairness, and which reference is drafted |
| `CampaignSource` | reading a campaign's URL: daily caps, first read, once per item |
| `HandoffQueue` | the round-robin list of posts made by hand |
| `LoginLockout` | the lockout after wrong passwords, one at a time and overlapping |
| `OneTimeTokens` | verification links, reset links and sessions |
| `PasswordSignIn` | a password sign-in under way across a reset |
| `PendingSignIn`, `CoinpayBinding` | Sign in with CoinPay: pending requests, and which account a subject opens |
| `LeadImport` | importing leads: every row accounted for, membership exact, imports that overlap |

Where the code does not do what its comments promise, the code is modelled as
it is and the exact condition is proved:

- `pacingClearsAt` holds a full day to the next UTC midnight, but the count it
  is checked against (`apps/api/src/repository.ts:465-539`) covers the last 24
  hours. The hold is long enough exactly when the counts fit in the day that
  ends there (`PacingClock.HoldClearsIff`, `PacingClock.FullDayClearsIff`,
  `PacingClock.DayHoldClearsIff`; `PacingClock.MidnightIsTooSoon` is an instance).
- `withoutPacing` clears the counts but keeps the weekly cap for a prospect, so
  a cap of zero still refuses a card the approval comment says is never
  limited (`ApprovalHold.ApprovedIff`, `ApprovalHold.ZeroWeeklyLimitIsNotWaived`).
- A bulk approval's preview never asks again without pacing, so it reports as
  held cards that the press approves; and it never asks whether a first email
  has an address and words, so it reports as going out cards that the press
  holds. Exactly which, both ways, is `ApprovalHold.PreviewPartsIff`
  (`ApprovalHold.UndraftedIsPreviewedAsApproved` is an instance).
- A bulk approval's cursor is a count, so cards that leave or join before it by
  other hands between two pages or presses make the next one skip or repeat
  cards; exactly when and how many is `BulkApprove.ReadsOnIff`.
- The directory promises a reader never skips a row updated while it read. A
  row stamped with the cursor's own time and a smaller id is skipped
  (`DirectoryWalk.WrittenRowIsSeenIff`, `DirectoryWalk.SameStampSmallerIdIsSkipped`).
- `handleCoinPayWebhook` reads a purchase's status and writes it later, so an
  unpaid delivery that read early can take a purchase out of `confirmed`
  (`CreditLedger.ConfirmedCanBeLeft` is such a run). A confirmed purchase stays
  so through every run exactly when no such write is pending
  (`CreditLedger.ConfirmedForGoodIff`); the ledger is unaffected.
- A link to verify an address or reset a password is read, and marked as used
  some awaits later without being read again, so two requests that overlap can
  both be accepted, and two requests for a reset link can both mail inside the
  minute. How often, exactly, is `OneTimeTokens.EndingsIff`; runs are
  `OneTimeTokens.ALinkCanBeAcceptedTwice` and `OneTimeTokens.TwoLinksAtOnce`.
- A reset ends the sessions its user has, but a sign-in that read the old
  password before it can still issue one after it
  (`PasswordSignIn.AnOldPasswordSignsIn`). Only a sign-in under way across the
  reset can (`PasswordSignIn.StaleWasUnderWay`), and none does exactly when none
  under way read its password before the reset (`PasswordSignIn.EndingsIff`).
- A settlement of an invite counts the inviter's bonuses before it inserts its
  own, so any number settled at once are all granted
  (`InviteBonus.AnyNumberAtOnce`); the cap holds however those under way end
  exactly when what is granted and what waits fit (`InviteBonus.CapHoldsIff`).
- A sign-in reads the failure count before it checks the password and writes one
  more than it read, so guesses sent at once are all checked and counted once
  (`LoginLockout.AnyNumberAtOnce`, `LoginLockout.GuessesEndIff`), and one that
  read early lifts a lock set since (`LoginLockout.LockHoldsIff`).
- A content radar sweep that stops after writing a batch and before stamping
  the turn drafts the product again the same day (`ContentRadar.DueAgainIff`,
  `ContentRadar.AStopDraftsTwice`).
- A settled invite whose process stops after its claim is never paid
  (`CreditLedger.StoppedClaimStaysUnpaid`).
- Reads of one workspace's sources side by side each draft within the room they
  counted for themselves, and can pass the daily caps together
  (`CampaignSource.SixInADay`). However they end they stay within them when what
  was written today and what all of them have queued, or will queue of the list
  they are going through, fit; and only then, as long as no two list the same
  unseen item (`CampaignSource.EndingsIff`). Reads that follow one another
  always stay within them.
- Two first reads of one feed side by side can draft its back catalogue
  (`CampaignSource.OverlappingFirstReadsFlood`); an uninterrupted one cannot
  (`CampaignSource.FirstReadNeverFloods`).
- `userForCoinpay` makes an account and then binds it. A process that stops in
  between leaves an account nobody can ever enter, and two subjects that
  sanitise to one placeholder address cannot both sign up
  (`CoinpayBinding.NobodyIsLockedOutIff`, `CoinpayBinding.StrandedForGood`,
  `CoinpayBinding.TurnedAwayIff`).
- An import reads the memberships and writes its own later, so two at once can
  both report a person as added. The report is true exactly when nobody it adds
  was made a member in between (`LeadImport.ReportIsTrueIff`).
- The limiter admits the first request of a window even when its limit is 0, so
  its bounds are stated for max(limit, 1).

## Model

| member | source | states |
|---|---|---|
| PolicyEngine.FoldIsStrictest | packages/policy/src/engine.ts:38-49 | Running the gates one after another gives the strictest decision any of them asked for, whatever their order. |
| PolicyEngine.GateOrderIsIrrelevant | README.md:215-219 | Reordering the gates cannot change the decision, so gate ordering can never re-permit something. |
| PolicyEngine.AnyOrderDecidesTheSame | README.md:215-219 | The whole engine's decision is the same in whatever order the gates run, with the approval gate, which reads the decision so far, at any position among them. |
| PolicyEngine.NeverUpgrades | README.md:215-219 | Whatever gates run later, the decision is at least as strict as before them. |
| PolicyEngine.EveryDecisionIsExplained | packages/policy/src/engine.ts:265-479 | The decision is the strictest restriction on record, and it names the last gate that asked for exactly it unless nothing restricted the action. |
| PolicyEngine.RestrictionsOnly | packages/policy/src/engine.ts:265-479 | The trace holds restrictions only; no entry permits. |
| PolicyEngine.ProhibitedIsDenied | packages/policy/src/engine.ts:265-330 | A deleted, suppressed or minor person, a capability switched off, or one the matrix does not describe is always denied. |
| PolicyEngine.OutboundWaitsForAHuman | packages/policy/src/engine.ts:440-479 | An outbound action is allowed outright only in a trusted-automation campaign, over an API or a customer's own session, and on an open thread only as an enabled automatic reply. |
| PolicyEngine.LinkedInNeedsASession | packages/policy/src/engine.ts:482-529 | Without the member's own session every LinkedIn action other than research is a hand-off or a refusal. |
| PolicyEngine.ManualComesFromCapability | packages/policy/src/engine.ts:482-529 | Only the capability gates ever answer that a person must do it by hand. |
| PolicyEngine.DecisionIs | packages/policy/src/engine.ts:250-529 | What the fifteen gates come to, told from the request alone: refused for a person who may not be contacted, a switch, a missing or disabled rule, doubt about the person, an unanswered thread, no budget, a full day, or a person or address written to within the cooldown (72 hours unless set) or too often this week (once an address unless set); otherwise by hand where the platform wants it or no account is there; otherwise waiting for approval for any message outside trusted automation or on a thread not its own to continue; otherwise allowed. |
| PolicyEngine.MatrixIs | packages/policy/src/capability-matrix.ts:75-290 | The capability matrix read by mode and action instead of by network, each mode exactly. |
| PolicyEngine.RefusalsAreNamed | packages/policy/src/engine.ts:265-420 | A refusal goes on record under the gate it belongs to, and only when that gate has cause. |
| PacingClock.UndefinedIffNothingBreached | apps/api/src/app.ts:7307-7343 | The clock names no time exactly when no daily, weekly or cooldown limit is breached now. |
| PacingClock.OnlyTheDayIsLeft | apps/api/src/app.ts:7307-7343 | At every moment after the time named, with nothing more recorded, both cooldowns are over and both weekly caps are clear unless a cap is one no count is under; only the day can still be full. |
| PacingClock.HoldClearsIff | apps/api/src/app.ts:7302-7343 | After the time named no pacing limit is ever breached again, with nothing more recorded, exactly when the weekly caps are positive and fewer actions than the daily cap fall in the day ending there. |
| PacingClock.FullDayClearsIff | apps/api/src/app.ts:7307-7343 | A full day, alone or with other limits, is held to the later of the next UTC midnight and the other limits' times; that is long enough exactly when the weekly caps are positive and fewer than the cap went out in the day ending there, which for a hold of a day or more is any positive cap. |
| PacingClock.HeldToTheLatest | apps/api/src/app.ts:7307-7343 | The time named is the latest of the breached limits' own times, each read off the stamps of the log: the next UTC midnight for the day, the last action plus the cooldown for a rest, the last action plus a week and an hour from now at the soonest for a weekly limit; neither sooner nor later. |
| PacingClock.RestIsHeldToItsEnd | apps/api/src/app.ts:7318-7329 | A cooldown breached alone is held to the last action plus the cooldown, and is still breached at every moment from now until then. |
| PacingClock.WeekIsHeldToItsEnd | apps/api/src/app.ts:7331-7341 | A prospect's weekly limit breached alone is held to the last message plus a week, or an hour from now when that is later. |
| PacingClock.OpenStaysOpen | apps/api/src/app.ts:7307-7343 | If nothing is breached now, nothing is breached at any later moment with nothing more recorded. |
| PacingClock.DayHoldClearsIff | apps/api/src/repository.ts:465-539 | A full day alone is held to the next UTC midnight, and that is long enough exactly when fewer than the cap went out since today's midnight. |
| PacingClock.MidnightIsTooSoon | apps/api/src/app.ts:7312-7315 | One action at 23:00 under a cap of one is held at 23:30 to midnight and is still over the cap just after it. |
| PacingClock.NeverInThePast | apps/api/src/app.ts:7307-7343 | The time named is never before now. |
| ApprovalHold.PreCheckNeverLosesACard | apps/api/src/app.ts:6821-6848 | The pacing-only pre-check never turns away a card the unpaced re-evaluation would accept. |
| ApprovalHold.ApprovedIff | apps/api/src/app.ts:6821-6916 | A card is approved exactly when the gates that are not about pacing accept it, the prospect's weekly limit is not a zero no wait can satisfy, and a first email that would go out has an address that is not refused and words. |
| ApprovalHold.DecisionSays | apps/api/src/app.ts:6821-6916 | What approving a card comes to, from the card alone: refused exactly for what bars it whatever was counted, for hand-off work where none is wanted, or for a weekly limit of zero; kept in the queue exactly when a first email that would go out lacks an address, has one refused, or lacks words, the first of these named; approved otherwise. |
| ApprovalHold.UnpacedAcceptableIff | apps/api/src/app.ts:7286-7300 | Evaluating with pacing out of the way asks exactly the other gates, unless a zero weekly limit still refuses. |
| ApprovalHold.ZeroWeeklyLimitIsNotWaived | apps/api/src/app.ts:7290-7300 | A first email whose campaign sets a weekly limit of zero is refused though pacing alone is in the way; at one it is approved. |
| ApprovalHold.HoldHasATime | apps/api/src/app.ts:6835-6848 | An approval that waived pacing always carries a time to wait for, not before now; one that waived nothing goes at once. |
| ApprovalHold.HeldCardGoesOutIff | apps/api/src/app.ts:6821-6848 | A held card, cold or an answer on an open thread, passes the engine outright at every moment after its hold, with nothing more recorded, exactly when every limit that applies to it has a cap some count is under and the day's cap is not used up in the day ending at the hold. |
| ApprovalHold.PreviewPartsIff | apps/api/src/app.ts:4362-4383 | A card previewed as held is approved by the press exactly when its other gates accept it, it can be sent, and a pacing limit that can clear fires, save hand-off work held by the day alone; a card previewed as going out is not approved exactly when it is a first email nothing refuses that lacks an address or words; what a preview would hand off, the press does. |
| ApprovalHold.UndraftedIsPreviewedAsApproved | apps/api/src/app.ts:6878-6916 | A first email with an address and no draft is previewed as going out and held by the press for want of a message. |
| ApprovalHold.ProhibitedIsNeverApproved | apps/api/src/app.ts:6821-6876 | No waiver, hold or hand-off reaches a person who must not be contacted. |
| BulkApprove.ApprovalQueue.ListPending | apps/api/src/repository.ts:185-267 | Reading in raw batches past hidden rows returns exactly the asked window of the cards on show. |
| BulkApprove.ShownAreAll | apps/api/src/repository.ts:185-267 | The cards on show are every card of the queue marked so, in the queue's own order. |
| BulkApprove.ApprovalQueue.ScanQueue | apps/api/src/app.ts:4319-4405 | The page loop visits the next cards in order, keeps the offset at the cards that stayed, ends, and stops early only when a budget is spent. |
| BulkApprove.ApprovalQueue.ApproveAll | apps/api/src/app.ts:4280-4443 | One press visits the next cards in queue order without a gap; afterwards a visited card is pending exactly when the press was a dry run or the card was held or of another channel, every other card stays and none is new; a card is stepped over exactly when a channel is asked for and it is of another; the cursor moves by the cards scanned less those approved or handed off; budgets are kept, and attempted = approved + handoffs + held with holds grouped by gate. |
| BulkApprove.SumHolds | apps/api/src/app.ts:4407 | The held total is the sum over the grouped holds, in any order. |
| BulkApprove.TallyAddsOne | apps/api/src/app.ts:572-582 | Tallying a hold adds one under its gate, or under "unknown" when it names none, and so one to the total held. |
| BulkApprove.ChainVisitsInOrder | apps/api/src/app.ts:4296-4443 | With nobody else at the queue, presses that each pass back the cursor visit the cards from the first cursor on once each in queue order, whichever of the cards they visit leave and wherever budgets cut in; the first card not visited is at the cursor, and none is left when a press says so. |
| BulkApprove.ReadsOnIff | apps/api/src/app.ts:4319-4443 | Whatever others did to the queue since, reading on begins at the first card not visited exactly when as many cards stand before it as the cursor says; when fewer do, as many unvisited cards are skipped, and when more do, as many are read again. |
| BulkApprove.NobodyIsPassedOver | apps/api/src/app.ts:4296-4443 | Over any run of presses and changes by others that keep the cursor between the cards before it and those after it, every card ahead of the cursor is visited, still ahead at the end, or was taken by others. |
| BulkApprove.NobodyIsVisitedAgain | apps/api/src/app.ts:4296-4443 | Over such a run a card a press visited is not visited again, unless it left the queue and was put back. |
| BulkApprove.WholeQueueVisitedOnce | apps/api/src/app.ts:4300-4309 | From the top, presses until one says there is no more visit every card exactly once and leave exactly the cards that stayed. |
| BulkApprove.PressesRunOut | apps/api/src/app.ts:4300-4309 | Presses that each reach a card are at most as many as the cards left, so chaining ends. |
| DirectoryWalk.ClampLimit | apps/api/src/public-directory.ts:284-287 | A page holds between one and 200 rows: the whole part of what is asked for, 100 when nothing readable is. |
| DirectoryWalk.PageFacts | apps/api/src/public-directory.ts:156-179 | A page holds rows as they stand, changed at or after the stamp asked for and past the cursor, by stamp and then id; it names a next cursor exactly when it leaves some of those, is then full, and all it leaves are past its last row. |
| DirectoryWalk.NoVersionTwice | apps/api/src/public-directory.ts:36-42 | However page reads, writes of any stamp and removals interleave, no version of a row is delivered twice. |
| DirectoryWalk.NothingOlderIsDelivered | apps/api/src/public-directory.ts:150 | However page reads, writes and removals interleave, no row older than the stamp asked for is delivered. |
| DirectoryWalk.NothingIsSkipped | apps/api/src/public-directory.ts:36-42 | When every write before the last page falls past the reader's cursor, a finished walk delivered the current version of every surviving row not changed since its final page. |
| DirectoryWalk.QuietWalkIsTheTable | apps/api/src/public-directory.ts:123-179 | With no writers the pages concatenate to exactly the filtered table in key order. |
| DirectoryWalk.QuietWalkIsExact | apps/api/src/public-directory.ts:123-179 | With no writers a finished walk delivers exactly the rows changed at or after the stamp asked for, each once, by stamp and then id. |
| DirectoryWalk.WrittenRowIsSeenIff | apps/api/src/public-directory.ts:147-152 | A row written mid-walk is delivered by reading on exactly when its key falls past the cursor. |
| DirectoryWalk.SameStampSmallerIdIsSkipped | apps/api/src/public-directory.ts:36-42 | A row given the cursor's own stamp and a smaller id is never delivered. |
| DirectoryCursor.LastBar | apps/api/src/public-directory.ts:307 | The separator is the last bar of the text, if any. |
| DirectoryCursor.RoundTripIff | apps/api/src/public-directory.ts:296-314 | A cursor handed out reads back as the place it encodes exactly when the id holds no bar and neither part is empty and the stamp is a date. |
| DirectoryCursor.AcceptedIsEncoded | apps/api/src/public-directory.ts:300-314 | Any text accepted as a cursor is the encoding of the place read from it. |
| RateLimiter.FixedWindowLimiter.Take | apps/api/src/public-directory.ts:334-352 | With its sweep, the limiter answers each request exactly as the whole request history says, and forgets ended windows exactly when a window opens and more than 10,000 are kept. |
| RateLimiter.FixedWindowLimiter.Sweep | apps/api/src/public-directory.ts:354-356 | The sweep forgets every window that has ended and nothing else. |
| RateLimiter.OneAllowancePerWindow | apps/api/src/public-directory.ts:334-352 | From a window's opening to its end exactly the first max(limit, 1) requests of a key are admitted. |
| RateLimiter.AnswersInAWindow | apps/api/src/public-directory.ts:334-352 | The n-th request of a window is told exactly whether it is within the allowance, how much of it is left, and when refused the fewest whole seconds, one at least, that reach the window's end. |
| RateLimiter.TwoAllowancesPerInterval | apps/api/src/public-directory.ts:324-357 | No half-open interval as long as the window admits more than twice max(limit, 1) requests of a key. |
| RateLimiter.RetryAfterIsHonoured | apps/api/src/public-directory.ts:344-349 | A refused caller that waits the seconds it was told, with nothing else on its key, is admitted (Retry-After, section 10.2.3 of RFC 9110). |
| PaymentIds.KeysAreDistinct | apps/api/src/credit-codes.ts:16-18 | Two different reasons to pay never share a ledger key, within a source or across the gateway, codes, invites and passes, for code ids without a colon and any user id or subject. |
| PaymentIds.KeyTexts | apps/api/src/coinpay-pass.ts:27-36 | The text of each source's key, prefix, parts and order. |
| PaymentIds.ColonInACodeIdCollides | apps/api/src/credit-codes.ts:199 | A colon inside a code id makes two redemptions share a key. |
| PaymentIds.RepairRebuildsTheKey | apps/api/src/credit-codes.ts:214-221 | The repair path's key is the redemption's own key exactly when the recorded source names that code. |
| PaymentIds.OneKeyPerPass | apps/api/src/coinpay-pass.ts:27-36 | Two sign-ins that earn a key earn the same one exactly when they are the same subject's same pass. |
| PaymentIds.PassKeyIs | apps/api/src/coinpay-pass.ts:27-36 | A sign-in earns a key exactly with a subject and an active pass whose end is still to come, and the key names that subject and end. |
| PaymentIds.StampShapes | apps/api/src/coinpay-pass.ts:35 | Whatever follows the year, a stamp of four year digits, or of six after a sign, is one the keys are kept apart for. |
| CreditLedger.WebhookStatus | apps/api/src/billing.ts:241-247 | An unpaid delivery never records a purchase as confirmed. |
| CreditLedger.Smallest | apps/api/src/coinpay-pass.ts:23-24 | The credits of a pass are the least of the sizes of the packs on sale, whatever they are. |
| CreditLedger.SizesAre | packages/domain/src/credits.ts:44-48 | The sizes on sale are 100, 500 and 2000 prospects, and a pass is worth 100. |
| CreditLedger.TakenIffHeld | packages/pipeline/src/credits.ts:85-118 | Among well-formed keys the unique `payment_id` text is taken exactly when the reason itself has been paid. |
| CreditLedger.EachReasonPaysOnce | apps/api/src/billing.ts:127-239 | Over every run of purchases, webhooks, redemptions, retries, pass sign-ins and settlements, interleaved write by write and stopped anywhere, no two rows share a `payment_id` text, each is of the stored amount and a purchase's stored organization, and a confirmed purchase is credited. |
| CreditLedger.ColonCostsAGrant | apps/api/src/credit-codes.ts:199 | Were code ids to hold colons, a redemption could find its key taken by another and be paid nothing. |
| CreditLedger.TotalIsTheSumOverReasons | packages/pipeline/src/credits.ts:78-118 | The ledger's total is the sum over the reasons it holds, whose `payment_id` texts are all different, of what the tables say each is worth. |
| CreditLedger.PaidDeliverySettles | apps/api/src/billing.ts:217-236 | The first paid delivery credits the purchase as opened and confirms it; a later one changes only the status. |
| CreditLedger.UnpaidDeliveryOnlyRecords | apps/api/src/billing.ts:206-215 | Any other delivery leaves the ledger and every confirmed purchase alone and touches at most the purchase it names. |
| CreditLedger.PaidDeliverySays | apps/api/src/billing.ts:141-239 | A delivery whose status is confirmed or forwarded, or that has none and whose kind is payment.confirmed or payment.forwarded, confirms the first purchase it names and pays it what it was opened for unless its text is taken. |
| CreditLedger.OtherDeliverySays | apps/api/src/billing.ts:206-247 | A delivery of any other status leaves the ledger and a confirmed purchase as they were and records detected, failed, expired or pending by its own text. |
| CreditLedger.UnknownDeliveryDoesNothing | apps/api/src/billing.ts:150-194 | A test delivery, or one none of whose ids has a purchase, changes nothing. |
| CreditLedger.ConfirmedForGoodIff | apps/api/src/billing.ts:206-236 | A confirmed purchase stays confirmed through every run exactly when no unpaid delivery of it is still to be written. |
| CreditLedger.ConfirmedCanBeLeft | apps/api/src/billing.ts:206-236 | From empty tables: one purchase, an unpaid and a paid delivery read together; credited and confirmed, and no longer confirmed one write later. |
| CreditLedger.ConfirmedIsLeftIff | apps/api/src/billing.ts:206-215 | A step takes a purchase out of confirmed exactly when it is the late write of an unpaid delivery that read it before. |
| CreditLedger.ConfirmedStays | apps/api/src/billing.ts:206-236 | With no such write pending a confirmed purchase stays confirmed through every run. |
| CreditLedger.RetryPaysWhatWasLost | apps/api/src/credit-codes.ts:168-223 | A retry answered "already redeemed" adds exactly this person's lost code grants, at the amounts redeemed, and leaves none lost. |
| CreditLedger.ALostGrantIsRepaid | apps/api/src/credit-codes.ts:168-223 | A redemption that stopped before it paid is paid by the retry, once, what it was worth. |
| CreditLedger.ClaimPaysBothSides | apps/api/src/credit-codes.ts:483-511 | Left to run, a claimed invite bonus pays both sides. |
| CreditLedger.SettlingPaysBothSides | apps/api/src/credit-codes.ts:483-511 | A settlement of a new invitee, left to run, records the bonus and adds one row of it for each side; one already recorded does nothing. |
| CreditLedger.StoppedClaimStaysUnpaid | apps/api/src/credit-codes.ts:430-513 | A settlement that stopped after its claim is never finished by anything later. |
| CreditLedger.CreditDesk.GrantCredits | packages/pipeline/src/credits.ts:85-118 | A grant is inserted and reported new exactly when it is worth something and no row has its `payment_id` text. |
| CreditLedger.CreditDesk.FindPurchase | apps/api/src/billing.ts:173-194 | The purchase is the one behind the first id of the delivery that has one. |
| CreditLedger.CreditDesk.HandleCoinPayWebhook | apps/api/src/billing.ts:141-239 | A webhook leaves the tables as its steps do; the ledger grows only for a status of confirmed or forwarded, or none and a kind that says so; it reports a credit exactly when the ledger grew, and an unknown payment exactly when no id has a purchase. |
| CreditLedger.CreditDesk.RepairCodeGrants | apps/api/src/credit-codes.ts:207-223 | The repair adds one row for each entry of the history whose key is free. |
| CreditLedger.CreditDesk.RedeemCreditCode | apps/api/src/credit-codes.ts:177-205 | Redeeming records the redemption and pays it, or repairs, or does nothing, as the answer says. |
| CreditLedger.CreditDesk.GrantCoinpayPass | apps/api/src/coinpay-pass.ts:43-63 | A pass is credited to the home organization once, and each refusal has its own cause. |
| InviteBonus.AnyThirtyDays | apps/api/src/credit-codes.ts:464-473 | While settlements follow one another, no inviter has more than ten granted bonuses in any thirty days, wherever they are taken and whatever order stamps come in. |
| InviteBonus.CapIsMet | apps/api/src/credit-codes.ts:464-473 | Of any number of clean invitees of one inviter settled in turn, exactly the first ten are granted. |
| InviteBonus.AloneIsSettled | apps/api/src/credit-codes.ts:421-496 | Looking and inserting with nothing in between is one such settlement. |
| InviteBonus.CapHoldsIff | apps/api/src/credit-codes.ts:464-496 | However the settlements under way end, an inviter keeps within the cap in given thirty days exactly when the bonuses granted there and the invitees still waiting for one there are at most ten together. |
| InviteBonus.AnyNumberAtOnce | apps/api/src/credit-codes.ts:464-496 | From an empty table: any number of invitees of one inviter settled at once are all granted, in one moment. |
| InviteBonus.OneRowPerInvitee | apps/api/src/credit-codes.ts:483-496 | Over every run, overlapping and stopped settlements included, each invitee has at most one bonus row, and a row is worth something exactly when it was granted. |
| InviteBonus.InviteDesk.SettleInviteBonus | apps/api/src/credit-codes.ts:421-514 | A settlement writes exactly the row its facts decide, the first reason that applies winning, or nothing. |
| InviteBonus.InviteDesk.CountEarned | apps/api/src/credit-codes.ts:464-472 | The cap counts the inviter's granted rows stamped since a moment, that moment included. |
| InviteBonus.EarnedIsBetween | apps/api/src/credit-codes.ts:464-473 | What an inviter earned in a stretch is how many of their rows were granted since it began and not since it ended. |
| InviteBonus.StatusTells | apps/api/src/credit-codes.ts:440-482 | Each answer of a settlement told by itself: switched off, throwaway address, same mailbox, inviter too new, ten earned in thirty days, no organization, each only when none before it applies, and granted when none does. |
| DailyQuota.WritingKeepsTheCap | apps/api/src/content-radar.ts:935-948 | Writing within the room counted from the start of the day a read began in keeps every UTC day under the cap, the day the writing spills into included. |
| ContentRadar.DraftPicks | apps/api/src/content-radar.ts:935-973 | The picks are products of the order with a reference, in the order's order; every product with a reference before a pick is a pick, and with room to spare every one of the order is; never more than there is room for today. |
| ContentRadar.RoomIs | apps/api/src/content-radar.ts:935-948 | The room is three less the batches written since UTC midnight. |
| ContentRadar.ThreeADayOneTurnEach | apps/api/src/content-radar.ts:901-927 | Over every run, sweeps that stop anywhere included, a workspace gains at most three radar batches and each product takes at most one turn in any UTC day. |
| ContentRadar.OnlyTheDueAreDrafted | apps/api/src/content-radar.ts:901-971 | A sweep drafts only products that draft by themselves, took no turn since UTC midnight, and have a reference. |
| ContentRadar.EveryStampIsATurn | apps/api/src/content-radar.ts:918-925 | Over every run, when a radar is stamped as having drafted last is a turn it took. |
| ContentRadar.SomeOrderIsDue | apps/api/src/content-radar.ts:949-956 | Whatever the radars, ties included, there is an order by how long the due ones have waited. |
| ContentRadar.OneBatchADayEach | apps/api/src/content-radar.ts:901-927 | While no sweep stops between a batch and its turn's stamp, no product is drafted twice on one UTC day. |
| ContentRadar.DueAgainIff | apps/api/src/content-radar.ts:918-925 | Later on the day a product was drafted it is due again exactly when the sweep stopped before stamping its turn. |
| ContentRadar.AStopDraftsTwice | apps/api/src/content-radar.ts:901-927 | A sweep that stops there and another the same day leave one product with two batches. |
| ContentRadar.NobodyWaitsLong | apps/api/src/content-radar.ts:949-956 | With P products and one sweep a day, a product that has a reference at every sweep is not passed over for ceil(P/3) sweeps, whichever of the others lack one. |
| ContentRadar.SomeRotation | apps/api/src/content-radar.ts:901-956 | From a rested desk, whatever products have references, there are daily rotations of any length for that bound to speak of. |
| ContentRadar.PassedOverMovesUp | apps/api/src/content-radar.ts:949-956 | Each sweep that passes a product with a reference over puts three of those before it behind it. |
| ContentRadar.RadarDesk.RunContentRadar | apps/api/src/content-radar.ts:901-927 | A sweep, as far as it gets, leaves the radars, batches and turns as drafting each pick in order does, the turn spent whether or not drafting works. |
| RadarRanking.WithLift | apps/api/src/content-radar.ts:981-1003 | Each row keeps its place and gets its engagement over the median of its own source and origin. |
| RadarRanking.MostPostsAreUnremarkable | apps/api/src/content-radar.ts:975-1003 | In every group fewer than half of the posts have lift above one. |
| RadarRanking.AtMostHalfAreBelowPar | apps/api/src/content-radar.ts:975-1003 | In every group whose median is at least one, at most half of the posts have lift below one. |
| RadarRanking.LiftIsTheRatio | apps/api/src/content-radar.ts:996-1002 | Lift is the engagement over the median, or over one when that is zero, to the nearest hundredth. |
| RadarRanking.LiftIsMonotone | apps/api/src/content-radar.ts:996-1002 | Within a group more engagement is never less lift. |
| RadarRanking.OrderIsLexicographic | apps/api/src/content-radar.ts:1005-1016 | The comparator's sign is the lexicographic order saved, not followed, judged, lift, engagement. |
| RadarRanking.OrderIsTransitive | apps/api/src/content-radar.ts:1010-1016 | The comparator is transitive, strictly when either step is strict. |
| RadarRanking.HeadIsBest | apps/api/src/content-radar.ts:969 | Nothing among the candidates goes before the head of the sort. |
| CampaignSource.DailyCapsHold | apps/api/src/campaign-source.ts:187-204 | While a workspace's reads follow one another, the reader writes at most three batches for a campaign and twelve for a workspace on any UTC day, runs past midnight included and whatever is drafted by hand beside it; batches by hand are counted against its room but never capped. |
| CampaignSource.StepStaysApart | apps/api/src/campaign-source.ts:75-88 | Reads of different workspaces stay so: opening one for a workspace with none under way, and any other step, leaves no two of one workspace. |
| CampaignSource.EndingsIff | apps/api/src/campaign-source.ts:136-204 | From any reachable state, however the reads under way overlap and end, those still inserting their lists included, no day from then on goes over a campaign's or a workspace's cap when what the reader wrote today and what all open reads have queued or will queue fit under it; and only then, as long as no two reads of a campaign still list the same unseen item. |
| CampaignSource.OneReadEachOwnsItsList | apps/api/src/campaign-source.ts:136-158 | While each campaign has at most one read under way, no two of a campaign list the same unseen item. |
| CampaignSource.SixInADay | apps/api/src/campaign-source.ts:136-170 | From empty tables: two reads of one campaign, both opened before either drafts, write six batches in a day. |
| CampaignSource.NoItemTwice | apps/api/src/campaign-source.ts:147-155 | No feed item is drafted twice for a campaign over any run, overlapping reads included. |
| CampaignSource.FreshFacts | apps/api/src/campaign-source.ts:147-155 | What an uninterrupted read finds new is exactly what is listed and not yet seen, each item once. |
| CampaignSource.FreshInOrder | apps/api/src/campaign-source.ts:147-155 | What a read finds new stands in the order it is listed. |
| CampaignSource.RoomIs | apps/api/src/campaign-source.ts:187-204 | The room of a read is three less what was written for its campaign since UTC midnight, or twelve less what was written for its workspace if that is less, and never negative. |
| CampaignSource.OnDayIs | apps/api/src/campaign-source.ts:187-204 | What the reader wrote for a group on a day is what it wrote since that midnight and not since the next. |
| CampaignSource.FeedQueues | apps/api/src/campaign-source.ts:136-158 | Of the first ten items listed an uninterrupted read queues the first of those it finds new, as many as the room allows, or one at most when nothing of its campaign was seen before. |
| CampaignSource.UnchangedIsNeverDrafted | apps/api/src/campaign-source.ts:173-184 | However often a page whose fingerprint is known is read again unchanged, and however the reads overlap, it is never drafted. |
| CampaignSource.PageQueues | apps/api/src/campaign-source.ts:173-184 | A page is queued exactly when an earlier read left another fingerprint and there is room. |
| CampaignSource.FirstReadNeverFloods | apps/api/src/campaign-source.ts:136-158 | A read nothing interrupts that finds none of its campaign's items seen queues at most the newest, and over every run from there none of the other items it listed is drafted for the campaign. |
| CampaignSource.OverlappingFirstReadsFlood | apps/api/src/campaign-source.ts:136-158 | From empty tables: a first read opened while another has inserted only the newest item queues the back catalogue. |
| CampaignSource.OpenedIsItsSteps | apps/api/src/campaign-source.ts:136-158 | Opening a read and inserting its items one by one, with nothing in between, remembers every item listed and queues those not seen, each once and in order, the first one only on a first read, as far as the room allows. |
| CampaignSource.DraftsWriteTheQueue | apps/api/src/campaign-source.ts:159-170 | Drafting an opened read step by step writes a batch for each queued address that works out, in order. |
| CampaignSource.SourceReader.OpenRead | apps/api/src/campaign-source.ts:136-158 | Opening a read remembers what is listed and queues what its content, the first-read rule and the room allow. |
| CampaignSource.SourceReader.CheckCampaignSource | apps/api/src/campaign-source.ts:91-184 | A whole read leaves batches, items and fingerprint as its steps do and counts what it drafted. |
| HandoffQueue.ListIsAPrefixOfAll | apps/api/src/handoff.ts:345-380 | The list is the first cards, up to the limit, of an arrangement of every pending card in the order of the list. |
| HandoffQueue.RestedFirstAndFifo | apps/api/src/handoff.ts:310-320 | No cooling network's card comes before a rested one's, and each network's cards stay in its own order. |
| HandoffQueue.CoolingTells | apps/api/src/handoff.ts:310-380 | A network cools for four hours after a card of it is done. |
| HandoffQueue.ListOrderTells | apps/api/src/handoff.ts:310-380 | Within a network the older card comes first (the newer for link posts), then the smaller id; of two networks both rested or both cooling the card with fewer of its own network listed before it comes first, then by age the same way, then by network. |
| HandoffQueue.AtMostOneAhead | apps/api/src/handoff.ts:313-317 | In every prefix a rested network is at most one card ahead of any rested network with cards still to come. |
| HandoffQueue.TopRepeatsIff | apps/api/src/handoff.ts:317-320 | The top card is on a network used in the last four hours exactly when every network with work is. |
| HandoffQueue.TurnIsItsPlace | apps/api/src/link-posts.ts:262-283 | A card's turn is one more than the cards of its network listed before it, newest first as oldest first. |
| LoginLockout.Account.Login | apps/api/src/auth.ts:209-252 | An attempt is refused unchecked while locked, counts and locks from the eighth failure on, and clears both on success. |
| LoginLockout.GuessesAreBounded | apps/api/src/auth.ts:24-26 | While attempts follow one another, in any stretch with no sign-in at most 8 + floor(T / 15 minutes) wrong passwords are checked within any T. |
| LoginLockout.BoundIsMet | apps/api/src/auth.ts:230-240 | A guesser that tries eight times and then at each end of the lock meets the bound for every number of locks. |
| LoginLockout.AlwaysConsistent | apps/api/src/auth.ts:230-252 | After any attempts there is a lock exactly from the eighth failure in a row on. |
| LoginLockout.AloneIsOneAttempt | apps/api/src/auth.ts:209-252 | Receiving an attempt and finishing it with nothing in between is one such attempt. |
| LoginLockout.OneAtATimeIsBounded | apps/api/src/auth.ts:209-252 | With reading and writing apart but one wrong attempt under way at a time, stopped ones included, at most 8 + floor(T / 15 minutes) are checked in any T with no sign-in and no reset. |
| LoginLockout.AttemptsLeaveQuiet | apps/api/src/auth.ts:209-252 | Attempts one after another, whatever they came to, leave an account in a state that bound starts from. |
| LoginLockout.ResetForgets | apps/api/src/auth.ts:716-770 | A reset by mail forgets every failure and any lock. |
| LoginLockout.GuessesEndIff | apps/api/src/auth.ts:223-240 | However the attempts under way end, at most n wrong passwords are checked from a moment on exactly when those checked since and those under way are at most n together. |
| LoginLockout.LockHoldsIff | apps/api/src/auth.ts:230-240 | However the attempts under way end, a lock stands for its time exactly when none of them is right or read the count before the seventh failure. |
| LoginLockout.AnyNumberAtOnce | apps/api/src/auth.ts:223-240 | From a new account: any number of overlapping wrong attempts are all checked, and leave it unlocked with at most one failure. |
| OneTimeTokens.OneRowPerUser | apps/api/src/auth.ts:525-553 | At every moment of every run a user has at most one verification row and one reset row. |
| OneTimeTokens.AcceptedWasRead | apps/api/src/auth.ts:563-599 | Every acceptance is by a request that read the link while it was the newest its user had been mailed, within a day for a verification and an hour for a reset, and had not been accepted. |
| OneTimeTokens.SecondAcceptanceOverlapped | apps/api/src/auth.ts:563-599 | A link is accepted again only by a request that read it before the first acceptance was written. |
| OneTimeTokens.EndingsIff | apps/api/src/auth.ts:563-770 | However the requests under way end, a link is accepted, or a user mailed a reset link, at most n times, exactly when those already counted and those still promised are at most n. |
| OneTimeTokens.TwoRequestsSpendTwice | apps/api/src/auth.ts:563-599 | Whatever link is usable, two requests that both read it before either writes can both be accepted. |
| OneTimeTokens.ALinkCanBeAcceptedTwice | apps/api/src/auth.ts:563-599 | From empty tables: one user, one link, two requests, two acceptances. |
| OneTimeTokens.ResetsAreSpaced | apps/api/src/auth.ts:659-674 | When a user's reset requests do not overlap, between two links mailed less than a minute apart one was used or the account was removed. |
| OneTimeTokens.TwoRequestsMailTwice | apps/api/src/auth.ts:645-698 | Two reset requests that both read the cooldown before either mails can both mail. |
| OneTimeTokens.TwoLinksAtOnce | apps/api/src/auth.ts:645-698 | From empty tables: one user, two requests, two reset links mailed in one moment. |
| OneTimeTokens.NoSessionOutlivesAReset | apps/api/src/auth.ts:705-769 | A session issued before its user's password was reset resolves to nobody ever after. |
| OneTimeTokens.LinkIsForItsAddress | apps/api/src/auth.ts:563-599 | Over every run a verification link is found usable only while its user's address is the one it was mailed to. |
| OneTimeTokens.ResetIsForItsAddress | apps/api/src/auth.ts:716-770 | Over every run a reset link is found usable only while its user's address is the one it was mailed to and the account is active. |
| OneTimeTokens.ResolvesOnlyWhatWasIssued | apps/api/src/auth.ts:316-356 | A cookie resolves only to the user it was issued to, within thirty days, with no reset of theirs since. |
| OneTimeTokens.StatementsSay | apps/api/src/auth.ts:485-491 | Issuing a session stores it for thirty days, ending one removes it, clearing sessions removes exactly the run-out ones, and clearing reset links exactly the run-out and the used ones. |
| OneTimeTokens.RemovingSays | migrations-pg/0027_password_reset.sql:7 | Removing an account takes its links of both kinds and its sessions with it, and nobody else's. |
| OneTimeTokens.AccountDesk.MintVerificationToken | apps/api/src/auth.ts:525-553 | Minting stores a link for a day, drops whatever link the user had, and touches nothing else. |
| OneTimeTokens.AccountDesk.VerifyEmailToken | apps/api/src/auth.ts:563-599 | A link confirms its user exactly when it is unspent, unexpired and for the address the user still has; it is then spent and the user verified, and otherwise nothing changes. |
| OneTimeTokens.AccountDesk.HasRecentReset | apps/api/src/auth.ts:659-674 | A request is inside the cooldown exactly when the user has an unspent link under a minute old. |
| OneTimeTokens.AccountDesk.MintPasswordResetToken | apps/api/src/auth.ts:645-698 | A reset link is mailed exactly to an active known user with no unspent link under a minute old, for an hour and to the address they have, replacing any earlier one. |
| OneTimeTokens.AccountDesk.ResetPasswordWith | apps/api/src/auth.ts:716-770 | A usable link of an active user and a password of 12 to 512 characters spend the link, install the password, verify the address and end every session of the user; anything else changes nothing. |
| OneTimeTokens.AccountDesk.ActorFromSession | apps/api/src/auth.ts:316-356 | An unexpired session of a member resolves to its user; an expired one is deleted. |
| PasswordSignIn.StaleWasUnderWay | apps/api/src/auth.ts:209-252 | Over every run, a session that resolves on a password its user has reset since was issued after the reset by a sign-in that read the password before it. |
| PasswordSignIn.WrongPasswordNeverEnters | apps/api/src/auth.ts:209-252 | Whatever happens afterwards, a check of a wrong password, or for nobody active, never issues a session. |
| PasswordSignIn.RightPasswordEnters | apps/api/src/auth.ts:209-252 | The right password of an active user issues a session that resolves to them. |
| PasswordSignIn.EndingsIff | apps/api/src/auth.ts:209-252 | However the sign-ins under way end, no session stands on a password replaced since it was read, exactly when none does now and none of them read its password before its user's last reset. |
| PasswordSignIn.AnOldPasswordSignsIn | apps/api/src/auth.ts:209-252 | From empty tables: a sign-in reads the password, a reset replaces it, and the session issued afterwards resolves. |
| PendingSignIn.SingleUse | apps/api/src/coinpay-signin.ts:109-134 | Over every run a pending sign-in taken began earlier and less than ten minutes before, and no other entry takes it. |
| PendingSignIn.OpenForTenMinutes | apps/api/src/coinpay-signin.ts:67-134 | Whatever else begins or is taken in between, a sign-in not yet taken can be taken exactly for ten minutes from its beginning. |
| PendingSignIn.PendingTable.BeginCoinpaySignIn | apps/api/src/coinpay-signin.ts:67-95 | Beginning clears what has run out and stores the new request for ten minutes. |
| PendingSignIn.PendingTable.TakePendingSignIn | apps/api/src/coinpay-signin.ts:109-134 | Taking deletes the row, and succeeds exactly when it was there and had not run out. |
| CoinpayBinding.RunIsBijective | apps/api/src/coinpay-signin.ts:8-14 | In every reachable state, interrupted sign-ins included, each subject opens one existing account, each account has at most one subject, and no two accounts share an address. |
| CoinpayBinding.ReturnsToItsAccount | apps/api/src/coinpay-signin.ts:168-202 | Over every run, a subject that opened an account opens the same one again until it is disconnected or the account removed, and makes no other. |
| CoinpayBinding.OtherStepsSay | apps/api/src/auth.ts:107-128 | Registering makes an account with a password exactly for a free address outside the placeholder domain; a reset by mail sets a password and ends the sessions of an account outside it; a removed account is gone with its subject. |
| CoinpayBinding.StepKeepsWayInIff | apps/api/src/coinpay-signin.ts:176-202 | Where every account has a way in, a step leaves them all one exactly when it is not a sign-in that makes an account and stops before binding it; a returning subject and a taken address may stop freely. |
| CoinpayBinding.NobodyIsLockedOutIff | apps/api/src/coinpay-signin.ts:237-269 | Every account has a password on a real address or a linked subject at every moment of a run, exactly when no sign-in of it makes an account and stops before binding it. |
| CoinpayBinding.TurnedAwayIff | apps/api/src/coinpay-signin.ts:176-202 | With no sign-in cut short, a subject is turned away exactly when it is unbound and another bound subject's account holds the address it would get. |
| CoinpayBinding.PlainSubsAreDistinct | apps/api/src/coinpay-signin.ts:39-41 | Subjects of lower-case letters, digits and hyphens never come to another's placeholder address. |
| CoinpayBinding.PlaceholderSays | apps/api/src/coinpay-signin.ts:39-41 | The address made from a subject keeps digits, lower-case letters and hyphens, lowers capitals, and puts a hyphen for anything else. |
| CoinpayBinding.SomeSubsCollide | apps/api/src/coinpay-signin.ts:39-41 | Two different subjects can come to one placeholder address. |
| CoinpayBinding.StoppingStrands | apps/api/src/coinpay-signin.ts:189-201 | A first sign-in stopped between its two writes leaves an account with no way in, and its subject cannot sign in again. |
| CoinpayBinding.StrandedForGood | apps/api/src/coinpay-signin.ts:189-201 | Nothing anyone does afterwards, short of removing it, lets anybody into that account. |
| CoinpayBinding.CoinpayDesk.UserForCoinpay | apps/api/src/coinpay-signin.ts:176-202 | A sign-in opens the account bound to the subject; otherwise it makes one without a password at the subject's address and binds it, unless an account has that address, when nothing changes. |
| CoinpayBinding.CoinpayDesk.LinkCoinpay | apps/api/src/coinpay-signin.ts:210-235 | Connecting binds an unbound subject to an account with none; a subject bound to another, or an account bound to another, is refused and nothing changes. |
| CoinpayBinding.CoinpayDesk.UnlinkCoinpay | apps/api/src/coinpay-signin.ts:260-269 | Disconnecting removes the binding exactly when a password on a real address remains. |
| LeadImport.SkipReasons | apps/api/src/autogtm.ts:1983-2064 | A person of the file is kept out exactly when suppressed or barred by a membership, suppression always giving the reason when it applies. |
| LeadImport.KeptOutTells | apps/api/src/autogtm.ts:1983-2064 | A person is kept out exactly when suppressed or deleted, named by a suppress list as a person or through the address or the domain of any of their rows, a mailbox provider's domain never, or a member already of the campaign, or of the project when those are skipped; suppression wins. |
| LeadImport.EveryRowOnce | apps/api/src/autogtm.ts:1863-1909 | Every stored row is exactly one of added or reported; the counts add up. |
| LeadImport.AddedExactly | apps/api/src/autogtm.ts:1863-1885 | Exactly the people with no reason against them are added, each once. |
| LeadImport.MembershipIsExact | apps/api/src/autogtm.ts:1887-1909 | With nothing written between reading and writing, nobody suppressed, deleted or already a member is added, and the new membership is the disjoint union of the old one and those added. |
| LeadImport.InsertedMembers | apps/api/src/autogtm.ts:1887-1909 | Whenever an import's rows are written, everybody it adds is a member afterwards and nobody else has become one. |
| LeadImport.ReportIsTrueIff | apps/api/src/autogtm.ts:1861-1909 | Written after others have written, an import gains one membership for each row it reports as added exactly when none of those people was made a member in between, and then it appends exactly those. |
| LeadImport.TwoImportsReportTwice | apps/api/src/autogtm.ts:1861-1909 | Of two imports that add the same rows the second to write adds nobody, whatever it reports. |
| LeadImport.DivideRows | apps/api/src/autogtm.ts:1861-1885 | One pass over the rows adds the first row of each person with no reason and reports every other with its reason. |
| LeadImport.LeadImporter.ImportIntoCampaign | apps/api/src/autogtm.ts:1828-1909 | An import divides the rows by the reasons it found and adds exactly the new memberships. |

## Left out

- Reason strings, policy versions and audit rows of the policy engine: they name the gate the model already records.
- Capability rules passed in with a request: the default matrix is modelled.
- What `approveRecommendation` does after its decision (drafts, addresses, sending, scheduling, research): in `BulkApprove` the outcome of each card is left open, so its laws hold whichever way each card goes.
- The hold's text for one gate (`holds[].reason`) and the sort of the hold list by count.
- Filters of the pending list (`filter`), which select rows before the window is read; channel filtering is modelled.
- The SQL of the directory, what a row shows, and base64url; only the row set, its order and the cursor's text are modelled.
- DirectoryCursor.RoundTripIff: takes the platform's date parser as given.
- RateLimiter.FixedWindowLimiter.Take: requires time not to run backwards, as the in-memory clock of one process.
- The house packages for codes, affiliates and OIDC, which are not part of this model: a redemption answers once per person and code, a history lists a person's redemptions, an invite names one inviter.
- A monthly code minted elsewhere, whose grant the redemption refuses and a later repair would pay: only codes minted here are modelled.
- Spending credits, refunds and expiry, which write rows without a payment id.
- CreditLedger.EachReasonPaysOnce: takes code ids without a colon, as the ids minted here are.
- BulkApprove.ApprovalQueue.ApproveAll: takes one press with nobody else at the queue; what others do between its pages is told by `ReadsOnIff` at the page's offset.
- CoinpayBinding.CoinpayDesk.LinkCoinpay: takes reading and inserting as one step; where two overlap the table's unique keys refuse the second insert, which is reported as taken whichever key refused it.
- CoinpayBinding.CoinpayDesk.UnlinkCoinpay: takes reading the account and deleting the binding as one step.
- PacingClock.HoldClearsIff: computes hours exactly, as reals, rather than in floating point.
- LoginLockout.OneAtATimeIsBounded: says nothing of several attempts under way at once, of which `AnyNumberAtOnce` shows as many as there are to be checked.
- CampaignSource.FirstReadNeverFloods: takes the room, the first-read answer and the stored fingerprint of a read as read together, before its first insert.
- ContentRadar.ThreeADayOneTurnEach: takes sweeps one after another, as one scheduler runs them.
- The scanning half of Content Radar, the model's judgement of hooks, and the query window of candidates.
- ContentRadar.NobodyWaitsLong: assumes each sweep ends on the day it began, as a batch written past midnight takes from the next day's room.
- RadarRanking.WithLift: computes lift exactly, in hundredths with halves rounded up, rather than in floating point.
- Deleting cards, which gives quota back in the day it happens: Content Radar and campaign caps count cards that exist.
- A campaign whose source URL is changed keeps its seen items, so its next read is not a first read.
- Which campaigns are due and how many a run reads; any order of reads is covered.
- `clearManualPosts` and the done, skip and reopen routes of cards, which change one status each.
- Fetching pages and feeds, language models, mail, cookies, HTML and OpenAPI.
- Switching a session's workspace, roles and memberships, beyond whether the person is still a member.
- CoinpayBinding.TurnedAwayIff: reads lower-casing as that of ASCII letters, and takes looking a subject up and making its account as one step, so two first sign-ins of one subject at once are not modelled.
- The importer that cleans rows and makes people, and the crawls queued for the people added.
- OneTimeTokens.NoSessionOutlivesAReset: takes issuing a session, resolving one and each batch of writes as one step, as each is one statement or one batch.
- LeadImport.MembershipIsExact: is stated for a campaign of the project named, which is what both callers pass.
