# Vendor claims, certificates and money: a verified model

This project models how the application bills, certifies and accounts for work and materials, and
four smaller protocols beside it, and proves what they promise for every input and every run.

**The claim engine.** A vendor bill moves through draft, submitted, under verification, verified,
certified and the payment statuses derived from its folds, beside disputed, rejected and resolved. It
carries append-only versions of claim lines. On every purchase-order line the live billed quantity
stays within what was ordered and within the evidence (accepted material, measured labour), which
commands keep by disputing whole bills rather than refusing them. `Commands` gives one state function
per command; `CommandLaws` and `Folds` say what each asks and writes in the recorded fields; `Safety`
and `Runs` prove the invariant over every run; `ClaimService` is the service as it runs, each method proved to be its command's function; `Interference` puts other transactions
between the withdrawal loop's reads and its compare-and-sets, and `StaleTotals` and `NeedlessDisputes`
say exactly when they make it dispute, or refuse, for nothing.

**Certification.** A certificate draws greedily on evidence rows and freezes the pairs it drew. The
draw never sticks in a reachable state. `Certification` is the command with its plan read without
locks and everything re-read under them, while other transactions act.

**Money.** Pro-rata shares (`Shares`), the six clamped buckets of a cost head (`Positions`) and what they
are worth (`PositionLaws`), rounding once (`Rounding`), the over-budget register (`Register`,
`BudgetService`), the withholding ledger over corrected certificates (`Withholding`, `RestatedRows`), the
two together, certificate by certificate, over every run (`Books`), and the rebuildable cash forecast
(`Forecast`).

**Beside it.** The leased password completion (`Completion`), the service worker's install closure and
window registry (`Install`, `Windows`), the two-dispute block machine on activities (`Blocks`), and
the requirement lineages with their two loaders (`Heads`).

`Sums` holds finite sums over sequences; decimals are `real`. Check the whole project with
`dafny verify dfyconfig.toml`.

## What the code does that its comments do not say

- A withdrawal takes claims newest first. When one of them is certified the lifecycle refuses the move
  to `disputed` and the whole withdrawal is refused, although uncertified claims always suffice
  (`Verdicts.GoesThroughExactly`, `Verdicts.UncertifiedAlwaysSuffice`, `Verdicts.RefusedInASafeState`).
- Re-reading after a lost compare-and-set guards only the claim whose compare-and-set is lost. Claims
  disputed elsewhere leave the running total stale until the loop reaches one of them, if it ever does.
  Until then it may dispute claims for nothing, or run into a certified claim and be refused for
  nothing, which undoes what it disputed. `NeedlessDisputes.OverDisputesExactly` and
  `NeedlessDisputes.RefusesExactly` say exactly when departures among its turns can do either, and
  `NeedlessDisputes.GoesWrongExactly` when any schedule of them can: when the line is over its evidence
  and some live claim would fit it beside the certified claims. Inputs, newest first: 30, 30 and 40 on
  60, where the 40 leaves and is never reached; 10, 50 and 40 on 60, where the 50 leaves and is reached
  too late; 30, 20 and 20 on 40, where only both 20s together do harm; 10, a certified 20 and 50 on 40,
  where the 50 leaves and the withdrawal is refused. Such departures have to come from outside the
  project's readiness lock (see below).
- A release is bounded by its own deduction and nothing asks whether that deduction was already
  carried onto a later certificate. Released there, the money leaves the records and the live
  certificate still withholds it; what it withholds too much is always the sum of such releases
  (`Withholding.LedgerInEveryRun`).
- The comment on `amend` says the corrected claim of a dispute enters `submitted`. The bill is stamped
  `resolved` with the corrected version on it, and bills nothing again (`Verdicts.ResolvedIsTerminal`).
- The material requirement loader scopes to activities before it picks heads
  (`Heads.ScopedFirstExactly`), which the labour loader was changed not to do.

## Rules taken from the environment

Each but the readiness lock is stated as a guard of a command, never as an assumption of a proof about
another.

- The bill lifecycle refuses to move a bill past certification to `disputed`; the transaction aborts.
- A withholding may not leave less payable than is approved, and a certificate may not be superseded
  while cash stands against it: the payment seals at commit.
- Row locks: a row, activity or bill that one transaction holds is not changed by another.
- The readiness lock of a project is taken first by every caller of the withdrawal and by every service
  command that writes a bill (`commercial-bill.service.ts:274`, `372` and `481`,
  `commercial-measurement.service.ts:235`, and the verification, certification, payment, inventory and
  procurement commands). `Interference`, `StaleTotals` and `NeedlessDisputes` do not assume it.
  Among transactions that take the lock only the quiet schedule occurs, and `Interference.QuietIsExact`
  says what then happens; every other one needs a writer that does not take it.
- Writers of event types the forecast does not handle leave the forecast as it was.
- The database clock a claim reads never goes back; certificates are superseded one after another.
- Activities keep their decision link, and nothing but a mismatch writes the stored material gate.

## Model

| member | source | states |
|---|---|---|
| EvidenceRows.NetsCoverEvidence | apps/api/src/commercial/commercial-measurement.query.ts:24-61 | the nets of a line's original rows add up to its whole evidence, because corrections form one level on the same line |
| EvidenceRows.ConsumedCoversFrozen | apps/api/src/commercial/commercial-certification.service.ts:578-597 | what live certificates consume of a line's rows, added over the rows, is what they freeze on the line |
| EvidenceRows.RowsAreOriginals | apps/api/src/commercial/commercial-measurement.query.ts:103-126 | the rows offered to a certificate are originals with positive net, ascending by id |
| EvidenceRows.LockMeasurementsFor | apps/api/src/commercial/commercial-measurement.query.ts:103-126 | the one-pass map of nets reads back, per original, its quantity plus every correction addressed to it |
| Folds.BillCounts | apps/api/src/commercial/commercial-bill.query.ts:42-64 | a live bill claims on a line what the lines of its one current version claim there, and any other nothing; only the four payment statuses count as certified |
| Folds.EntryCounts | apps/api/src/commercial/commercial-measurement.query.ts:24-61 | a row adds its signed quantity to its line, and to the net of the original it is or corrects, and of no other |
| Folds.CertificateCounts | apps/api/src/commercial/commercial-certification.service.ts:578-597 | a certificate consumes of a row what it froze there while it stands, and nothing once superseded |
| Draws.ShortfallExact | apps/api/src/commercial/commercial-certification.service.ts:546-575 | a draw falls short by exactly max(claimed - spare, 0), so it sticks if and only if the rows' spare is less than the claim |
| Draws.GreedyClosedForm | apps/api/src/commercial/commercial-certification.service.ts:559-566 | the k-th row gives what the claim still lacks after every earlier row has given all it had, up to what it has |
| Draws.GreedyTotal | apps/api/src/commercial/commercial-certification.service.ts:492-526 | a draw freezes the claimed quantity less its shortfall |
| Draws.DrawLine | apps/api/src/commercial/commercial-certification.service.ts:559-571 | the loop over the locked rows decides the greedy draw and leaves its shortfall |
| Draws.TargetsOfClaim | apps/api/src/commercial/commercial-bill.service.ts:126-130 | a claim's distinct lines, each once, in one ascending order with labour before material |
| Draws.TargetsInOrder | apps/api/src/commercial/commercial-bill.service.ts:126-130 | any two of a claim's lines stand with labour before material, and by id within a kind |
| Draws.CoveredExactly | apps/api/src/commercial/commercial-certification.service.ts:492-575 | a whole claim is drawn if and only if every line it touches has spare evidence for it |
| Draws.StuckExactly | apps/api/src/commercial/commercial-certification.service.ts:546-575 | a refused draw names the first line, in lock order, whose spare evidence is short, and by exactly how much |
| Draws.DrawsExact | apps/api/src/commercial/commercial-certification.service.ts:315-330 | a certificate's draws on each line sum exactly to the quantity claimed there, and to nothing elsewhere |
| Draws.DrawsOnRow | apps/api/src/commercial/commercial-certification.service.ts:315-330 | each row is drawn on for its place in its own line's draw and for nothing on behalf of another line |
| Disposition.LiveClaimsExact | apps/api/src/commercial/commercial-bill.query.ts:257-289 | the live claims on a line are exactly the live bills touching it, one row each, and together are the billed fold |
| Disposition.LiveClaimsInFields | apps/api/src/commercial/commercial-bill.query.ts:280-289 | each carries its live version's number, time and quantity on the line, and of any two the first was written later, or at the same time by the bill of higher number |
| Disposition.LatestIsFirst | apps/api/src/commercial/commercial-bill.query.ts:280-289 | a claim whose live version was written after every other's is listed first, and is the first disputed whenever anything is |
| Disposition.NeededIsMinimal | apps/api/src/commercial/commercial-bill.service.ts:192-229 | the prefix taken restores the bound and one claim fewer would not |
| Disposition.DisputeAllExact | apps/api/src/commercial/commercial-bill.service.ts:206-212 | exactly the listed bills become disputed; nothing else of any bill changes |
| Disposition.DisputeAllLowers | apps/api/src/commercial/commercial-bill.service.ts:180-229 | disputing live claims lowers the line's fold by what they claim of it and raises no line's |
| Disposition.DispositionExact | apps/api/src/commercial/commercial-bill.service.ts:180-229 | uninterrupted, the disposition ends within the evidence on a newest-first prefix, one fewer would break the bound, and no line rises |
| Disposition.TakenWereLive | apps/api/src/commercial/commercial-bill.service.ts:206-212 | every bill taken was live on the line, and uncertified when the disposition goes through |
| Interference.TurnDescends | apps/api/src/commercial/commercial-bill.service.ts:196-229 | each turn of the loop spends interference, or catches up with it, or takes a claim, so the loop ends under any finite interference |
| Interference.DisturbsExactly | apps/api/src/commercial/commercial-bill.service.ts:457-516 | a step of interference moves one bill's status, or claims other lines under its next version, and touches no other bill |
| Interference.QuietIsExact | apps/api/src/commercial/commercial-bill.service.ts:180-229 | without interference the loop disputes exactly the minimal newest-first prefix, and is refused on exactly the same condition |
| Interference.CalmEndsWithin | apps/api/src/commercial/commercial-bill.service.ts:180-229 | under any finite interference that raises no claim, a disposition that ends leaves the line within its evidence |
| StaleTotals.DeparturesExactly | apps/api/src/commercial/commercial-bill.service.ts:196-229 | when any bills the lifecycle lets go leave before the s-th compare-and-set, a claim is disputed for nothing if and only if the loop takes one after they leave, meets none certified before it loses one of theirs or is within its total, and what is left when it takes the last is within the evidence; and the withdrawal is refused for nothing if and only if it meets a certified claim instead, with what is left within the evidence |
| StaleTotals.BetweenTheReadsExactly | apps/api/src/commercial/commercial-bill.service.ts:192-195 | bills leaving between the first fold and the first read of the claims are never seen: the two conditions are then those of the claims left, taken on the whole old total |
| StaleTotals.RefusedAborts | apps/api/src/commercial/commercial-bill.service.ts:206-212 | a withdrawal refused for nothing is undone: it disputes nothing |
| NeedlessDisputes.OverDisputesExactly | apps/api/src/commercial/commercial-bill.service.ts:196-229 | over the table before the call: departures among the turns can make a withdrawal that goes through dispute a claim for nothing if and only if some set of them, all older than a claim taken, is worth the excess left; that is, if and only if some needed claim, with nothing certified before it is passed, would fit the evidence beside the certified claims |
| NeedlessDisputes.RefusesExactly | apps/api/src/commercial/commercial-bill.service.ts:196-229 | and they can make it refused for nothing if and only if it needs a certified claim while the certified claims are within the evidence |
| NeedlessDisputes.GoesWrongExactly | apps/api/src/commercial/commercial-bill.service.ts:180-229 | over every schedule of departures, in any slots and through any lost compare-and-sets: one of the two can happen if and only if the line is over its evidence and some live claim would fit it beside the certified claims |
| NeedlessDisputes.RefusedSomehowExactly | apps/api/src/commercial/commercial-bill.service.ts:180-229 | over every schedule of departures, a needless refusal can happen if and only if the line is over its evidence and has a certified claim, the certified claims being within the evidence |
| NeedlessDisputes.StaleTotalOverDisputes | apps/api/src/commercial/commercial-bill.service.ts:213-226 | an input: 30, 30 and 40 newest first on evidence 60; the 40 is disputed elsewhere, never reached, and both of the others are disputed though 30 was all that was left |
| NeedlessDisputes.ReachedTooLate | apps/api/src/commercial/commercial-bill.service.ts:213-226 | another: 10, 50 and 40 newest first on evidence 60; the 50 is disputed elsewhere and the 10 is disputed for nothing |
| NeedlessDisputes.ReachedAndLost | apps/api/src/commercial/commercial-bill.service.ts:213-226 | there the loop does reach the 50 and lose its compare-and-set, one turn too late |
| NeedlessDisputes.TogetherOvershoot | apps/api/src/commercial/commercial-bill.service.ts:213-226 | 30, 20 and 20 newest first on evidence 40: both 20s leaving make the 30 needless |
| NeedlessDisputes.NeitherAlone | apps/api/src/commercial/commercial-bill.service.ts:213-226 | there no claim leaving alone, before any compare-and-set, does so |
| NeedlessDisputes.RefusedOverAStaleTotal | apps/api/src/commercial/commercial-bill.service.ts:206-226 | 10, 20 certified and 50 newest first on evidence 40: the 50 leaves, 30 is billed, and the withdrawal is refused over the 20 all the same; no departure among the turns makes it dispute anything for nothing |
| ClaimService.Service.BilledQtyFor | apps/api/src/commercial/commercial-bill.query.ts:42-64 | one pass over the live lines gives every asked line its billed fold, and zero where nobody claims |
| ClaimService.Service.EvaluateBounds | apps/api/src/commercial/commercial-bill.service.ts:113-162 | a verdict per distinct line in lock order; the breach named is the first failing test, and none fails if and only if the order stands and the billed quantity, with the claim counted when asked, is within the ordered quantity plus the approved overage and within the evidence |
| ClaimService.Service.LiveClaimsOn | apps/api/src/commercial/commercial-bill.query.ts:257-289 | the live claims on the line in the order claims leave in, summing to the billed fold |
| ClaimService.Service.DisputeClaimsBeyondEvidence | apps/api/src/commercial/commercial-bill.service.ts:180-229 | a line within its evidence is left alone; any other is read in two statements and handed to the loop, against any schedule of interference |
| ClaimService.Service.DisputeInTurn | apps/api/src/commercial/commercial-bill.service.ts:196-229 | the loop with its two re-reads, against any schedule of interference, disputes what the schedule's run disputes and aborts when it does |
| ClaimService.Service.RecordBill | apps/api/src/commercial/commercial-bill.service.ts:252-291 | a recorded claim is a draft outside every fold |
| ClaimService.Service.Transition | apps/api/src/commercial/commercial-bill.service.ts:457-516 | a move from an admitted status, then settled when bounds are asked: a breach disputes, an unknown line undoes |
| ClaimService.Service.SubmitBill | apps/api/src/commercial/commercial-bill.service.ts:297-310 | submission from draft is the settled submission |
| ClaimService.Service.BeginBillVerification | apps/api/src/commercial/commercial-bill.service.ts:312-320 | verification begins only from submitted |
| ClaimService.Service.RejectBill | apps/api/src/commercial/commercial-bill.service.ts:333-343 | rejection stops at verified |
| ClaimService.Service.AmendBill | apps/api/src/commercial/commercial-bill.service.ts:362-453 | an amendment retires one version and writes the next; a resolving one is judged as if live and refused while in breach; any other is settled as submitted |
| ClaimService.Service.CorrectEvidence | apps/api/src/commercial/commercial.participant.ts:440-463 | a reducing correction passes the line, certificate and row floors, then disposes of what it withdrew, or leaves nothing behind |
| ClaimService.Service.WithdrawOrderedAuthority | apps/api/src/commercial/commercial.participant.ts:513-528 | a dead order's live claims are all disputed, or the act is refused |
| CommandLaws.RecordExactly | apps/api/src/commercial/commercial-bill.service.ts:252-291 | a claim is recorded as a draft with one version exactly when every line is positive and of a known order |
| CommandLaws.SubmitExactly | apps/api/src/commercial/commercial-bill.service.ts:297-310 | a draft ends submitted if and only if on every line it names the order stands and what is billed with it is within the ordered quantity plus the approved overage and within the evidence; otherwise it ends disputed |
| CommandLaws.VerifyExactly | apps/api/src/commercial/commercial-verification.service.ts:321-420 | a claim under verification ends verified if and only if every line bears it and its rates do; otherwise it ends disputed |
| CommandLaws.AmendExactly | apps/api/src/commercial/commercial-bill.service.ts:362-453 | who may amend, the two versions written with their numbers and time, and where each of the three outcomes comes from: resolved, submitted, or disputed |
| CommandLaws.AmendedLeavesFirst | apps/api/src/commercial/commercial-bill.query.ts:280-289 | an amendment made after every live claim puts its bill first on each of its lines, so it is the first disputed when evidence is withdrawn |
| CommandLaws.CertifyExactly | apps/api/src/commercial/commercial-certification.service.ts:228-366 | a verified claim is certified if and only if its rates verify and what its last certificate withholds is within its money; the new certificate is for all of it, withholds exactly that, approves nothing, and freezes on every line what is claimed there |
| CommandLaws.SupersedeExactly | apps/api/src/commercial/commercial-certification.service.ts:608-669 | a certificate is superseded if and only if it stands and nothing is paid on it; the bill is verified again and nothing else changes |
| CommandLaws.WithholdExactly | apps/api/src/commercial/commercial-deduction.service.ts:139-170 | money is withheld up to what the certificate leaves beside what is approved, and the status follows |
| CommandLaws.ReleaseExactly | apps/api/src/commercial/commercial-deduction.service.ts:288-346 | money is given back up to what the named certificate withholds; only on the one that stands does the status follow |
| CommandLaws.ApproveExactly | apps/api/src/commercial/commercial-payment.service.ts:153-261 | money is approved up to what the certificate leaves, and the status follows |
| CommandLaws.PayExactly | apps/api/src/commercial/commercial-payment.service.ts:286-377 | money is paid up to what is approved and not yet paid, and the status follows |
| CommandLaws.ReverseExactly | apps/api/src/commercial/commercial-payment.service.ts:412-500 | up to what was paid is taken back, and the status follows |
| CommandLaws.AddEvidenceExactly | apps/api/src/commercial/commercial-measurement.service.ts:283-360 | a new row is positive, corrects nothing and has an id of its own; it is added to its line in id order and changes nothing else |
| CommandLaws.CorrectUpwards | apps/api/src/commercial/commercial.participant.ts:348-463 | a correction that adds needs only a row to address |
| CommandLaws.CorrectDownwards | apps/api/src/commercial/commercial.participant.ts:348-463 | one that takes back goes through if and only if line and row stay non-negative, a measured line covers its certified claims, the row covers what certificates froze of it, and the claims beyond what is left can be disputed |
| CommandLaws.CorrectionWrites | apps/api/src/commercial/commercial.participant.ts:440-463 | it adds its row in id order and writes the disposition of what is left, and nothing else |
| CommandLaws.KillOrderExactly | apps/api/src/commercial/commercial.participant.ts:513-528 | an order dies if and only if all its live claims can be disputed, and then they are |
| Safety.InvAfterSettle | apps/api/src/commercial/commercial-bill.service.ts:457-516 | making a claim live and settling it keeps live billed within ordered and evidence on every line |
| Safety.KeepsAmend | apps/api/src/commercial/commercial-bill.service.ts:362-453 | an amendment, resolving or not, keeps every line's bounds |
| Safety.SpareIsUnfrozen | apps/api/src/commercial/commercial-certification.service.ts:546-597 | a line's spare evidence is its evidence less what live certificates freeze on it |
| Safety.CertificationNeverStuck | apps/api/src/commercial/commercial-certification.service.ts:492-597 | in every state the invariant admits, the greedy draw of any live uncertified claim completes on every line |
| Safety.DrawWithinRow | apps/api/src/commercial/commercial-certification.service.ts:559-566 | all of one certificate's draws on a row together take no more than live certificates left of it |
| Safety.KeepsCertify | apps/api/src/commercial/commercial-certification.service.ts:146-366 | certifying keeps the bounds, consumes no row beyond its net, and freezes exactly the claim |
| Safety.KeepsSupersede | apps/api/src/commercial/commercial-certification.service.ts:608-669 | superseding frees exactly what that certificate drew, row by row, and keeps everything else |
| Safety.InvAfterMoney | apps/api/src/commercial/commercial-payment.service.ts:153-261 | money moved on a live certificate within its bounds leaves claims, draws and lines as they were |
| Runs.DisposedKeeps | apps/api/src/commercial/commercial-bill.service.ts:180-229 | a disposition that goes through touches no certificate, frees no row and keeps every line's bounds |
| Runs.KeepsAddEvidence | apps/api/src/commercial/commercial-measurement.service.ts:283-360 | a new row adds to its line and is nobody's evidence yet |
| Runs.KeepsCorrect | apps/api/src/commercial/commercial.participant.ts:348-463 | an evidence withdrawal keeps the bounds, the rows' nets and what certificates rest on |
| Runs.KeepsKillOrder | apps/api/src/commercial/commercial.participant.ts:513-528 | after an order dies no live claim stands on its line |
| Runs.KeepsRelease | apps/api/src/commercial/commercial-deduction.service.ts:288-363 | a release keeps every invariant, whichever of the bill's certificates, live or superseded, it is taken on |
| Runs.KeepsApply | apps/api/src/commercial/commercial-bill.service.ts:252-516 | every one of the twenty commands that goes through keeps the whole invariant |
| Runs.SafeInEveryRun | apps/api/src/commercial/commercial-bill.service.ts:100-162 | after every run from an empty project: billed within evidence and within ordered (nothing on a dead order), no row consumed beyond its net, each live certificate freezing exactly its claim |
| Runs.VerifiedClaimsCertify | apps/api/src/commercial/commercial-certification.service.ts:228-313 | in every run a verified claim, when its rates verify, certifies if and only if the amount recorded as withheld on its last certificate, or zero when it has none, is within its claimed money |
| Verdicts.CountedAsLive | apps/api/src/commercial/commercial-bill.service.ts:118-135 | counting a disputed bill's lines as live gives exactly the verdict it would get if it were live |
| Verdicts.ResolvedIsTerminal | apps/api/src/commercial/commercial-bill.service.ts:393-424 | a resolved bill bills nothing on any line after any further command |
| Verdicts.RowFloorCoversLine | apps/api/src/commercial/commercial-bill.query.ts:311-330 | the row-level certificate floor implies the aggregate one: keeping a row's frozen quantity keeps every certified claim covered |
| Verdicts.GoesThroughExactly | apps/api/src/commercial/commercial-bill.service.ts:206-212 | a withdrawal goes through if and only if the uncertified claims newer than the newest certified one cover the excess |
| Verdicts.UncertifiedAlwaysSuffice | apps/api/src/commercial/commercial-bill.service.ts:166-179 | whenever the row floor holds, disputing uncertified claims alone always restores the bound |
| Verdicts.RefusedInASafeState | apps/api/src/commercial/commercial-bill.service.ts:196-212 | yet newest-first refuses: a state every command keeps to, every floor met, one uncertified claim enough, and the correction refused |
| StandingRun.StandingIsReached | apps/api/src/commercial/commercial-bill.service.ts:196-212 | and that state is reached: eleven commands from an empty project end in it |
| Certification.CertificateConsumes | apps/api/src/commercial/commercial-certification.service.ts:315-330 | a certificate adds to each row's consumption exactly its draws on it |
| Certification.OthersReach | apps/api/src/commercial/commercial-certification.service.ts:167-227 | other transactions move and amend every bill but the held one, and take back every sign-off but a held activity's |
| Certification.OthersReachEvidence | apps/api/src/commercial/commercial-certification.service.ts:185-227 | they add rows to any line and correct any row but a held one |
| Certification.ActSpares | apps/api/src/commercial/commercial-certification.service.ts:167-227 | no other transaction changes the held bill, or makes live certificates take more of a held row |
| Certification.ActStands | apps/api/src/commercial/commercial-certification.service.ts:167-227 | a row read under its lock still stands as read, on work still signed off, whatever others do |
| Certification.FrozenRestsOnHeld | apps/api/src/commercial/commercial-certification.service.ts:228-330 | what the draw decided holds when the certificate is written: held rows, live version's lines, signed-off work, no row over-consumed |
| Certification.Certifier.LockActivities | apps/api/src/commercial/commercial-certification.service.ts:201-212 | every planned activity is locked while signed off, or the certificate is refused |
| Certification.Certifier.LockLines | apps/api/src/commercial/commercial-certification.service.ts:185-227 | the rows of each line are held and stand; a measurement on work outside the plan refuses |
| Certification.Certifier.DrawClaim | apps/api/src/commercial/commercial-certification.service.ts:271-279 | the draw over the rows already locked is the claim's draw, refused on the first line short |
| Certification.Certifier.CertifyClaim | apps/api/src/commercial/commercial-certification.service.ts:164-366 | under any interference a certificate written rests on held rows of the live version, sums to its claim and withholds exactly what the certificate before it withholds; undisturbed, it is written exactly when the command's conditions hold and every measurement rests on signed-off work |
| Shares.AttributeByLineShare | apps/api/src/commercial/certificate-share.ts:29-43 | the loop adds to each key the shares of its lines; a key whose lines are all of versions with no amount, no total or a zero total holds what it held before |
| Shares.ManyVersionsConserve | apps/api/src/commercial/certificate-share.ts:29-43 | over the lines of several whole versions together, what all keys are attributed is the sum of the amounts of the versions that have one and a non-zero total |
| Shares.SharesConserve | apps/api/src/commercial/certificate-share.ts:29-43 | over all the lines of a version the shares sum to the bill-scoped amount |
| Shares.AttributionConserves | apps/api/src/commercial/certificate-share.ts:29-43 | folded by purchase-order line, the attribution of a whole version is still the whole amount |
| Shares.FullCertificationIsExact | apps/api/src/commercial/commercial-bill.query.ts:112-151 | certified in full, a line is attributed exactly its own money |
| Shares.AnyOrderAnySplit | apps/api/src/commercial/commercial-bill.query.ts:154-188 | the attribution is the same for any order of the lines and any split of them |
| Positions.LinePartition | apps/api/src/commercial/commercial-budget.query.ts:192-303 | with each stage within the one before it, a line of either kind, open or closed short, is exposed for what it owes less what is withheld, whatever is billed, certified, approved or paid |
| Positions.BucketsPartition | apps/api/src/commercial/commercial-budget.query.ts:192-271 | an open material line owes its order, and its overage at the rate |
| Positions.ClosedShortPartition | apps/api/src/commercial/commercial-budget.query.ts:203-206 | a line closed short, material or labour, is exposed for the received part of its landed amount less what is withheld |
| Positions.LabourPartition | apps/api/src/commercial/commercial-budget.query.ts:272-303 | measured work partitions the same way at the frozen rate |
| Positions.NeverUnderReports | apps/api/src/commercial/commercial-budget.query.ts:192-303 | without those inequalities the clamped buckets never report less, for lines of either kind, open or closed short |
| Positions.Accumulate | apps/api/src/commercial/commercial-budget.query.ts:185-304 | the six running accumulators are the six sums over the head's attributed lines |
| Positions.HeadIsItsLines | apps/api/src/commercial/commercial-budget.query.ts:185-308 | a head's exposure is its lines' exposures added up |
| Positions.PositionsFor | apps/api/src/commercial/commercial-budget.query.ts:118-323 | each asked head gets its buckets rounded for display, its exposure rounded once from the exact sum of its lines, its live budget, and the headroom between those two |
| PositionLaws.FiguresAreTheMoney | apps/api/src/commercial/commercial-budget.query.ts:160-183 | added over the lines of its claim, what a certified bill has billed, certified, withheld, approved and paid is its claim's money, its certificate's three amounts and its cash |
| PositionLaws.FiguresFallByMoney | apps/api/src/commercial/commercial-deduction.query.ts:114-141 | and each falls on a line in proportion to the claim's money there |
| PositionLaws.OthersCountNothing | apps/api/src/commercial/commercial-deduction.query.ts:114-141 | a draft, rejected, disputed or resolved bill counts nowhere; one whose certificate does not stand is certified, withheld and approved nothing |
| PositionLaws.FiguresAdd | apps/api/src/commercial/commercial-budget.query.ts:136-183 | a line's figures are its evidence and those amounts added over the bills |
| PositionLaws.ReceivedInTerms | apps/api/src/commercial/commercial-budget.query.ts:207-228 | received goods up to the order and measured work are worth their part of the landed amount, goods over it the rate for each unit beside the tax and freight |
| PositionLaws.CommittedInTerms | apps/api/src/commercial/commercial-budget.query.ts:196-206 | the committed bucket is the landed amount of what still binds of the order and is not accepted |
| PositionLaws.BucketsHandOn | apps/api/src/commercial/commercial-budget.query.ts:229-271 | in every safe state the later buckets are what each stage of the money leaves to the next |
| PositionLaws.WithholdingMovesExposure | apps/api/src/commercial/commercial-deduction.query.ts:114-141 | whatever is done to a claim's certificate or money, a line's exposure and its share of what the claim withholds in force add up to the same |
| PositionLaws.WithholdLowersExposure | apps/api/src/commercial/commercial-deduction.query.ts:114-141 | withholding an amount lowers each line of the claim by exactly the line's share of it |
| PositionLaws.HeadAdds | apps/api/src/commercial/commercial-budget.query.ts:185-308 | a head is, bucket by bucket, the sum of the lines attributed to it that stand, and of no others |
| Rounding.BucketsWithinThreePaise | apps/api/src/commercial/commercial-budget.query.ts:305-320 | six displayed buckets are within three paise of the displayed exposure |
| Rounding.ThreePaiseIsReached | apps/api/src/commercial/commercial-budget.query.ts:305-320 | three is attained |
| Rounding.RoundsHalfAway | apps/api/src/commercial/commercial-budget.query.ts:26-30 | an amount is reported as the nearest paisa, halves away from zero on either side |
| Rounding.TotalsWithinThreeAHead | apps/api/src/commercial/cash-forecast.projection.ts:140-173 | over n heads the six totals are within 3n paise of the exposure total |
| Rounding.BreachExactly | apps/api/src/commercial/commercial-budget.query.ts:305-320 | headroom is negative if and only if the exact sum is over the budget by half a paisa or more |
| Rounding.DisplayedBucketsWouldBreach | apps/api/src/commercial/commercial-budget.query.ts:300-304 | deciding on the separately rounded buckets would report a breach that is not there |
| Register.EvaluatedCounts | apps/api/src/commercial/commercial-budget.service.ts:339-390 | evaluating some heads makes the register right about them and leaves every other head alone |
| Register.BillStaged | apps/api/src/commercial/commercial-budget.query.ts:252-271 | in every state the commands keep, each bill's money on a line is staged: paid within approved, approved and withheld within certified, certified within billed |
| Register.LineStaged | apps/api/src/commercial/commercial-budget.query.ts:252-271 | so is a line's, and it is staged to the end if and only if what is billed is within what the receipt is worth |
| Register.ExposureIsOwed | apps/api/src/commercial/commercial-budget.query.ts:192-303 | in every safe state a live line of either kind, open or closed short, reports at least what it owes less its share of what its claims withhold, and exactly that when billed within its receipts |
| Register.ExposureIsObligation | apps/api/src/commercial/commercial-budget.query.ts:192-271 | in every safe state an open material line billed within its receipts is exposed for its obligation less its withholdings |
| PositionLaws.ObligationInTerms | apps/api/src/commercial/commercial-budget.query.ts:192-271 | that obligation is the rate on the larger of what was ordered and what was accepted, the tax and the freight |
| Register.PayingIsNeutral | apps/api/src/commercial/commercial-payment.service.ts:355-377 | paying and reversing move no exposure, which is why they evaluate no head |
| Register.MoneyMovesOnlyWithholdings | apps/api/src/commercial/commercial-budget.query.ts:229-256 | certifying, superseding, withholding, releasing, approving, paying and reversing move a line's exposure only by what they withhold or give back |
| Register.MoneyIsNeutral | apps/api/src/commercial/commercial-budget.query.ts:229-256 | certifying with nothing carried, approving, paying and reversing move no line's exposure |
| Register.DispositionFrame | apps/api/src/commercial/commercial-bill.service.ts:230-239 | a disposition moves only the lines of the bills it disputed |
| Register.OnBillFrame | apps/api/src/commercial/commercial-bill.service.ts:387-445 | a claim command moves only lines its claim touches, before or after |
| Register.UnnamedLinesKeep | apps/api/src/commercial/commercial-bill.service.ts:563-650 | no command changes the exposure of a line it does not name to the evaluator |
| Register.AttributionKeepsAgreement | apps/api/src/commercial/commercial.participant.ts:625-674 | moving a line between heads leaves the register right about both |
| Register.KeptAgrees | apps/api/src/commercial/commercial-budget.service.ts:339-395 | over every run the register agrees with the fold on every head |
| Register.RegisterAgreesInEveryRun | apps/api/src/commercial/commercial-budget.service.ts:339-395 | after every run of claim, evidence, order, money, budget and attribution writes, a head has exactly one open exception if it is budgeted below its exposure, and none otherwise |
| PositionLaws.BreachedExactly | apps/api/src/commercial/commercial-budget.query.ts:305-320 | below its exposure means that the exposures of its lines come to half a paisa or more over the last revision of its budget |
| BudgetService.EvaluatedWrites | apps/api/src/commercial/commercial-budget.service.ts:339-390 | an evaluation adds rows that state the budget and the exposure of the breach they found, clears what is no breach, and touches no other head's rows |
| BudgetService.AttributesExactly | apps/api/src/commercial/commercial.participant.ts:625-674 | an attribution moves the line's own row to its new head, or adds one, and changes no other |
| BudgetService.Budgets.RaiseOrClear | apps/api/src/commercial/commercial-budget.service.ts:366-389 | one head is raised, cleared or left; no other row is touched |
| BudgetService.Budgets.Evaluate | apps/api/src/commercial/commercial-budget.service.ts:339-390 | after the loop each named head has the open rows its fold calls for; rows are only added or cleared, and a raised row states the breach |
| BudgetService.Budgets.SetBudget | apps/api/src/commercial/commercial-budget.service.ts:242-310 | a revision appends its amount to the head's chain unless it is the live one already, and the register agrees with the fold again at its end |
| Withholding.ActKeeps | apps/api/src/commercial/commercial-deduction.service.ts:139-346 | every act the service admits keeps the rows in order and the latest certificate within what it certified, and moves what it withholds beyond what stands only by a release off it |
| Withholding.LedgerInEveryRun | apps/api/src/commercial/commercial-certification.service.ts:420-490 | after every run of records, releases, supersessions and certificates each source row is re-stated at most once, the live certificate withholds no more than it certified, and it withholds what stands if and only if nothing was released off the certificate then the latest |
| Withholding.RestatedAtMostOnce | apps/api/src/commercial/commercial-certification.service.ts:463-489 | in a ledger whose carried rows keep their order each source deduction and each source release is re-stated at most once |
| Withholding.RestatementConserves | apps/api/src/commercial/commercial-certification.service.ts:420-490 | the replacement withholds exactly what the certificate it replaces still withheld, and nothing is recorded or released twice |
| RestatedRows.ReplacementRowByRow | apps/api/src/commercial/commercial-certification.service.ts:463-489 | each deduction of the last certificate is on the replacement again, for the same amount and still holding the same; each release again; and nothing else |
| RestatedRows.ReplacementKeepsOthers | apps/api/src/commercial/commercial-certification.service.ts:463-489 | what every earlier certificate withholds stays as it was |
| RestatedRows.ActKeepsHeld | apps/api/src/commercial/commercial-deduction.service.ts:324-341 | no act releases more of a deduction than was deducted, on any certificate |
| Books.ReleaseInBooks | apps/api/src/commercial/commercial-deduction.service.ts:324-346 | what the service admits to release of one row, the certificate carrying that row withholds |
| Books.LedgersInEveryRun | apps/api/src/commercial/commercial-certification.service.ts:420-490 | in every run of commands and single-row releases, what any certificate of any bill is recorded to withhold is what its ledger's rows add up to, and no row gives back more than it took |
| Books.CertifiedFromTheLedger | apps/api/src/commercial/commercial-certification.service.ts:462-489 | so in every run a verified claim whose rates verify certifies if and only if what its ledger still withholds is within its money, and the new certificate withholds exactly that |
| Withholding.ReleaseConservesExactly | apps/api/src/commercial/commercial-deduction.service.ts:324-341 | a release keeps the ledger sound, and its balance if and only if its deduction is on the latest certificate, which the service does not ask; off it, the latest withholds exactly that much too much |
| Withholding.ReleaseOfHistoryBreaksIt | apps/api/src/commercial/commercial-deduction.service.ts:324-341 | a release on a row already carried forward leaves the live certificate withholding money given back |
| Withholding.DeductionLedger.RecordDeduction | apps/api/src/commercial/commercial-deduction.service.ts:139-170 | withheld up to what the certificate has left, whatever was released before, adding exactly that to what stands |
| Withholding.DeductionLedger.ReleaseDeduction | apps/api/src/commercial/commercial-deduction.service.ts:324-346 | admitted by what the deduction has left, in any ledger the service can reach; the balance stays right exactly when it is the latest certificate's |
| Withholding.DeductionLedger.Supersede | apps/api/src/commercial/commercial-certification.service.ts:651-664 | correcting a certificate changes no row and no balance |
| Withholding.DeductionLedger.RestateDeductions | apps/api/src/commercial/commercial-certification.service.ts:463-489 | the nested copy carries every deduction in order, each with its releases |
| Withholding.DeductionLedger.Certify | apps/api/src/commercial/commercial-certification.service.ts:420-490 | certified if and only if what the last certificate withholds fits; then the new one withholds exactly that |
| Forecast.GenerationKeeps | apps/api/src/commercial/cash-forecast.projection.ts:245-266 | every step keeps a generation's row the forecast of some moment at or past the position it claims |
| Forecast.StepKeeps | apps/api/src/platform/projections/rebuilder.service.ts:66-130 | so does every step of writers, relay, rebuild and barrier over all generations |
| Forecast.ServedIsLive | apps/api/src/commercial/commercial-budget.service.ts:213-224 | in every interleaving the served forecast is the live compute of the money now |
| Forecast.ServedExactly | apps/api/src/commercial/commercial-budget.service.ts:213-224 | the active generation's row answers, whatever it holds, if and only if it is unfenced, its cursor live and at the head, its version this one's or later and its row there; otherwise the compute answers |
| Forecast.RebuildServes | apps/api/src/platform/projections/rebuilder.service.ts:66-130 | a rebuild ends in serving: whatever is written before its barrier, the generation it activates is alone active, at the head, and its row answers |
| Forecast.DeliveredOnce | apps/api/src/platform/projections/generation.ts:27-66 | deliveries apply in order and once: any other position changes nothing, an event of no interest leaves the row, and a repeat changes nothing |
| Forecast.NotServed | apps/api/src/platform/projections/generation.ts:116-150 | a generation an older release wrote in or built, or whose cursor is blocked, never answers |
| Forecast.OneActiveInEveryRun | apps/api/src/platform/projections/rebuilder.service.ts:98-130 | in every run at most one generation is active |
| Forecast.HeadMustBeReadFirst | apps/api/src/commercial/cash-forecast.projection.ts:245-257 | a rebuild that computed first and read the head after would serve the forecast from before a write that fell between, live if and only if that write moved nothing |
| Completion.StepKeepsApart | apps/api/src/auth/password-credentials.service.ts:318-346 | no request, verification, claim or settlement lets two unsettled claims of an account overlap their leases |
| Completion.AtMostOneRunning | apps/api/src/auth/password-credentials.service.ts:318-346 | after any run, at any later time, at most one claimed completion of an account is unexpired and unsettled |
| Completion.RetiringClaimsNothing | apps/api/src/auth/password-credentials.service.ts:167-189 | a later request never makes a row look claimed |
| Completion.CodeLives | apps/api/src/auth/password-credentials.service.ts:242-279 | a code verifies for ten minutes and through four wrong guesses; the fifth spends it |
| Completion.RequestRetires | apps/api/src/auth/password-credentials.service.ts:167-189 | a new code makes every unspent one of its account neither verify nor claim again, and touches no other row |
| Completion.TokenLives | apps/api/src/auth/password-credentials.service.ts:318-346 | a verified row is claimed by its own token and no other, for ten minutes, while its account is not busy |
| Completion.LeaseHolds | apps/api/src/auth/password-credentials.service.ts:318-346 | a claim holds its account for 87 seconds or until it is settled, and an ineligible account is left unclaimed |
| Completion.NeverClaimedAgain | apps/api/src/auth/password-credentials.service.ts:330-342 | a spent code can never be claimed again, whatever happens in between |
| Completion.NextClaimWaits | apps/api/src/auth/password-credentials.service.ts:33-60 | the next claim comes only after settlement, or after every issuer call and transaction within its bound has ended |
| Completion.Credentials.RequestCode | apps/api/src/auth/password-credentials.service.ts:167-189 | a request retires the account's unspent codes and no other row |
| Completion.Credentials.VerifyCode | apps/api/src/auth/password-credentials.service.ts:242-279 | a code verifies exactly once in its life; wrong codes count and the last spends it |
| Completion.Credentials.ClaimChallenge | apps/api/src/auth/password-credentials.service.ts:318-346 | claimed if and only if unspent, in time, eligible and no completion of the account runs |
| Completion.Credentials.CompleteThroughIssuer | apps/api/src/auth/password-credentials.service.ts:352-417 | the claim is settled unless the issuer's answer was unclear |
| Install.ClosedHoldsReachable | apps/web/public/sw.js:52-83 | a set holding the shell's names and whatever its members name holds everything reachable |
| Install.TurnDescends | apps/web/public/sw.js:52-74 | each turn sees a new file of a finite set or finishes one |
| Install.FollowsExactly | apps/web/public/sw.js:64-74 | scripts and style sheets are followed to every file they name, and nothing else is followed |
| Install.KeepBuild | apps/web/public/sw.js:52-83 | for any order of answers the install succeeds if and only if the shell names a script and everything reachable can be had, and then exactly that is kept |
| Windows.RunSound | apps/web/public/sw.js:290-335 | in every interleaving each steadily listed window stays recorded, and every record read or held is an announcement that was kept |
| Windows.NeverForgotten | apps/web/public/sw.js:290-318 | a window listed ever since its announcement was kept is never forgotten |
| Windows.KeptUntilHidden | apps/web/public/sw.js:290-318 | its record lasts until it hides or announces again |
| Windows.AnnouncingIsKept | apps/web/public/sw.js:307-318 | a listed window's announcement is in the registry when it commits, at its level |
| Windows.YesMeansAnnounced | apps/web/public/sw.js:322-332 | a yes means every listed window had announced that level or above |
| Windows.AnswersExactly | apps/web/public/sw.js:320-335 | an ask that nothing interrupts says yes if and only if some window is open and every open one's announcement is kept at that level or above |
| Windows.ListedExactly | apps/web/public/sw.js:302-306 | a window is listed if and only if it opened and has not hidden since |
| Windows.CommitsExactly | apps/web/public/sw.js:287-318 | a commit forgets exactly the records read, found unlisted and unchanged; an announcement keeps its own with a nonce never given before |
| Windows.ForgetIn | apps/web/public/sw.js:290-295 | each window whose record is still the one read is forgotten, and no other |
| Blocks.RunSound | apps/api/src/activities/activity.participant.ts:108-168 | over any run of mismatches, resolutions, starts, completions and sign-offs every block is explained by an unresolved dispute and every held dispute blocks |
| Blocks.DisputesAreNeverDropped | apps/api/src/activities/activity.participant.ts:318-413 | a dispute that found its activity open keeps it blocked through every overwrite and handover |
| Blocks.RecordedStaysBlocked | apps/api/src/activities/activity.participant.ts:154-413 | from the trace alone: a mismatch that found its activity open, and has never since been without an unresolved one of its kind, keeps the activity blocked |
| Blocks.HeldUntilResolved | apps/api/src/activities/activity.participant.ts:318-413 | it is let go only when its own kind has none unresolved |
| Blocks.BlockedHasDispute | apps/api/src/activities/activities.service.ts:467-560 | a blocked activity always has an unresolved dispute |
| Blocks.LabourBlockIsUndone | apps/api/src/activities/activity.participant.ts:359-413 | in every run a labour mismatch on a pending or running activity blocks it, and once resolved leaves it exactly where it was |
| Blocks.MaterialBlockIsUndone | apps/api/src/activities/activity.participant.ts:154-346 | so does a material one on each linked activity |
| Blocks.HandedOver | apps/api/src/activities/activity.participant.ts:318-413 | resolved while a labour mismatch stands, a material one leaves the activity blocked under the labour banner, and that one's resolution then restores it |
| Blocks.EachCountsOne | apps/api/src/activities/activities.service.ts:467-560 | each mismatch counts one, and resolving one of several changes no activity |
| Blocks.Participant.BlockForMaterialMismatch | apps/api/src/activities/activity.participant.ts:154-168 | every linked activity fails its gate and, unless finished, is blocked |
| Blocks.Participant.ClearMaterialMismatchBlock | apps/api/src/activities/activity.participant.ts:318-346 | what the decision blocked is restored, or handed over to a labour dispute still standing |
| Blocks.Participant.BlockForLabourMismatch | apps/api/src/activities/activity.participant.ts:359-380 | only a pending or running activity is blocked |
| Blocks.Participant.ClearLabourMismatchBlock | apps/api/src/activities/activity.participant.ts:390-413 | only a row still carrying the labour banner is restored |
| Heads.RecordedLineage | apps/api/src/activities/requirements.service.ts:325-400 | create, revise and cancel keep lineages: rising revisions, one kind, nothing after a cancellation |
| Heads.OpsExactly | apps/api/src/activities/requirements.service.ts:325-400 | a requirement is created once, and revised or cancelled only from the head the caller expected, which is no cancellation, with the next number and the head's kind |
| Heads.HeadMap | apps/api/src/activities/labour-coverage-requirements.ts:42-46 | one pass keeps each requirement's highest revision |
| Heads.ScopedLabourIsFiltered | apps/api/src/activities/labour-coverage-requirements.ts:32-51 | over any history, loading labour for some activities gives exactly the open heads they own now |
| Heads.ScopedFirstExactly | apps/api/src/activities/coverage-requirements.ts:26-39 | the material loader agrees with its full load restricted if and only if no requirement with a revision in scope now belongs elsewhere |
| Heads.MovedRequirementIsResurrected | apps/api/src/activities/coverage-requirements.ts:26-39 | a requirement moved to another activity is loaded again as open demand on the old one |
| Heads.LoadLabourRequirements | apps/api/src/activities/labour-coverage-requirements.ts:26-70 | the two loops return the full load restricted to the scope |
| Heads.LoadMaterialRequirements | apps/api/src/activities/coverage-requirements.ts:20-57 | the query and the loop return the open heads among the rows in scope |

## Left out

- Rate, tax, freight and duplicate checks of the three-way match: they enter `Verify` and `Certify` as
  one flag, and no property depends on them.
- Effort and ordered caps on a new measurement, and the approval limits and segregation of duties:
  the model admits every row they would refuse, so the safety theorems hold without them.
- Per-approval and per-payment caps: bills keep one approved and one paid total, bounded as the bill is.
- The advance-recovery pool, vendors and their advances.
- Order amendment as one act: it is the end of one line and the start of another.
- Decimal precision of quotients and the rounding of a committed amount when an order is issued.
- Timestamps beyond their order, identifiers beyond equality, the wording of refusals, audit rows,
  idempotency, capabilities and roles.
- Partial writes that an aborted transaction undoes: each method restores what it wrote.
- Claims recorded while a disposition runs: interference moves and amends the claims there are.
- Deadlock freedom of the lock orders: the orders are followed, not compared across commands.
- Substitution targets and demand slices of a requirement: the loaders are modelled up to the heads
  they choose.
- Readiness gates that `start` asks before it moves an activity; the block machine admits every start.
- Fetching, notifications and the rest of the service worker; the text patterns that find names in a
  file, which arrive as each file's list of names.
- Issuer calls, mail and hashing: outcomes arrive as parameters, and equal values stand for equal hashes.
- NeedlessDisputes.OverDisputesExactly: departures that land in one slot. For departures spread over
  several slots a needless dispute and a needless refusal are covered together by `GoesWrongExactly`,
  and the refusal by itself by `RefusedSomehowExactly`.
- The forecast's compute is one read of the money; the source folds it in several statements, each with
  a snapshot of its own.
