# Models of the iii engine's registries

Dafny models of four pieces of the engine's state, with proofs of what they promise:

- **The trigger registry** (`engine/src/trigger.rs`). A binding is live, parked, or claimed by an operation that
  holds a token; registration, removal, provider arrival and departure, failover, re-homing, activation, late
  rejection, worker departure and cancellation all race on it.
- **The JSON update operations** (`engine/src/update_ops.rs`). A batch interpreter over a document changed in place,
  which skips operations that fail.
- **The limiter behind deprecation warnings** (`engine/src/deprecation.rs`).
- **The service index** (`engine/src/services.rs`), keyed by names parsed out of function ids.

## How the files fit together

| file | content |
|---|---|
| `Bindings.dfy`, `Belonging.dfy` | bindings, providers, how a binding resolves to a provider, and what that means |
| `Registries.dfy` | the registry's state and its critical sections, one function each |
| `Protocol.dfy` | the concurrent protocol: a step is one critical section, steps interleave freely |
| `Safety.dfy` | the inductive invariant and what follows from it over every run |
| `Outcomes.dfy` | what each step does to the id it is about, and that it touches no other |
| `Removals.dfy` | an explicit unregister wins over everything that was under way |
| `NoStranding.dfy` | publish-then-drain against park-then-recheck |
| `Overlap.dfy` | where overlapping registrations leave live bindings, the two gaps in that, and what a binding in a gap waits for |
| `OverlapRuns.dfy` | short runs that fall into those gaps |
| `Placement.dfy` | where each binding belongs, and what each section does to that |
| `TriggerStore.dfy` | the live bindings with their index by type, as a class and at the grain of single map operations |
| `Deliveries.dfy` | calls to providers, and what it means that exactly certain bindings were sent |
| `TriggerRegistry.dfy` | the registry as a class whose methods equal the sections, and its operations run one at a time |
| `Reconcile.dfy` | the loop that repairs a provider after a late call |
| `Json.dfy`, `UpdateOps.dfy`, `UpdateLaws.dfy`, `UpdateRules.dfy` | documents and path lens, the interpreter, its laws, and when its operations fail |
| `RateLimiter.dfy` | the limiter and its sliding-window bounds |
| `Services.dfy` | splitting ids, the index, its exactness |

The registry is modelled twice over the same sections. `Protocol` runs them as steps of concurrent operations: what a
provider answers, when a caller is dropped, and what an unlocked look-up saw are choices of the step, so every result in
`Safety` covers every schedule. The history `log` records what callers asked for as it was settled; the registry never
reads it. `TriggerRegistries.TriggerRegistry` runs the same sections as methods on fields, each proved equal to its
function; its operations do not overlap and their providers accept, and then every binding is exactly where it resolves.

## Where the code differs from its documentation

- The limiter is documented as warning at most once per interval for an entry point and caller. A caller first charged
  to the shared key can be warned again under its own (`RateLimiting.SharedThenOwn`). `RateLimiting.WarnedAgain` says
  exactly when, and `RateLimiting.TwicePerCaller` bounds it.
- An id with an empty function part, such as `svc::`, creates a service without functions. `Services.ExactThroughout`
  says that this is the only way to lose exactness.
- A registration or an activation that settles does not look again for a provider that appeared at home while its
  provider call was outstanding, and re-homing looks at live bindings only. So both a binding on its way and a parked
  intent being activated can settle on the fallback beside their home provider and stay there until it
  registers again (`OverlapRuns.RegistrationStrands`, `OverlapRuns.ActivationStrands`). The condition is that the home
  provider is filed and done looking when the call settles: then the binding is left out of place until something
  frees it (`Overlap.SettleStrands`, `Overlap.GapStrands`), and in a run of registrations where that never happens
  every binding ends in place (`Overlap.OverlapEndsPlaced`). An intent that stays parked is never stranded
  (`NoStranding.NoStrandedIntent`).
- `claim_parked` does not look again whether the parked intent has the type it is claimed for. An id parked again under
  another type between a drain's scan and its claim goes live where nothing serves it
  (`OverlapRuns.StaleClaimStrands`; `Overlap.ClaimFitsItsKey` says exactly when).
- An aborted caller must not leave a token that blocks later provider work, says the guard. A claim taken from a
  departing provider has no guard until its failover starts, and keeps its token when it is dropped before, as the
  comment on `Orphans` admits (`OverlapRuns.ForsakenClaimKeepsItsToken`; `Safety.EndedTokenIsRetired` says that it is
  the only case).

## Model

| member | source | states |
|---|---|---|
| `Safety.StepKeepsInv` | engine/src/trigger.rs:491-739 | any step of any operation keeps the inductive invariant: per id one bucket, the newest intent and nothing stale, and one matching holder for each current token |
| `Safety.RunKeepsInv` | engine/src/trigger.rs:491-739 | the invariant holds after every run, however the steps of concurrent calls interleave |
| `Safety.NewestIntentWins` | engine/src/trigger.rs:612-634 | in every reachable state what is live, parked or about to be placed carries exactly the payload of the latest settled registration; an id whose last settled word is a completed removal is nowhere, so no stale replay overwrites or resurrects |
| `Removals.UnregisterWins` | engine/src/trigger.rs:1702-1769 | an unregister of a live binding, whatever rejections, drains, failovers and provider departures come before its provider answers, leaves the id nowhere and dropped, unless a newer word on the id or its worker overrules it |
| `Removals.StepSparesRemoval` | engine/src/trigger.rs:1754-1758 | a removal in flight keeps its token through every step but its own reply, a newer settled registration or unregister of the id, and the sweep of its worker |
| `Removals.AdvanceSparesRemoval` | engine/src/trigger.rs:1435-1451 | no claim, drain, re-check or re-homing takes an id under removal |
| `Removals.TakeAllSparesRemoval` | engine/src/trigger.rs:1175-1198 | a departing provider claims no id under removal |
| `Removals.UnregisterOfParkedIsImmediate` | engine/src/trigger.rs:1714-1722 | with no live binding an unregister cancels the claim and drops the parked intent at once |
| `Safety.NothingIsLost` | engine/src/trigger.rs:546-558 | in every reachable state an id has a settled intent if and only if it is live, parked or held by a move; never live and parked, never parked and moved |
| `Safety.OnlyCallersChangeIntents` | engine/src/trigger.rs:1052-1134 | the newest intent of an id changes only when a registration of it settles, its removal completes, or its own worker is swept: no arrival, departure, failover, rejection, failure or cancellation changes it |
| `Safety.DepartureAsks` | engine/src/trigger.rs:1052-1064 | the first section of a departure drops only intents the departing worker owns |
| `Safety.AdvanceAsks` | engine/src/trigger.rs:1082-1128 | a sweep drops only what the departing worker owns; other steps settle only the binding they were called with |
| `Safety.ActivationChecksNeverFire` | engine/src/trigger.rs:1482-1499 | while an activation holds its token its id is in neither map, so the two extra emptiness checks never decide |
| `Safety.TryClaimKeepsInv` | engine/src/trigger.rs:1435-1451 | claiming a parked intent moves it from `pending` to a tokened transition without losing or duplicating it |
| `Safety.SettledKeepsInv` | engine/src/trigger.rs:1605-1690 | a registration that settles live or parked supersedes every older form of its id |
| `Safety.ActivationKeepsInv` | engine/src/trigger.rs:1464-1500 | the end of an activation, accepted or refused, current or superseded, keeps the invariant |
| `Safety.CancelKeepsInv` | engine/src/trigger.rs:694-723 | a caller dropped at an await of an activation, failover or re-homing leaves its intent in exactly one map |
| `Safety.MoveKeepsInv` | engine/src/trigger.rs:870-885 | the end of a re-homing keeps the newest intent in exactly one bucket |
| `Safety.DetachKeepsInv` | engine/src/trigger.rs:846-868 | a failed or superseded detach leaves the source where it was |
| `Safety.StartKeepsInv` | engine/src/trigger.rs:1233-1252 | redirecting an orphan changes its placement only, and a superseded failover changes nothing |
| `Safety.TakeAllKeepsInv` | engine/src/trigger.rs:1157-1202 | claiming every orphan of a departing provider, in any order of iteration, keeps each one live and tokened |
| `Safety.UnregisterKeepsInv` | engine/src/trigger.rs:1702-1724 | the first section of an unregister either claims the live binding or drops every other form of the id |
| `Safety.RemovalKeepsInv` | engine/src/trigger.rs:1757-1769 | only a removal whose token survived its provider call removes |
| `Safety.AbandonKeepsInv` | engine/src/trigger.rs:640-676 | a failed or dropped removal loses nothing, whether it repairs, resumes as a move or parks |
| `Safety.AbandonedRemovalFindsAProvider` | engine/src/trigger.rs:640-687 | after a failed or dropped removal the binding is being moved under a fresh token, or parked, or still served by the registrator that was asked |
| `Safety.RejectionKeepsInv` | engine/src/trigger.rs:1785-1813 | a late rejection of a live, moving or half-removed binding keeps its newest intent, in one bucket; what it does with it is in `Outcomes.RejectionParks` |
| `Safety.LatestIsTheLastWord` | engine/src/trigger.rs:1673-1690 | the newest intent of an id is the binding the last word on it settled, and none exactly when that word dropped it or there was none |
| `Safety.SweepStartKeepsInv` | engine/src/trigger.rs:1055-1064 | dropping all claims and parked intents of a worker removes exactly those intents |
| `Safety.SweepOneKeepsInv` | engine/src/trigger.rs:1082-1128 | dropping one live or parked binding of a departed worker keeps the invariant |
| `Safety.EndedTokenIsRetired` | engine/src/trigger.rs:502-532 | an operation that ends, by answer, failure or cancellation, leaves no entry under its token, if and only if it is not a current claim on an orphan dropped before its failover started |
| `Safety.NoAbandonedToken` | engine/src/trigger.rs:502-532 | in every reachable state each transition belongs to one operation and to no other id, and names the very binding and place that operation is about to settle; the operation is in progress unless it is such a forsaken claim |
| `Safety.StepTokensGrow` | engine/src/trigger.rs:612-628 | tokens only grow, and an entry carries the token it had or a fresh one |
| `Safety.RetiredForGood` | engine/src/trigger.rs:630-634 | a retired token is never current again in any run, so each is finished at most once |
| `NoStranding.NoStrandedIntent` | engine/src/trigger.rs:1360-1416 | for any interleaving of registrations of bindings and providers that accept, once all calls have returned no parked intent has a filed provider it could be served by: in the namespace it names, else at home or in the default one |
| `NoStranding.RunKeepsAttended` | engine/src/trigger.rs:1625-1641 | throughout such runs every parked intent that resolves has a drain or a re-check on its way to it |
| `Overlap.SettleIsPlaced` | engine/src/trigger.rs:1482-1500 | a registration or activation that settles leaves its binding where it resolves if and only if it is not on the fallback beside a provider filed at its home by then |
| `Overlap.ClaimFitsItsKey` | engine/src/trigger.rs:1435-1451 | a claimed intent is bound to the key of the claim if and only if it has that type, and belongs there if and only if it resolves to that key |
| `Overlap.OverlapEndsPlaced` | engine/src/trigger.rs:1346-1429 | for any interleaving of accepted registrations in which no call settles behind a home provider that is done looking and no claim takes an intent its key does not suit, once all have returned every live binding is where it resolves, nothing parked resolves, and the history decides the whole placement |
| `Overlap.SettleStrands` | engine/src/trigger.rs:1482-1500 | a settle strands its binding if and only if a provider filed at its home is done looking for it |
| `Overlap.StrandedStays` | engine/src/trigger.rs:812-942 | a stranded binding stays live where it is through every step but a new word on it, a rejection, a departure of its worker or of either provider, and a fresh look by the home provider |
| `Overlap.GapStrands` | engine/src/trigger.rs:1418-1426 | conversely, a call that does settle behind a home provider that is done looking leaves its binding out of place, however the run goes on, until one of those steps |
| `Overlap.RunKeepsHoused` | engine/src/trigger.rs:1418-1426 | throughout such runs every binding left on the fallback beside its home provider has a publish, drain, survey or re-homing on its way to it, or is being moved home |
| `Overlap.AdvanceKeepsWill` | engine/src/trigger.rs:794-806 | the survey and the list of candidates of a re-homing miss no live binding that was there to be found |
| `OverlapRuns.RegistrationStrands` | engine/src/trigger.rs:1644-1690 | a concrete run in which a registration in flight settles on the fallback beside its home provider |
| `OverlapRuns.ActivationStrands` | engine/src/trigger.rs:1464-1500 | a concrete run in which an activation in flight does the same to a parked intent |
| `OverlapRuns.ForsakenClaimKeepsItsToken` | engine/src/trigger.rs:565-568 | a concrete run in which a claim on an orphan is dropped before its failover starts: the binding stays live with no provider, in flight under a token nobody will finish |
| `OverlapRuns.RunsAreCooperative` | engine/src/trigger.rs:1346-1429 | the stranding runs need no refusal, no departure and no dropped caller |
| `OverlapRuns.StaleClaimStrands` | engine/src/trigger.rs:1435-1451 | a concrete run in which an id parked again under another type goes live with a provider that does not serve it |
| `Belonging.ResolveMeans` | engine/src/trigger.rs:769-785 | a look-up finds the named namespace or nothing; with none named, home when it is filed, and the default namespace only when home is not; always for the own type |
| `Belonging.BelongsOnce` | engine/src/trigger.rs:769-785 | a binding belongs to one provider at most |
| `Belonging.IntentIsThePayload` | engine/src/trigger.rs:240-291 | two bindings have one intent if and only if they agree in everything but the namespace of their provider |
| `Belonging.OnFallbackMeans` | engine/src/trigger.rs:299-314 | a binding is on the fallback if and only if it names no namespace and is not served at home |
| `Outcomes.RegisterEnds` | engine/src/trigger.rs:1644-1690 | accepted: live and nothing else of the id left; refused: nothing happened; unreachable: parked; no other id is touched |
| `Outcomes.ParkEnds` | engine/src/trigger.rs:1604-1615 | a parked registration supersedes every other form of its id and touches no other |
| `Outcomes.LooksAgain` | engine/src/trigger.rs:1625-1641 | the second look reads the named namespace, or home and then the default one |
| `Outcomes.ClaimTakes` | engine/src/trigger.rs:1435-1451 | a parked intent not being removed goes in flight bound to the namespace it is claimed for; else nothing happens |
| `Outcomes.ScanLists` | engine/src/trigger.rs:1395-1405 | a drain lists an intent if and only if it belongs to the provider that registered |
| `Outcomes.SurveyLists` | engine/src/trigger.rs:794-806 | a re-homing lists a live binding if and only if it is at home with the provider, served elsewhere, and not in flight |
| `Outcomes.ActivationEnds` | engine/src/trigger.rs:1482-1500 | a current activation ends live or parked by its answer; a superseded one changes nothing |
| `Outcomes.RejectionParks` | engine/src/trigger.rs:1785-1811 | a rejected live binding waits in `pending` as it was; a move of it is over, a removal keeps its token; no other id is touched |
| `Outcomes.RejectedIsOffered` | engine/src/trigger.rs:1814-1835 | a rejected intent is offered to the provider at its key if and only if that is another worker by now |
| `Outcomes.RejectedIsTakenBack` | engine/src/trigger.rs:1828-1835 | that provider takes it back if it still waits and is not being removed |
| `Outcomes.RehomeStarts` | engine/src/trigger.rs:821-843 | a claimed stray stays live where it was, in flight to its own home |
| `Outcomes.MoveStarts` | engine/src/trigger.rs:1233-1252 | a current failover goes to the provider its binding belongs to now, and nowhere when there is none |
| `Outcomes.MoveEnds` | engine/src/trigger.rs:870-885 | a current move ends live at its target when accepted, and parked as that when refused; a superseded one changes nothing |
| `Outcomes.DetachEnds` | engine/src/trigger.rs:846-868 | a source that could not be detached stays live and is in flight no more |
| `Outcomes.CancelEnds` | engine/src/trigger.rs:694-723 | a dropped caller leaves an attached source live as it was, and any other intent parked as it was to be placed |
| `Outcomes.UnregisterStarts` | engine/src/trigger.rs:1702-1731 | a live binding stays so while its provider is asked; any other form of the id goes at once |
| `Outcomes.RemovalEnds` | engine/src/trigger.rs:1757-1769 | a current removal leaves the id nowhere; a superseded one changes nothing |
| `Outcomes.AbandonEnds` | engine/src/trigger.rs:640-687 | a failed removal leaves the binding as it was when the provider asked still serves it, parked without a runtime, else in flight under a fresh token |
| `Outcomes.DepartStarts` | engine/src/trigger.rs:1052-1064 | exactly the claims and parked intents the worker owns go |
| `Outcomes.SweepEnds` | engine/src/trigger.rs:1082-1128 | one live or parked binding of the worker goes, a live one with what is in flight on it |
| `Outcomes.TakeEnds` | engine/src/trigger.rs:1157-1202 | a provider that leaves orphans exactly the live bindings it served that are not being removed, each under a fresh token |
| `Placement.PlacedMeans` | engine/src/trigger.rs:769-785 | when everything is in place each live binding is with the provider it belongs to, what is parked belongs nowhere, and together they are the intents |
| `Placement.PlacementIsUnique` | engine/src/trigger.rs:769-785 | provider keys and intents alone decide what is live, exactly where, and what is parked, and that is where each belongs |
| `Placement.RedirectedMeans` | engine/src/trigger.rs:1233-1252 | a failover redirects to the provider its binding belongs to |
| `Placement.RegisterPlaces` | engine/src/trigger.rs:1582-1690 | an accepted registration ends where it resolves, and disturbs no other binding |
| `Placement.PublishLoosens` | engine/src/trigger.rs:1360-1416 | a provider that appears unsettles only parked intents it serves and fallback bindings at home with it |
| `Placement.TakeLoosens` | engine/src/trigger.rs:1157-1202 | a provider that leaves unsettles only the bindings it served |
| `Placement.ActivatePlaces` | engine/src/trigger.rs:1435-1500 | claim and settle of a parked intent bring exactly that intent in place |
| `Placement.RehomePlaces` | engine/src/trigger.rs:818-885 | claim and settle of a re-homing bring exactly that binding in place |
| `Placement.FailoverPlaces` | engine/src/trigger.rs:1233-1318 | a failover brings exactly its orphan in place: at the provider it resolves to, or parked |
| `Placement.AllSwept` | engine/src/trigger.rs:1052-1128 | with nothing live or parked for a worker left, exactly the intents of the others remain |
| `TriggerRegistries.TriggerRegistry.BeginTransition` | engine/src/trigger.rs:613-628 | the whole new state of beginning a transition, and the token handed out |
| `TriggerRegistries.TriggerRegistry.FinishTransition` | engine/src/trigger.rs:630-634 | ends the transition if and only if the token is current, and says so |
| `TriggerRegistries.TriggerRegistry.ParkNew` | engine/src/trigger.rs:1604-1615 | the whole new state of parking a registration, and what it superseded |
| `TriggerRegistries.TriggerRegistry.SettleLive` | engine/src/trigger.rs:1679-1690 | the whole new state of an accepted registration |
| `TriggerRegistries.TriggerRegistry.ClaimParked` | engine/src/trigger.rs:1435-1451 | claims the parked intent unless it is being removed |
| `TriggerRegistries.TriggerRegistry.SettleActivation` | engine/src/trigger.rs:1482-1500 | settles live or parked if and only if the token is current and the id in neither map |
| `TriggerRegistries.TriggerRegistry.StartFailover` | engine/src/trigger.rs:1233-1252 | redirects a current orphan to the provider it resolves to now |
| `TriggerRegistries.TriggerRegistry.SettleMove` | engine/src/trigger.rs:1283-1318 | a current move ends live at the new provider or parked; a superseded one changes nothing |
| `TriggerRegistries.TriggerRegistry.ClaimRehome` | engine/src/trigger.rs:821-843 | claims a binding if and only if it is live, still on the fallback, at home there and not in flight |
| `TriggerRegistries.TriggerRegistry.StartRemoval` | engine/src/trigger.rs:1709-1731 | claims a live binding for removal; else drops the claimed or parked intent and says whether there was one |
| `TriggerRegistries.TriggerRegistry.SettleRemoval` | engine/src/trigger.rs:1757-1769 | clears both maps if and only if the removal is still current |
| `TriggerRegistries.TriggerRegistry.RecoverRemoval` | engine/src/trigger.rs:640-676 | what a failed or dropped removal leaves, and whether to repair or to resume as a move |
| `TriggerRegistries.TriggerRegistry.RecoverActivation` | engine/src/trigger.rs:701-723 | where a dropped activation or move leaves its intent |
| `TriggerRegistries.TriggerRegistry.ParkRejected` | engine/src/trigger.rs:1785-1811 | takes the live binding out of `triggers` into `pending` as it was, ends a move and keeps a removal; without a live binding it does nothing |
| `TriggerRegistries.TriggerRegistry.RegisterTrigger` | engine/src/trigger.rs:1582-1693 | without overlap: live at the provider it belongs to or parked when it belongs nowhere, everything else in its place too, also when the first look came too early and the second one finds the provider; a refusal changes nothing; an unreachable provider parks; what a parked registration supersedes is taken from its provider |
| `TriggerRegistries.TriggerRegistry.SweepClaims` | engine/src/trigger.rs:1055-1064 | drops exactly the claims and parked intents of the worker |
| `TriggerRegistries.TriggerRegistry.SweepLive` | engine/src/trigger.rs:1088-1096 | drops a live binding only if the departed worker still owns it |
| `TriggerRegistries.TriggerRegistry.SweepPending` | engine/src/trigger.rs:1125-1128 | no intent of the worker is parked afterwards, and every other parked intent still is |
| `TriggerRegistries.TriggerRegistry.LookAgain` | engine/src/trigger.rs:1625-1641 | the second look claims the intent just parked and leaves it live at the provider found, or parked when that one refuses |
| `TriggerRegistries.TriggerRegistry.UnregisterTrigger` | engine/src/trigger.rs:1702-1778 | true if and only if an intent stood, and it is gone and taken from its provider; a provider error leaves everything where it was |
| `TriggerRegistries.TriggerRegistry.ReplayLive` | engine/src/trigger.rs:1372-1393 | the provider is told once of every live binding it serves that is not in flight, and of nothing else |
| `TriggerRegistries.TriggerRegistry.DrainPending` | engine/src/trigger.rs:1395-1415 | exactly the parked intents that resolve to the provider go live there, each replayed once; no other binding moves |
| `TriggerRegistries.TriggerRegistry.RehomeFallbackBindings` | engine/src/trigger.rs:812-942 | exactly the strays of the provider come home, each taken from its old provider once and replayed once; no other binding moves |
| `TriggerRegistries.TriggerRegistry.RegisterTriggerType` | engine/src/trigger.rs:1346-1429 | from any resting state the provider is told exactly once of every binding it serves on return, and of nothing else; what it takes from the fallback is detached there once; bindings in flight are left alone |
| `TriggerRegistries.TriggerRegistry.TakeTriggerTypeIfProvider` | engine/src/trigger.rs:1157-1202 | takes the provider if and only if the worker serves it; claims each binding it served once, under a fresh token, superseding a move and sparing a removal |
| `TriggerRegistries.TriggerRegistry.FailOverOrphans` | engine/src/trigger.rs:1210-1221 | all orphans end in place, each replayed exactly once to the provider it resolves to, if any |
| `TriggerRegistries.TriggerRegistry.UnregisterWorker` | engine/src/trigger.rs:1052-1134 | without overlap: none of the intents and providers of the worker are left, each of its live bindings was taken from its provider once, and all others are where they resolve |
| `TriggerRegistries.TriggerRegistry.FailOver` | engine/src/trigger.rs:1233-1344 | one orphan ends in place, replayed once to the provider it resolves to, and no other binding moves |
| `TriggerRegistries.TriggerRegistry.RemoveTriggerTypeIfProvider` | engine/src/trigger.rs:1143-1149 | retiring a provider keeps every intent and leaves each one where it resolves without it |
| `TriggerRegistries.TriggerRegistry.HotReload` | engine/src/trigger.rs:1150-1202 | take, register again under the same key, fail over: every claimed binding is replayed exactly once, to the new registration, and is live as before |
| `TriggerRegistries.TriggerRegistry.Run` | engine/src/trigger.rs:1052-1778 | after any sequence of non-overlapping calls the providers and the intents are what the calls say, each live binding is with the provider it belongs to, and what is parked belongs nowhere |
| `TriggerRegistries.QuietMeans` | engine/src/trigger.rs:769-785 | the same of any registry at rest |
| `Deliveries.AddressesMean` | engine/src/trigger.rs:946-950 | a detach goes to the provider the binding is with, a failover to the one it belongs to, by its own fields |
| `TriggerRegistries.StartOrderDoesNotMatter` | engine/src/trigger.rs:769-806 | binding before or after the provider announces itself ends in the same registry, whatever came before and comes after |
| `TriggerRegistries.ReloadDelivers` | engine/src/trigger.rs:1372-1393 | the replays of a reload hold each claimed binding once, at its unchanged placement |
| `TriggerStores.AgreementIsExact` | engine/src/trigger.rs:371-383 | an index agrees with the primary map, with no empty bucket, if and only if it is the grouping of the map by type |
| `TriggerStores.TriggerStore.Insert` | engine/src/trigger.rs:414-432 | files the binding, hands back what it replaced, and keeps the index in exact agreement |
| `TriggerStores.TriggerStore.RemoveIf` | engine/src/trigger.rs:439-465 | removes if and only if present and accepted, and keeps the index in exact agreement |
| `TriggerStores.TriggerStore.TargetsForType` | engine/src/trigger.rs:467-472 | reads the index alone and finds exactly the live bindings of the type |
| `TriggerStores.TriggerStore.InsertTarget` | engine/src/trigger.rs:474-479 | adds one target to its bucket, making the bucket if needed |
| `TriggerStores.TriggerStore.RemoveTarget` | engine/src/trigger.rs:481-488 | removes one target and, with the last one, its bucket |
| `TriggerStores.WithTargetFiles` | engine/src/trigger.rs:474-479 | filing an id that is in no other bucket leaves it in exactly one and disturbs no other id |
| `TriggerStores.WithoutTargetFiles` | engine/src/trigger.rs:481-488 | unfiling an id leaves it in no bucket, leaves no empty bucket and disturbs no other id |
| `TriggerStores.WriteKeepsConsistent` | engine/src/trigger.rs:414-465 | every single map operation of a writer keeps what dispatch sees of each id consistent |
| `TriggerStores.IndexAgreesBetweenSubSteps` | engine/src/trigger.rs:371-489 | in every interleaving of writers no id is in two buckets and no bucket is empty; an id nobody writes is indexed exactly as stored; with no writer the index is exact |
| `Reconciling.ReconcileProvider` | engine/src/trigger.rs:974-1050 | whatever is read between calls: each call replays the wanted binding if the provider at hand serves it and detaches the stale one otherwise; the next provider is the one that serves the binding after a detach, else the same; the loop ends repaired exactly when the last turn leaves nothing to do |
| `Reconciling.CallsFollowReadings` | engine/src/trigger.rs:1007-1019 | each call, by the fields read before it: a detach of the stale binding when it is being removed, there is none, it is for another key or another provider serves the key; else a replay of the move target, or the live binding, to the provider filed there |
| `Reconciling.RemovalIsDetached` | engine/src/trigger.rs:981-982 | a binding under removal is never replayed |
| `Reconciling.ProvidersFollowReadings` | engine/src/trigger.rs:1041-1048 | whom each call goes to, by the fields read after the one before |
| `Reconciling.RepairMatchesLastReading` | engine/src/trigger.rs:1032-1049 | a finished repair matches the state read after its last call |
| `Reconciling.RepairFollowsLastReading` | engine/src/trigger.rs:1032-1049 | the same by the fields read: a replay of what is wanted there, or a detach when nothing is |
| `Reconciling.CalmRepairIsShort` | engine/src/trigger.rs:974-1050 | undisturbed and accepted, a repair is done within two calls |
| `UpdateOps.ValidateOpPath` | engine/src/update_ops.rs:87-136 | finds the first faulty segment; none if and only if the path is short enough and every segment is valid |
| `UpdateOps.WalkOrCreate` | engine/src/update_ops.rs:211-240 | the in-place walk leaves the document and hands out the object that the path lens describes |
| `UpdateOps.RunMerge` | engine/src/update_ops.rs:358-394 | the `merge` branch against its specification, walk included |
| `UpdateOps.RunAppend` | engine/src/update_ops.rs:505-570 | the `append` branch against its specification, walk included |
| `UpdateOps.ApplyUpdateOps` | engine/src/update_ops.rs:325-599 | the batch loop computes the specification about which the laws below are proved |
| `UpdateLaws.FaultIsNoOp` | engine/src/update_ops.rs:505-570 | an operation that reports an error changes neither document nor flag; in particular a nested append that fails created nothing |
| `UpdateLaws.OpKeepsSound` | engine/src/update_ops.rs:329-333 | while the missing flag is up the document is still `{}` |
| `UpdateLaws.FailuresAreSkipped` | engine/src/update_ops.rs:325-599 | a batch comes to the same as its effective operations alone, and those report nothing |
| `UpdateLaws.ErrorsAreOrdered` | engine/src/update_ops.rs:43-53 | at most one error per operation, indexes strictly increasing, one for every operation that is not effective |
| `UpdateLaws.ErrorsNameTheirOperation` | engine/src/update_ops.rs:43-53 | an error is listed under an index if and only if the operation there reported its code |
| `UpdateLaws.BatchesCompose` | engine/src/update_ops.rs:325-599 | applying `a + b` is applying `a` and then `b`, with the error indexes of `b` shifted by the length of `a` |
| `UpdateLaws.SplitCalls` | engine/src/update_ops.rs:325-333 | on a stored value a batch may be split into two calls anywhere |
| `UpdateLaws.FirstOpOnDefault` | engine/src/update_ops.rs:400-417 | on the default value only validation fails, and a valid operation tells it from `{}` exactly when it reads the root |
| `UpdateLaws.MissingIsEmpty` | engine/src/update_ops.rs:325-599 | a missing value behaves as `{}` if and only if the first valid operation is not a root increment, decrement or append |
| `UpdateRules.PathRules` | engine/src/update_ops.rs:87-136 | a path is accepted if and only if it has at most 32 names, none empty, reserved or over 256 bytes |
| `UpdateRules.PathReasons` | engine/src/update_ops.rs:87-136 | the reason given: length first, then the first bad name |
| `UpdateRules.ValueRules` | engine/src/update_ops.rs:154-204 | what may be merged, and the code for what may not, in order |
| `UpdateRules.DepthRules` | engine/src/update_ops.rs:146-152 | nesting counts arrays as objects, and scalars not at all |
| `UpdateRules.BadPathsAreReported` | engine/src/update_ops.rs:77-85 | a bad path is reported under the own name of the operation, before anything else, and changes nothing |
| `UpdateRules.WhenFieldsFail` | engine/src/update_ops.rs:335-357 | a set or remove fails exactly on a bad field and on a field of what is no object |
| `UpdateRules.RootIsReplaced` | engine/src/update_ops.rs:340-344 | a set or remove of the root replaces it whatever it was |
| `UpdateRules.WhenCountsFail` | engine/src/update_ops.rs:395-504 | a count fails on a bad field, on a field of what is no object, and on what is no number |
| `UpdateRules.FloatsCount` | engine/src/update_ops.rs:283-289 | floats count, and a decrement undoes an increment |
| `UpdateRules.AppendAtRoot` | engine/src/update_ops.rs:515-525 | an append to the root extends it, starts it on a default, or fails and leaves it |
| `UpdateRules.WhenAppendsFail` | engine/src/update_ops.rs:505-570 | a nested append fails exactly on a bad path, a root that is no object, or a leaf it does not fit |
| `UpdateRules.WhenMergesFail` | engine/src/update_ops.rs:358-367 | a merge fails exactly on a bad path or a bad value |
| `UpdateRules.PathsAsGiven` | engine/src/update_ops.rs:55-67 | a single string is one key, dots and all; none, an empty string and an empty list are the root |
| `UpdateRules.MergeLandsAt` | engine/src/update_ops.rs:373-388 | an accepted merge is read at the very path given, over what was there |
| `UpdateRules.MergeSparesTheRest` | engine/src/update_ops.rs:373-388 | whatever is neither on the given path nor under a merged key reads as before |
| `UpdateRules.AppendLandsAt` | engine/src/update_ops.rs:525-570 | an accepted append is read at the very path given, as what was there extended; paths off it read as before |
| `UpdateLaws.SetReadsBack` | engine/src/update_ops.rs:345-347 | a field that was set reads back, the other fields read as before |
| `UpdateLaws.RemoveReadsBack` | engine/src/update_ops.rs:579-584 | a removed field is gone, the other fields read as before |
| `UpdateLaws.AppendReadsBack` | engine/src/update_ops.rs:525-570 | an append fails exactly on a leaf it does not fit, else it extends or creates that leaf; paths off it read as before |
| `UpdateLaws.MergeOverlays` | engine/src/update_ops.rs:373-388 | a valid merge leaves the old object at its path, or an empty one, overlaid with the patch; only a root that is no object ignores it silently |
| `UpdateLaws.MergeLeavesTheRest` | engine/src/update_ops.rs:373-388 | whatever path is no prefix of the merge path and passes no merged key reads as before, error or not |
| `UpdateLaws.MergesFuse` | engine/src/update_ops.rs:373-388 | two merges at one path are one merge of the overlaid patches |
| `UpdateLaws.MergeDepth` | engine/src/update_ops.rs:138-204 | one merge takes no document beyond its own depth or 48 |
| `UpdateLaws.MergesStayShallow` | engine/src/update_ops.rs:13-16 | after any batch of merges the depth is at most the larger of the starting depth and 48 |
| `UpdateLaws.ArithmeticIsExact` | engine/src/update_ops.rs:267-323 | the two-stage signed and unsigned arithmetic is integer arithmetic on [-2^63, 2^64), failing exactly outside it; a missing field counts as 0 even for the smallest `i64` |
| `UpdateLaws.DecrementUndoesIncrement` | engine/src/update_ops.rs:267-315 | a decrement undoes the increment by the same amount |
| `UpdateLaws.CountsAddUp` | engine/src/update_ops.rs:395-504 | while partial sums stay in range a batch of counts on a field, or on the document itself, reports nothing, adds exactly its total, and leaves the other fields alone |
| `UpdateLaws.RootCountsAddUp` | engine/src/update_ops.rs:400-417 | a batch of counts on an integer document, or on the default for a missing one, which counts zero, leaves just the total and clears the flag |
| `UpdateLaws.CountFailsWhenOutOfRange` | engine/src/update_ops.rs:395-504 | a count on an integer, a missing field or a missing document fails if and only if the result is out of range, and then changes nothing |
| `Documents.WalkFindsObject` | engine/src/update_ops.rs:211-240 | the walk hands out what a reader finds at the path, or an empty object |
| `Documents.GetPut` | engine/src/update_ops.rs:211-240 | what was written at a path is what is read there |
| `Documents.PutPut` | engine/src/update_ops.rs:211-240 | a second write at a path replaces the first |
| `Documents.PutGet` | engine/src/update_ops.rs:211-240 | the walk alone changes nothing if and only if every node on the way, and the last, is an object |
| `Documents.PutFrame` | engine/src/update_ops.rs:211-240 | paths that leave the written path, or pass an unchanged member of it, read as before |
| `Documents.PutOneFurther` | engine/src/update_ops.rs:219-235 | walking one segment after another creates and replaces just what walking the whole path does |
| `Documents.PutDepth` | engine/src/update_ops.rs:146-152 | a write reaches no deeper than its path and what it writes |
| `Documents.GetDepth` | engine/src/update_ops.rs:146-152 | what is found at a path is shallower by its length |
| `RateLimiting.RateLimiter.ShouldWarn` | engine/src/deprecation.rs:113-137 | the limiter answers as its history says: evict, fall back to the shared key, compare, record |
| `RateLimiting.MemoryIsBounded` | engine/src/deprecation.rs:94-137 | after any calls at most `max_keys` plus the number of entry points keys are remembered |
| `RateLimiting.WindowBound` | engine/src/deprecation.rs:94-137 | any window shorter than the interval has at most `max_keys` plus the number of entry points warnings |
| `RateLimiting.TwicePerCaller` | engine/src/deprecation.rs:94-137 | and at most two for one entry point and caller |
| `RateLimiting.WarnsOncePerSlot` | engine/src/deprecation.rs:124-136 | within such a window no key is warned about twice, even across evictions |
| `RateLimiting.StaysRemembered` | engine/src/deprecation.rs:118-119 | an eviction never forgets a key inside the window of its warning |
| `RateLimiting.WarnedAgain` | engine/src/deprecation.rs:108-113 | a caller warned once is warned again within the interval if and only if it is not remembered and there is room for it |
| `RateLimiting.SharedThenOwn` | engine/src/deprecation.rs:154-155 | a concrete run with two warnings for one entry point and caller within the interval |
| `RateLimiting.WarnsExactly` | engine/src/deprecation.rs:113-137 | a visit warns if and only if no earlier warning under the key it is charged to is less than an interval old |
| `RateLimiting.RememberedIsTheLastWarning` | engine/src/deprecation.rs:124-131 | what is remembered under a key is the time of the last warning charged to it: silent visits do not count |
| `RateLimiting.BackwardsIsSilent` | engine/src/deprecation.rs:126-131 | a visit that seems to precede the last warning is silent |
| `RateLimiting.ChargedTo` | engine/src/deprecation.rs:114-123 | the key a visit is charged to: its own when remembered or when there is, or eviction makes, room, else the shared one |
| `RateLimiting.EvictsExactly` | engine/src/deprecation.rs:117-119 | a key is forgotten only when a new one finds the limiter full, and then exactly if its warning is an interval or more ago |
| `RateLimiting.SilencedForTheInterval` | engine/src/deprecation.rs:124-136 | a remembered caller is warned again if and only if the interval since what is remembered has passed |
| `RateLimiting.NewcomerWarns` | engine/src/deprecation.rs:115-136 | a caller not remembered warns under its own key when there is, or eviction makes, room |
| `RateLimiting.CrowdedOutCallersShareOneKey` | engine/src/deprecation.rs:120-123 | without room a caller is warned if and only if the shared key of its entry point was not warned about within the interval |
| `Services.JoinUndoesSplit` | engine/src/services.rs:89-103 | joining the parts of an id by `::` rebuilds it |
| `Services.NamesRebuildId` | engine/src/services.rs:89-103 | an id has both names or neither; service, `::` and function rebuild it around its first separator |
| `Services.EntriesDoNotCollide` | engine/src/services.rs:89-103 | ids that file alike are the same id |
| `Services.ServicesRegistry.RegisterServiceFromFunctionId` | engine/src/services.rs:105-122 | the whole new index after a registration |
| `Services.ServicesRegistry.RemoveFunctionFromServices` | engine/src/services.rs:48-87 | the whole new index after a removal, its emptied service dropped |
| `Services.RegisterKeepsExact` | engine/src/services.rs:105-122 | registering keeps the index exact if and only if it does not make a service of an id without a function part |
| `Services.RemoveKeepsExact` | engine/src/services.rs:48-87 | removing keeps the index exact, whatever the id |
| `Services.ExactThroughout` | engine/src/services.rs:48-122 | in any run the index is exact after every call if and only if no call makes an empty service |
| `Services.IndexIsExact` | engine/src/services.rs:48-189 | if no registered id lacks its function part, each service holds exactly the functions of the standing ids and exists if and only if it has one |
| `Services.HollowIdBreaksExactness` | engine/src/services.rs:173-189 | registering `svc::` makes a service without a function |

## Left out

- Overlap.OverlapEndsPlaced: is about registrations of bindings and of providers. With departures and removals overlapping too, the code promises no exact placement: it publishes providers outside the lock and does not detach the previous provider on a plain re-registration. "Newest intent wins" and "nothing lost" cover every overlap.
- Critical sections are atomic in `Protocol`, as `park_transition` makes them. The last sweep of parked intents, made outside it, is one step per intent; a claim that takes an intent just before it counts as the sweep not having met it.
- `Protocol` allows a little more than the code: an operation may run on while an activation it started is still awaited, and the phases of one worker's sweep may overlap. What is proved of every run covers the code's runs.
- A dropped caller is a step wherever the code holds a guard across an await, and for a claim whose failover never started.
- The order in which a map is iterated is arbitrary in every loop; orphans fail over one after another in `TriggerRegistry`, in any interleaving in `Protocol`.
- TriggerRegistries.TriggerRegistry.RegisterTrigger: when the provider is unreachable, or refuses the activation after the second look, the intent is parked although it resolves, so only the new state is stated, not that everything is in place.
- Reconciling.RepairMatchesLastReading: what the loop reads and what it is answered, including the deadline passing, are inputs; equal handles are taken to be equal bindings, as shared immutable values are.
- Provider calls have no effect of their own besides the replays and detaches counted in `TriggerRegistry`; repairs that only call providers (`settle_superseded_provider`) are no step of `Protocol`, because they change no registry state.
- Tokens are unbounded naturals; the wrap-around of the 64-bit counter is not modelled.
- UpdateOps.WalkOrCreate: the document is a value handed from call to call, so the mutable reference into it is not modelled; each write is a write at the walked path.
- JSON floats are reals, so rounding, NaN and infinities are not modelled; the laws of counting are about integers.
- Error messages, their documentation links and log output; an error is its operation's index and its code.
- UpdateOps.ValidateOpPath: byte length is computed from Unicode code points, one per character.
- The Redis script that mirrors the update operations, and the state and stream modules that call them.
- RateLimiting.RateLimiter.ShouldWarn: one call at a time; two calls racing between the length check and the insertion are not modelled. Times are naturals, so a caller's clock is an input.
- `insert_service` called directly and the services of typed modules: an overwriting insert would lose functions, and it is not on the function-id path.
- The observers of the registry, standing-in functions for missing trigger types, the worker protocol, schema generation and configuration: no state of these registries.
