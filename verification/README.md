# Verified model of a managed-lease DHCP client

This project models the DHCP client library of the repository, dhcp-golib, in
Dafny: the two protocol machines, the managers that drive them, and the durable
record that survives them. Its theorems are about every run: any messages in
any order, any entropy, any event at any moment, with time that does not run
backwards and timers that fire only when they are armed and due.

`dafny verify dfyconfig.toml` checks the whole of it.

## What is modelled

| files | component |
|---|---|
| `Clock`, `Lease`, `Backoff`, `Backoff6`, `Lease6` | time on machine words, the deadlines of a lease and the two retransmission schedules |
| `Acd` | the address conflict sub-machine of RFC 5227, as a value and as the object the client holds |
| `Dhcp4` | the DHCPv4 client of RFC 2131 as a function of its inputs: state, event and entropy to state and actions |
| `Dhcp4Invariant`, `Dhcp4Runs` | what every step keeps, and what that makes of whole runs |
| `Dhcp4Gate`, `Dhcp4Conflict`, `Dhcp4Pacing`, `Dhcp4Forcerenew`, `Dhcp4Messages`, `Journal` | the wait before an address is used, the end of one in dispute, restart pacing, FORCERENEW, the messages sent, record and replay |
| `Machine4` | the same client as the object it is in the program, its fields updated in place, equal step by step to the function |
| `Dhcp6`, `Dhcp6Invariant`, `Dhcp6Steps`, `Dhcp6Runs`, `Dhcp6Messages`, `Dhcp6Reconfigure`, `Machine6` | the DHCPv6 client of RFC 9915 for one IA_NA and optionally one IA_TA, in the same arrangement |
| `Dhcp6Stalls`, `Dhcp6Unchecked`, `Dhcp6Kept`, `Dhcp6Witness` | where that client has no way forward, where it uses an address it did not check, each with its exact condition, and a run from the start to each |
| `RateLimit`, `Manager`, `Manager6` | the token bucket of section 14.1 of RFC 9915 and the dispatch and drain loops around each client |
| `Record`, `Rebuild`, `Tally` | the durable record as a fold of its event log, rebuilding many of them, and what their fields come to |

Each client is written twice. The functions in `Dhcp4` and `Dhcp6` say what one
event does; the classes `Machine4.Machine` and `Machine6.Machine` do it in
place, as the program does, and their methods are proved to end in what the
function of the same name gives. All lemmas on steps and runs are about the
functions and so hold of the objects. The managers hold the objects.

The caller is part of the model. `Env` is what a caller has after executing the
actions emitted so far: the running timers with the moments they are due, the
lease it was told of, the reports, the messages, the ARP packets, and for
DHCPv6 the duplicate checks it was asked for and has answered. It is a fold of
the action list, no field of the client, and the clients never read it: a step
sees the moment and nothing else.

Server identifiers, addresses and configuration contents are opaque values. A
received message arrives decoded. A digest is the set of keys a frame verifies
under. The mixing function that spreads one entropy value into several is a
parameter, so nothing rests on how well it mixes.

## What the proofs found

Where the code and its documentation differ the model follows the code.

* A DHCPv4 client in INIT that is told to start, or that its link is up, does
  not wait out a paced restart (`StartSkipsTheWait`). Pacing is therefore
  stated for stretches without those events.
* The journal has no room for the packet of an ARP event, so a run in which a
  packet decided something does not replay. `JournalRoundTrip` says exactly
  when it does, and that replay otherwise stops at that step and names it.
* An accepted DHCPv4 schedule need not give the RFC's delays: with a ceiling no
  doubling reaches inside 64 bits the delays stop at almost half of it.
  `DelayIsIdealIff` is the exact condition.
* The bucket's refill is a product of machine words. After some eighteen idle
  years the default bucket goes negative and refuses (`LongIdleRefused`).
  `SpacedAllowedIff` says of which gaps that is so. The limit itself holds
  however long the bucket runs (`WindowBound`).
* A server can grant as stable an address that is held as temporary, or the
  other way round (`SwapListsTwice`). The client then asks about it again while
  it holds it, and whatever comes of that check it may announce the address:
  when a Decline of temporary addresses ends (`KeptLeaseUnchecked`,
  `KeptInUse`), when a later grant has nothing new to ask about, when all else
  was answered free, when another binding ends. `UncheckedIff` says of every run
  exactly when it happens, `SettleTells`, `CheckedTells`, `FinishDeclineTells`
  and `TrimTells` of each of those branches, and `UncheckedReached` is a run that
  ends so. Where no server moves an address it never does
  (`OnlyCheckedAddresses`), and no server can for a client that asks for no
  temporary addresses (`WithoutTemporaryNoneMoved`).
* An Information-request asked for from BOUND comes back to BOUND even when
  the lease went meanwhile. If its Reply needs no refresh the client then waits
  in BOUND with no lease and no timer, until its caller or an authenticated
  Reconfigure moves it. `BareIff` and `DeadIff` are the exact conditions over
  whole runs, `DeadEndReached` a run that ends so, `DeadStays` that it lasts.
* A record's deadline is documented as zero outside RETAINED. Closing a
  tombstone leaves it set (`CloseKeepsDeadline`), and an accepted event that
  carries one sets it in any phase, unless it creates, rebinds or binds the
  record. `DeadlineIsLastCarried` says what it is after any events and
  `DeadlineOutsideRetention` exactly when the documented rule fails.
* With a preferred lifetime that is infinite and a valid one that is not, a
  DHCPv6 lease would rebind only as it ends (`ForeverPreferredRebindsLate`).
  The decoder refuses such an address.

## What is supposed

* A decoded server identifier is not empty. With an empty one a Request could
  not be built and no timer would be armed for it.
* The clock a manager reads does not run backwards.
* The clients' instants are mathematical integers; the deadline, backoff,
  jitter and bucket arithmetic under them is proved on machine words, or with
  the width of the word stated.

## Model

| member | source | states |
|---|---|---|
| `Dhcp6Runs.NoBindingOutlived` | proto/machine6.go:1396-1439 | over every run, while timers fire on time, no binding of the held lease, stable or temporary, is held past its valid lifetime (or past the moment it was announced, if that came later), whatever exchange is in flight; a held lease always has an address and the caller holds the same one |
| `Dhcp6Unchecked.UncheckedIff` | proto/machine6.go:2028-2249 | over every run a lease is announced with an address that has not passed its check if and only if some step announces one naming an address that an earlier step asked about while the lease held named it, that no step between asked about again, and that no answer since has found free |
| `Dhcp6Unchecked.HeldUnlessStray` | proto/machine6.go:2028-2249 | over every run a held address has passed its check if and only if it is not such a one: asked about last while it was held, and not found free since |
| `Dhcp6Runs.OnlyCheckedAddresses` | proto/machine6.go:2038-2065 | over every run in which no server moved an address between the stable and the temporary side, no lease was ever announced with an address whose last duplicate check had not been answered free, and the held one still has none |
| `Dhcp6Runs.WithoutTemporaryNoneMoved` | proto/machine6.go:1933-1960 | and so over every run of a client that asks for no temporary addresses: none of its servers can move one |
| `Dhcp6Unchecked.NoneMovedNoneStrays` | proto/machine6.go:2028-2055 | on a run in which no server moved an address there is no such address |
| `Dhcp6Unchecked.HeldAddressWasAnswered` | proto/machine6.go:2057-2199 | behind every other address of a held lease, on every run, there is a step that asked for its check, a later one where the next word on it was that it is free, and none since that asked again |
| `Dhcp6Unchecked.StepGate` | proto/machine6.go:494-607 | one step announces an unchecked address if and only if it announces a lease naming one that was asked about while held and not found free when the step began |
| `Dhcp6Unchecked.SettleTells` | proto/machine6.go:2028-2034 | a grant with nothing to ask about, bound at once, does so if and only if it names such an address |
| `Dhcp6Unchecked.CheckedTells` | proto/machine6.go:2069-2199 | so does a lease all of whose checks were answered free |
| `Dhcp6Unchecked.FinishDeclineTells` | proto/machine6.go:2549-2557 | so does what a Decline left of a lease, when the Decline ends |
| `Dhcp6Unchecked.TrimTells` | proto/machine6.go:1396-1439 | so does a held lease that loses an ended binding, in any state and with or without a check open |
| `Dhcp6Runs.VouchedWasAnswered` | proto/machine6.go:2057-2199 | what counts as a passed check, unfolded to the run: asked about, then answered free, and not asked about since |
| `Dhcp6Runs.CallerAgrees` | proto/machine6.go:2221-2249 | over every run the reports never contradict one another (Acquired only while nothing is held, Renewed, Changed and Lost only while something is) and what they add up to is the client's own lease |
| `Dhcp6Runs.ExpiryEndsTheLastAddress` | proto/machine6.go:1396-1439 | the expiry timer loses the lease, telling the caller once, if and only if every stable address has ended; otherwise exactly the ended bindings leave and an address remains |
| `Dhcp6Stalls.NeverStalls` | proto/machine6.go:647-1133 | over every run each state that waits has the timer armed that ends its wait: delay in INIT, retransmission while searching, requesting, confirming, renewing and rebinding, the check's timer or a Decline in flight while checking, the request or the next refresh while asking for configuration unless that was given for good; a stopped client holds no lease; and BOUND holds one unless an Information-request begun aside from a lease ended after it was gone |
| `Dhcp6Stalls.BareStep` | proto/machine6.go:1001-1133 | one step ends bound without a lease if and only if it ends such an Information-request, or the client was so before and the event is none of those that leave |
| `Dhcp6Stalls.BareIff` | proto/machine6.go:1001-1133 | over every run BOUND is without a lease if and only if some step ended such a request and no event since was one that leaves |
| `Dhcp6Stalls.DetourSince` | proto/machine6_reconfigure.go:567-615 | the flag such a request ends with is the one it was begun with, however often it was sent again |
| `Dhcp6Stalls.DetourOutlivesLease` | proto/machine6.go:2563-2610 | the end of an Information-request leaves BOUND without a lease if and only if the client had stepped aside from a lease that is gone, and then only the next refresh and what ran before is armed |
| `Dhcp6Stalls.DeadIff` | proto/machine6.go:1001-1133 | over every run BOUND is without a lease and without any timer if and only if the Reply that ended such a request needs no refresh, nothing has left since, and every other timer armed then has fired |
| `Dhcp6Stalls.DeadStays` | proto/machine6.go:1003-1074 | from there no timer can fire, and every event but the caller's own and an accepted Reconfigure leaves it so and sends nothing |
| `Dhcp6Witness.DeadEndReached` | proto/machine6.go:1001-1133 | a run from the start, every timer on time, that ends there: a Reconfigure asks for an Information-request, the lease ends, and the Reply needs no refresh |
| `Dhcp6Kept.KeptLeaseUnchecked` | proto/machine6.go:2096-2216 | from any state the client can reach: with the last check answered, all addresses in use temporary and the Decline then over, however long that took, the rest of the lease is announced with an unchecked address if and only if it names one asked about while held and not found free since |
| `Dhcp6Kept.TaintIsInUse` | proto/machine6.go:2096-2216 | where every other address of the lease has passed its check that is so if and only if some address found in use was listed as stable too |
| `Dhcp6Kept.LastAnswer` | proto/machine6.go:2205-2216 | that answer sends the Decline, announces nothing and keeps the lease less its temporary addresses in use |
| `Dhcp6Kept.KeptInUse` | proto/machine6.go:2205-2216 | an address found in use stays in the kept lease if and only if it was listed as stable as well |
| `Dhcp6Kept.SwapListsTwice` | proto/machine6.go:1933-1953 | how that happens: a renewal that grants as stable an address held as temporary lists it on both sides |
| `Dhcp6Witness.UncheckedReached` | proto/machine6.go:1933-2216 | a run from the start, every timer on time, that ends with an address announced that failed its check |
| `Dhcp6Steps.StepKeepsInv` | proto/machine6.go:494-607 | every step, in every state, on every event and entropy, keeps the invariant: expiry armed for the earliest end of any binding, the timer of the state's wait armed, and every address in use or about to be bound either checked or asked about while it was held |
| `Dhcp6Steps.StepStoppedInv` | proto/machine6.go:611-645 | a stopped client, with or without a Release in flight, keeps the invariant |
| `Dhcp6Steps.StepInitInv` | proto/machine6.go:647-667 | leaving INIT keeps the invariant |
| `Dhcp6Steps.StepSelectingInv` | proto/machine6.go:669-715 | collecting advertisements keeps the invariant |
| `Dhcp6Steps.StepRequestingInv` | proto/machine6.go:717-774 | requesting keeps the invariant, through refusals and servers that never answer |
| `Dhcp6Steps.StepConfirmingInv` | proto/machine6.go:776-843 | confirming keeps the invariant, answered or not |
| `Dhcp6Steps.StepInfoRequestingInv` | proto/machine6.go:845-930 | asking for configuration keeps the invariant, with or without a lease set aside |
| `Dhcp6Steps.StepCheckingInv` | proto/machine6.go:932-1001 | duplicate address detection and the Decline that may follow keep the invariant |
| `Dhcp6Steps.StepBoundInv` | proto/machine6.go:1003-1074 | a bound client keeps the invariant |
| `Dhcp6Steps.StepRenewalInv` | proto/machine6.go:1076-1133 | renewing and rebinding keep the invariant |
| `Dhcp6Steps.TakeReplyInv` | proto/machine6.go:1782-2034 | every outcome of a Reply keeps the invariant: bound, checked first, asked for again, refused, off link |
| `Dhcp6Steps.TakeAdvertiseInv` | proto/machine6.go:1630-1736 | an advertisement, taken, refused or acted on at once, keeps the invariant |
| `Dhcp6Steps.TakeReconfigureInv` | proto/machine6_reconfigure.go:369-475 | a Reconfigure, refused or acted on, keeps the invariant |
| `Dhcp6Steps.Release6Inv` | proto/machine6.go:2415-2447 | releasing keeps the invariant: nothing is held afterwards |
| `Dhcp6Steps.ObserveRouterInv` | proto/machine6.go:2753-2824 | a router that offers other configuration only ends the search with the invariant kept |
| `Dhcp6Invariant.ExpireLeaseInv` | proto/machine6.go:1396-1413 | the expiry timer, just fired, leaves either a lease with its next end armed or none |
| `Dhcp6Invariant.ExpiryIsNextEnd` | proto/machine6.go:2269-2276 | for a lease with an address the timer is set for the earliest end of any binding |
| `Dhcp6Invariant.WithoutEndedFit` | proto/lease6.go:289-317 | a lease that has not ended keeps an address, and stays checked, when its ended bindings leave |
| `Dhcp6Invariant.EnterBoundInv` | proto/machine6.go:2221-2249 | binding a lease of trusted addresses announces only those, arms its expiry and leaves a state with a way forward |
| `Dhcp6Invariant.RestartDiscoveryInv` | proto/machine6.go:1203-1212 | a new search keeps the held lease and its expiry |
| `Dhcp6Invariant.StartExchangeInv` | proto/machine6.go:1239-1275 | starting an exchange arms its retransmission and disturbs neither lease nor expiry nor checks |
| `Dhcp6Invariant.StartCheckingInv` | proto/machine6.go:2057-2065 | every address of the pending lease is then asked about or trusted already, and every held one stays trusted: vouched for, or asked about while it is held |
| `Dhcp6Invariant.TakeDADResultInv` | proto/machine6.go:2069-2199 | an answer to a check, whichever it is and whoever it is for, keeps every pending address accounted for |
| `Dhcp6Invariant.CheckedInv` | proto/machine6.go:2096-2199 | the last answer binds, declines in part or declines whole, and in each case only trusted addresses are used |
| `Dhcp6Invariant.KeptIsFit` | proto/machine6.go:2205-2216 | with the temporary addresses in use left out, what remains of the lease has an address and is all checked |
| `Dhcp6Invariant.DeclineSetInv` | proto/machine6.go:2484-2513 | a Decline, sent or skipped, keeps the invariant and remembers what follows it |
| `Dhcp6Invariant.FinishDeclineInv` | proto/machine6.go:2549-2557 | the end of a Decline continues as remembered with the invariant kept |
| `Dhcp6Invariant.SettleInv` | proto/machine6.go:2028-2034 | a granted lease is bound at once only if no address of it needs a check |
| `Dhcp6Invariant.HaltInv` | proto/machine6.go:1354-1379 | a halt, in any state, leaves nothing held |
| `Dhcp6Messages.EveryMessageProper` | proto/machine6.go:2837-2964 | every message of every run was sent by one step that left the client waiting for its answer under its transaction id, names a server exactly where sections 16 and 18.2 of RFC 9915 have it named (and then the lease's, the chosen or the addressed one), lists exactly the usable addresses concerned, asks for no declined address, and has its retransmission armed within the band of its own schedule |
| `Dhcp6Messages.StepSpeaks` | proto/machine6.go:494-607 | every step sends at most one message, a proper one with its retransmission armed, and no exchange is begun without one |
| `Dhcp6Messages.RequestsThePreferred` | proto/machine6.go:1748-1768 | the Request goes to an untried server none other is preferred to, the first to arrive of those equal, for exactly the usable addresses it advertised, the temporary ones where they are asked for; none is sent if and only if all have been tried |
| `Dhcp6Messages.NoBindingAsksAgain` | proto/machine6.go:1861-1890 | a server that answers a renewal with NoBinding is sent one Request, naming it and exactly the usable addresses still held, and the lease stays |
| `Dhcp6Messages.ReleaseNamesTheLease` | proto/machine6.go:2415-2447 | releasing sends one Release to the lease's server naming exactly its usable addresses, temporary ones included, and nothing is held afterwards |
| `Dhcp6Messages.ComposeProper` | proto/machine6.go:2837-3101 | what is built from the client's fields is proper for each of the eight messages |
| `Dhcp6Messages.StartExchangeWrites` | proto/machine6.go:1239-1275 | an exchange begins with one proper message, its first timeout in the band of its message's schedule |
| `Dhcp6Messages.ResendWrites` | proto/machine6.go:1301-1314 | a retransmission keeps the transaction id and sends a proper message, its next timeout still in the band |
| `Dhcp6Messages.DeclineSetSpeaks` | proto/machine6.go:2484-2513 | a Decline names the server and only addresses remembered as declined |
| `Dhcp6Reconfigure.EachReconfigureCountedOnce` | proto/machine6_reconfigure.go:369-475 | each Reconfigure raises exactly one counter, accepted or the one of its first failing check, and no other event raises any |
| `Dhcp6Reconfigure.FloorMoves` | proto/machine6_reconfigure.go:504-554 | no step moves a server's replay floor except accepting from it, which raises it to the accepted value |
| `Dhcp6Reconfigure.FloorsNeverDrop` | proto/machine6_reconfigure.go:287-323 | over every run, stops and new keys included, no server's floor drops |
| `Dhcp6Reconfigure.AcceptedReplaysIncrease` | proto/machine6_reconfigure.go:287-553 | over a client's whole life the replay values accepted from one server strictly increase |
| `Machine6.Machine.constructor` | proto/machine6.go:316-334 | a new client is the initial one |
| `Machine6.Machine.Step` | proto/machine6.go:494-607 | the object, updated in place, ends in the state and emits the actions of the step function all lemmas on runs are about |
| `Machine6.Machine.CancelAll` | proto/machine6.go:1354-1379 | the loop over the timers leaves none armed |
| `Machine6.Machine.DropEnded` | proto/machine6.go:1416-1439 | the ended bindings dropped, in place |
| `Machine6.Machine.SelectAndRequest` | proto/machine6.go:1748-1768 | the loop that picks the server is the one the selection lemma is about |
| `Machine6.Machine.StartChecking` | proto/machine6.go:2057-2065 | the loop asks for the check of every address, in order |
| `Machine6.Machine.TakeDADResult` | proto/machine6.go:2069-2199 | the loop that takes an answered address off the list, and what follows, in place |
| `Machine6.Machine.Checked` | proto/machine6.go:2069-2199 | the loops that sort what was found in use, in place |
| `Machine6.Machine.RememberDeclined` | proto/machine6.go:2516-2522 | the loop adds each address once |
| `Lease6.ComputeNextEnd` | proto/lease6.go:268-286 | the loop finds the earliest end specified |
| `Lease6.NextEndIsEarliest` | proto/lease6.go:268-286 | that end is some binding's and no binding ends before it; there is none if and only if no binding ends |
| `Lease6.ComputeWithoutEnded` | proto/lease6.go:289-317 | the loops keep what is specified and count what they dropped |
| `Lease6.UnendedKeeps` | proto/lease6.go:289-317 | exactly the bindings that have not ended are kept |
| `Lease6.ComputeLongestValid` | proto/lease6.go:254-265 | the loop, with its early exit, computes the longest lifetime |
| `Lease6.LongestIsMaximum` | proto/lease6.go:254-265 | it is some address's, and no address outlasts it |
| `Lease6.ComputeRenewPreferred` | proto/lease6.go:235-252 | the loop, with its early exit, computes the lifetime renewal is timed from |
| `Lease6.RenewsInTime` | proto/lease6.go:363-475 | for any T1 and T2 of a lease that ends: it rebinds if and only if T2 is not forever and is before the end or the lifetime can be cut in fifths, and then strictly between start and end; it renews if and only if T1 is not forever, T1 or half the lifetime is something, and a rebind time, where T2 is not forever, can be halved, and then before it; and that is before the end unless T2 is forever and T1 not |
| `Lease6.WireLeaseOrdered` | proto/lease6.go:363-475 | so a lease off the wire, in whole seconds, renews, rebinds and ends in strict order if and only if the server sets neither T1 nor T2 to forever; without T2 it renews in time if and only if T1 is before the end |
| `Lease6.ClientChosenOrdered` | proto/lease6.go:399-475 | with T1 and T2 left to the client the three deadlines are present and in order if and only if the lifetime they are cut from is at least five nanoseconds |
| `Lease6.ForeverPreferredRebindsLate` | proto/lease6.go:407-475 | an address preferred forever but not valid forever, which the decoder refuses, would rebind exactly as it ends |
| `Lease6.MergeRenewal` | proto/lease6.go:733-755 | the two loops compute the merge specified |
| `Lease6.RenewalMergeContents` | proto/lease6.go:733-764 | the merge holds every address granted with its new lifetimes, every held one neither granted, withdrawn nor ended, ending when it would have, and nothing else |
| `Lease6.RenewalMergeDistinct` | proto/lease6.go:733-764 | the merge names no address twice and puts the held ones first, in the order held |
| `Lease6.CarryKeepsEnds` | proto/temporary6.go:176-190 | a carried binding is dropped if and only if it has ended, and otherwise ends when it would have |
| `Backoff6.ScaleRandExact` | proto/backoff6.go:572-613 | for every machine word and every factor the draw can give, the 128-bit product never reaches the fallback and the result is the exact quotient truncated toward zero |
| `Backoff6.ChainBounded` | proto/backoff6.go:512-551 | along any chain of transmissions every timeout stays in its band and no sum or product on the way leaves the machine word, for parameters whose band times three fits |
| `Backoff6.AppliedTableValid` | proto/backoff6.go:358-378 | no sequence of SOL_MAX_RT and INF_MAX_RT values from servers can make the parameter table unusable or change anything but those two ceilings, which stay at their initial values or within the permitted range |
| `Backoff6.NextGrows` | proto/backoff6.go:530-537 | below the ceiling a timeout grows by at least nine tenths of itself, and at it stays within a tenth of the ceiling |
| `Dhcp4Runs.TimersFollowState` | proto/machine.go:262-294 | over every run the state determines the running timers and what is held: none stopped, at most one in INIT, exactly the retransmission while selecting, requesting and rebooting, exactly the check's while probing, the retransmission bound never and renewing or rebinding always; a finite held lease always has its expiry armed, and the conflict sub-machine watches exactly its address |
| `Dhcp4Runs.LeaseNeverOutlived` | proto/machine.go:1119-1252 | over every run in which timers fire on time, no moment finds a finite lease held past its expiry, or past the moment it was taken if that was already later |
| `Dhcp4Runs.CallerAgrees` | proto/machine.go:1119-1252 | over every run the reports never contradict one another and add up to the client's own lease |
| `Dhcp4Runs.BelievedBalances` | proto/machine.go:1119-1252 | in any list of reports without contradiction every lease lost was acquired before, at most one outstanding |
| `Dhcp4Invariant.StepKeepsInv` | proto/machine.go:262-294 | every step, in every state, on every event and entropy, keeps the timer discipline, the armed expiry and the coupling with the conflict sub-machine, paces its restarts, and takes a lease only after an acceptable ACK or a finished check |
| `Dhcp4Invariant.StepStoppedInv` | proto/machine.go:298-319 | so does a step from STOPPED |
| `Dhcp4Invariant.StepInitInv` | proto/machine.go:321-375 | so does a step from INIT |
| `Dhcp4Invariant.StepSelectingInv` | proto/machine.go:377-450 | so does a step from SELECTING |
| `Dhcp4Invariant.StepRequestingInv` | proto/machine.go:452-525 | so does a step from REQUESTING, its refusal of an ACK without the promised nonce included |
| `Dhcp4Invariant.StepRebootingInv` | proto/machine.go:539-647 | so does a step from REBOOTING |
| `Dhcp4Invariant.StepProbingInv` | proto/machine_acd.go:142-192 | so does a step from PROBING |
| `Dhcp4Invariant.StepBoundInv` | proto/machine.go:649-712 | so does a step from BOUND |
| `Dhcp4Invariant.StepRenewalInv` | proto/machine.go:723-822 | so does a step from RENEWING or REBINDING |
| `Dhcp4Invariant.BeginAcquisitionInv` | proto/machine.go:831-865 | an acquisition begins with exactly one timer: the retransmission of what it sent, or the desynchronising wait |
| `Dhcp4Invariant.RestartPacedInv` | proto/machine.go:875-886 | a restart acquires at once the first time and waits in INIT with exactly the restart timer after that |
| `Dhcp4Invariant.ToInitIdleInv` | proto/machine.go:971-977 | going idle stops every timer and the conflict sub-machine |
| `Dhcp4Invariant.HaltInv` | proto/machine.go:987-997 | a halt, in any state, leaves nothing held and no timer |
| `Dhcp4Invariant.DropLeaseInv` | proto/machine.go:1232-1252 | giving up a lease tells the caller exactly when one was held |
| `Dhcp4Invariant.DeclineAndRestartInv` | proto/machine.go:1010-1037 | a conflict tells the server and the caller and leaves exactly the restart timer, due no sooner than the configured delay and, past the conflict limit, than the rate limit allows |
| `Dhcp4Invariant.BindInv` | proto/machine.go:1119-1209 | taking a lease arms its deadlines, the expiry for its end or for now if that is past, and touches nothing else |
| `Dhcp4Invariant.EnterBoundNewInv` | proto/machine.go:1119-1209 | a lease taken is held, watched and announced once |
| `Dhcp4Invariant.EnterBoundRenewedInv` | proto/machine.go:1119-1209 | a renewed lease is re-armed and, if it moved, watched at its new address |
| `Dhcp4Invariant.EnterRenewingInv` | proto/machine.go:1347-1368 | renewing keeps the lease and its expiry, and is not entered without a server to ask |
| `Dhcp4Invariant.EnterRebindingInv` | proto/machine.go:1377-1383 | so does rebinding |
| `Dhcp4Invariant.NoteActionFailedInv` | proto/machine.go:1261-1334 | a failed send, whichever it was, keeps the invariant and sends nothing |
| `Dhcp4Invariant.AnnounceHostnameInv` | proto/machine_hostname.go:66-97 | an early renewal for a changed name keeps the invariant and the lease |
| `Dhcp4Invariant.TakeHostnameInv` | proto/machine_hostname.go:14-28 | setting the name, in any state, keeps the invariant |
| `Dhcp4Invariant.AfterAckInv` | proto/machine_acd.go:87-106 | an ACK leads to a check begun on its address or to a held and watched lease, by the conflict mode |
| `Dhcp4Invariant.EnterProbingInv` | proto/machine_acd.go:120-130 | the check begins on the granted address with nothing sent yet |
| `Dhcp4Invariant.StartAcdInv` | proto/machine_acd.go:223-229 | the sub-machine then runs on that address with its first timer within the probe wait |
| `Dhcp4Invariant.AcdTimerInv` | proto/machine_acd.go:213-220 | each firing of the conflict timer keeps the coupling |
| `Dhcp4Invariant.SettleStep` | proto/machine_acd.go:296-309 | probes that drew no answer are followed by an announcement and, if the address was only being checked, by taking the lease |
| `Dhcp4Invariant.OnArpInv` | proto/machine_acd.go:195-210 | an ARP packet either changes nothing or ends what it disputes |
| `Dhcp4Gate.ConflictWaitGate` | proto/machine_acd.go:87-309 | in every run in which checking is on, each lease taken was granted by an acceptable DHCPACK since when exactly ProbeNum probes for its address, none closer than ProbeMin, and then one announcement were sent, nothing else, with no conflicting ARP packet, stop, release, link loss or reported conflict in between; and the time between is at least (ProbeNum-1)*ProbeMin+AnnounceWait, and at most ProbeWait+(ProbeNum-1)*ProbeMax+AnnounceWait while timers fire on time |
| `Dhcp4Gate.CheckHasBegun` | proto/machine_acd.go:120-130 | every check under way in a run has its beginning, and everything sent since |
| `Dhcp4Gate.OnlyChecksTake` | proto/machine_acd.go:296-309 | while checking is on, only the end of a check takes a lease |
| `Dhcp4Conflict.ArpDecides` | proto/machine_acd.go:195-309 | an ARP packet ends what the client holds or checks if and only if it disputes its address: another's claim always, another's probe while the client probes; the step then tells the server and, exactly once, the caller, and leaves INIT with only a restart timer, no sooner than configured and past MaxConflicts no sooner than the rate limit; any other packet changes nothing |
| `Dhcp4Conflict.ConflictIsDispute` | proto/acd.go:519-638 | the sub-machine's per-phase rules, on the client that keeps the invariant, are that one rule |
| `Dhcp4Pacing.RestartsArePaced` | proto/machine.go:875-886 | over any stretch without Start, LinkUp, Stop or Release in which no lease holds, the restart that brings the count to n comes no sooner after the second one than the first n-2 delays of the discover schedule, each at its doubling or ceiling less the jitter |
| `Dhcp4Pacing.StepKeepsPace` | proto/machine.go:321-375 | no single step beats that pace |
| `Dhcp4Pacing.WaitHolds` | proto/machine.go:321-375 | while waiting in INIT only Start, LinkUp or the wait's own end changes anything that runs |
| `Dhcp4Pacing.StartSkipsTheWait` | proto/machine.go:323-357 | Start and LinkUp in INIT do not wait, however often the client was refused |
| `Dhcp4Pacing.WaitedIsSum` | proto/machine.go:875-886 | the sum of n waits is at least n times the initial delay less the jitter |
| `Dhcp4Messages.EveryMessageProper` | proto/machine.go:1465-1695 | every message of every run was sent by one step, fills the fields Table 5 of RFC 2131 requires for the state the step ends in and no others, goes where that state sends, carries the transaction id its answer is matched against, starts the lease's clock, and is set to be sent again: on the discover or request schedule within its jitter, or at half the time left, down to a minute |
| `Dhcp4Messages.StepSpeaks` | proto/machine.go:262-294 | every step sends at most one message, a proper one; a client that begins to wait for an answer has asked for it; and each firing of the retransmission timer asks again |
| `Dhcp4Messages.SendDiscoverWrites` | proto/machine.go:1486-1503 | a DHCPDISCOVER broadcast without server or client address |
| `Dhcp4Messages.SendRequestWrites` | proto/machine.go:1505-1528 | a DHCPREQUEST naming the offered address and the offering server |
| `Dhcp4Messages.SendRebootWrites` | proto/machine.go:947-959 | a DHCPREQUEST naming the remembered address and no server |
| `Dhcp4Messages.SendRenewalWrites` | proto/machine.go:1465-1485 | a DHCPREQUEST from the held address, to the server while renewing and to all while rebinding |
| `Dhcp4Messages.ReleaseLeaseSpeaks` | proto/machine.go:1053-1056 | one DHCPRELEASE to the server of the address given up, exactly where both are known |
| `Dhcp4Messages.DeclineAndRestartSpeaks` | proto/machine.go:1010-1037 | one DHCPDECLINE of the address given up, exactly where it and its server are known |
| `Dhcp4Messages.DelaySpaced` | proto/backoff.go:64-83 | the delay before a retransmission is positive and within its jitter of the doubled and capped initial one |
| `Dhcp4Messages.NoteActionFailedSilent` | proto/machine.go:1261-1334 | a failed send sends nothing and awaits nothing new |
| `Dhcp4Forcerenew.EachFrameCountedOnce` | proto/machine_forcerenew.go:220-288 | each FORCERENEW raises exactly one counter, the one its first failing check names or the one of the state it found, and no other event raises any |
| `Dhcp4Forcerenew.AcceptRaisesFloor` | proto/machine_forcerenew.go:220-288 | accepting moves the floor to the frame's replay value |
| `Dhcp4Forcerenew.RenewalKeepsFloor` | proto/machine_forcerenew.go:189-205 | a renewal under the same nonce keeps the higher floor |
| `Dhcp4Forcerenew.FloorNeverDrops` | proto/machine_forcerenew.go:189-205 | no step of any kind lowers the floor of a nonce that stays |
| `Dhcp4Forcerenew.AcceptedReplaysIncrease` | proto/machine_forcerenew.go:189-288 | between any two acceptances with the nonce held throughout, renewals included, the replay value strictly increases |
| `Journal.Replay` | proto/journal.go:231-272 | the loop, stopping at the first difference, computes the replay specified |
| `Journal.JournalRoundTrip` | proto/journal.go:97-173 | a recorded run replays to its own end, state and lease, if and only if no ARP packet in it disputed the client's address; otherwise replay stops at the first step that one decided, and names it |
| `Journal.StepRoundTrip` | proto/journal.go:97-173 | one step recorded and replayed from the same client gives the same client and actions, unless an ARP packet decided it |
| `Journal.EventComesBack` | proto/journal.go:119-173 | every event is got back from its entry, less the packet of an ARP event |
| `Journal.FirstDifference` | proto/journal.go:231-272 | the first index at which two action lists differ, or none exactly when they are equal |
| `Machine4.Machine.constructor` | proto/machine.go:160-205 | a new client is the initial one |
| `Machine4.Machine.Step` | proto/machine.go:262-294 | the object, its fields and its conflict detector updated in place, ends in the state and emits the actions of the step function all lemmas on runs are about |
| `Machine4.Machine.StepStopped` | proto/machine.go:298-319 | this state's step, in place, is its step function |
| `Machine4.Machine.StepInit` | proto/machine.go:321-375 | this state's step, in place, is its step function |
| `Machine4.Machine.StepSelecting` | proto/machine.go:377-450 | this state's step, in place, is its step function |
| `Machine4.Machine.StepRequesting` | proto/machine.go:452-525 | this state's step, in place, is its step function |
| `Machine4.Machine.StepRebooting` | proto/machine.go:539-647 | this state's step, in place, is its step function |
| `Machine4.Machine.StepProbing` | proto/machine_acd.go:142-192 | this state's step, in place, is its step function |
| `Machine4.Machine.StepBound` | proto/machine.go:649-712 | this state's step, in place, is its step function |
| `Machine4.Machine.StepRenewal` | proto/machine.go:723-822 | this state's step, in place, is its step function |
| `Machine4.Machine.CancelAll` | proto/machine.go:1830-1834 | the loop over the timers leaves none armed |
| `Machine4.Machine.BeginAcquisition` | proto/machine.go:831-865 | the fields of a new attempt and its first message, in place |
| `Machine4.Machine.RestartPaced` | proto/machine.go:875-886 | the restart count and what it allows, in place |
| `Machine4.Machine.DeclineAndRestart` | proto/machine.go:1010-1037 | the conflict's end, in place |
| `Machine4.Machine.EnterBoundNew` | proto/machine.go:1119-1209 | a lease taken, in place |
| `Machine4.Machine.EnterBoundRenewed` | proto/machine.go:1119-1209 | a lease renewed, in place |
| `Machine4.Machine.DropLease` | proto/machine.go:1232-1252 | a lease given up, in place |
| `Machine4.Machine.NoteActionFailed` | proto/machine.go:1261-1334 | a failed send, in place |
| `Machine4.Machine.SettleForcerenew` | proto/machine_forcerenew.go:189-205 | the key and its floor, in place |
| `Machine4.Machine.CheckForcerenew` | proto/machine_forcerenew.go:220-288 | the chain of checks gives the first that fails |
| `Machine4.Machine.TakeForcerenew` | proto/machine_forcerenew.go:220-288 | the frame's effect on floor, counters and state, in place |
| `Machine4.Machine.AnnounceHostname` | proto/machine_hostname.go:66-97 | the early renewal, in place |
| `Machine4.Machine.ApplyAcd` | proto/machine_acd.go:252-293 | the loop carries out the sub-machine's outputs in order |
| `Machine4.Machine.AcdReady` | proto/machine_acd.go:296-309 | the check's success, in place |
| `Machine4.Machine.OnArp` | proto/machine_acd.go:195-210 | an ARP packet given to the sub-machine and its outputs carried out, in place |
| `Machine4.Machine.AcdTimer` | proto/machine_acd.go:213-220 | the conflict timer given to the sub-machine and its outputs carried out, in place |
| `Acd.Detector.constructor` | proto/acd.go:356-358 | an idle sub-machine |
| `Acd.Detector.Start` | proto/acd.go:402-422 | a check begins: the address set, nothing sent, the first timer within the probe wait |
| `Acd.Detector.Timer` | proto/acd.go:425-469 | the next probe, the wait after the last, the first announcement, or nothing, by phase |
| `Acd.Detector.Announce` | proto/acd.go:480-492 | an announcement and the timer of the next, or the end of announcing |
| `Acd.Detector.Arp` | proto/acd.go:498-509 | a conflicting packet counts, stops the sub-machine and is reported; any other does nothing |
| `Acd.Detector.Stop` | proto/acd.go:368-372 | idle, watching nothing, its conflict count kept |
| `Acd.IrrelevantNeverConflicts` | proto/acd.go:684-689 | the filter in front of the machine drops no packet the sub-machine would have called a conflict |
| `Acd.State.RestartDelay` | proto/acd.go:718-728 | never less than the configured delay, exactly that below the conflict limit, and past it not before the last attempt plus the rate limit |
| `Clock.Uniform` | proto/acd.go:774-780 | a draw within its bounds, both included |
| `Lease.DeadlinesOrdered` | proto/lease.go:128-181 | a finite lease has all three deadlines in strict order if and only if it lasts at least eight nanoseconds and T2 is not one, or T2 itself is between two and the lease time |
| `Lease.ServerLeaseOrdered` | proto/lease.go:128-181 | every finite lease a server can express in whole seconds, with any T1 and T2 or none, renews, rebinds and expires in strict order |
| `Lease.InfiniteNeverExpires` | proto/lease.go:128-181 | an infinite lease has no expiry, and what it arms is in order |
| `Backoff.ComputeDelay` | proto/backoff.go:64-82 | the doubling loop on signed machine words never overflows and computes the delay specified |
| `Backoff.ComputeJitter` | proto/backoff.go:106-123 | the draw on machine words is uniform over both sides, never negative, and saturates |
| `Backoff.ClampedIsIdeal` | proto/backoff.go:64-82 | where some doubling reaches the ceiling inside the word, every delay is the initial one doubled n times, up to the ceiling |
| `Backoff.DelayIsIdealIff` | proto/backoff.go:64-82 | a validated schedule gives that delay at every attempt if and only if its ceiling is reached by a doubling that fits a machine word |
| `Backoff.HalfRangeReaches` | proto/backoff.go:64-93 | a ceiling of at most half the range always is |
| `Backoff.DelayBounds` | proto/backoff.go:64-123 | then every delay is positive and within its jitter of the ideal one |
| `Backoff.UnreachableCeilingFallsShort` | proto/backoff.go:64-93 | a validated schedule whose delays stop short of its ceiling |
| `RateLimit.Bucket.constructor` | lease/ratelimit.go:103-106 | a bucket with the defaults resolved and nothing taken |
| `RateLimit.Bucket.Take` | lease/ratelimit.go:114-138 | one call, in place: refill, cap, spend or refuse |
| `RateLimit.WindowBound` | lease/ratelimit.go:114-138 | over any window of calls of any run, however long and whatever wraps, the messages let through, each at its interval, cost no more than one full bucket and what the window refilled |
| `RateLimit.FirstAllowedIff` | lease/ratelimit.go:114-138 | the first call is let through if and only if the capacity, as a word holds it, is at least an interval |
| `RateLimit.AllowedIff` | lease/ratelimit.go:114-138 | a later one if and only if the level with the refill of the gap, as a word holds them, is |
| `RateLimit.SpacedAllowedIff` | lease/ratelimit.go:114-138 | a gap lets the next call through whatever earlier ones left if and only if its refill, as a word holds it, is at least an interval and leaves room for all that may be left |
| `RateLimit.SpacedNeverRefused` | lease/ratelimit.go:114-138 | over any run whose gaps each leave that room, a call its share of the interval after the one before is never refused |
| `RateLimit.RefusalsLeaveNoTrace` | lease/ratelimit.go:114-138 | a run without its refused calls leaves a bucket no later call can tell from the original, as long as no call comes out of range of the last one let through |
| `RateLimit.NextVerdictUnchanged` | lease/ratelimit.go:114-138 | so deleting refused calls changes no other verdict |
| `RateLimit.LongIdleRefused` | lease/ratelimit.go:114-138 | a gap out of range, some eighteen idle years, makes the refill wrap and the default bucket refuse |
| `Manager.Manager.constructor` | lease/manager.go:618-687 | a manager starts with nothing held and no timer |
| `Manager.Manager.Dispatch` | lease/manager.go:1258-1373 | one event is followed only by the failures it leads to, each heard, none leading to another send, so the loop takes at most one turn and one for each send of the first step; when it ends the lease the caller sees is the client's, timers and reports are those of the actions executed, and the journal records every step |
| `Manager.Manager.Turn` | lease/manager.go:1258-1373 | one turn steps the client once, records the step and executes all its actions, bringing back exactly the failed sends |
| `Manager.Manager.Drain` | lease/manager.go:1377-1590 | every action of a list is executed, in order, and each send not taken comes back as one failure |
| `Manager.Manager.OnARP` | lease/manager.go:1614-1647 | a packet for another address is counted and reaches nothing |
| `Manager.FailureSendsNothing` | proto/machine.go:1261-1334 | a client told that a send failed sends nothing |
| `Manager.FilterLosesNothing` | lease/manager.go:1614-1647 | a packet so dropped is one the client would have done nothing with |
| `Manager.SendsAreCounted` | lease/manager.go:1377-1590 | the packets on the wire after a list of actions are those before and one for each send of the list |
| `Manager6.Manager.constructor` | lease/manager.go:696-813 | a manager starts with nothing held and a full bucket to come |
| `Manager6.Manager.SendV6` | lease/manager6.go:128-160 | a message the bucket or the transport refuses comes back as that action's failure, and is counted as limited or unsent |
| `Manager6.Manager.Drain` | lease/manager.go:1377-1590 | every action is executed in order and every message asks the bucket once |
| `Manager6.Manager.Turn` | lease/manager.go:1258-1373 | one turn steps the client once and executes all its actions through the bucket |
| `Manager6.Manager.Dispatch` | lease/manager.go:1258-1373 | the same loop bound with the bucket between: at most one turn and one for each message of the first step, and the lease the caller sees is the client's |
| `Manager6.FailuresAreUnsent` | lease/manager6.go:128-160 | failures and messages sent add up to the messages emitted |
| `Manager6.AttemptAllMetered` | lease/manager6.go:128-160 | whatever the client emits, what was sent the bucket accepted and what it refused was counted |
| `Manager6.SentWithinLimit` | lease/manager6.go:128-160 | so between any two moments of a manager's life the messages put on the wire cost no more than one full bucket and what the time from the first call between them to the last refilled |
| `Manager6.FailureSendsNothing` | proto/machine6.go:1469-1484 | a client told that a send failed sends nothing |
| `Record.AddDelta` | lease/record.go:824-836 | the in-place loop adds the growth of every field to the width of the word, if and only if none went backwards, and otherwise names the first that did |
| `Record.FoldIgnoresRefusals` | lease/record.go:846-1062 | what a refusal writes is never read: records that differ in it alone accept the same events with the same results, and a refusal writes nothing else |
| `Rebuild.Rebuild` | lease/rebuild.go:97-134 | the loop with its index rebuilds the records specified and counts the refused events |
| `Rebuild.RebuildIsProduct` | lease/rebuild.go:97-134 | the record under a name is that name's events folded alone, exists exactly when they bring it into existence, and stands in first-creation order |
| `Rebuild.RefusedEventsDoNothing` | lease/record.go:846-1062 | deleting every refused event from any journal changes nothing in any record but its reject counter and last reject |
| `Rebuild.ReplayIsIdempotent` | lease/record.go:873-875 | accepted events that come again, in any order and number, are all refused and change nothing but those two fields |
| `Rebuild.CleanJournalTwice` | lease/record.go:846-1062 | a journal without refusals appended to itself rebuilds the same records up to those two fields |
| `Rebuild.CountersAreConserved` | lease/record.go:976-1005 | after any events a record's wire counters are, field by field and to the width of the word, the sum over the managers it counted for of each one's last accepted snapshot |
| `Rebuild.LedgerIsLastSnapshots` | lease/record.go:976-1005 | those snapshots are, for every manager, exactly the last one accepted from it |
| `Rebuild.SnapshotAcceptedIff` | lease/record.go:976-993 | a snapshot that passes the common checks is accepted if and only if its manager is the current one and no field fell, or is one never counted for |
| `Tally.CountersCountEvents` | lease/record.go:1075-1167 | each of eleven counters is, to the width of the word, the number of accepted events of its kind: none counted twice, under another name or when refused |
| `Tally.HeldIsLastGrant` | lease/record.go:1075-1167 | a record holds exactly the lease of its last accepted grant not since lost, whatever else has happened to it |
| `Tally.PhaseIsLastMove` | lease/record.go:915-1020 | a record's phase is the one its last accepted move names |
| `Tally.ResumesWhatStands` | lease/record.go:1181-1243 | a new client resumes exactly that lease, if it names an address, has not run out and the record's last move neither retained nor closed it; and it prefers exactly the IPv4 address still held where there is none to resume |
| `Tally.ClosedForGood` | lease/record.go:925-1020 | no events reopen a closed record or touch its lease |
| `Tally.DeadlineIsLastCarried` | lease/record.go:1051-1060 | a record's deadline is that of the last accepted event that carried one, unless one that creates, rebinds or binds the record came with it or since |
| `Tally.DeadlineOutsideRetention` | lease/record.go:169-171 | a deadline stands outside retention, where it is documented to be zero, if and only if the last accepted move did not retain the record, some accepted event carried a deadline, and none from it on creates, rebinds or binds it |
| `Tally.CloseKeepsDeadline` | lease/record.go:974-1060 | closing a tombstone does not clear its deadline |

## Left out

- Dhcp6Runs.OnlyCheckedAddresses: for runs in which no server moves an address between the stable and the temporary side; UncheckedIff is the exact condition over all runs.
- Dhcp4Pacing.RestartsArePaced: for discover schedules whose ceiling is at most half the range of a machine word; beyond that DelayIsIdealIff says which schedules keep the delays it counts.
- RateLimit.WindowBound: for a bucket that is switched on and calls in the order of the clock.
- Backoff6.ChainBounded: for parameters with a ceiling; Release and Decline have none and are bounded by their counts, which this does not turn into a band.
- Journal.JournalRoundTrip: for one decoder; the octets of a received message are supposed to decode to what was received.
- Machine6.Machine.Step: the object keeps its thirty-six fields in one record value and updates that in place, so no aliasing between fields is modelled, and the loop over an option list is over decoded values.
- IA_PD and the split between an address server and a prefix server, with the pacing of an omitted IA_PD and the resumed Rebind that goes with it.
- SLAAC, the automatic mode and its DISCOVERING state, the router table, and the Router Solicitation schedule.
- Rapid Commit in both protocols, and option 108, IPv6-Only Preferred.
- The IPv6 journal and its replay.
- Client FQDN, user class, the parameter request list, and the contents of routes, name servers and search lists, which are one opaque configuration value.
- The wire codec and every failure to encode a message; secs and elapsed time in what is sent.
- Sockets, link-layer headers, real timers, the JSON and file forms of the record, mutexes, event buffers and packet rings; one goroutine owns a machine, so the model is sequential.
- HMAC-MD5, the digests of FORCERENEW and Reconfigure, beyond the set of keys a frame verifies under.
- Journal notes, and the action ids they would take: only the other actions are numbered.
- The statistics of the managers other than what the bucket refused and what was sent.
- Parameter snapshots, the conversion of instants to wall-clock times, and the stand-alone release of a recorded lease: straight-line builders.
- The queries over rebuilt records by scope, address and hardware address, which are filters.
