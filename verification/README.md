# Backpack: models of the tunnel manager's protocols and planners

This project models the parts of the Backpack repository whose behaviour spans
several functions, several goroutines or a whole run, and proves what they keep.

- **The connection test.** Two servers, one in Iran and one abroad (the kharej),
  measure one or two paths between them. The Iran side runs a *coordinator* per
  path, which answers one question per connection over TCP and UDP, and a *suite*
  that walks the paths in order. `Coordinator.dfy` holds the protocol, once as
  functions on a value and once as a class whose methods change fields step by
  step and are proved to do what the functions say; `Requests.dfy` says what every
  request line means, from its words and what the coordinator was given before.
  `Paths.dfy` holds the path table. `Suite.dfy` puts the coordinators, the requests in
  flight and the suite's loop into one state machine. Requests arrive in any number,
  any order, repeated, and are admitted, served and delivered in separate steps, so
  that every locked section of the source is one step and anything may happen between
  two of them; a lost request is one whose delivery is not whole or that never
  arrives. The loop's wait, time-outs and cancellation are choices of the
  environment. `Progress.dfy` is what such a run achieves: why a path becomes
  unavailable, how a joined one is measured to the end, and that there are runs in
  which every prepared path is. `Kharej.dfy` is the other side's walk over the
  routes, with the network's answers and the moment of a cancellation as parameters.
  `Session.dfy` puts the two sides together: a walk whose answers are drawn from a
  run of the suite.
- **The compact test link.** `Link.dfy`: printing and parsing, with base64url
  (section 5 of RFC 4648, without padding) written out.
- **The engine loop.** `Engine.dfy` is the loop that starts, cancels and restarts
  generations of a tunnel, with the control socket, the limit watchers with the
  limits they load, the collector and its traffic, and whoever edits the
  configuration file as environment steps; a socket call reads the cancel function
  in one step and calls it in another, and a tick examines the file in one step and
  loads it in another. `Generations.dfy` is what an edit, a restart, a raised limit
  and a shutdown come to. `Reload.dfy` is the watch on the configuration file,
  `Quota.dfy` the watch on the traffic limit and the text of byte counts.
- **The job registry.** `Jobs.dfy`: a class for the registry and a state machine
  in which starts, step reports, cancellations, returns and finishes interleave.
- **Port sharing.** `PortMap.dfy` is the forwarded-port syntax, character by
  character; `PortSpecs.dfy` is what every mapping written in it means; `L3Share.dfy`
  is the planner that adds a new server as a backend of existing mappings, and what
  its rewriting means; `L3Clash.dfy` the check that a new listening tunnel's UDP
  ports are free.
- **Measurements.** `Speed.dfy` (stream verification and acknowledged uploads),
  `Best.dfy` (path MTU, selections, spread of the echoes, timers).
- **Desired state.** `DesiredState.dfy`: the panel's record and its drift report.

`Text.dfy` has the string functions of Go's standard library that the others use.

A method is the source's loop or state change; its contract ties it to a
specification function or predicate, and the lemmas are about that function,
predicate or state machine.

## Where the code does not do what it says, or what one would expect

- `Suite.StoppedIsFinalIff`: a path reported as stopped can still become
  unavailable, by a report that passed the stop check before the cancellation, and
  by nothing else. Done and unavailable are final (`Suite.FinishedPathsStay`).
- `Jobs.LatestCanMissBoth`: `Latest` can answer "nothing" although at every moment
  between its two locked sections a job was running or remembered;
  `Jobs.LatestNothingIff` says exactly when the answer is right.
- `Engine.BetweenGenerationsAccepted`: `cmd/enginesocket.go:150-152` says a restart
  asked for between generations is refused; the cancel function is never taken
  back, so after the first generation it is accepted and ends nothing.
- `Engine.EditCanBeLost`: an edit made while a restart is under way is not noticed
  by the next call of the watch, which begins with its fingerprint.
- `Link.FourLetterNameMisread`: a four-byte host name comes back as an IPv4 address.
- `PortSpecs.OddSpecRewritten`: a backend in brackets with no colon that starts with
  a space or a bracket does not survive a rewrite of its mapping;
  `PortSpecs.RewriteKeepsIff` says of every one-port mapping that it survives exactly
  when it has no such backend.
- `DesiredState.AnotherReport`: `internal/control/desired.go:244-245` promises a
  stable order; a tunnel whose port and role both changed has two entries that
  compare equal. The code appends the port's first, so their order rests on
  `sort.Slice`, which promises nothing about equal elements.

## Model

| member | source | states |
|---|---|---|
| Paths.PathTable.MarkUnavailable | internal/manage/conntestsuite.go:156-172 | a report is refused for a path outside the table, running or done; otherwise the path ends unavailable with the first reason it was given, and only the report that changed it wakes the loop |
| Coordinator.CtCoordinator.constructor | internal/manage/conntest.go:1683-1697 | a new coordinator is exactly the fresh value: nobody joined, nothing published, no signal closed |
| Coordinator.CtCoordinator.Answer | internal/manage/conntest.go:1767-1899 | the whole new state and the reply, in the source's order of checks, are those of the protocol function, the path report included |
| Coordinator.CtCoordinator.AnswerThree | internal/manage/conntest.go:1785-1864 | the same for the requests that carry one argument |
| Coordinator.CtCoordinator.Delivered | internal/manage/conntest.go:1721-1730 | only a whole verdict, or a whole "stopped" to a request that acts on it, releases the suite, and nothing else changes |
| Coordinator.CtCoordinator.RunTest | internal/manage/conntest.go:974-1095 | the test as its coordinator sees it, nothing else going on: each direct case that is not skipped is dialled at the noted peer on its announced port, or the planned one; the path MTU it returns is what lay in the slot, if anything did; afterwards the coordinator is live, the slot empty, and "result" is answered with the verdict |
| Coordinator.ServeEvolves | internal/manage/conntest.go:1778-1899 | no request of any kind unsettles a noted peer, its ports or preflight codes, moves a published verdict, or publishes, stops, joins or releases |
| Coordinator.ResultsOnlyAdvance | internal/manage/conntest.go:1885-1897 | later answers to "result" never go back from live rows to wait or from the verdict to anything |
| Coordinator.HelloSettlesPeer | internal/manage/conntest.go:1877-1884 | after a hello the peer is known exactly when it was before or the sender's host is neither empty nor the bare mapped prefix, and the first hello decides |
| Coordinator.UnnamedHosts | internal/manage/conntest.go:1877-1884 | those two are the only hosts that leave no peer |
| Coordinator.JoinFixesPeerIff | internal/manage/conntest.go:1877-1884 | on any coordinator without a peer, an accepted hello joins it whoever sent it, and fixes the peer against every later hello if and only if its sender has a name |
| Requests.WithoutToken | internal/manage/conntest.go:1767-1771 | a line of fewer than two words, or with another token, is not answered and changes nothing |
| Requests.AfterStop | internal/manage/conntest.go:1772-1777 | after the stop every line with the token is answered "stopped" and changes nothing |
| Requests.PmtuRequest | internal/manage/conntest.go:1848-1855 | "pmtu tok n" with n a number from 0 puts n alone in the path-MTU slot the first time and is answered "ok"; later ones are answered and change nothing; other texts are not answered |
| Requests.SpoofRequest | internal/manage/conntest.go:1856-1864 | the same of "spoof" and the slot of the spoof count, which is the other one |
| Requests.ProbeRequest | internal/manage/conntest.go:1778-1781 | a padded path-MTU probe is answered with its size and changes nothing |
| Requests.UnavailableRequest | internal/manage/conntest.go:1785-1794 | a report names the path of its number and is answered exactly when the suite accepts it |
| Requests.HttpsProbeRequest | internal/manage/conntest.go:1795-1810 | a preflight code is recorded under its helper exactly when it is one of the eight pairs a helper may send and no peer is noted |
| Requests.PortRequest | internal/manage/conntest.go:1811-1829 | an announced port is recorded exactly when the transport is a direct one, the text a number from 1 to 65535, and no peer is noted or it is the port recorded already |
| Requests.SkipRequest | internal/manage/conntest.go:1830-1838 | a case is skipped from then on exactly when it is one that may be |
| Requests.CarrierRequest | internal/manage/conntest.go:1839-1847 | the answer is the settings put in for that helper, none when there are none |
| Requests.ConfigRequest | internal/manage/conntest.go:1868-1876 | the answer is the configuration put in, none when there is none |
| Requests.HelloRequest | internal/manage/conntest.go:1877-1884 | the first hello closes the join signal; the sender is noted, without the mapped prefix, unless a peer is noted already |
| Requests.ResultRequest | internal/manage/conntest.go:1885-1897 | the verdict when there is one, else the live rows of a running test, else "wait" |
| Requests.OtherRequest | internal/manage/conntest.go:1778-1899 | every other line is not answered and changes nothing |
| Requests.SkippableIff | internal/manage/conntest.go:1920-1945 | the cases that may be skipped, direct and reverse, are exactly these nineteen |
| Suite.StepKeepsInv | internal/manage/conntestsuite.go:174-285 | every step of the loop, a request or the environment keeps the invariant tying path states, loop position, coordinators and calls in flight |
| Suite.RunKeepsInv | internal/manage/conntestsuite.go:174-285 | so every reachable state satisfies it |
| Suite.OnePathAtATime | internal/manage/conntestsuite.go:185-247 | in every interleaving at most one path is running |
| Suite.RunMovesPath | internal/manage/conntestsuite.go:156-260 | the only moves a path ever makes: waiting to running when the loop claims it with its own coordinator joined, waiting or stopped to unavailable, running to done or stopped, waiting to stopped at the end |
| Suite.FinishedPathsStay | internal/manage/conntestsuite.go:156-247 | done and unavailable are never left |
| Suite.RunningWasClaimed | internal/manage/conntestsuite.go:190-216 | a running path was claimed from waiting, at a moment when its own coordinator had been joined, and has been running ever since |
| Suite.RunEndsSettled | internal/manage/conntestsuite.go:248-260 | when the loop has returned, every path is done or unavailable if it saw no cancellation, and done, unavailable or stopped if it did |
| Suite.RunEvolves | internal/manage/conntest.go:1767-1989 | over any stretch of any run a coordinator changes only as one request or one loop step may change it |
| Suite.EndpointFixedAtJoin | internal/manage/conntest.go:1802-1827 | once a peer is noted, its address, announced ports and preflight codes are the same in every later state |
| Suite.DialFixedAtJoin | internal/manage/conntest.go:985-991 | once a peer is noted a case is never dialled at two places, whenever its test asks and whatever announcements still arrive |
| Suite.TestIsThreeSteps | internal/manage/conntest.go:972-1095 | the steps the loop takes with a claimed path, one after the other, leave its coordinator as the test does |
| Suite.RunningPathHasPeer | internal/manage/conntestsuite.go:190-216 | a path being measured has a known peer, given that every request's host has a name |
| Suite.ResultsOnlyAdvance | internal/manage/conntest.go:1885-1897 | two answers to "result" in one run only move from wait to live rows to the verdict, and the verdict is the same |
| Suite.StoppedForGood | internal/manage/conntest.go:1772-1777 | once told to stop, a coordinator stays so and answers every later request that carries the token with "stopped", changing nothing |
| Suite.TokenlessChangesNothing | internal/manage/conntest.go:1761-1771 | a request without the token leaves the whole system as it was, at any point of any run |
| Suite.ReleasedOnce | internal/manage/conntest.go:1721-1730 | the release and join signals are closed at most once; the release only by a whole published verdict or a whole "stopped" to config, hello or result |
| Suite.FirstReportsStand | internal/manage/conntest.go:1848-1864 | the slot of the path MTU and of the spoof count is empty until its only send, so no send blocks, and no later report replaces the first |
| Suite.PeersAreTold | internal/manage/conntestsuite.go:227-275 | in every reachable state a "result" request that is past the stop check is answered with the verdict when the path is done; once a cancelled run has returned every prepared coordinator has been told to stop, so later requests are answered "stopped" |
| Suite.StoppedIsFinalIff | internal/manage/conntestsuite.go:156-260 | once a cancelled run has returned, a stopped path stays stopped in every continuation if and only if no request past the stop check is about to report that path |
| Suite.StoppedIsNotFinal | internal/manage/conntestsuite.go:248-256 | the other case: a cancelled run that has returned with its path stopped, and a report in flight that then makes it unavailable |
| Suite.LateReportIsReachable | internal/manage/conntestsuite.go:152-172 | that state is reached by a real run for every token a request can carry: the report arrives, then the suite is cancelled |
| Progress.AdmittedIsAnswered | internal/manage/conntest.go:1767-1899 | a request nothing else gets between arrives, is served and joins in steps that together do to its coordinator what the request means there, and nothing to any other |
| Progress.ReportMeans | internal/manage/conntestsuite.go:156-172 | a report is accepted exactly for a path of the suite that is neither running nor done, which is then unavailable |
| Progress.DeliveryReleases | internal/manage/conntest.go:1721-1730 | a delivery releases the suite exactly when it is whole and says the verdict, or says "stopped" to config, hello or result |
| Progress.UnavailableIff | internal/manage/conntestsuite.go:156-205 | in every run a path becomes unavailable at a step if and only if that step serves an admitted report of it, and it is neither running nor done, or the loop gives up waiting for that path |
| Progress.WaitGoesOn | internal/manage/conntestsuite.go:190-205 | the loop waits only for a path that is not unavailable and while not cancelled, and looks again after every change, cancellation and time-out |
| Progress.NoReportSleptThrough | internal/manage/conntestsuite.go:156-205 | in every reachable state in which the loop waits for a path that has been reported, the wake-up is pending |
| Progress.JoinedIsMeasured | internal/manage/conntestsuite.go:206-216 | out of the wait with the join seen, uncancelled and not reported, the loop has the path running at once and measures it next |
| Progress.MeasuredToTheEnd | internal/manage/conntestsuite.go:217-229 | whatever requests come in between, the loop's next three steps take a path being measured through its test in order: live, path MTU, verdict |
| Progress.RecordedAsSeen | internal/manage/conntestsuite.go:227-247 | and its fourth records it: done exactly if no cancellation has been seen by then, stopped otherwise |
| Progress.UnjoinedIsGivenUp | internal/manage/conntestsuite.go:190-205 | from every run that waits for a path nobody joins there is one that gives it up and goes on to the next |
| Progress.EveryPathCanBeDone | internal/manage/conntestsuite.go:174-285 | for every number of paths and every choice of those that could be prepared, there is a run that ends with each of these done, its verdict published, and each other one unavailable |
| Progress.CancelledCanEnd | internal/manage/conntestsuite.go:248-260 | a loop that sees the cancellation tells every prepared coordinator to stop, leaves done and unavailable paths and stops the rest |
| Progress.SizeWasReported | internal/manage/conntest.go:1848-1864 | in every run, what lies in a coordinator's path-MTU slot for the test to take is the count of the first accepted "pmtu" request to that coordinator |
| Kharej.CheckAll | internal/manage/conntestsuite.go:311-337 | every route is asked before any is joined; unless the walk was halted, a path waits exactly when the network answered for it and is unavailable otherwise; the context is looked at exactly when an answer was an error and after each route; a halt has behind it what the loop did last, the first look that found it cancelled or a coordinator's stop |
| Kharej.Tell | internal/manage/conntestsuite.go:340-352 | reports one path only through other coordinators that answered and are not done, stops at the first that accepts, and otherwise, unless one of its at most two looks a coordinator found it cancelled, each of them was asked twice and would accept neither time; each report follows a look that found the walk going on |
| Kharej.TellAll | internal/manage/conntestsuite.go:353-363 | before anything is measured, every path the check found unreachable has been reported: accepted by somebody, or refused twice by everybody who could take it, unless one of its bounded number of looks found the walk cancelled; nothing is available exactly when every path is unavailable |
| Kharej.Visit | internal/manage/conntestsuite.go:366-413 | one path's turn: asked again after the first, measured, and given up and reported if either comes to nothing; it ends as the network's answers call for; a halt has what it did last behind it, and the looks are those its acts call for |
| Kharej.MeasureAll | internal/manage/conntestsuite.go:364-418 | the last loop: unless it is halted, every path ends as the network's answers call for and the count tells whether one completed; after a failed second check it goes on to the next path without another look |
| Kharej.Walk | internal/manage/conntestsuite.go:303-419 | unless it is halted, which takes a coordinator's stop as its last act or a cancellation found by the very look that was due next, a path is done exactly when its coordinator answered its check and, after the first path, answered again, and its test completed, and unavailable otherwise; every unavailable one was reported (uncancelled), and the result says whether nothing answered, nothing completed or something did; always, the looks that found the walk going on are those its acts call for, and no other look was made unless a path was being reported; every act says what the network answered, a reported path is never measured afterwards, and paths are measured once each, in order, and only after their coordinator answered, and after the first answered again |
| Kharej.DueMeans | internal/manage/conntestsuite.go:311-418 | the looks a walk's acts call for: one for each answered check, report and completed measurement, two for a check or measurement that came to an error, one for an error when a route was asked again, none for a stop |
| Session.DoneIsMeasured | internal/manage/conntestsuite.go:227-247 | both sides together, for every run and every walk whose answers were given in it: a path the kharej saw completed has its verdict published, and is done for the suite, about to be recorded, or was cut short there by a cancellation |
| Session.AcceptedIsOut | internal/manage/conntestsuite.go:156-172 | an accepted report leaves its path unavailable for the suite from some moment to the end of the run, so it is never running again |
| Session.StopIsCancelled | internal/manage/conntestsuite.go:248-260 | a walk that a coordinator stopped belongs to a suite that was cancelled |
| Session.WalkWith | internal/manage/conntestsuite.go:303-419 | the walk against a run of the suite, when the answers it acted on were given there: its done paths have published verdicts and were measured, its accepted reports hold, and it is halted only by its own context or by a cancelled suite |
| Link.DecodeUndoesEncode | internal/manage/conntest.go:183-211 | base64url without padding decodes to what was encoded, for every byte sequence |
| Link.EncodingMeans | internal/manage/conntest.go:183-211 | each letter of the encoding is that of its group of three bytes, the missing ones zero, and there are as many as section 4 of RFC 4648 asks for |
| Link.GroupMeans | internal/manage/conntest.go:183-211 | the four letters of a group are the digits of its 24 bits to base 64 |
| Link.AlphabetMeans | internal/manage/conntest.go:183-211 | the letters are those of section 5 of RFC 4648, in order |
| Link.ParseOfShort | internal/manage/conntest.go:168-226 | a printed link is found in what was pasted and its body is read back byte for byte |
| Link.ShortHolds | internal/manage/conntest.go:168-184 | a printed link holds version 1, the port with its high byte first, the secret and the tail, and nothing else |
| Link.DamagedIff | internal/manage/conntest.go:203-226 | a decoded link is refused exactly when nothing follows version, port and secret, the version is unknown, or the first version names port 0 |
| Link.WhatFollowsIsIgnored | internal/manage/linkapply.go:62-94 | a printed link is read the same with dots after it and whatever follows that no link is made of |
| Link.PaddedIsDamaged | internal/manage/conntest.go:198-206 | a printed link with base64 padding after it is refused |
| Link.TailStandsForHost | internal/manage/conntest.go:172-221 | the bytes after the secret stand for the host's canonical form exactly when the host is not a four-byte name that is no address |
| Link.LinkRoundTrip | internal/manage/conntest.go:168-226 | for every port and secret, parsing undoes printing if and only if the port is not 0 and the host is neither empty nor such a name |
| Link.FourLetterNameMisread | internal/manage/conntest.go:172-221 | such a name comes back as the IPv4 address its bytes spell |
| Link.ShortInjective | internal/manage/conntest.go:168-184 | two canonical addresses, ports and secrets with one link are the same |
| Engine.EngineControl.SetGeneration | cmd/enginesocket.go:98-110 | the object after the call is the control value the loop's two steps leave: everything a generation is known by replaced, then the counter one higher |
| Engine.EngineControl.Ready | cmd/enginesocket.go:112-120 | readiness changes only when the generation has a helper, and nothing else changes |
| Engine.StepKeepsInv | cmd/cmd.go:119-184 | every step of the loop, the socket, a watcher or the file keeps the loop's invariant |
| Engine.OneGenerationAtATime | cmd/cmd.go:146-161 | at most one generation's engine runs at any time, and it is the newest |
| Engine.EveryStartIsSound | cmd/cmd.go:94-155 | every configuration started is what defaulting made of a file the process read off the disk by then (at its start, after a wait or at a tick), and it is valid; each start followed a reading that succeeded with no limit set or the traffic below it; tuning is asked for by the first only |
| Engine.StartsNewest | cmd/cmd.go:127-182 | every start runs the newest configuration taken up so far, whether the watch loaded it or it was read after waiting, never an older one |
| Engine.NoStartOverTheLimit | cmd/quota.go:59-93 | a start uses the loop's latest look at the limit, that look was under it, and nothing runs while it is made |
| Engine.EveryStartIsFresh | cmd/cmd.go:146-158 | every start in every run leaves a watcher that has loaded nothing yet and no live collector, with the starting look under the limit |
| Engine.WatchedStaysBelow | cmd/quota.go:95-132 | in every run, with a fixed limit and a collector that begins with the total the starting look found, a watched generation's total stays below the limit plus what was counted since its watcher's last check |
| Engine.OvershootInRuns | cmd/quota.go:95-132 | so whenever a watcher ends its generation over the limit, the total is below the limit plus the most traffic between two checks, whatever the loop, the socket and the other watchers do |
| Engine.GenerationCountsStarts | cmd/enginesocket.go:98-110 | the generation number is the number of starts, but for the instant between counting and starting; there is no cancel function only before the first |
| Engine.StatusIsNewest | cmd/enginesocket.go:57-64 | the role and transport the socket reports, and whether it reports readiness, are those of the generation registered last |
| Engine.CancelledHasCause | cmd/cmd.go:146-161 | a generation's context is cancelled only by the loop stopping it, its own watcher (the limit reached at a check, or unreadable), or a request that read its function |
| Engine.RestartEndsOnlyWhatItRead | cmd/enginesocket.go:85-94 | a restart request cancels the generation whose function it read and never a later one |
| Engine.RestartWakeHasCause | cmd/cmd.go:159-177 | a generation the watch finds ended without shutdown was ended by its own limit watcher or a request that named it |
| Engine.BetweenGenerationsAccepted | cmd/enginesocket.go:78-94 | between two generations a restart request is accepted and names one that no longer runs |
| Engine.EveryCallIsAwait | cmd/cmd.go:159-182 | in every run, each call of the watch has the outcome AwaitConfigChange must have on what it was woken by, with the configuration the loop holds |
| Engine.TickPicksUpIff | cmd/reload.go:145-181 | a tick that nobody edits under ends the call with what is on disk if and only if it may run and the certificates are others, or the call has not seen this fingerprint and the file means something else |
| Engine.LostUntilEdited | cmd/cmd.go:159-182 | an edit the watch has not seen coming, because a call began with it, stays unnoticed across every later call and restart until the next edit or until the loop reads the file after a wait |
| Engine.EditCanBeLost | cmd/cmd.go:167-177 | from any moment of any run at which a generation is watched, a restart with any edit behind it leads to such a state: the new generation runs the old configuration |
| Generations.ExitedAfterShutdown | cmd/cmd.go:119-184 | in every run the process has ended only after a shutdown |
| Generations.LookDecides | cmd/quota.go:59-93 | before a start the loop goes on exactly when the look could read the limit and there is none or the traffic is below it, and is held otherwise |
| Generations.TakenUpStarts | cmd/cmd.go:161-182 | from every run in which the watch has come back with a configuration, once what runs has returned and a look finds room, the run goes on to a start of exactly that configuration |
| Generations.EndedStartsAgain | cmd/cmd.go:167-177 | and from every run in which the generation ended by itself, to a start of the same configuration |
| Generations.HeldStarts | cmd/quota.go:59-93 | a loop held at the limit goes on, once a look finds room, to a start of what is on disk, or of what it had when that cannot run |
| Generations.EditIsApplied | cmd/reload.go:117-183 | from every moment of every run at which a generation is watched, an edit to another configuration that may run, or a renewal of the certificates, is picked up by the next tick and becomes the next generation |
| Generations.ShutdownEnds | cmd/cmd.go:161-166 | from a shutdown while watching or held the run goes on to the end of the process with nothing started |
| Generations.LimitHolds | cmd/cmd.go:119-171 | from every run about to start a generation there is one in which its watcher reads the limit, the collector reaches it, and the loop ends up held with nothing running |
| Generations.WatcherEndsIff | cmd/quota.go:95-132 | a watcher's step cancels its generation exactly when the limit could not be loaded, or a check finds a limit set and the collector's total at it or above |
| Generations.MeterKeepsBooks | cmd/quota.go:95-132 | the limit a watcher goes by is the one it read last, a failed read leaving it; the total is what the collector began with and the traffic since |
| Generations.ReadinessIsReported | cmd/enginesocket.go:98-120 | readiness is what the helper said last, and a generation with a helper begins without it |
| Reload.AwaitConfigChange | cmd/reload.go:117-183 | the watch ends at the first shutdown, end of generation, or tick that shows a file which loads, defaults and validates, with other certificates or with another fingerprint and another meaning, and returns it; it complains exactly at the refusals whose file and certificates are not those of the refusal before, which are never more than the changes of the observed pair |
| Reload.BrokenOnce | cmd/reload.go:145-174 | however long a refused file stays as it is, and whatever makes the watch load it again, it is complained about once |
| Reload.RefusedIsTold | cmd/reload.go:150-174 | the first refused file is complained about, and each later one exactly when its fingerprint or its certificates are not those of the refused one before it |
| Reload.RefusesIff | cmd/reload.go:145-174 | a tick refuses exactly when it examines a file that cannot run and that it has not seen last, or that comes with other certificates than at the start |
| Reload.FiresIff | cmd/reload.go:145-181 | a tick ends the call exactly when its file loads, defaults and validates, and its certificates were read and are others than at the start, or it was not examined last and means something else |
| Reload.SeenIsLast | cmd/reload.go:117-150 | what the watch has seen is the fingerprint of the last tick that could examine the file |
| Reload.OutcomeIsUnique | cmd/reload.go:136-182 | what a call comes back with, and when, is settled by what it observes |
| Reload.UntouchedNeverFires | cmd/reload.go:145-150 | while the fingerprint and certificates are those of the start, the file cannot end the generation |
| Reload.FirstTouchFires | cmd/reload.go:145-181 | the first tick with another fingerprint and a usable file that means something else ends the call |
| Quota.WatchQuota | cmd/quota.go:96-132 | ends the generation at once when the limit cannot be read, otherwise exactly at the first check that finds the limit in force reached, and not after the generation is over |
| Quota.LimitIsLast | cmd/quota.go:95-132 | the limit in force is the one read last, or the first when nothing could be read since |
| Quota.OvershootBounded | cmd/quota.go:108-131 | with a fixed limit and at most R bytes between checks, a generation started under the limit is ended with its total below the limit plus R |
| Quota.WatchGeneration | cmd/quota.go:95-132 | the watch itself, started with the limit and total of the look that let the generation start: it ends the generation exactly at the first check that reaches the limit, or goes on to the end of the events or of the generation; with a steady limit the total is then below the limit plus R, or still below the limit |
| Quota.UnderUntilReached | cmd/quota.go:108-131 | until then every checked total is under the limit |
| Quota.Itoa | cmd/reload.go:309-321 | for every number below a hundred million the eight-byte buffer is never overrun and holds exactly its decimal digits |
| Text.DecimalReadsBack | cmd/reload.go:309-321 | the decimal digits of every number read back as that number |
| Quota.TenthsAreExact | cmd/quota.go:144-146 | ten times the whole units plus the tenth is the truncated ten-fold quotient, and the tenth is one digit |
| Quota.HumanBytes | cmd/quota.go:134-147 | for every 64-bit count the unit letter exists, both numbers fit the buffer, and the text is the count in that unit cut to a tenth |
| Jobs.JobIdInjective | internal/control/job.go:154-155 | identifiers of different jobs differ, whatever dashes the kinds contain |
| Jobs.Registrar.Start | internal/control/job.go:144-167 | a running kind is refused with its running job; otherwise the new job is registered under both maps with the next number |
| Jobs.Registrar.Finish | internal/control/job.go:170-202 | the job leaves both maps and enters the bounded history in its final state; an unknown identifier changes nothing |
| Jobs.Registrar.SetStep | internal/control/job.go:204-210 | only a running job's step text changes |
| Jobs.Registrar.Get | internal/control/job.go:213-225 | the running job, else the newest remembered one with that identifier, else none |
| Jobs.Registrar.Current | internal/control/job.go:228-236 | the running job of the kind, if any; the entry is there whenever the kind's is |
| Jobs.Registrar.LatestFinished | internal/control/job.go:245-252 | the newest remembered job of the kind |
| Jobs.Registrar.LatestOf | internal/control/job.go:241-253 | both sections with nothing in between: the running job, else the newest remembered |
| Jobs.Registrar.Cancel | internal/control/job.go:276-285 | found exactly when the job runs; only its context is touched |
| Jobs.Registrar.History | internal/control/job.go:257-271 | the remembered jobs of the kind, newest first, cut at a positive limit |
| Jobs.StepKeepsInv | internal/control/job.go:144-285 | every step keeps the two maps inverse, the identifiers unique and the history in step with the finishes |
| Jobs.OneJobPerKind | internal/control/job.go:147-160 | in every reachable state at most one job of a kind runs |
| Jobs.EveryJobAccountedFor | internal/control/job.go:144-202 | every started job is running or finished and never both, finished at most once, and its identifier was never used again |
| Jobs.HistoryIsTheRecentPast | internal/control/job.go:180-197 | the history is exactly the last finishes, as many as are kept; only a failed job carries error text |
| Jobs.CancelledAsSeenOnReturn | internal/control/job.go:170-202 | a job ends as its work came back: cancelled exactly when its context had been cancelled by then, otherwise failed with the error's text or succeeded, exactly as the work returned an error or none, and always with the work's result and the time of the finish |
| Jobs.CancelledIff | internal/control/job.go:273-285 | in every run a job's context is cancelled exactly when somebody asked for it or the job is recorded |
| Jobs.RecordedAsStarted | internal/control/job.go:144-202 | a finished job has the kind, target and start time of its own start |
| Jobs.LatestLinearizable | internal/control/job.go:241-253 | when Latest returns a job there is a moment between its two sections at which a single-section answer was that job |
| Jobs.LatestNothingIff | internal/control/job.go:241-253 | when it returns nothing, nothing was the right answer at some moment between its sections if and only if the kind is idle at the second one or a job of the kind was started in between while none ran or was remembered |
| Jobs.LatestCanMissBoth | internal/control/job.go:241-253 | for every history size, a run in which it returns nothing although a job was running or remembered throughout |
| PortMap.PlainReadsBack | internal/tunnel/portmap/portmap.go:68-131 | a plain host's rendering parses back to that host and port |
| PortMap.ReadsBackIffPlain | internal/tunnel/portmap/portmap.go:68-102 | among hosts free of separators, exactly the plain ones do |
| PortMap.ExpandPlain | internal/tunnel/portmap/portmap.go:135-249 | every backend an ordinary spec expands to is plain, whether or not there is a default host |
| PortSpecs.BracketedParses | internal/tunnel/portmap/portmap.go:78-83 | written in brackets, every host without a closing one is read as it is, the odd ones too |
| PortSpecs.OddSpecRewritten | internal/manage/l3share.go:141-144 | a mapping to such an odd host expands, and rewriting it with the very backend it has changes it: the leading space is lost, or the text is refused |
| PortSpecs.RewriteKeepsIff | internal/manage/l3share.go:141-144 | the law of a rewrite, for every one-port mapping with any number of backends: written out with the backends it has it expands to the same mapping if and only if none of them is written in brackets as such an odd host |
| PortSpecs.SideReadsBack | internal/tunnel/portmap/portmap.go:68-131 | a host with a port or a range, as an operator writes it, parses back to the same host and ports |
| PortSpecs.SpecMeans | internal/tunnel/portmap/portmap.go:135-249 | for every listen side and target: one listener per port on its own address, each with one backend at the target's host or the default, ranges keeping their offset; refused exactly when the widths do not fit or no host is known |
| PortSpecs.BackendsMean | internal/tunnel/portmap/portmap.go:173-205 | several backends: refused exactly on a range, or when one of them is a range or has no host to go to; otherwise one listener with the backends in order |
| PortSpecs.SpanMeans | internal/tunnel/portmap/portmap.go:104-131 | a number is a port exactly from 1 to 65535, and two are a range exactly when they do not fall and span at most 1024 ports |
| PortSpecs.SpacesIgnored | internal/tunnel/portmap/portmap.go:68-160 | white space around a port, a side or a backend does not matter, and a blank spec maps nothing |
| PortMap.BackendsReadBack | internal/manage/l3share.go:141-144 | the backends of a rewritten spec are read back out of its text: the cut at "=" and the split at the bar undo the join |
| PortMap.RewriteMeans | internal/manage/l3share.go:141-144 | rewriting a one-port mapping keeps its address, and the new text expands to exactly the given backends |
| L3Share.Collect | internal/manage/l3share.go:78-93 | the map of listeners holds, for each address, the owners of that address in order |
| L3Share.OwnersFor | internal/manage/l3share.go:105-108 | the owners of all of a spec's addresses, in order |
| L3Share.PlanSharing | internal/manage/l3share.go:69-137 | the loops compute the plan the theorems are about, and in it, in order and as often as asked for: kept are the specs that do not expand or none of whose addresses is taken, clashing those that meet a taken address and are not one port on an address taken once, by a one-port spec |
| L3Share.FateMeans | internal/manage/l3share.go:99-118 | a spec is kept, or clashes, if and only if that holds of it, counted from the existing tunnels' specs alone |
| L3Share.HostOnlyMeans | internal/manage/l3share.go:146-149 | a peer address gives its host, with or without a mask or blanks around it |
| L3Share.AddAll | internal/manage/l3share.go:127-133 | the new backends are appended except those already listed |
| L3Share.AddedInOrder | internal/manage/l3share.go:127-133 | the added backends come in the order in which they were first offered |
| L3Share.MergedShape | internal/manage/l3share.go:127-134 | a share's backends: the old list as a prefix, then every offered one, nothing else, none added twice |
| L3Share.PlanSorts | internal/manage/l3share.go:99-137 | the kept and the clashing specs are listed in order and as often as asked for |
| L3Share.SharedIsCarried | internal/manage/l3share.go:118-134 | the rest: every shared spec has a share that names the very mapping with its address and carries its backends |
| L3Share.SharedIffOwned | internal/manage/l3share.go:105-118 | a spec is shared with a listed mapping if and only if both map one port and it is the same address |
| L3Share.KeptListensAlone | internal/manage/l3share.go:105-112 | a kept spec listens on no existing address |
| L3Share.PlanIsGood | internal/manage/l3share.go:95-136 | one share per shared mapping, carrying its own backends with the new ones of every spec planned so far; the name and spec key never confuses two mappings |
| L3Share.ShareMeans | internal/manage/l3share.go:118-144 | what a share's new text means to the tunnel that holds it: the same address and the merged backends |
| L3Share.SharesStayApart | internal/manage/l3share.go:252-271 | two shares of one tunnel never name each other's text, old or new, so applying them in turn applies each once |
| L3Share.GroupShares | internal/manage/l3share.go:252-271 | one entry per tunnel named, in the order first named, with every spec rewritten by the shares that name it |
| L3Share.RewriteOnce | internal/manage/l3share.go:264-268 | every spec equal to the old text becomes the new one and the rest stay |
| L3Share.ReadyIsSound | internal/manage/l3share.go:78-93 | tunnels with distinct names, distinct addresses and ordinary specs satisfy what the planning theorems ask |
| L3Share.SharingPreserves | internal/manage/l3share.go:69-144 | after sharing, every one-port mapping of every existing tunnel listens where it did with its own backends followed by the new ones for that address, and every other spec is untouched |
| L3Share.ShareQuietly | internal/manage/l3share.go:222-242 | plan and grouping together: it goes through exactly when no spec clashes, and then keeps exactly the free ones; an overlap that cannot be shared writes nothing; otherwise each tunnel named is written once and every existing tunnel, written or not, serves as SharingPreserves says |
| L3Clash.OverlapIsShared | internal/manage/l3share.go:308-315 | two port ranges overlap exactly when some UDP port is bound by both tunnels |
| L3Clash.CollideIff | internal/manage/l3share.go:308-346 | two tunnels collide exactly when their names differ in more than letter case, both run over UDP, the other listens, and the spans of their ports meet |
| L3Clash.ListenClash | internal/manage/l3share.go:317-346 | the first tunnel of another name that wants one of the new one's UDP ports; none exactly when there is no such tunnel |
| L3Clash.PanelClash | internal/manage/directwebapi.go:368-379 | a form that is taken is checked for the carrier its tunnel will run, so two tunnels that would bind one UDP port are never let through together |
| Speed.Receive | internal/manage/conntestspeed.go:217-235 | for every way the stream is cut into reads, exactly the whole reads before the first that differs are counted, each where the end of the payload or of the bytes cuts it; a difference is in the very next read; the totals seen are where the reads ended |
| Speed.CountedRepeats | internal/manage/conntestspeed.go:217-235 | what is counted repeats the payload: byte k is payload byte k modulo its length |
| Speed.GenuineIsCounted | internal/manage/conntestspeed.go:217-235 | a genuine stream never differs and enough reads count all of it |
| Speed.BigEndianReadsBack | internal/manage/conntestspeed.go:279-287 | a total in eight big-endian bytes reads back as itself |
| Speed.HighestFirst | internal/manage/conntestspeed.go:279-287 | the first byte of a total on the wire is its highest |
| Speed.WireFrames | internal/manage/conntestspeed.go:111-115 | acknowledgement i of the wire is total i |
| Speed.CountUpload | internal/manage/conntestspeed.go:109-123 | the client's count telescopes to the last acknowledgement it took, none of which fell or was the failure marker, and it stops at the first that did |
| Speed.UploadCountsVerified | internal/manage/conntestspeed.go:109-123 | whatever prefix of the remote's acknowledgements arrives, the client's count is the last total that arrived whole and never exceeds what was verified; it fails only on the marker, after every total |
| Speed.UploadEndToEnd | internal/manage/conntestspeed.go:276-289 | receiver, wire and client together: whatever arrives, the client counts a repetition of the payload that ends with a read the remote verified |
| Speed.TotalIsSum | internal/manage/conntestspeed.go:102-121 | in either direction, whichever counter is added to first, and however the streams interleave, total and sum over the streams differ by what is still on its way to the second |
| Best.Fits | internal/manage/conntestbest.go:71-78 | two datagrams of one size at most, two looks at the context each; each says what the network answered at the moment it was sent; success means one of them was answered, an uncancelled failure that neither was, and a datagram is left unsent only because the look before it found the context cancelled |
| Best.ProbePmtu | internal/manage/conntestbest.go:63-100 | over any network: the trace is what the network said, one datagram after the other; a result was carried by the network at some moment of the search, and when it is inside the bounds its successor was lost twice; a search that is not cancelled within its sixty looks returns 0 only if the minimum was lost twice, and over a path that carries exactly the sizes up to M it returns the smaller of M and 1500, or 0 below the minimum; at most ten halvings; cut short it returns 0, or 1500 when that had already been answered |
| Best.SelectRow | internal/manage/conntestbest.go:160-180 | the loop over the running best computes the choice the next row is about |
| Best.ChoiceIsEarliestHighest | internal/manage/conntestbest.go:160-180 | among eligible settled rows the choice is the earliest maximal one by ok, unstable, down, then speed or echoes; none when none is eligible |
| Best.ChoiceIsEligible | internal/manage/conntestbest.go:160-180 | there is a choice exactly when some row is not forged, was not skipped, was tried and carried something, and it is such a row |
| Best.UnsettledRowIsKept | internal/manage/conntestbest.go:168-179 | why: a chosen row still under test is displaced by no unstable or failed row, whatever their echoes |
| Best.SuiteBest | internal/manage/conntestsuite.go:289-301 | the earliest done path with a transport that is maximal by speed and then lower round trip; the empty result when there is none |
| Best.Middle | internal/manage/conntestbest.go:236-248 | smallest, truncated mean and largest echo time, with the mean between the other two |
| Best.Measure | internal/manage/conntestbest.go:236-259 | smallest and largest are among the times and bound them all; average and jitter are the truncated means of the times and of their distances from the average; all zero without echoes |
| Best.JitterWithinSpread | internal/manage/conntestbest.go:249-257 | jitter is at most the spread, and at most half of it plus one nanosecond |
| Best.RecommendKeepAlive | internal/manage/benchmark.go:300-331 | defaults when the path is unusable; otherwise a heartbeat of 10 to 60 seconds, keepalive twice it, longer than the worst silence exactly when that is under a minute, and within five seconds of it between the bounds |
| Best.TimersFor | internal/manage/benchmark.go:296-331 | from the echoes to the timers: on a usable path the heartbeat outlasts every measured echo time plus jitter, doubled at two percent loss or more, if and only if the worst of these is under a minute |
| DesiredState.Desired.Record | internal/control/desired.go:165-178 | the intent is stored under node and tunnel; a missing name is an error and stores nothing |
| DesiredState.Desired.SetRunning | internal/control/desired.go:182-196 | only a recorded intent changes, in its running flag and time |
| DesiredState.Desired.Forget | internal/control/desired.go:199-210 | the intent goes, and its node when nothing else is expected there |
| DesiredState.Desired.Reconcile | internal/control/desired.go:251-318 | whatever order the maps are walked in, the answer is a report: sorted by tunnel and kind, each difference exactly as often as it is due |
| DesiredState.SortDrifts | internal/control/desired.go:311-316 | a permutation sorted by tunnel, then kind |
| DesiredState.FromWanted | internal/control/desired.go:270-300 | the walk over the intents finds exactly the differences of the recorded names |
| DesiredState.FromHeld | internal/control/desired.go:302-309 | the walk over the report adds exactly the unexpected ones |
| DesiredState.ReportedIsLast | internal/control/desired.go:259-262 | a name reported twice counts with its last entry |
| DesiredState.ReportSays | internal/control/desired.go:270-309 | a report is sound and complete, kind by kind |
| DesiredState.ReportIs | internal/control/desired.go:251-318 | a report holds every entry that is due exactly once and no other, the values its detail quotes included: the recorded one first, the reported one second |
| DesiredState.LessMeans | internal/control/desired.go:311-316 | the order of names is that of the first characters that differ, a name before its continuations |
| DesiredState.EqualFoldMeans | internal/control/desired.go:281-290 | two roles are the same exactly when they differ in letter case only |
| DesiredState.SilentIffAgree | internal/control/desired.go:251-318 | it is empty exactly when both sides have the same names, running states, and every port and role both state |
| DesiredState.OneReport | internal/control/desired.go:244-245 | when no tunnel has changed both port and role there is only one report, so the order is stable |
| DesiredState.AnotherReport | internal/control/desired.go:311-316 | when one has, there is always a second correct report |
| DesiredState.EmptyNodesNeverAppear | internal/control/desired.go:165-210 | no operation leaves a node with nothing expected of it |
| DesiredState.ForgetUndoesRecord | internal/control/desired.go:165-210 | forgetting what was just recorded for the first time restores the record |
| DesiredState.RecordThenSilent | internal/control/desired.go:165-178 | a tunnel recorded as it is reported is not in the report, and every other tunnel's entries stand |
| DesiredState.SetRunningSilences | internal/control/desired.go:180-196 | a deliberate start or stop is not drift once the node is in that state, and every other tunnel's entries stand |
| DesiredState.ForgetThenUnexpected | internal/control/desired.go:198-210 | a forgotten tunnel is reported exactly when the node still has it, as unexpected, and every other tunnel's entries stand |
| DesiredState.OtherNodesUntouched | internal/control/desired.go:165-210 | no operation on one node touches what is expected of another |

## Left out

- Link.LinkRoundTrip: the promises of Go's net and netip packages that it needs (an IPv4 address is four bytes and prints to at least seven, a four-byte address text is IPv6 and expands to a longer text of the same address) are its explicit premise, because those packages are not part of this model.
- Link.Parse: a link wrapped over several lines, text before it, and the version-2 link that carries several routes (gzip and JSON) are not modelled.
- Coordinator.JoinFixesPeerIff: a hello from a host that is empty or the bare prefix `::ffff:` would join the coordinator without fixing the peer; no socket reports such a host.
- Suite.RunningPathHasPeer: assumes that no request comes from a host written as the bare mapped-address prefix, which no socket reports.
- Suite.Step: the suite's loop, like the engine's, is the step function of a state machine and not a method with a loop, because other goroutines change the same fields between any two of its sections; every locked section is one step.
- Engine.Step: the same; the parts that run alone (AwaitConfigChange, WatchQuota, SetGeneration) are methods.
- Suite.RunEndsSettled: says how the loop ends, not that it always ends; that the kharej ever joins depends on the network. Progress.EveryPathCanBeDone and Progress.CancelledCanEnd give runs that end.
- Engine.EveryStartIsSound: defaulting and validating are two arbitrary functions of the model; their field-by-field rules would only add easy members.
- Engine.NoStartOverTheLimit: the look at the limit and the start are separate moments, as in the source, so traffic or a lowered limit in between is not excluded.
- Engine.OvershootInRuns: that the limit stays what the starting look found, that the collector begins with the total that look found, and the bound on traffic between two checks are premises; the clock is the order of events.
- Quota.OvershootBounded: the same of the watch alone; the clock is a sequence of ticks.
- L3Share.SharingPreserves: asks that existing specs expand or are ignored, that the existing addresses and tunnel names are distinct and no name holds a zero character, and that neither a backend nor a peer is one of the odd hosts of PortSpecs.OddSpecRewritten; whether UDP is turned on for the shared port, and a write that fails, are not modelled.
- PortMap.ExpandPlain: one spec at a time; the total over all specs of a tunnel is not bounded here.
- Best.ChoiceIsEarliestHighest: asks that every eligible row has a final status, which the caller establishes before it selects.
- Best.RecommendKeepAlive: durations are unbounded and the conversion to seconds is exact, where the source passes through a 64-bit integer and a float.
- Speed.TotalIsSum: the warm-up, sampling and convergence rules of the measurement are floating-point heuristics and are not modelled.
- DesiredState.Desired.Reconcile: letter case is folded for ASCII only (here and in L3Clash), and the operator's sentences are a datatype with the values they quote.
- Session.WalkWith: that the answers the walk acted on were given in the suite's run is the condition of its results; the order in which the walk's acts and the run's steps fall is not modelled, so a verdict, an accepted report and a stop are placed at some moment of the run.
- Kharej.Walk: the running state a path has while it is measured is not shown.
- Error-correction, buffer and segment-size recommendations: rates in floating point, each settled by reading one expression.
- The wait for a generation's ports to come free: the operating system decides.
- Menus, wizards, screens, files, sockets, services, subprocesses, TLS, HMAC and random numbers: no decidable property here; the token check is equality.
