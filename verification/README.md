# Proofs about the lifecycle core of the world management layer

The layer keeps research sessions, leases, agent workspaces, execs, targets and
incidents in an append-only control journal. A command runs under one lock, reads six
in-memory maps, appends whole-aggregate records in one transaction, and learns its own
effect only by replaying those records. Replay trusts nothing: every record is
validated by itself, against the revision before it, and against other aggregates. So
the protocol is written down twice, once in what commands write and once in what replay
accepts. This project models both and proves that they agree, and proves what the
protocol promises on top of them. Six smaller parts of the repository are modelled
beside it.

## How the model is laid out

The lifecycle core:

- `States` the state tables and retirement paths; `Records` the aggregates and the six
  maps; `Replay` what replay and the store accept; `Commands` what each of the 26
  commands appends, or why it is refused.
- `Invariant` the cross-aggregate invariant `Inv` and the two-state relation `Evolves`
  (nothing recorded is lost; a lease that has begun to terminate admits no new work).
- `Landing`, `Owners`, `Edits`, `Chains`, `Stamps` and the `...Commands` files: one
  appended record, then whole transactions, command by command. `Agreement` joins them.
- `Lifecycle` runs of commands; `Safety`, `Reachability`, `Progress`, `Attention` what
  holds over them.
- `Effects`, `TargetEffects`, `TransactionEffects`, `RetirementEffects`, `Outcomes`: what
  each committed command has changed in the maps, and that it has changed nothing else.
  From this follow `Isolation` (sessions do not interfere) and `Recoveries`.
- `OwnerVerdicts`, `TargetVerdicts`, `IncidentVerdicts`, `TerminationVerdicts`, `Verdicts`:
  when each command is accepted. What can be wrong with a command is written down as its
  faults, in terms of the records that it names by identity; a command is refused only for a
  fault that it has, and accepted if and only if it has none.
- `Histories` and `References`: what every journal that replay accepts has in common, whoever
  wrote it. `Revisions`: commands that expect a revision. `Stages`: what everything in a
  state must have been before.
- `Limits`, and `Recoveries` with `StuckRun`: two promises that are false as stated, each
  with a run that shows it and the exact condition under which it holds. `Framing` has a
  third.
- `Replicas` and `Interleavings`: cores that read a shared journal, through any sequence of
  requests, failed transactions, interrupted reads and restarts. `Core` the store and the
  core as objects, proved equal to that model; `Checks` and `Handlers` the loops and
  in-place updates of the source, proved equal to the functions of the model.

The smaller parts: `Idempotency` (derived keys), `Encodings` and `Manifest` (canonical
bytes), `Framing` (binary frames), `ContentReader` (the verifying reader), `GuestOutput`
(two output pumps and the supervisor under every interleaving), `Admission` and `Queue`.

## What is taken as given

- Strings are tokens: 0 is the empty string, and stands for any text the parsers refuse.
  Times are naturals, 0 is the zero time. Revisions are unbounded.
- Generated identities are new (`FreshOwners`, `FreshWork`), and the clock does not run
  backwards (`Allowed`). A command carries two readings: `guard` for its gates and a
  later `stamp` for what it writes, because `beginLeaseTermination` reads the clock twice.
- A release that passes its gate is stamped before the lease expires (`InTime`). Without
  this the code does not keep its promise: see `Limits.ReleaseAcceptedIff`.
- The store is a sequence of records and a table of replies, both written or neither; it
  appends a record only as the next revision of its aggregate.
- Digests and the checksum are parameters. Where distinct inputs must have distinct
  digests this is assumed for the messages at hand only.

## Where the code differs from what is promised

- A release checks expiry with one reading of the clock and stamps the record with a later
  one. If the lease expires in between, the store takes the record and replay refuses it,
  now and for ever after: `Limits.ReleaseAcceptedIff`, `LateReleaseExists`,
  `RefusedForever`.
- An incident that is sealed with one intended recovery and then recovered by another is
  stuck: its record never changes again, whatever runs. `StuckRun.StuckRecoveryExists` is an
  allowed run that ends so, `Recoveries.StuckForever` says that it stays so, and
  `Recoveries.ResolvableIff` that a recovery can be ended exactly when no two of its intended
  recoveries differ. A recovery with no intended action at all does not arise:
  `Recoveries.EveryRecoveryNamed`.
- A damaged complete frame is to be told from one that was cut short. It is, unless the
  damage is to its length: a frame whose length claims more than the stream still holds reads
  as incomplete, and the ledger then truncates it. `Framing.AlteredInStream` states exactly
  when, `Framing.LengthRaised` is an example with one byte changed, and
  `Framing.AlteredElsewhere` says that no other damage is taken for a cut.
- Replay fixes less than the commands do. The bundle of a run and the outcome of an exec may
  be rewritten by a later record even when these have ended; `Histories.BundleMayBeRewritten`
  and `Histories.OutcomeMayBeRewritten` say exactly when. No command writes such a record:
  `Reachability.EvidenceWrittenOnce` for bundles, `Effects.FinalizeExecDoes` for outcomes.

## Model

| member | source | states |
|---|---|---|
| Agreement.CommandsAgree | internal/application/core.go:81-141 | For every command, in every projection with the invariant: the records it appends, one or many, are taken by the store in order, accepted one by one by replay, lead to a projection with the invariant again, and lose nothing that was recorded |
| LeaseCommands.AcquireAgrees | internal/application/sessions.go:51-158 | Agreement for acquisition, whose session passes three states before its lease and agent exist |
| Agreement.RenewCommitted | internal/application/sessions.go:202-254 | Agreement for renewal |
| Agreement.TransitionAgentCommitted | internal/application/sessions.go:264-313 | Agreement for agent generation transitions, including the idle check before quiescing |
| Agreement.BindAgentPlanCommitted | internal/application/agent_plan_binding.go:25-107 | Agreement for binding an agent plan |
| Agreement.CreateExecCommitted | internal/application/execs.go:28-101 | Agreement for exec creation |
| Agreement.TransitionExecCommitted | internal/application/execs.go:129-174 | Agreement for exec transitions, which may write the agent first |
| Agreement.FinalizeExecCommitted | internal/application/execs.go:188-247 | Agreement for exec finalization, also under a terminating lease |
| TargetGrowth.CreateTargetAgrees | internal/application/targets.go:28-95 | Agreement for target creation |
| Agreement.QuarantineTargetCommitted | internal/application/targets.go:116-172 | Agreement for quarantine |
| Agreement.TransitionTargetGenCommitted | internal/application/targets.go:174-192 | Agreement for target generation transitions |
| Agreement.BindTargetPlanCommitted | internal/application/target_plan_binding.go:23-63 | Agreement for binding a target plan |
| Agreement.StartRunCommitted | internal/application/targets.go:206-294 | Agreement for starting a run |
| Agreement.BindRunPlanCommitted | internal/application/target_run_plan_binding.go:21-69 | Agreement for binding a run plan |
| Agreement.TransitionRunCommitted | internal/application/targets.go:313-347 | Agreement for run transitions |
| Agreement.FinalizeRunCommitted | internal/application/targets.go:361-446 | Agreement for run finalization in one or two revisions |
| Agreement.CreateOperationCommitted | internal/application/targets.go:461-550 | Agreement for operation creation |
| Agreement.ResetTargetCommitted | internal/application/targets.go:573-632 | Agreement for reset, which seals one realization and opens the next |
| Agreement.TransitionOperationCommitted | internal/application/targets.go:642-672 | Agreement for operation transitions |
| Agreement.CreateIncidentCommitted | internal/application/incidents.go:41-200 | Agreement for incident creation with its links to a run and an exec |
| Agreement.TransitionIncidentCommitted | internal/application/incidents.go:348-421 | Agreement for incident transitions |
| Agreement.RecoverIncidentCommitted | internal/application/incidents.go:501-724 | Agreement for recovery, which retires a realization state by state and rolls the lease over |
| SealCommands.SealRunIncidentsAgrees | internal/application/incident_evidence_sealing.go:29-139 | Agreement for sealing any list of incidents of a run |
| Agreement.BeginReleaseCommitted | internal/application/lease_termination.go:153-195 | Agreement for beginning a release stamped before expiry |
| Agreement.BeginExpiryCommitted | internal/application/lease_termination.go:201-300 | Agreement for beginning an expiry |
| Agreement.CompleteTerminationCommitted | internal/application/lease_termination.go:474-555 | Agreement for completion, which retires every target and the agent before closing lease and session |
| Chains.LatestIsHeld | internal/application/core.go:143-152 | The revision the store compares with, read off the journal, is the one in the replayed projection |
| Histories.AcceptedIsNext | internal/application/replay_validation.go:690-954 | A record that replay accepts, whoever wrote it, is the next revision of its aggregate, in the same state or one table step further in every part; a closed lease is not revised, and realizations are added one at a time |
| Histories.JournalContinues | internal/application/replay_validation.go:956-1227 | Over every journal that replay accepts, whoever wrote it, everything recorded stays recorded under its identity; states move only onward and terminal ones stay; bindings and terminations are written once; evidence changes only from open to sealed, by addition |
| Histories.BundleMayBeRewritten | internal/application/replay_validation.go:1102-1156 | Replay accepts another bundle for a run, ended or not, if and only if the bundle is legal for the state of the run |
| Histories.OutcomeMayBeRewritten | internal/application/replay_validation.go:823-853 | Replay accepts another outcome for an exec, ended or not, if and only if it is legal for the state of the exec |
| References.JournalCoherent | internal/application/replay_validation.go:166-954 | Every journal that replay accepts, whoever wrote it, leads to maps in which every reference between records is met by a record that belongs to it |
| Chains.ReachesPair | internal/application/incidents.go:701-724 | Two records that break the invariant in between and restore it together form a legal transaction |
| RecoveryCommands.RolledAgentAppends | internal/application/replay_validation.go:721-758 | Inside an agent recovery the lease lags its agent by exactly one generation, and replay takes the record |
| Lifecycle.StepConsistent | internal/application/core.go:99-141 | One command, committed or refused, keeps the projection equal to the replay of the whole journal, with the invariant |
| Lifecycle.AfterConsistent | internal/application/core.go:81-97 | The same over every run of commands, and everything recorded at its start is still recorded at its end |
| Safety.ClosedHasEnded | internal/application/lease_termination.go:474-581 | When a termination is terminal, every exec, run and operation of the lease is terminal, every generation of its agent and targets is terminal, and its session is released |
| Safety.ClosedForever | internal/application/lease_termination.go:474-581 | Over every later run the record of a closed lease never changes, nothing is admitted under it, and everything it owned stays ended |
| Safety.TerminationAdmitsNothing | internal/application/core.go:378-383 | From the moment a termination begins, the set of live work under the lease never grows, whatever runs |
| Safety.NoLiveWork | internal/application/lease_termination.go:561-581 | The completion gate passes exactly when the set of live work under the lease is empty |
| Progress.TerminationNeverDeadlocks | internal/application/lease_termination.go:474-581 | From every consistent system with a termination in progress, one allowed command for every live item and one more close the lease |
| Progress.Drains | internal/application/targets.go:756-761 | Any number of live items of a terminating lease can be ended by as many allowed commands |
| Progress.CompletionSucceeds | internal/application/lease_termination.go:474-555 | With the work done, completion meets none of its error cases, whatever states the generations are in |
| States.TargetRetirement | internal/application/core.go:487-500 | From every target state there is a path of legal steps to a terminal state, empty exactly for terminal states |
| States.AgentRetirement | internal/application/core.go:504-517 | The same for agent generations |
| Reachability.ReachableConsistent | internal/application/core.go:81-141 | Every system reachable from the empty journal is consistent |
| Reachability.EveryReachableOrderly | internal/application/replay_validation.go:690-899 | In every reachable system owners are one-to-one and in lockstep, at most one realization is live, and quiescent generations have no live exec |
| Reachability.OwnershipLockstep | internal/application/sessions.go:99-145 | A lease, its session and its agent name each other with equal provenance, the lease names the current generation, and the session state is a function of the termination |
| Reachability.OwnersOneToOne | internal/application/replay_validation.go:690-821 | Every session and agent belongs to exactly one lease, and no two leases share either |
| Reachability.OneLiveRealization | internal/application/replay_validation.go:128-142 | Target generations are numbered 1 to current with predecessor links, all but the last are terminal, each has at most one run, and only one run, on the current generation, can be live |
| Reachability.OneLiveAgentRealization | internal/application/incidents.go:674-716 | Agent generations are numbered with predecessor links and all but the last are terminal |
| Reachability.QuiesceExclusion | internal/application/core.go:387-428 | A quiescing or sealed agent generation has only terminal execs |
| Reachability.EvidenceWrittenOnce | internal/application/replay_validation.go:1002-1227 | Over every run bindings go from empty to complete once, the bundle of a terminal run is final, the identity of an incident never changes, and its evidence stays the same while the incident is open and once it is sealed: it changes only from open to sealed, by addition |
| Reachability.NoForgottenLease | internal/application/lease_termination.go:319-347 | At any time every reachable lease accepts work, needs attention or is finally terminated, and never two of these |
| Attention.ListLeaseTerminationWork | internal/application/lease_termination.go:319-347 | The listing loop returns exactly the leases that need attention, each once, by expiry and then identity, whatever order the map is read in |
| Attention.OrderUnique | internal/application/lease_termination.go:319-347 | Two such listings with the same members are equal |
| Attention.ThreeClasses | internal/application/core.go:378-383 | The three classes of leases are disjoint and cover every lease that the invariant allows |
| Attention.OverdueCanBegin | internal/application/lease_termination.go:201-238 | An overdue lease can begin to expire at once |
| Limits.ReleaseAcceptedIff | internal/application/lease_termination.go:249-300 | A release is always storable, and replay accepts it if and only if its stamp is before the expiry |
| Limits.LateReleaseExists | internal/application/replay_validation.go:250-328 | A concrete run in which a release is stored that replay refuses |
| Limits.RefusedForever | internal/application/core.go:81-97 | A journal with a refused record stays unreadable whatever is appended |
| StuckRun.StuckRecoveryExists | internal/application/incidents.go:501-588 | An allowed run from the empty journal ends with a recovering incident that names two different intended recoveries |
| Recoveries.StuckForever | internal/application/incidents.go:348-470 | A recovering incident whose intended recoveries differ is the same record after every later run |
| Recoveries.EveryRecoveryNamed | internal/application/incidents.go:501-588 | In every reachable system a recovering incident names at least one intended recovery |
| Recoveries.CompletableIff | internal/application/incidents.go:436-470 | A valid recovering incident can be completed by some request if and only if its actions name an intended recovery and no two different ones |
| Recoveries.RecoveryCompletableIff | internal/application/incidents.go:501-588 | After a committed recovery some completing request is accepted if and only if the sealed actions name no other intended recovery |
| Recoveries.ResolvableIff | internal/application/incidents.go:340-470 | In every reachable system some run resolves a recovering incident if and only if no two of its intended recoveries differ |
| Outcomes.StepDoes | internal/application/core.go:81-152 | Every allowed step changes the maps by exactly the effect of its command, or not at all if it is refused |
| Verdicts.VerdictIff | internal/application/execs.go:249-293 | In every projection with the invariant each of the 26 commands is accepted if and only if it has no fault, and the error of a refused one names a fault that it has |
| OwnerVerdicts.AcquireIs | internal/application/sessions.go:51-158 | Acquisition is refused only for a fault that it has, and accepted if and only if it has none: an empty text or a zero duration |
| OwnerVerdicts.RenewIs | internal/application/sessions.go:202-254 | Renewal is refused only for a fault that it has, and accepted if and only if it has none: no such lease, another revision, a lease that does not serve, an expiry that is not later |
| OwnerVerdicts.TransitionAgentIs | internal/application/sessions.go:264-313 | An agent transition is refused only for a fault that it has, and accepted if and only if it has none: no such realization, another revision, a step that is not in the table, live work of one that is to quiesce |
| OwnerVerdicts.BindAgentPlanIs | internal/application/agent_plan_binding.go:25-107 | Binding an agent plan is refused only for a fault that it has, and accepted if and only if it has none: an empty part, a realization that is not the current provisioning one, another revision, one that is bound, a lease that does not serve it |
| OwnerVerdicts.CreateExecIs | internal/application/execs.go:28-101 | Creating an exec is refused only for a fault that it has, and accepted if and only if it has none: no command, no such lease, one that does not serve or names a realization that is not current, or one that takes no work |
| OwnerVerdicts.TransitionExecIs | internal/application/execs.go:129-174 | An exec transition is refused only for a fault that it has, and accepted if and only if it has none: a terminal state, no such exec, another revision, a lease that does not serve, a step that is not in the table, a realization that takes no work |
| OwnerVerdicts.FinalizeExecIs | internal/application/execs.go:188-247 | Finalizing an exec is refused only for a fault that it has, and accepted if and only if it has none: a state that is not terminal, completion without exit 0 and cleanup, an incident that is unknown or about something else, another revision, a step that is not in the table |
| TargetVerdicts.CreateTargetIs | internal/application/targets.go:28-95 | Creating a target is refused only for a fault that it has, and accepted if and only if it has none: an empty text, no such lease, one that does not serve |
| TargetVerdicts.TransitionGenIs | internal/application/targets.go:174-192 | A realization transition is refused only for a fault that it has, and accepted if and only if it has none: no such realization, a lease that does not serve, another revision, a step that is not in the table |
| TargetVerdicts.BindGenIs | internal/application/target_plan_binding.go:23-63 | Binding a target plan is refused only for a fault that it has, and accepted if and only if it has none: an empty part, a realization that is not the current provisioning one, another revision, one that is bound, a lease that does not serve |
| TargetVerdicts.ResetIs | internal/application/targets.go:573-632 | Reset is refused only for a fault that it has, and accepted if and only if it has none: no such target, a lease that does not serve, another revision, a live run on the last realization, a last realization that is not resettable, failed or destroyed |
| TargetVerdicts.QuarantineIs | internal/application/targets.go:116-172 | Quarantine is refused only for a fault that it has, and accepted if and only if it has none: no such target, a lease that neither serves nor winds down, another revision, evidence about another realization, one that has ended otherwise |
| TargetVerdicts.StartRunIs | internal/application/targets.go:206-294 | Starting a run is refused only for a fault that it has, and accepted if and only if it has none: no materialization, no such target, a lease that does not serve, an agent realization that is not current or takes no work, a realization that is not ready or has a run |
| TargetVerdicts.BindRunIs | internal/application/target_run_plan_binding.go:21-69 | Binding a run plan is refused only for a fault that it has, and accepted if and only if it has none: an empty part, no such run, a lease that does not serve, another revision, a run that is not requested or is bound |
| TargetVerdicts.TransitionRunIs | internal/application/targets.go:313-347 | A run transition is refused only for a fault that it has, and accepted if and only if it has none: completed or failed asked for, no such run, a lease that does not serve (or wind down, if the state is terminal), another revision, a step that is not in the table |
| TargetVerdicts.FinalizeRunIs | internal/application/targets.go:361-446 | Finalizing a run is refused only for a fault that it has, and accepted if and only if it has none: a malformed bundle, no such run, another revision, an incident that is unknown or about something else, a lease that neither serves nor winds down, a run that may not end so |
| TargetVerdicts.CreateOperationIs | internal/application/targets.go:461-550 | Creating an operation is refused only for a fault that it has, and accepted if and only if it has none: no description, no such run, a lease that does not serve, a run that is not running, an agent realization that is not current or takes no work |
| TargetVerdicts.TransitionOperationIs | internal/application/targets.go:642-672 | An operation transition is refused only for a fault that it has, and accepted if and only if it has none: no such operation, a lease that does not serve (or wind down, if the state is terminal), another revision, a step that is not in the table |
| IncidentVerdicts.CreateIncidentIs | internal/application/incidents.go:41-200 | Creating an incident is refused only for a fault that it has, and accepted if and only if it has none: an empty text, evidence without identity, a part named without its whole, no such session, or something named that is not recorded or belongs elsewhere |
| IncidentVerdicts.TransitionIncidentIs | internal/application/incidents.go:348-470 | An incident transition is refused only for a fault that it has, and accepted if and only if it has none: a recovery asked for, sealing without evidence, resolution without completion, a completion that drops an action or leaves the one intended recovery undone, another revision, a step that is not in the table |
| IncidentVerdicts.RecoverIncidentIs | internal/application/incidents.go:501-724 | Recovery is refused only for a fault that it has, and accepted if and only if it has none: an incident that is not sealed or at another revision, a lease that does not serve, a resource that is not the current one of that lease, live work or a run without its bundle |
| IncidentVerdicts.SealRunIs | internal/application/incident_evidence_sealing.go:29-165 | Sealing is refused only for a fault that it has, and accepted if and only if it has none: no such run, one that has not ended with that bundle, or some listed incident that is unknown, about something else, past sealing, or has other evidence |
| TerminationVerdicts.BeginReleaseIs | internal/application/lease_termination.go:153-195 | Beginning a release is refused only for a fault that it has, and accepted if and only if it has none: an empty text, no such lease, another revision, a lease that is not active or has expired, a termination that has begun |
| TerminationVerdicts.BeginExpiryIs | internal/application/lease_termination.go:201-300 | Beginning an expiry is refused only for a fault that it has, and accepted if and only if it has none: an empty text, no such lease, another revision, a lease that is not active or has not expired, a termination that has begun |
| TerminationVerdicts.CompleteIs | internal/application/lease_termination.go:425-581 | Completion is refused only for a fault that it has, and accepted if and only if it has none: an empty text, no such lease, another revision, no termination in progress, live work under the lease |
| TerminationVerdicts.CompleteReleaseIs | internal/application/lease_termination.go:377-423 | The same for completing a release, which must also be of the kind and reason that was begun |
| TargetVerdicts.RunFound | internal/application/targets.go:296-303 | The run that a search by identity finds is the only one with that identity, and there is none if it finds none |
| Revisions.ExpectedIsMet | internal/application/targets.go:361-446 | A command that expects a revision is accepted only if the element it names, by identity, is recorded at exactly that revision |
| Revisions.AcceptedOnce | internal/application/core.go:81-152 | Once a command has changed something, every command that expects the same revision of the same element is refused, after whatever run of commands |
| Revisions.AfterContinues | internal/application/core.go:81-97 | Over every run of commands everything recorded goes on as replay demands |
| Stages.RunsAreLineal | internal/domain/states.go:134-237 | In the journal of every run, from each record to the next, whatever is in a state was in it before, or one table step before it, or is new and in its first state |
| Stages.RunsPassBarriers | internal/domain/states.go:134-237 | Whatever is past a state that the tables do not let anything bypass was in that state after some earlier record |
| Stages.RunBarriers | internal/domain/states.go:223-237 | No run completes without finalizing, running, observing and preparing |
| Stages.TargetBarriers | internal/domain/states.go:179-192 | No realization is destroyed without having been resettable, ready and instrumenting |
| Stages.AgentBarriers | internal/domain/states.go:134-149 | No agent realization is sealed without having been quiescing, ready and booting |
| Stages.WhatHasBeen | internal/domain/states.go:134-237 | In every run a ready target has been instrumenting, a running exec starting, a completed run finalizing, and a resolved incident sealed |
| Isolation.StepIsolated | internal/application/core.go:99-141 | Every record that an allowed step changes or adds belongs to the one session its command is about |
| Isolation.SessionsIsolated | internal/application/core.go:99-141 | Over every run of commands about other sessions, every record of a session, of all six kinds, stays what it was |
| Effects.ReplayedIsFolded | internal/application/core.go:99-141 | An accepted journal leads exactly where its records put the maps |
| Effects.RenewLeaseDoes | internal/application/sessions.go:202-254 | Only the expiry of an admitting lease moves, and only later |
| Effects.TransitionAgentDoes | internal/application/sessions.go:264-313 | Only the named generation changes state, along a legal step; it quiesces only when idle |
| Effects.BindAgentPlanDoes | internal/application/agent_plan_binding.go:25-107 | The current, unbound, provisioning generation of an admitting lease is bound, and nothing else |
| Effects.CreateExecDoes | internal/application/execs.go:28-101 | One requested exec is new, on the generation its admitting lease names, which accepts work |
| Effects.TransitionExecDoes | internal/application/execs.go:129-174 | The exec moves along a legal step; when it runs its generation runs with it, and no other record changes |
| Effects.FinalizeExecDoes | internal/application/execs.go:188-247 | The exec ends, a known exit code is kept, completion means exit 0 with confirmed cleanup, and incidents are united |
| TargetEffects.CreateTargetDoes | internal/application/targets.go:28-95 | One target is new, with one unbound provisioning generation, under an admitting lease |
| TargetEffects.TransitionTargetGenDoes | internal/application/targets.go:174-192 | Only the named realization changes state, along a legal step, under an admitting lease |
| TargetEffects.BindTargetPlanDoes | internal/application/target_plan_binding.go:23-63 | The current, unbound, provisioning realization is bound, and nothing else |
| TargetEffects.ResetTargetDoes | internal/application/targets.go:573-632 | The last realization has ended with its runs, and a next one follows with the same policy and capability |
| TargetEffects.QuarantineTargetDoes | internal/application/targets.go:116-172 | The current realization and its live runs are quarantined, its live operations cancelled, all else stays; a second quarantine changes nothing |
| TargetEffects.StartRunDoes | internal/application/targets.go:206-294 | One requested run is new, the first of the ready current realization, for the accepting generation the lease names |
| TargetEffects.BindRunPlanDoes | internal/application/target_run_plan_binding.go:21-69 | Only the named requested run is bound, once |
| TargetEffects.TransitionRunDoes | internal/application/targets.go:313-347 | Only the named run moves, never to completed or failed; under a terminating lease only to a terminal state |
| TargetEffects.FinalizeRunDoes | internal/application/targets.go:361-446 | The named live run ends with its bundle and united incidents, in one or two revisions, and its ready realization becomes resettable |
| TargetEffects.CreateOperationDoes | internal/application/targets.go:461-550 | One requested operation is new, on a running run whose agent generation accepts work |
| TargetEffects.TransitionOperationDoes | internal/application/targets.go:642-672 | Only the named operation moves; under a terminating lease only to a terminal state |
| TransactionEffects.AcquireDoes | internal/application/sessions.go:99-145 | A leased session, its active lease and its agent workspace are new, name each other, and nothing else changes |
| TransactionEffects.CreateIncidentDoes | internal/application/incidents.go:99-188 | The open incident is recorded and the named run and exec take a link to it; nothing else changes |
| TransactionEffects.TransitionIncidentDoes | internal/application/incidents.go:348-470 | The incident moves with its evidence untouched; recovery resolves only by a completion that keeps every action and holds the one physical recovery intended |
| RetirementEffects.RecoverIncidentDoes | internal/application/incidents.go:501-588 | The sealed incident records its intent and exactly one resource is rolled over, under an admitting lease |
| RetirementEffects.RecoverTargetDoes | internal/application/incidents.go:590-646 | The target's last realization ends, a linked successor follows, runs and operations stay, and every run of it was finished with a bundle |
| RetirementEffects.RecoverAgentDoes | internal/application/incidents.go:648-724 | The agent's last generation ends with no live exec, a linked successor follows, and the lease moves to it |
| RetirementEffects.SealRunIncidentsDoes | internal/application/incident_evidence_sealing.go:29-165 | Every listed incident belongs to the finished run with that bundle, is sealed with it and keeps its earlier artifacts as a prefix; sealed ones and all others stay |
| RetirementEffects.BeginTerminationDoes | internal/application/lease_termination.go:249-300 | The lease records kind, reason, key and revision, the session follows, and nothing else changes |
| RetirementEffects.CompleteTerminationDoes | internal/application/lease_termination.go:474-555 | Every target of the lease and its agent have ended, lease and session are closed by kind, and nothing else changes |
| Interleavings.RestartEquivalence | internal/application/core.go:60-97 | After any interleaving of requests, failed transactions, interrupted reads and restarts, the journal is readable, and both the running core and a restarted one, given enough deliveries, end with the same maps: the replay of the whole journal |
| Interleavings.NeverRefused | internal/application/core.go:81-141 | In no synchronisation, restart or request of any interleaving does a core meet a record that it refuses |
| Interleavings.InterleavingIsRun | internal/application/core.go:81-152 | The commands committed in any interleaving form an allowed run of the model whose journal and projection are those of the store |
| Interleavings.EveryKeyOnce | internal/application/core.go:143-152 | The journal is the concatenation of the records of the replies, each idempotency key exactly once |
| Interleavings.ExecutedIs | internal/application/execs.go:249-293 | A request is answered fresh exactly with its commit, as before for a repeated key, or without any change: a refused or conflicting one leaves journal, replies and the maps as the command saw them, and changes no map of a core that had read to the end; a core that could not read to the end has committed or not, and is still sound |
| Replicas.SyncSound | internal/application/core.go:81-97 | However often the store fails to deliver, the maps are the replay of the journal up to the position, and a refusal means that no core can read the journal |
| Replicas.SyncCompletes | internal/application/core.go:81-97 | Enough deliveries of 1000 records bring a core to the end of a readable journal |
| Replicas.ExecutedSafe | internal/application/core.go:143-152 | Whatever the answer, journal and replies are unchanged or hold exactly the records and reply of the command in addition, and positions stay good |
| Core.Core.Apply | internal/application/core.go:99-141 | A record enters the map of its kind exactly when the validator of its kind accepts it; a refused one leaves the maps alone |
| Core.Core.SyncLocked | internal/application/core.go:81-97 | The loop over batches of 1000 computes the synchronisation of the model, with the store failing at any batch |
| Core.Core.RunIdempotent | internal/application/execs.go:259-281 | Running the handler in an open transaction, once for every key, computes the transaction of the model |
| Core.Core.Execute | internal/application/execs.go:249-293 | Synchronise, transact, synchronise computes the request of the model, and appends at most the records and reply of this command, also when it ends unsynchronised |
| Core.Drive | internal/application/core.go:60-97 | Objects driven through any sequence of events, restarts included, hold exactly what the model of interleavings says |
| Checks.TargetIdsForLease | internal/application/core.go:463-472 | The loop lists exactly the targets of the lease in ascending order |
| Checks.LeaseWorkFinalized | internal/application/lease_termination.go:561-581 | The loops decide exactly that no exec, run or operation of the lease is live |
| Checks.AgentGenerationIdle | internal/application/core.go:406-428 | The loops decide exactly that no exec of the generation and no operation of its runs is live |
| Checks.Accepted | internal/application/core.go:99-141 | The validators of all kinds, with their loops, decide exactly what replay accepts |
| Checks.AgentAccepted | internal/application/replay_validation.go:789-821 | The loops over generations, workspace identities and history together decide exactly which agent records replay accepts |
| Checks.ExecAccepted | internal/application/replay_validation.go:823-853 | The loops over incident identities and their links decide exactly which exec records replay accepts |
| Checks.IncidentAccepted | internal/application/replay_validation.go:901-954 | Decides exactly which incident records replay accepts |
| Checks.EvidenceContinues | internal/application/replay_validation.go:1201-1227 | The nested loops over artifacts decide exactly the evidence relation between two revisions |
| Checks.TargetAccepted | internal/application/replay_validation.go:855-899 | The validation and history loops together decide exactly which target records replay accepts |
| Checks.TargetValid | internal/application/replay_validation.go:439-610 | The loops over generations, runs and operations decide exactly the validity of a target by itself |
| Checks.RunsContinue | internal/application/replay_validation.go:1102-1128 | Matching runs through a map decides exactly the run history relation |
| Checks.OperationsContinue | internal/application/replay_validation.go:1158-1178 | Matching operations through a map decides exactly the operation history relation |
| Checks.RememberRuns | internal/application/replay_validation.go:144-150 | The map of seen runs is filled exactly when their identities are distinct |
| Checks.OperationsValid | internal/application/replay_validation.go:567-609 | The loop over operations with the remembered generations decides exactly their validity |
| Handlers.AppendTargetTransitions | internal/application/core.go:519-532 | Succeeds exactly on legal paths, appending every revision on the way |
| Handlers.AppendAgentTransitions | internal/application/core.go:534-547 | The same for an agent generation |
| Handlers.BeginLeaseTermination | internal/application/lease_termination.go:249-300 | The step-by-step updates append exactly the records of the model, or fail with its error |
| Handlers.CompleteLeaseTermination | internal/application/lease_termination.go:474-555 | The same for completion, with its loop over the targets |
| Handlers.AcquireSession | internal/application/sessions.go:99-145 | The same for acquisition |
| Handlers.TransitionExecState | internal/application/execs.go:129-174 | The same for exec transitions |
| Handlers.FinalizeTargetRun | internal/application/targets.go:361-446 | The same for run finalization |
| Handlers.QuarantineGeneration | internal/application/targets.go:116-172 | The element-by-element loop gives the quarantined target of the model |
| Handlers.RecoverTargetGeneration | internal/application/incidents.go:590-646 | The same for target recovery |
| Handlers.RecoverAgentGeneration | internal/application/incidents.go:648-724 | The same for agent recovery |
| Handlers.RecoverSealedIncident | internal/application/incidents.go:501-588 | The same for recovering a sealed incident |
| Handlers.TransitionAgentState | internal/application/sessions.go:264-313 | The same for agent generations, with the loops over the work of one that is to quiesce |
| Handlers.SealOne | internal/application/incident_evidence_sealing.go:85-117 | One turn of the sealing loop appends exactly the record of the model, or fails with its error |
| Handlers.SealIncidents | internal/application/incident_evidence_sealing.go:84-117 | The loop appends exactly the records of the model; the first incident that cannot be sealed decides the error |
| Handlers.SealRunEvidence | internal/application/incident_evidence_sealing.go:29-139 | The gates and the loop append exactly the records of the model, or fail with its error |
| Handlers.QuarantineCurrent | internal/application/targets.go:116-172 | The same for quarantine, which appends nothing for a generation that is already quarantined |
| Handlers.RunCommand | internal/application/execs.go:259-281 | For every command the open transaction holds exactly the records of the model, or the command fails with its error |
| Handlers.AppendExactArtifact | internal/application/incident_evidence_sealing.go:141-153 | The scan adds the artifact unless it is there, and refuses a reference that is used for another |
| Handlers.PhysicalIntent | internal/application/incidents.go:436-470 | The scan finds the one physical action the recorded actions call for, or reports that there are several |
| States.AgentTable | internal/domain/states.go:134-149 | The table filled by loops holds exactly the agent transitions, failures included |
| States.TargetTable | internal/domain/states.go:179-192 | The same for target generations |
| States.RunTable | internal/domain/states.go:223-237 | The same for runs |
| Records.Normalized | internal/application/incidents.go:300-316 | Strictly ascending with exactly the same members |
| Records.Merged | internal/application/incidents.go:318-321 | Strictly ascending, so without repetition, with exactly the members of both lists |
| Idempotency.DerivedIsCanonical | internal/domain/idempotency.go:22-48 | A key derived from canonical parts is canonical: valid UTF-8, stable under trimming, at most 1024 bytes |
| Idempotency.DeriveInjective | internal/domain/idempotency.go:35-67 | Distinct pairs have distinct keys, in the readable or the digest form or one of each |
| Idempotency.ChainInjective | internal/domain/idempotency.go:35-67 | Distinct chains of derivations of any lengths, from roots without a slash, have distinct keys |
| Idempotency.TruncateValidUtf8 | internal/domain/idempotency.go:69-78 | The shrinking loop returns the longest valid prefix within the limit |
| Idempotency.TruncatedValid | internal/domain/idempotency.go:69-78 | Truncation keeps a valid prefix and loses at most three bytes more than it must |
| Idempotency.LongestValidIsLongest | internal/domain/idempotency.go:69-78 | No longer prefix is valid |
| Encodings.SortedKeys | internal/domain/capability.go:100-121 | The keys in strictly increasing order, whatever order the map is read in |
| Encodings.WriteCanonicalMap | internal/domain/capability.go:115-121 | The loop appends the canonical bytes of the map |
| Encodings.MapSplit | internal/domain/capability.go:115-126 | The bytes of a map determine the map and where it ends |
| Encodings.FingerprintInjective | internal/domain/capability.go:100-126 | Fingerprint bytes determine all capabilities and the evidence, although the list has no count and its end marker is a legal name |
| Manifest.HasSeenAncestor | internal/domain/material_models.go:64-87 | The walk to the parents finds a seen ancestor exactly when there is one |
| Manifest.NewManifest | internal/domain/material_models.go:64-87 | Accepts exactly the entries without an empty field, repeated path or path under another, and keeps them sorted |
| Manifest.WriteManifest | internal/domain/material_models.go:89-105 | The loops over entries and their sidecars append the canonical bytes of the entries |
| Manifest.ManifestInjective | internal/domain/material_models.go:89-105 | Manifest bytes determine the entries |
| Manifest.OrderDoesNotMatter | internal/domain/material_models.go:64-105 | Accepted manifests with the same entries have the same bytes |
| Framing.Marshal | internal/framing/framing.go:112-129 | The buffer filled part by part is the encoding, or the frame is refused for its version or its size |
| Framing.FrameRoundTrip | internal/framing/framing.go:58-129 | Decoding an encoded frame gives it back with its byte count, whatever follows |
| Framing.FrameCutShort | internal/framing/framing.go:58-109 | A frame cut anywhere is reported incomplete and as nothing else |
| Framing.StreamRoundTrip | internal/framing/framing.go:58-129 | A concatenation of frames reads as those frames, then as what follows |
| Framing.StreamCutAnywhere | internal/framing/framing.go:58-109 | Cut at any byte, a stream reads as exactly the complete frames, then ends cleanly on a boundary and incompletely elsewhere; where the stream fails instead of ending, it never ends cleanly |
| Framing.AlteredReadsIncomplete | internal/framing/framing.go:7-9 | The bytes of a complete frame, however altered, read as incomplete if and only if they still begin like a frame and claim a legal payload longer than what is left |
| Framing.AlteredElsewhere | internal/framing/framing.go:7-9 | With the length left alone, every alteration reads as bad magic, version or checksum, or as a frame of the same size whose checksum matches |
| Framing.AlteredInStream | internal/ledger/segment.go:84-102 | In a stream of frames, reading stops at the altered one as if the stream had been cut there exactly under that condition |
| Framing.LengthRaised | internal/framing/framing.go:58-109 | One byte raised by one turns a stream of one frame into an incomplete one |
| Framing.Decoder.Read | internal/framing/framing.go:58-109 | The stepwise decoder computes the decoding function and takes from the stream exactly the bytes it reports, for frames and for every error |
| Framing.WriteFrame | internal/framing/framing.go:133-150 | Over arbitrary short writes a prefix of the frame is emitted, and success means all of it |
| ContentReader.ReadIsSound | adapters/forensicartifacts/reader.go:42-98 | One read never exceeds the declared size, ends only for verified content, reports every byte once, and fails for good |
| ContentReader.ReadsAreSound | adapters/forensicartifacts/reader.go:36-98 | Any sequence of reads reports a beginning of the hashed content, no longer than declared |
| ContentReader.ReadFailsIff | adapters/forensicartifacts/reader.go:42-98 | A read fails if and only if it is cancelled, answered with an error or too much, or is the last and size or digest do not match; the error is that fault |
| ContentReader.DeliveredIsRead | adapters/forensicartifacts/reader.go:42-98 | Content of the declared size and digest, delivered in any portions into any buffers, is reported completely, and then the end of it |
| ContentReader.ReadsVouchOnly | adapters/forensicartifacts/reader.go:42-98 | Content that does not match is never reported as ended, however it is read |
| ContentReader.DrainedIff | adapters/forensicartifacts/reader.go:100-132 | Draining vouches for the content if and only if what is left of the stream is delivered, with not too many empty answers in a row, into content that matches |
| ContentReader.ClosesIff | adapters/forensicartifacts/reader.go:100-132 | Closing reports no error if and only if the stream below closes and the content has been vouched for or can be drained |
| ContentReader.DrainFails | adapters/forensicartifacts/reader.go:100-132 | An error of draining is a fault of one of its calls, or the last hundred answers in a row were empty |
| ContentReader.Reader.ReadLocked | adapters/forensicartifacts/reader.go:42-84 | The in-place read is one step of the model |
| ContentReader.Reader.Close | adapters/forensicartifacts/reader.go:100-132 | The draining loop ends with the reader and the error that the model of draining gives |
| GuestOutput.GuestIsSafe | internal/guest/supervisor.go:16-144 | Under every interleaving the two streams together stay within the output budget, standard input within its limit, at most one terminal frame is sent, and no output follows one that confirms cleanup |
| GuestOutput.ScheduleSafe | internal/guest/supervisor.go:184-303 | Under every schedule reserved bytes are emitted, held or left in the budget, and frames are in order |
| GuestOutput.PumpRead | internal/guest/supervisor.go:223-262 | A pump that reserves from the shared budget performs exactly the read step of the schedules, and keeps them safe |
| Admission.Add | internal/admission/resources.go:59-86 | Addition in place equals exact addition, and is refused exactly for invalid vectors and overflow |
| Admission.ExactAdmission | internal/admission/resources.go:241-303 | An eligible request without pressure is admitted exactly when all parts together fit in every dimension and device, as unbounded integers |
| Admission.DecisionIs | internal/admission/resources.go:241-303 | Each refusal has exactly its cause: malformed, over its limits, pressure, sums that cannot be represented, not enough; under pressure nothing is admitted |
| Admission.PressureReservesNothing | internal/admission/resources.go:267-270 | Under pressure the reservations stay as they are |
| Admission.Conservation | internal/admission/resources.go:88-119 | Reserved, warm pool, control reserve, granted cost and the remainder sum exactly to the allocatable vector |
| Admission.NeverOverCommitted | internal/admission/resources.go:241-303 | Any run of decisions that reserves each admitted cost never over-commits |
| Queue.OrderQueue | internal/admission/pressure.go:162-185 | A permutation of the queue in which of any two places the earlier has the precedence, or an error for an interval that is not positive |
| Queue.StrictWeakOrder | internal/admission/pressure.go:162-185 | The comparison is irreflexive and transitive, and ties are equal items |
| Queue.AheadIff | internal/admission/pressure.go:162-185 | Of equal priorities the one enqueued earlier is ahead, then the smaller key; of others the lower is ahead exactly when it has gained the difference, a point for each interval it has waited longer and one more if the rest completes one |
| Queue.OrderedInTurn | internal/admission/pressure.go:162-185 | Sorted by score means placed by that precedence, for any two places |
| Queue.PriorityHolds | internal/admission/pressure.go:162-185 | A higher priority is placed first unless the other has waited longer by more than the difference less one, in intervals |
| Queue.BoundaryIff | internal/admission/pressure.go:162-185 | Between that and the whole difference the lower priority goes first exactly when the remainders of the two waits make up an interval |
| Queue.AgeingPreventsStarvation | internal/admission/pressure.go:162-185 | An item that has waited one interval more for every point it lacks is ahead, at every later time |
| Queue.PlacedAhead | internal/admission/pressure.go:162-185 | It is placed ahead in every ordering of every queue that holds both |

## Left out

- The database, the hash chain of the journal and its locking: the store is a sequence of records and a table of replies.
- JSON encoding, identifier parsing, deadlines and caller metadata: a text that parsers refuse is the token 0.
- Authorization and the read-only views: they only read the maps.
- Metrics and collector coverage of incidents, and argument lists of execs: one token each, because no rule of the protocol depends on their contents.
- Wrap-around of 64-bit revisions: revisions are unbounded naturals.
- Whether operations are terminal when their run is, and whether runs have ended when an agent quiesces: the code checks neither, so neither is claimed.
- Lists of recovery actions and acknowledgements: modelled as sets, because the code normalises and compares them as sets.
- Aliasing between the maps and the records handed out: aggregates are values, so the cloning functions have nothing to do.
- Handlers: only the commands whose source loops or writes several records have a step-by-step version; the others append what their function computes.
- Several cores writing to one store at the same time: one core runs at a time, and a restart replaces it.
- Encodings.FingerprintInjective: evidence strings are shorter than 0x73757070 bytes, the shortest length whose encoding could be taken for a status.
- Idempotency.ChainInjective: collision freedom is assumed for the pairs at the same distance from the ends of the two chains.
- GuestOutput: process start, signals, grace periods and the contents of frames; a pump is a reader that reserves and emits.
- Admission: pressure readings are one boolean, and the decision digest is not modelled.
- Queue: durations do not overflow.
- Selection of revocation candidates and the pressure stages of admission.
- Orchestration, remote procedure calls, drivers, policy files, the input cache and the public facade.
