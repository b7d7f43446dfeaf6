# Verification of the Opsgenie operator

The operator keeps five kinds of Opsgenie objects (services, teams, schedules, escalations and incident
rules) in agreement with custom resources of a Kubernetes cluster. Each `Reconcile` is a small program of
calls: read the resource, resolve references, look at the remote, create, import or update there, then write
the status. Any call can fail, with or without having taken effect; a read can be stale; a reconcile can die
between two calls; users edit specs meanwhile; several reconciles may run at once. This project models those
programs and proves what survives all of that, and what one undisturbed reconcile achieves.

## Layers

- `Environment.dfy`: the two stores, the calls, and the contract of a call (`Handles`): every admitted
  combination of reply and effect. `Serve` is the well-behaved case.
- `Programs.dfy`: the five reconciles as step machines: the call each is about to make (`RequestOf`) and what it
  does with the reply (`Resume`).
- `Protocol.dfy`: any number of reconciles against the stores. An event is one call with any admitted reply, a
  start, a crash, a spec edit, or a remote object that somebody else creates. Two ledgers record who created an
  object and which created ids were lost.
- `Invariants.dfy`, `Ledger.dfy`, `Naming.dfy`, `Safety.dfy`: what every step keeps, and the theorems over runs.
- `Undisturbed.dfy` and the five `*Convergence.dfy`: one reconcile that runs alone, in full detail, and its
  repetition. `Recovery.dfy` takes such reconciles as continuations of arbitrary runs.
- `Agreement.dfy`, `Interference.dfy`, `Stability.dfy`, `Completion.dfy`: reconciles that do not run alone. Every one
  that ends with a requeue establishes agreement, and agreement is never lost, amid steps of all other reconciles.
- `Limits.dfy`: runs that show how far all this reaches: unbounded duplicates, agreement out of reach, agreement that
  is rewritten for ever, agreement that a leftover reconcile undoes.
- `Reconcilers.dfy`: the reconciles in the controllers' own form, with statements, early exits and loops. A
  `Session` only admits the call that the step machine is about to make and the reply may be anything, so a method
  that ends in `Done` with its own outcome issues exactly the calls of its program.
- `Tags.dfy`, `Members.dfy`, `Rotations.dfy`, `Escalations.dfy`, `IncidentRules.dfy`: the comparison and
  conversion loops that decide whether something is written.
- `DeepCopy.dfy`: the generated deep copies, on the heap.

## What is assumed of the environment

- Remote ids are non-empty and new when handed out; remote objects are never deleted.
- A lookup by id or by name returns the object as it is now. Names of teams, schedules and escalations are unique.
- An update stores the fields it is sent and leaves absent ones alone; an empty string or slice is absent. The
  properties of an incident rule are always sent, and its service never changes. Rules exist and can be listed only
  below a service that exists.
- The remote chooses the names it shows for recipients of escalation rules, anew with every request that sends rules.
- The cluster keeps versions of a resource. A read may return any version. A status write succeeds only from the
  current version and leaves the spec alone; a spec edit leaves the status alone.
- Runs start with empty statuses and any remote that has unique names.
- A start date carries the instant that parsing gives it, if any.

In `*Convergence.dfy`, `Ready` says that the resource exists, that the stores are in order (which every run keeps,
`Safety.Reachable`) and that its references resolve or its rotations convert. `Stuck` names the states in which no
number of reconciles reaches agreement, in terms of spec and remote alone; both directions are proved.

What the decisions and conversions mean is stated in the fields of spec and remote, apart from the functions that
compute them: `QuietExactly` says for services, teams, schedules and escalations exactly when nothing is written,
`Agreement.AgreesExactly` spells agreement for all five kinds, and the predicates named `…Follows` say what is sent.

`Stability.AgreementIsStable` and `Completion.AgreementAmidInterference` ask for three things a caller can see: the spec
is not edited to another one and reads of the resource during the run return it (any version of it, stale ones too);
reconciles that were unfinished before the run hold no other spec and are not about to write the id of an object
that was made from another one (`NoOlder`); and the kinds that are found by name
have fixed names, this one's being its own (`Alone`). `Limits.LeftoverUndoes` shows that the second cannot be dropped.

## Where code and documentation differ

The model follows the code.

- Days are numbered 1 (Monday) to 7; the comments of the API types (`api/v1beta1/opsgenieschedule_types.go:81-85`)
  say 0 (Sunday) to 6.
- The rule comparison of escalations holds a recipient's id against the name the remote shows
  (`internal/controller/opsgenieescalation_controller.go:309`), so an escalation in agreement may be rewritten by
  every reconcile. `QuietExactly` says exactly when, `AgreedYetRewritten` and `EscalationKeepsWriting` show that it happens.
- The comment of `equalStringSlices` says that it compares elements; repeated tags fool it, exactly as
  `TagCheckExactForRemote` and `TagCheckExactForSpec` say.
- `isMembersUpdateRequired` keeps one role per user, so a spec that lists a user twice may be rewritten for ever or
  never (`MemberCheckExact`, `SelfDifference`).
- The schedule comparison ignores name, owner team, participants and restrictions; a service's team is sent at
  create only; any failure to read a team by name leads to a create; an unresolved team of a service ends its
  reconcile without an error or a requeue; importing a schedule asks for no requeue.
- A team, escalation or role participant that has only a username is converted to one without an identifier.

## Model

| member | source | states |
|---|---|---|
| `Safety.ConservationOfCreates` | internal/controller/opsgenieservice_controller.go:95-118 | In every reachable state the remote objects created for a service or an incident rule number: the ids any version of its status held, plus the created ids that were lost, plus the reconciles still about to write one; for a service the first is one if its status holds an id and none otherwise. |
| `Safety.CreatesSplit` | internal/controller/opsgenieservice_controller.go:95-118 | The same as an equality of sets: the created objects are the held, the lost and the awaited ones, and these three are pairwise disjoint. |
| `Safety.NoLossNoDuplicate` | internal/controller/opsgenieservice_controller.go:105-118 | With no create in flight, a service has at most one object exactly when no created id was lost, or one was and none is persisted. |
| `Limits.LostCreate` | internal/controller/opsgenieservice_controller.go:105-118 | A reconcile of any service without an id whose team resolves, directly or through a reference, that dies between create and status write adds one lost object and leaves everything else as it was. |
| `Limits.DuplicatesUnbounded` | internal/controller/opsgenieservice_controller.go:105-118 | From any reachable state in which a service without an id has a team that resolves, directly or through a reference, some run loses any given number of further creates: nothing bounds duplicates of services. |
| `Safety.NamedCreatedOnce` | internal/controller/opsgenieschedule_controller.go:81-109 | With a fixed name, at most one object is ever created for a team, schedule or escalation, whatever status writes are lost. |
| `Safety.IdPermanence` | internal/controller/opsgenieservice_controller.go:63-118 | Along any continuation of any run a persisted id is never cleared, and for services, schedules and escalations never replaced. |
| `Safety.TeamIdPermanence` | internal/controller/opsgenieteam_controller.go:54-72 | With a fixed name a persisted team id is never replaced either. |
| `Safety.UpdateTarget` | internal/controller/opsgenieescalation_controller.go:83-128 | Every remote update goes to the id that the reconcile's own version of its own resource holds. |
| `Safety.UpdatesTargetCurrentId` | internal/controller/opsgenieschedule_controller.go:185-195 | For services, schedules and escalations that is the id the status holds now, however stale the version that was read. |
| `Safety.OwnershipByCreation` | internal/controller/opsgenieservice_controller.go:95-115 | No two services, and no two incident rules, ever hold the same remote id. |
| `Safety.OwnershipByName` | internal/controller/opsgenieteam_controller.go:54-93 | Two teams, schedules or escalations with fixed names that ever hold the same id have the same name. |
| `Safety.NonInterference` | internal/controller/opsgenieescalation_controller.go:97-127 | No call of one resource's reconcile changes the remote object that a separate resource holds. |
| `Safety.ReferenceIntegrity` | internal/controller/opsgenieescalation_controller.go:157-206 | In every reachable state, stale reads included, each non-empty status id of any version and each non-empty id a pending request took from a reference names a remote object of the right kind. |
| `Safety.Reachable` | internal/controller/opsgenieservice_controller.go:45-125 | Every run from initial stores keeps the whole invariant: stores in order, what running reconciles know, permanence of ids and the ledger of creates. |
| `Invariants.BaseKept` | internal/controller/opsgenieescalation_controller.go:60-154 | Every step of the protocol keeps the stores in order and keeps true what each running reconcile has read, resolved or created. |
| `Invariants.IdsKeptByStep` | internal/controller/opsgenieescalation_controller.go:106-147 | Every step keeps status ids from being cleared or, where they are set once, replaced. |
| `Ledger.LedgerKept` | internal/controller/opsgenieservice_controller.go:105-118 | Every step keeps the ledger: created ids are awaited by one reconcile, held or lost, and services and rules hold only what was created for them. |
| `Naming.NamesKept` | internal/controller/opsgenieteam_controller.go:53-118 | Every step that keeps names fixed keeps every held, created or just found object of a named kind bearing its resource's name. |
| `Programs.ReconcileTerminates` | internal/controller/opsgenieescalation_controller.go:60-154 | Whatever is replied, each call of each of the five reconciles is nearer to the end than the one before, and on the same resource. |
| `Programs.FailureEnds` | internal/controller/opsgenieescalation_controller.go:83-153 | A call that does not succeed, whatever else is replied, ends the reconcile with an error, except that a resource that is gone is left alone, the unresolved team of a service is swallowed, a schedule whose name is taken is looked up, and a team or escalation that could not be looked up by name is created. |
| `Programs.NothingToDoEnds` | internal/controller/opsgenieservice_controller.go:27-59 | A service without team id and reference ends without an error; an escalation or rule without its reference ends with one. |
| `Programs.SuccessEnds` | internal/controller/opsgenieschedule_controller.go:107-127 | A last status write that succeeds asks for a requeue after 5 minutes, after the create of a schedule 60, after its import none. |
| `Undisturbed.SoloIsARun` | internal/controller/opsgenieschedule_controller.go:49-68 | A reconcile that runs alone without failures is a run of the protocol with the same effect on both stores. |
| `Undisturbed.QuietChangesNothing` | internal/controller/opsgenieschedule_controller.go:179-181 | A reconcile that issues no write leaves both stores as they are. |
| `Undisturbed.ReconcileKeepsStores` | internal/controller/opsgenieschedule_controller.go:49-68 | An undisturbed reconcile of any kind keeps the stores in order, drops no version of a resource and no remote object. |
| `Recovery.ReconcileIsARun` | internal/controller/opsgenieservice_controller.go:45-125 | Beside any unfinished reconciles a new one can be started and carried to its end with the effect it has alone. |
| `Recovery.TeamRecovers` | internal/controller/opsgenieteam_controller.go:53-118 | From every reachable state, whatever failed before, some continuation brings a team that is not stuck to agreement, after which its reconciles write nothing. |
| `Recovery.ServiceRecovers` | internal/controller/opsgenieservice_controller.go:63-132 | The same for a service whose team resolves. |
| `Recovery.ScheduleRecovers` | internal/controller/opsgenieschedule_controller.go:63-208 | The same for a schedule whose rotations convert. |
| `Recovery.EscalationRecovers` | internal/controller/opsgenieescalation_controller.go:77-153 | The same for an escalation whose references resolve, up to agreement, unless an update is held back by a name that is taken. |
| `Recovery.LostIsAdopted` | internal/controller/opsgenieteam_controller.go:53-72 | With fixed names, an object that was created for a team, schedule or escalation and whose id was lost is what the next reconcile that looks by name puts into the status, without creating anything. |
| `Interference.OnlyOwnUpdates` | internal/controller/opsgenieteam_controller.go:74-92 | An object created for a service or rule, or bearing the fixed name of a team, schedule or escalation that no other has, is only ever updated by reconciles of that resource. |
| `Interference.StepDevelops` | internal/controller/opsgenieteam_controller.go:120-149 | Every step of the protocol leaves such objects in place and keeps whatever agrees with the spec in agreement, as long as no unfinished reconcile holds another spec. |
| `Interference.NoOlderKept` | internal/controller/opsgenieteam_controller.go:47-51 | Every step keeps that condition, if the spec stays and reads return it: nothing is sent or about to be persisted that was not made from it. |
| `Agreement.UpdateEvolves` | internal/controller/opsgenieschedule_controller.go:185-193 | Whatever has become of an object since it was read, an update with the fields of the spec keeps it in agreement if it agreed, and one that sends all fields brings it to agreement unless a field is stuck. |
| `Agreement.AgreesExactly` | internal/controller/opsgenieescalation_controller.go:274-315 | Agreement of an object with a spec, for all five kinds, in the fields themselves. |
| `Agreement.TeamMembersUpdate` | internal/controller/opsgenieteam_controller.go:136-149 | The members update brings the members to agreement and undoes neither name nor description. |
| `Stability.AgreementIsStable` | internal/controller/opsgenieschedule_controller.go:63-68 | In every run, whatever fails, is stale, dies or interleaves, a resource of any kind that agrees with its spec goes on to agree while the spec stays and no older unfinished reconcile of it holds another one. |
| `Stability.SettledIsAtRest` | internal/controller/opsgenieschedule_controller.go:179-181 | A service, team or schedule in agreement is at rest: reconciles that run alone write nothing. |
| `Completion.OwnStep` | internal/controller/opsgenieescalation_controller.go:83-153 | Whatever is replied to a reconcile, what it has concluded so far stays true of its object, and if it ends with a requeue its object agrees or never can. |
| `Completion.AgreementAmidInterference` | internal/controller/opsgenieescalation_controller.go:60-154 | Each reconcile of each kind that starts in some reachable state and ends with a requeue leaves the status with the id of an object that agrees with the spec or that no update can make agree, amid any failures, stale reads, crashes and reconciles of any resources, this one included, as long as the spec stays and no older unfinished reconcile of it holds another one. |
| `Limits.LeftoverUndoes` | internal/controller/opsgenieservice_controller.go:63-92 | Without the last condition agreement is not stable: from any reachable state in which a service differs from its spec, a run leads to agreement and one call of a reconcile that holds an older spec undoes it without any edit. |
| `Limits.ServiceGetsStuck` | internal/controller/opsgenieservice_controller.go:71-92 | From any reachable state in which a service with a description is ready to be created, one reconcile and one edit that clears it lead to a state from which no number of reconciles reaches agreement. |
| `Limits.ScheduleGetsStuck` | internal/controller/opsgenieschedule_controller.go:183-207 | The same for a schedule whose name is free. |
| `Limits.EscalationKeepsWriting` | internal/controller/opsgenieescalation_controller.go:308-311 | From any reachable state in which an escalation with a rule is ready to be created, one reconcile may lead to agreement that every later reconcile rewrites while the remote shows that recipient under a name that is not its id. |
| `ServiceConvergence.CreatesWhatIsWanted` | internal/controller/opsgenieservice_controller.go:95-118 | Without an id, one reconcile creates exactly the spec with the resolved team, persists the new id and touches nothing else. |
| `ServiceConvergence.UpdatesWhatDiffers` | internal/controller/opsgenieservice_controller.go:71-92 | With an id and a difference, exactly that object receives the fields sent; its team stays as created. |
| `ServiceConvergence.AgreementIsQuiet` | internal/controller/opsgenieservice_controller.go:127-132 | Without a difference no write is issued. |
| `ServiceConvergence.ServiceConvergence` | internal/controller/opsgenieservice_controller.go:63-132 | However many reconciles follow, the rank is zero after the first and stays there quietly, exactly unless a field absent from the spec is set remotely; then agreement is never reached. |
| `ServiceConvergence.RankZeroExactly` | internal/controller/opsgenieservice_controller.go:127-149 | Rank zero means, in the fields of spec and remote: an id in the status, equal name and description, as many remote tags as spec tags and none that the spec does not list; with distinct remote tags the two are equal as multisets. |
| `ServiceConvergence.QuietExactly` | internal/controller/opsgenieservice_controller.go:63-92 | A reconcile of a service with an id writes nothing if and only if these fields agree. |
| `ServiceConvergence.ConvergesInFields` | internal/controller/opsgenieservice_controller.go:63-132 | However many reconciles follow, unless a field is stuck these fields of the remote agree with the spec as it was before them. |
| `TeamConvergence.AdoptsByName` | internal/controller/opsgenieteam_controller.go:53-93 | Whatever id the status holds, the reconcile ends with the id of the remote team that bears the name, creates nothing and changes only that team and this resource. |
| `TeamConvergence.KnownSolo` | internal/controller/opsgenieteam_controller.go:74-92 | Metadata update, status write, members update and status write together leave the remote with the name, description and members wanted and nothing else changed. |
| `TeamConvergence.DescribedSolo` | internal/controller/opsgenieteam_controller.go:136-149 | The members update, decided on the earlier read, changes the members alone and so does not undo the metadata update. |
| `TeamConvergence.PartialUpdatesCompose` | internal/controller/opsgenieteam_controller.go:120-149 | With distinct users, both updates leave the wanted description and the wanted members as a multiset, each exactly unless it is absent from the spec and set remotely. |
| `TeamConvergence.CreatesWhatIsWanted` | internal/controller/opsgenieteam_controller.go:95-117 | A name no remote team bears leads to one create of exactly the spec and its id in the status. |
| `TeamConvergence.AgreementIsQuiet` | internal/controller/opsgenieteam_controller.go:60-93 | A team in agreement is left alone by every further reconcile. |
| `TeamConvergence.ClearedDescriptionSticks` | internal/controller/opsgenieteam_controller.go:120-130 | Stuck teams are reached: created with a description that an edit then clears. |
| `TeamConvergence.TeamConvergence` | internal/controller/opsgenieteam_controller.go:53-118 | After one or more reconciles the rank is zero, and stays there quietly, if and only if the team was not stuck: no user with two roles and no absent field that is set remotely. |
| `TeamConvergence.RankZeroExactly` | internal/controller/opsgenieteam_controller.go:173-196 | Rank zero means, in the fields of spec and remote: the remote team of that name has the id in the status, the description, as many members, and for each spec member a last entry with its role. |
| `TeamConvergence.QuietExactly` | internal/controller/opsgenieteam_controller.go:53-93 | A reconcile of a team writes nothing if and only if these fields agree. |
| `ScheduleConvergence.FailedConversionChangesNothing` | internal/controller/opsgenieschedule_controller.go:57-61 | A schedule that cannot be converted ends with an error, with no write and both stores unchanged. |
| `ScheduleConvergence.AdoptsByName` | internal/controller/opsgenieschedule_controller.go:81-109 | Without an id and with the name taken, the reconcile takes over the id of the schedule that bears it, creates nothing, changes nothing remote and asks for no requeue. |
| `ScheduleConvergence.CreatesWhatIsWanted` | internal/controller/opsgenieschedule_controller.go:73-127 | With the name free, it creates exactly the converted spec, persists the id and asks for a requeue after 60 minutes. |
| `ScheduleConvergence.UpdatesWhatDiffers` | internal/controller/opsgenieschedule_controller.go:183-207 | With an id and a difference, exactly that schedule receives the fields sent, unless its name belongs to another; then it fails and changes nothing. |
| `ScheduleConvergence.AgreementIsQuiet` | internal/controller/opsgenieschedule_controller.go:179-181 | A schedule that agrees on description, time zone and rotations is left alone. |
| `ScheduleConvergence.RankFalls` | internal/controller/opsgenieschedule_controller.go:63-208 | Each reconcile lowers the rank (no id, then a compared field differs) or is stuck, and whether it is stuck never changes. |
| `ScheduleConvergence.ScheduleConvergence` | internal/controller/opsgenieschedule_controller.go:63-208 | After two reconciles, or one if the status has an id, the rank is zero and further ones are quiet, if and only if the schedule was not stuck. |
| `ScheduleConvergence.DiffersExactly` | internal/controller/opsgenieschedule_controller.go:303-322 | The decision to update, in the fields: it is left out exactly when description and time zone are equal, the rotations are equally many, and place by place name, type and start are the spec's and the length is the spec's modulo 2^32. |
| `ScheduleConvergence.QuietExactly` | internal/controller/opsgenieschedule_controller.go:169-193 | A reconcile of a schedule with an id writes nothing if and only if these fields agree. |
| `ScheduleConvergence.ConvergesInFields` | internal/controller/opsgenieschedule_controller.go:63-208 | After two reconciles, or one if the status has an id, these fields of the remote agree with the spec as it was before them, unless the schedule is stuck. |
| `ScheduleConvergence.CreatedFollowsSpec` | internal/controller/opsgenieschedule_controller.go:73-127 | A schedule that was created carries name, description, time zone, owner team and every rotation with its participants, restriction, days, hours and zero minutes as the spec says. |
| `ScheduleConvergence.UpdatedFollowsSpec` | internal/controller/opsgenieschedule_controller.go:185-207 | One that was updated carries every such field that the spec has and keeps the others. |
| `EscalationConvergence.MappingSolo` | internal/controller/opsgenieescalation_controller.go:241-272 | Read reference by reference, the rules are mapped to exactly what the current status ids say. |
| `EscalationConvergence.UnresolvableFails` | internal/controller/opsgenieescalation_controller.go:77-81 | One recipient that cannot be resolved ends the reconcile with an error and no write. |
| `EscalationConvergence.FetchSolo` | internal/controller/opsgenieescalation_controller.go:83-128 | With an id in the status: compared and, on a difference, updated as wanted or held back by a name clash; quiet exactly without a difference. |
| `EscalationConvergence.AdoptsByName` | internal/controller/opsgenieescalation_controller.go:96-128 | Without an id, the remote escalation that bears the name is imported first and then compared and updated in the same reconcile. |
| `EscalationConvergence.CreatesWhatIsWanted` | internal/controller/opsgenieescalation_controller.go:130-153 | With the name free, exactly the spec with its mapped rules and team is created and its id persisted. |
| `EscalationConvergence.OrphanAdoption` | internal/controller/opsgenieescalation_controller.go:96-114 | With an empty status the reconcile ends with the id of the escalation that bears the name, and creates nothing. |
| `EscalationConvergence.EscalationAgreement` | internal/controller/opsgenieescalation_controller.go:77-153 | One reconcile is held back by a name clash and changes nothing, or ends with a remote that agrees on name, description and, in number and order, on condition, notify type, delay modulo 2^32 and recipient type, exactly unless a field was stuck. |
| `EscalationConvergence.AgreesExactly` | internal/controller/opsgenieescalation_controller.go:274-315 | Agreement, spelled in the fields of spec and remote, is what the update decision looks at; the decision asks in addition that each spec recipient's id equals the remote recipient's name. |
| `EscalationConvergence.QuietExactly` | internal/controller/opsgenieescalation_controller.go:274-315 | A reconcile of an escalation with an id is quiet if and only if name, description, number of rules and, rule by rule, condition, notify type, delay modulo 2^32, recipient type and the recipient's id against the name the remote shows are equal. |
| `EscalationConvergence.NamedRecipientNeverQuiet` | internal/controller/opsgenieescalation_controller.go:308-311 | One recipient whose id in the spec differs from the name shown for it, now and in every later reply, an empty name included, keeps every later reconcile writing. |
| `EscalationConvergence.AgreedYetRewritten` | internal/controller/opsgenieescalation_controller.go:308-311 | Agreement does not imply quiet: a new escalation agrees after its first reconcile, and if the remote shows some recipient under a name that is not its id, it agrees and is rewritten all the same. |
| `RuleConvergence.UnreadyServiceFails` | internal/controller/opsgenieincidentrule_controller.go:47-52 | A rule below a service without an id fails before any write. |
| `RuleConvergence.UpdatesInPlace` | internal/controller/opsgenieincidentrule_controller.go:63-79 | A persisted rule that is listed is updated in place with the mapped spec. |
| `RuleConvergence.CreatesWhatIsMissing` | internal/controller/opsgenieincidentrule_controller.go:80-100 | One that is not listed is created with the mapped spec and its new id persisted. |
| `RuleConvergence.RuleAgreement` | internal/controller/opsgenieincidentrule_controller.go:47-102 | One reconcile leaves the rule with the persisted id below the service, with the spec's conditions field by field, match type and properties unless a field was stuck, adds a rule only if the persisted one was not listed, and leaves every other remote object alone. |
| `RuleConvergence.RuleIdempotence` | internal/controller/opsgenieincidentrule_controller.go:63-102 | On an unchanged spec the next reconcile leaves the remote unchanged. |
| `Reconcilers.ReconcileService` | internal/controller/opsgenieservice_controller.go:45-125 | Issues exactly the calls of the service program, whatever is replied, and ends with its outcome. |
| `Reconcilers.ResolveServiceTeam` | internal/controller/opsgenieservice_controller.go:27-42 | The direct team id, else the status id of the referenced team; a failure ends the reconcile without an error. |
| `Reconcilers.IsServiceUpdateRequired` | internal/controller/opsgenieservice_controller.go:127-149 | False if and only if name and description are equal, the tags equally many and every remote tag in the spec; the same is the decision of the step machine. |
| `Reconcilers.ReconcileTeam` | internal/controller/opsgenieteam_controller.go:44-118 | Issues exactly the calls of the team program, whatever is replied, and ends with its outcome. |
| `Reconcilers.UpdateTeam` | internal/controller/opsgenieteam_controller.go:120-134 | Sends name and description and then writes the status; the version in memory moves on with the write. |
| `Reconcilers.UpdateTeamMembers` | internal/controller/opsgenieteam_controller.go:136-149 | Sends the members and then writes the status. |
| `Reconcilers.ReconcileSchedule` | internal/controller/opsgenieschedule_controller.go:49-68 | Issues exactly the calls of the schedule program, whatever is replied, and ends with its outcome. |
| `Reconcilers.CreateSchedule` | internal/controller/opsgenieschedule_controller.go:70-128 | Create, or import on a name that is taken, with the matching status write and outcome. |
| `Reconcilers.UpdateSchedule` | internal/controller/opsgenieschedule_controller.go:169-208 | Fetch, compare, update and write the status, with the matching outcome. |
| `Reconcilers.IsScheduleUpdateRequired` | internal/controller/opsgenieschedule_controller.go:303-322 | False if and only if description, time zone and, place by place, name, type, start and length of the rotations are equal; the same is the decision of the step machine. |
| `Reconcilers.ReconcileEscalation` | internal/controller/opsgenieescalation_controller.go:60-154 | Issues exactly the calls of the escalation program, whatever is replied, and ends with its outcome. |
| `Reconcilers.ResolveEscalationTeam` | internal/controller/opsgenieescalation_controller.go:157-172 | The direct team id, else the status id of the referenced team, else an error. |
| `Reconcilers.ResolveRecipient` | internal/controller/opsgenieescalation_controller.go:174-206 | The id and username of one recipient in the order id, username, team reference, schedule reference. |
| `Reconcilers.MapEscalationRules` | internal/controller/opsgenieescalation_controller.go:241-272 | Maps the rules in order, one reference read at a time; the first failure ends the reconcile. |
| `Reconcilers.FindEscalation` | internal/controller/opsgenieescalation_controller.go:83-115 | Lookup by id, or by name with an import. |
| `Reconcilers.UpdateEscalation` | internal/controller/opsgenieescalation_controller.go:208-227 | Sends all fields to the escalation that was found and then writes the status. |
| `Reconcilers.IsEscalationUpdateRequired` | internal/controller/opsgenieescalation_controller.go:274-315 | False if and only if name, description and, rule by rule, condition, notify type, delay modulo 2^32, recipient type and id against shown name are equal; the same is the decision of the step machine. |
| `Reconcilers.ReconcileRule` | internal/controller/opsgenieincidentrule_controller.go:31-103 | Issues exactly the calls of the incident rule program, whatever is replied, and ends with its outcome. |
| `Tags.EqualStringSlices` | internal/controller/opsgenieservice_controller.go:135-149 | True if and only if the lengths agree and every element of the second list is in the first. |
| `Tags.PermutationsAgree` | internal/controller/opsgenieservice_controller.go:135-149 | Lists equal as multisets are never reported as different. |
| `Tags.TagCheckExactForRemote` | internal/controller/opsgenieservice_controller.go:135-149 | The verdict is multiset equality for every spec if and only if the remote tags are pairwise distinct. |
| `Tags.TagCheckExactForSpec` | internal/controller/opsgenieservice_controller.go:135-149 | It is multiset equality for every remote list if and only if the spec holds no two different tags. |
| `Tags.MaskedSpec` | internal/controller/opsgenieservice_controller.go:143-147 | For remote tags with a repetition, a spec that differs as a multiset and is not noticed. |
| `Members.MapTeamMembers` | internal/controller/opsgenieteam_controller.go:160-171 | As many members in the same order, each with the user id as username and its role. |
| `Members.IsMembersUpdateRequired` | internal/controller/opsgenieteam_controller.go:173-190 | False if and only if the lists are equally long and the last remote entry for each spec user has the wanted role. |
| `Members.DifferenceExactly` | internal/controller/opsgenieteam_controller.go:178-187 | The same of the comparison that the step machine makes, in terms of entries alone. |
| `Members.NoDifferenceMeansSameMembers` | internal/controller/opsgenieteam_controller.go:173-190 | With distinct spec users, no reported difference forces multiset equality, by pigeonhole. |
| `Members.SameMembersMeansNoDifference` | internal/controller/opsgenieteam_controller.go:173-190 | With distinct spec users, equal multisets are never reported. |
| `Members.MemberCheckExact` | internal/controller/opsgenieteam_controller.go:173-190 | The verdict is multiset equality for every remote list if and only if the spec lists no user twice. |
| `Members.SelfDifference` | internal/controller/opsgenieteam_controller.go:178-187 | A list that was just written is reported as different if and only if some user has two roles. |
| `Rotations.ConvertParticipants` | internal/controller/opsgenieschedule_controller.go:210-246 | Succeeds if and only if every participant is admissible, and then sends as many, in order, each with its type and its id, or else a user's username, or else the name. |
| `Rotations.AdmissibleExactly` | internal/controller/opsgenieschedule_controller.go:214-240 | A participant is admissible if and only if it is a user, team, escalation or role with some identifier, a user with an id or username. |
| `Rotations.ParticipantIdentifiers` | internal/controller/opsgenieschedule_controller.go:220-240 | A converted participant has at most one identifier, and none exactly when it is a team, escalation or role with a username alone. |
| `Rotations.ConvertTimeRestrictions` | internal/controller/opsgenieschedule_controller.go:248-301 | Succeeds if and only if there is a type and all days are in 1-7, and then sends the type and as many intervals, in order, with days by name from Monday, hours modulo 2^32 and zero minutes. |
| `Rotations.TimeRestrictionRoundTrip` | internal/controller/opsgenieschedule_controller.go:248-301 | Reading days and hours back recovers the intervals if and only if all hours are in 0..2^32-1. |
| `Rotations.ConvertRotations` | internal/controller/opsgenieschedule_controller.go:130-167 | All or nothing; on success as many rotations, in order, each with the spec's name, type, parsed start, length modulo 2^32, participants one to one, and a restriction exactly if the spec has one, with its type and intervals. |
| `Rotations.ConvertibleExactly` | internal/controller/opsgenieschedule_controller.go:133-154 | It succeeds if and only if every start date parses, every participant list is non-empty and all admissible, and every restriction has a type and days in 1-7, in the fields of the spec. |
| `Rotations.ComparedWithSpec` | internal/controller/opsgenieschedule_controller.go:309-322 | Against a converted spec the comparison looks at exactly number, name, type, start and length modulo 2^32. |
| `Rotations.AreRotationsSame` | internal/controller/opsgenieschedule_controller.go:309-322 | True if and only if lengths agree and name, type, instant and length agree place by place. |
| `Rotations.RotationsSameIsAnEquivalence` | internal/controller/opsgenieschedule_controller.go:309-322 | The comparison is reflexive, symmetric and transitive. |
| `Rotations.ComparisonDecidesSpecs` | internal/controller/opsgenieschedule_controller.go:309-322 | For lengths in 0..2^32-1 that is equality of name, type, instant and length of the specs. |
| `Rotations.LengthsWrap` | internal/controller/opsgenieschedule_controller.go:156-163 | Through the conversion, two lists of any lengths compare equal exactly when they agree place by place on name, type, instant and length modulo 2^32. |
| `Rotations.ComparisonIgnores` | internal/controller/opsgenieschedule_controller.go:303-322 | Changes to participants, restrictions, end dates and the wording of start dates, in any number of rotations, never make a difference. |
| `Escalations.MappingPrecedence` | internal/controller/opsgenieescalation_controller.go:174-206 | Mapping keeps number, order and fields and respects the precedence id, username, team reference, schedule reference. |
| `Escalations.MappingIdentifiers` | internal/controller/opsgenieescalation_controller.go:255-260 | A recipient is sent with never both an id and a username, and with neither exactly when its reference is not ready. |
| `Escalations.ResolvesExactly` | internal/controller/opsgenieescalation_controller.go:174-206 | A recipient fails to resolve if and only if nothing identifies it or what its first reference names does not exist. |
| `Escalations.MappedRulesAgree` | internal/controller/opsgenieescalation_controller.go:241-272 | Mapped rules agree with the spec on everything the comparison looks at except recipients' identity. |
| `Escalations.CompareEscalationRules` | internal/controller/opsgenieescalation_controller.go:285-315 | True if and only if the rules are equally many and place by place condition, notify type, delay modulo 2^32, recipient type and the spec recipient's id against the remote recipient's name are equal. |
| `IncidentRules.MapConditions` | internal/controller/opsgenieincidentrule_controller.go:143-153 | As many conditions in the same order, each with its field, operation and expected value. |
| `IncidentRules.MapSpecFollows` | internal/controller/opsgenieincidentrule_controller.go:155-172 | What is sent carries the service, the spec's conditions field by field, match type and properties, and nothing else does. |
| `IncidentRules.FindRule` | internal/controller/opsgenieincidentrule_controller.go:54-61 | Finds a listed rule if and only if one has the persisted id. |
| `DeepCopy.TimeRestriction.DeepCopyInto` | api/v1beta1/zz_generated.deepcopy.go:723-730 | The target looks like the source did, with an interval slice of its own and nil kept nil. |
| `DeepCopy.CopyRotation` | api/v1beta1/zz_generated.deepcopy.go:356-368 | Participants, restriction and the restriction's intervals are fresh; value and nil-ness are the source's. |
| `DeepCopy.CopyRotations` | api/v1beta1/zz_generated.deepcopy.go:440-449 | The loop over a rotation slice: a fresh slice whose elements look alike, reach only fresh objects and share none. |
| `DeepCopy.CopySchedule` | api/v1beta1/zz_generated.deepcopy.go:440-449 | The whole schedule spec, nil rotations included, with the source unchanged. |
| `DeepCopy.CopyRecipient` | api/v1beta1/zz_generated.deepcopy.go:88-100 | Both references are fresh and apart from one another, even where the source shares one. |
| `DeepCopy.CopyEscalation` | api/v1beta1/zz_generated.deepcopy.go:129-143 | Team reference and every rule's recipient are fresh, and no two parts of the copy share an object. |
| `DeepCopy.CopyProperties` | api/v1beta1/zz_generated.deepcopy.go:187-202 | Tags, details map and the stakeholder flag are fresh with equal contents and nil-ness. |
| `DeepCopy.CopyIncidentRule` | api/v1beta1/zz_generated.deepcopy.go:299-312 | Service reference, conditions and properties are fresh with equal contents and nil-ness. |
| `DeepCopy.CopyMap` | api/v1beta1/zz_generated.deepcopy.go:195-201 | A map copied key by key ends with the same entries in an object of its own. |
| `DeepCopy.AlikeRotations` | api/v1beta1/zz_generated.deepcopy.go:356-368 | Rotations with equal views are equal in every field, slice and nested pointer, nil for nil. |
| `DeepCopy.AlikeRecipients` | api/v1beta1/zz_generated.deepcopy.go:88-100 | So are recipients. |
| `DeepCopy.AlikeProperties` | api/v1beta1/zz_generated.deepcopy.go:187-202 | So are incident properties. |

## Left out

- Manager wiring, flags, TLS and certificate watchers (`cmd/main.go`), `SetupWithManager`, event filters and scheme registration: library plumbing.
- The Opsgenie SDK, HTTP, authentication and the API server: abstract behind `Handles`. The SDK's own validation of requests is one more reason for a call to fail; `Serve` does not reject what the SDK would.
- Logging, recorded events, error texts, `LastSyncedTime`, `ResolvedTeamID` and the `Status` string: they do not steer anything. The status writes that only refresh them are modelled as writes.
- `time.Parse`: an instant or a failure that comes with the text.
- The substring test on the text of a 409 error: the reply `Exists`.
- Time: outcomes carry the requeue delay, but reconciles are counted and not scheduled; retries after errors are further starts.
- Deletion and re-creation of custom resources, and changes or deletions of remote objects by others: the operator has no finalizers, and the ownership results are about objects that stay.
- A remote rotation without a start date, on which the comparison would dereference nil.
- Nil and empty slices are one value in requests and comparisons, which treat them alike; the deep copies keep them apart.
- Deep copies of object and list metadata, list types, statuses and the flat structs that are copied by assignment; `DeepCopyObject`. The service and team specs repeat the patterns of `CopyRef` and `CopySlice`.
- Structs that are held by value are returned by their copy instead of being written through an out pointer; `TimeRestriction`, which is held by pointer, is copied into its target in place.
- ServiceConvergence.ServiceConvergence: the team of a service is not part of agreement, because it is sent at create only.
- Safety.ConservationOfCreates: stated for services and incident rules; the named kinds have the stronger `NamedCreatedOnce`.
- Completion.AgreementAmidInterference: says nothing of a reconcile that ends with an error or stops without a requeue, as an import of a schedule or a service with an unresolved team does.
