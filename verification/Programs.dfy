/**
 The five reconcile programs as step machines.

 A `PC` says which call a running reconcile is about to make and what it remembers; `RequestOf` is
 that call and `Resume` is what the program does with the reply, up to its next call. A reply of
 the wrong sort counts as a failure.
 */
module Programs {
  import opened Basics
  import opened Environment
  import Tags
  import Members
  import Rotations
  import Escalations
  import IncidentRules

  /** How a reconcile ends: requeued after some minutes, left alone, or with an error. */
  datatype Outcome = Requeue(minutes: nat) | Stop | Error

  /** The version of a resource that a reconcile holds, and the id its status has in memory. */
  datatype Snap = Snap(key: Key, id: string, ver: nat)

  datatype PC =
    | Done(outcome: Outcome)
    | Begin(key: Key)
      // Status writes that end a reconcile: after a create, an import, and an update.
    | SaveNew(s: Snap, id: string, result: Outcome)
    | SaveImport(s: Snap, id: string)
    | SaveSync(s: Snap)
      // Between the read of the resource and those writes.
    | OnService(s: Snap, svc: ServiceSpec, svcAt: ServiceStep)
    | OnTeam(s: Snap, team: TeamSpec, teamAt: TeamStep)
    | OnSchedule(s: Snap, sched: ScheduleSpec, schedAt: ScheduleStep)
    | OnEscalation(s: Snap, esc: EscalationSpec, escAt: EscalationStep)
    | OnRule(s: Snap, rule: IncidentRules.IncidentRuleSpec, ruleAt: RuleStep)

  datatype ServiceStep =
    | SvcTeam(ref: string)
    | SvcGet
    | SvcUpdate
    | SvcCreate(teamId: string)

  datatype TeamStep =
    | TeamGet
    | TeamImport(id: string, seen: RemoteTeam)
    | TeamMeta(seen: RemoteTeam)
    | TeamMetaSave(seen: RemoteTeam)
    | TeamMembers
    | TeamCreate

  datatype ScheduleStep =
    | SchedGet(rots: seq<Rotations.Rotation>)
    | SchedUpdate(rots: seq<Rotations.Rotation>)
    | SchedCreate(rots: seq<Rotations.Rotation>)
    | SchedFind

  datatype EscalationStep =
    | EscTeam(ref: string)
    | EscRef(teamId: string, acc: seq<Escalations.RuleRequest>, target: Key)
    | EscFetch(teamId: string, acc: seq<Escalations.RuleRequest>)
    | EscFind(teamId: string, acc: seq<Escalations.RuleRequest>)
    | EscImport(teamId: string, acc: seq<Escalations.RuleRequest>, id: string, seen: RemoteEscalation)
    | EscUpdate(teamId: string, acc: seq<Escalations.RuleRequest>, id: string)
    | EscCreate(teamId: string, acc: seq<Escalations.RuleRequest>)

  datatype RuleStep =
    | RuleService(ref: string)
    | RuleList(service: string)
    | RuleUpdate(service: string)
    | RuleCreate(service: string)

  const SYNC := Requeue(5)

  /** The end of a reconcile whose last call is a status write. */
  function AfterSave(reply: Reply, outcome: Outcome): PC {
    if reply.Written? then Done(outcome) else Done(Error)
  }

  function AfterCreate(s: Snap, reply: Reply, outcome: Outcome): PC {
    if reply.Created? then SaveNew(s, reply.id, outcome) else Done(Error)
  }

  function AfterUpdate(s: Snap, reply: Reply): PC {
    if reply.Updated? then SaveSync(s) else Done(Error)
  }

  // ---- services -----------------------------------------------------------------------

  predicate ServiceDiffers(svc: ServiceSpec, seen: RemoteService) {
    svc.name != seen.name || svc.description != seen.description || !Tags.TagsAgree(svc.tags, seen.tags)
  }

  function ServiceStart(s: Snap, svc: ServiceSpec): PC {
    if svc.teamID != "" then ServiceResolved(s, svc, svc.teamID)
    else if svc.teamRef.Some? then OnService(s, svc, SvcTeam(svc.teamRef.value))
    else Done(Stop)
  }

  function ServiceResolved(s: Snap, svc: ServiceSpec, teamId: string): PC {
    if s.id != "" then OnService(s, svc, SvcGet) else OnService(s, svc, SvcCreate(teamId))
  }

  function ServiceRequest(s: Snap, svc: ServiceSpec, at: ServiceStep): Request {
    match at
    case SvcTeam(ref) => GetCR(Key(Team, s.key.namespace, ref))
    case SvcGet => GetById(RKey(Service, s.id))
    case SvcUpdate => Update(RKey(Service, s.id), ServiceObj(RemoteService(svc.name, svc.description, svc.tags, "")))
    case SvcCreate(teamId) => Create(s.key, ServiceObj(RemoteService(svc.name, svc.description, svc.tags, teamId)))
  }

  function ServiceResume(s: Snap, svc: ServiceSpec, at: ServiceStep, reply: Reply): PC {
    match at
    // An unresolved team is logged and not reported.
    case SvcTeam(_) => if reply.GotCR? then ServiceResolved(s, svc, reply.cr.id) else Done(Stop)
    case SvcGet =>
      if !(reply.GotObj? && reply.obj.ServiceObj?) then Done(Error)
      else if ServiceDiffers(svc, reply.obj.service) then OnService(s, svc, SvcUpdate)
      else Done(SYNC)
    case SvcUpdate => AfterUpdate(s, reply)
    case SvcCreate(_) => AfterCreate(s, reply, SYNC)
  }

  // ---- teams --------------------------------------------------------------------------

  predicate MetaDiffers(team: TeamSpec, seen: RemoteTeam) {
    team.name != seen.name || team.description != seen.description
  }

  function TeamFound(s: Snap, team: TeamSpec, id: string, seen: RemoteTeam): PC {
    if s.id != id then OnTeam(s, team, TeamImport(id, seen)) else TeamKnown(s, team, seen)
  }

  function TeamKnown(s: Snap, team: TeamSpec, seen: RemoteTeam): PC {
    if MetaDiffers(team, seen) then OnTeam(s, team, TeamMeta(seen)) else TeamDescribed(s, team, seen)
  }

  function TeamDescribed(s: Snap, team: TeamSpec, seen: RemoteTeam): PC {
    if Members.MembersDiffer(team.members, seen.members) then OnTeam(s, team, TeamMembers) else Done(SYNC)
  }

  function TeamRequest(s: Snap, team: TeamSpec, at: TeamStep): Request {
    match at
    case TeamGet => GetByName(Team, team.name)
    case TeamImport(id, _) => PutStatus(s.key, s.ver, id)
    case TeamMeta(_) => Update(RKey(Team, s.id), TeamObj(RemoteTeam(team.name, team.description, [])))
    case TeamMetaSave(_) => PutStatus(s.key, s.ver, s.id)
    case TeamMembers => Update(RKey(Team, s.id), TeamObj(RemoteTeam("", "", Members.ToMembers(team.members))))
    case TeamCreate =>
      Create(s.key, TeamObj(RemoteTeam(team.name, team.description, Members.ToMembers(team.members))))
  }

  function TeamResume(s: Snap, team: TeamSpec, at: TeamStep, reply: Reply): PC {
    match at
    // Any failure to read the team, not only its absence, leads to a create.
    case TeamGet =>
      if reply.GotObj? && reply.obj.TeamObj? && reply.id != "" then TeamFound(s, team, reply.id, reply.obj.team)
      else OnTeam(s, team, TeamCreate)
    case TeamImport(id, seen) =>
      if reply.Written? then TeamKnown(Snap(s.key, id, reply.ver), team, seen) else Done(Error)
    case TeamMeta(seen) => if reply.Updated? then OnTeam(s, team, TeamMetaSave(seen)) else Done(Error)
    case TeamMetaSave(seen) =>
      if reply.Written? then TeamDescribed(s.(ver := reply.ver), team, seen) else Done(Error)
    case TeamMembers => AfterUpdate(s, reply)
    case TeamCreate => AfterCreate(s, reply, SYNC)
  }

  // ---- schedules ----------------------------------------------------------------------

  predicate ScheduleDiffers(c: ScheduleSpec, rots: seq<Rotations.Rotation>, seen: RemoteSchedule) {
    c.description != seen.description || c.timeZone != seen.timeZone
    || !Rotations.RotationsSame(seen.rotations, rots)
  }

  function ScheduleStart(s: Snap, c: ScheduleSpec): PC {
    if !Rotations.Convertible(c.rotations) then Done(Error)
    else if s.id != "" then OnSchedule(s, c, SchedGet(Rotations.ToRotations(c.rotations)))
    else OnSchedule(s, c, SchedCreate(Rotations.ToRotations(c.rotations)))
  }

  function ScheduleFields(c: ScheduleSpec, rots: seq<Rotations.Rotation>): Obj {
    ScheduleObj(RemoteSchedule(c.name, c.description, c.timeZone, c.ownerTeam, rots))
  }

  function ScheduleRequest(s: Snap, c: ScheduleSpec, at: ScheduleStep): Request {
    match at
    case SchedGet(_) => GetById(RKey(Schedule, s.id))
    case SchedUpdate(rots) => Update(RKey(Schedule, s.id), ScheduleFields(c, rots))
    case SchedCreate(rots) => Create(s.key, ScheduleFields(c, rots))
    case SchedFind => GetByName(Schedule, c.name)
  }

  function ScheduleResume(s: Snap, c: ScheduleSpec, at: ScheduleStep, reply: Reply): PC {
    match at
    case SchedGet(rots) =>
      if !(reply.GotObj? && reply.obj.ScheduleObj?) then Done(Error)
      else if ScheduleDiffers(c, rots, reply.obj.schedule) then OnSchedule(s, c, SchedUpdate(rots))
      else Done(SYNC)
    case SchedUpdate(_) => AfterUpdate(s, reply)
    case SchedCreate(_) =>
      if reply.Exists? then OnSchedule(s, c, SchedFind) else AfterCreate(s, reply, Requeue(60))
    case SchedFind => if reply.GotObj? then SaveImport(s, reply.id) else Done(Error)
  }

  // ---- escalations --------------------------------------------------------------------

  predicate EscalationDiffers(e: EscalationSpec, seen: RemoteEscalation) {
    || e.name != seen.name || e.description != seen.description
    || !(Escalations.RulesAgree(e.rules, seen.rules) && Escalations.IdsMatchNames(e.rules, seen.rules))
  }

  function EscalationStart(s: Snap, e: EscalationSpec): PC {
    if e.teamID != "" then EscalationRules(s, e, e.teamID, [])
    else if e.teamRef.Some? then OnEscalation(s, e, EscTeam(e.teamRef.value))
    else Done(Error)
  }

  /** Maps rules until one needs a reference or none is left. */
  function EscalationRules(s: Snap, e: EscalationSpec, teamId: string, acc: seq<Escalations.RuleRequest>): PC
    decreases |e.rules| - |acc|
  {
    if |acc| >= |e.rules| then EscalationMapped(s, e, teamId, acc)
    else
      var rule := e.rules[|acc|];
      match Escalations.SourceOf(rule.recipient)
      case Direct(id, username) => EscalationRules(s, e, teamId, acc + [Escalations.MapRule(rule, id, username)])
      case FromTeam(name) => OnEscalation(s, e, EscRef(teamId, acc, Key(Team, s.key.namespace, name)))
      case FromSchedule(name) => OnEscalation(s, e, EscRef(teamId, acc, Key(Schedule, s.key.namespace, name)))
      case Missing => Done(Error)
  }

  function EscalationMapped(s: Snap, e: EscalationSpec, teamId: string, acc: seq<Escalations.RuleRequest>): PC {
    if s.id != "" then OnEscalation(s, e, EscFetch(teamId, acc)) else OnEscalation(s, e, EscFind(teamId, acc))
  }

  function EscalationFound(s: Snap, e: EscalationSpec, teamId: string, acc: seq<Escalations.RuleRequest>,
                           id: string, seen: RemoteEscalation): PC
  {
    if id == "" then OnEscalation(s, e, EscCreate(teamId, acc))
    else if EscalationDiffers(e, seen) then OnEscalation(s, e, EscUpdate(teamId, acc, id))
    else Done(SYNC)
  }

  function EscalationFields(e: EscalationSpec, teamId: string, acc: seq<Escalations.RuleRequest>): Obj {
    EscalationObj(RemoteEscalation(e.name, e.description, teamId, acc))
  }

  function EscalationRequest(s: Snap, e: EscalationSpec, at: EscalationStep): Request {
    match at
    case EscTeam(ref) => GetCR(Key(Team, s.key.namespace, ref))
    case EscRef(_, _, target) => GetCR(target)
    case EscFetch(_, _) => GetById(RKey(Escalation, s.id))
    case EscFind(_, _) => GetByName(Escalation, e.name)
    case EscImport(_, _, id, _) => PutStatus(s.key, s.ver, id)
    case EscUpdate(teamId, acc, id) => Update(RKey(Escalation, id), EscalationFields(e, teamId, acc))
    case EscCreate(teamId, acc) => Create(s.key, EscalationFields(e, teamId, acc))
  }

  function EscalationResume(s: Snap, e: EscalationSpec, at: EscalationStep, reply: Reply): PC {
    match at
    case EscTeam(_) => if reply.GotCR? then EscalationRules(s, e, reply.cr.id, []) else Done(Error)
    case EscRef(teamId, acc, _) =>
      if reply.GotCR? && |acc| < |e.rules|
      then EscalationRules(s, e, teamId, acc + [Escalations.MapRule(e.rules[|acc|], reply.cr.id, "")])
      else Done(Error)
    case EscFetch(teamId, acc) =>
      if reply.GotObj? && reply.obj.EscalationObj?
      then EscalationFound(s, e, teamId, acc, reply.id, reply.obj.escalation)
      else Done(Error)
    case EscFind(teamId, acc) =>
      if reply.GotObj? && reply.obj.EscalationObj? && reply.id != ""
      then OnEscalation(s, e, EscImport(teamId, acc, reply.id, reply.obj.escalation))
      else OnEscalation(s, e, EscCreate(teamId, acc))
    case EscImport(teamId, acc, id, seen) =>
      if reply.Written? then EscalationFound(Snap(s.key, id, reply.ver), e, teamId, acc, id, seen) else Done(Error)
    case EscUpdate(_, _, _) => AfterUpdate(s, reply)
    case EscCreate(_, _) => AfterCreate(s, reply, SYNC)
  }

  // ---- incident rules -----------------------------------------------------------------

  function RuleRequest(s: Snap, r: IncidentRules.IncidentRuleSpec, at: RuleStep): Request {
    match at
    case RuleService(ref) => GetCR(Key(Service, s.key.namespace, ref))
    case RuleList(service) => ListRules(service)
    case RuleUpdate(service) => Update(RKey(Rule, s.id), RuleObj(IncidentRules.MapSpec(r, service)))
    case RuleCreate(service) => Create(s.key, RuleObj(IncidentRules.MapSpec(r, service)))
  }

  function RuleResume(s: Snap, r: IncidentRules.IncidentRuleSpec, at: RuleStep, reply: Reply): PC {
    match at
    case RuleService(_) => if reply.GotCR? then OnRule(s, r, RuleList(reply.cr.id)) else Done(Error)
    case RuleList(service) =>
      if !reply.RulesAre? then Done(Error)
      else if IncidentRules.IsListed(reply.list, s.id) then OnRule(s, r, RuleUpdate(service))
      else OnRule(s, r, RuleCreate(service))
    case RuleUpdate(_) => AfterUpdate(s, reply)
    case RuleCreate(_) => AfterCreate(s, reply, SYNC)
  }

  // ---- the programs -------------------------------------------------------------------

  function Start(s: Snap, spec: Spec): PC {
    match spec
    case ServiceCR(svc) => ServiceStart(s, svc)
    case TeamCR(team) => OnTeam(s, team, TeamGet)
    case ScheduleCR(c) => ScheduleStart(s, c)
    case EscalationCR(e) => EscalationStart(s, e)
    case RuleCR(r) => if r.serviceRef.Some? then OnRule(s, r, RuleService(r.serviceRef.value)) else Done(Error)
  }

  function RequestOf(pc: PC): Request
    requires !pc.Done?
  {
    match pc
    case Begin(key) => GetCR(key)
    case SaveNew(s, id, _) => PutStatus(s.key, s.ver, id)
    case SaveImport(s, id) => PutStatus(s.key, s.ver, id)
    case SaveSync(s) => PutStatus(s.key, s.ver, s.id)
    case OnService(s, svc, at) => ServiceRequest(s, svc, at)
    case OnTeam(s, team, at) => TeamRequest(s, team, at)
    case OnSchedule(s, c, at) => ScheduleRequest(s, c, at)
    case OnEscalation(s, e, at) => EscalationRequest(s, e, at)
    case OnRule(s, r, at) => RuleRequest(s, r, at)
  }

  function Resume(pc: PC, reply: Reply): PC
    requires !pc.Done?
  {
    match pc
    case Begin(key) =>
      if reply.GotCR? && SpecFits(key.kind, reply.cr.spec) then Start(Snap(key, reply.cr.id, reply.ver), reply.cr.spec)
      else if reply.NotFound? then Done(Stop)
      else Done(Error)
    case SaveNew(_, _, outcome) => AfterSave(reply, outcome)
    case SaveImport(_, _) => AfterSave(reply, Stop)
    case SaveSync(_) => AfterSave(reply, SYNC)
    case OnService(s, svc, at) => ServiceResume(s, svc, at, reply)
    case OnTeam(s, team, at) => TeamResume(s, team, at, reply)
    case OnSchedule(s, c, at) => ScheduleResume(s, c, at, reply)
    case OnEscalation(s, e, at) => EscalationResume(s, e, at, reply)
    case OnRule(s, r, at) => RuleResume(s, r, at, reply)
  }

  /** The resource a running reconcile works on. */
  function KeyOf(pc: PC): Key
    requires !pc.Done?
  {
    if pc.Begin? then pc.key else pc.s.key
  }

  // ---- every reconcile ends -----------------------------------------------------------

  /** A bound on the calls that are left once the resource has been read. */
  function CallsLeft(pc: PC): nat {
    match pc
    case Done(_) => 0
    case Begin(_) => 0
    case SaveNew(_, _, _) => 1
    case SaveImport(_, _) => 1
    case SaveSync(_) => 1
    case OnService(_, _, at) => (match at case SvcTeam(_) => 4 case SvcGet => 3 case _ => 2)
    case OnTeam(_, _, at) =>
      (match at
       case TeamGet => 6
       case TeamImport(_, _) => 5
       case TeamMeta(_) => 4
       case TeamMetaSave(_) => 3
       case _ => 2)
    case OnSchedule(_, _, at) => (match at case SchedGet(_) => 3 case SchedCreate(_) => 3 case _ => 2)
    case OnEscalation(_, e, at) =>
      (match at
       case EscTeam(_) => 5 + |e.rules|
       case EscRef(_, acc, _) => 4 + (if |acc| <= |e.rules| then |e.rules| - |acc| else 0)
       case EscFetch(_, _) => 4
       case EscFind(_, _) => 4
       case EscImport(_, _, _, _) => 3
       case _ => 2)
    case OnRule(_, _, at) => (match at case RuleService(_) => 4 case RuleList(_) => 3 case _ => 2)
  }

  function Stage(pc: PC): nat {
    if pc.Begin? then 2 else if pc.Done? then 0 else 1
  }

  /** The next call is nearer to the end, and on the same resource. */
  predicate Nearer(pc: PC, next: PC)
    requires !pc.Done?
  {
    && (Stage(next) < Stage(pc) || (Stage(next) == Stage(pc) && CallsLeft(next) < CallsLeft(pc)))
    && (!next.Done? ==> KeyOf(next) == KeyOf(pc))
  }

  lemma {:induction false} EscalationRulesBound(s: Snap, e: EscalationSpec, teamId: string,
                                                acc: seq<Escalations.RuleRequest>)
    requires |acc| <= |e.rules|
    ensures var pc := EscalationRules(s, e, teamId, acc);
            && !pc.Begin? && CallsLeft(pc) <= 4 + |e.rules| - |acc|
            && (!pc.Done? ==> pc.s == s)
    decreases |e.rules| - |acc|
  {
    if |acc| < |e.rules| {
      var rule := e.rules[|acc|];
      match Escalations.SourceOf(rule.recipient)
      case Direct(id, username) =>
        EscalationRulesBound(s, e, teamId, acc + [Escalations.MapRule(rule, id, username)]);
      case _ =>
    }
  }

  // Between two reads of references the mapping stays with the same escalation, or has failed.
  lemma {:induction false} MappingShape(s: Snap, e: EscalationSpec, teamId: string, acc: seq<Escalations.RuleRequest>)
    ensures var pc := EscalationRules(s, e, teamId, acc);
            || pc == Done(Error)
            || (&& pc.OnEscalation? && pc.s == s && pc.esc == e
                && (pc.escAt.EscRef? || pc.escAt.EscFetch? || pc.escAt.EscFind?))
    decreases |e.rules| - |acc|
  {
    if |acc| < |e.rules| {
      var rule := e.rules[|acc|];
      match Escalations.SourceOf(rule.recipient)
      case Direct(id, username) =>
        MappingShape(s, e, teamId, acc + [Escalations.MapRule(rule, id, username)]);
      case _ =>
    }
  }

  // Whatever the replies, every call of every reconcile brings its end nearer, and a reconcile
  // never turns to another resource.
  lemma ReconcileTerminates(pc: PC, reply: Reply)
    requires !pc.Done?
    ensures Nearer(pc, Resume(pc, reply))
  {
    match pc
    case Begin(key) =>
      if reply.GotCR? && reply.cr.spec.EscalationCR? {
        EscalationRulesBound(Snap(key, reply.cr.id, reply.ver), reply.cr.spec.escalation,
                             reply.cr.spec.escalation.teamID, []);
      }
    case OnEscalation(s, e, EscTeam(_)) =>
      if reply.GotCR? {
        EscalationRulesBound(s, e, reply.cr.id, []);
      }
    case OnEscalation(s, e, EscRef(teamId, acc, _)) =>
      if reply.GotCR? && |acc| < |e.rules| {
        EscalationRulesBound(s, e, teamId, acc + [Escalations.MapRule(e.rules[|acc|], reply.cr.id, "")]);
      }
    case _ =>
  }

  // ---- how reconciles end -------------------------------------------------------------

  /** The reply is what a call that succeeds gives. */
  predicate Succeeds(req: Request, reply: Reply) {
    match req
    case GetCR(_) => reply.GotCR?
    case GetById(_) => reply.GotObj?
    case GetByName(_, _) => reply.GotObj?
    case Create(_, _) => reply.Created?
    case Update(_, _) => reply.Updated?
    case PutStatus(_, _, _) => reply.Written?
    case ListRules(_) => reply.RulesAre?
  }

  // A call that does not succeed ends the reconcile with an error, except that a resource that is gone is
  // left alone, that the unresolved team of a service is not reported, that a schedule whose name is taken
  // is looked up, and that a team or an escalation that could not be looked up is created.
  lemma FailureEnds(pc: PC, reply: Reply)
    requires !pc.Done? && !Succeeds(RequestOf(pc), reply)
    ensures Resume(pc, reply) ==
            match pc
            case Begin(_) => Done(if reply.NotFound? then Stop else Error)
            case OnService(_, _, SvcTeam(_)) => Done(Stop)
            case OnSchedule(s, c, SchedCreate(_)) => if reply.Exists? then OnSchedule(s, c, SchedFind) else Done(Error)
            case OnTeam(s, team, TeamGet) => OnTeam(s, team, TeamCreate)
            case OnEscalation(s, e, EscFind(teamId, acc)) => OnEscalation(s, e, EscCreate(teamId, acc))
            case _ => Done(Error)
  {
  }

  // A service without a way to its team is left alone; an escalation or rule without one is an error.
  lemma NothingToDoEnds(key: Key, cr: CR, ver: nat)
    requires SpecFits(key.kind, cr.spec)
    ensures cr.spec.ServiceCR? && cr.spec.service.teamID == "" && cr.spec.service.teamRef.None? ==>
              Resume(Begin(key), GotCR(cr, ver)) == Done(Stop)
    ensures cr.spec.EscalationCR? && cr.spec.escalation.teamID == "" && cr.spec.escalation.teamRef.None? ==>
              Resume(Begin(key), GotCR(cr, ver)) == Done(Error)
    ensures cr.spec.RuleCR? && cr.spec.rule.serviceRef.None? ==> Resume(Begin(key), GotCR(cr, ver)) == Done(Error)
  {
  }

  // A last status write that succeeds ends with a requeue after 5 minutes, or after 60 if a schedule was
  // created, and without one if it was imported; a schedule that needs no update is requeued after 5.
  lemma SuccessEnds(s: Snap, id: string, ver: nat, c: ScheduleSpec, rots: seq<Rotations.Rotation>, obj: Obj)
    ensures Resume(SaveSync(s), Written(ver)) == Done(Requeue(5))
    ensures Resume(SaveImport(s, id), Written(ver)) == Done(Stop)
    ensures Resume(Resume(OnSchedule(s, c, SchedCreate(rots)), Created(id)), Written(ver)) == Done(Requeue(60))
    ensures obj.ScheduleObj? && !ScheduleDiffers(c, rots, obj.schedule) ==>
              Resume(OnSchedule(s, c, SchedGet(rots)), GotObj(id, obj)) == Done(Requeue(5))
  {
  }
}
