/**
 The reconcilers in the form the controllers have: statements, early exits and loops over calls.

 A `Session` is the client side of one reconcile. Its ghost program counter only lets through the
 call that the step machine is about to make, and moves on with the reply, which may be anything.
 A method that starts at `Begin` and ends at `Done` with its own outcome therefore issues exactly the
 calls of its program, whatever is answered; all that is proved about runs of the programs holds of it.
 */
module Reconcilers {
  import opened Basics
  import opened Environment
  import opened Programs
  import Tags
  import Members
  import Rotations
  import Escalations
  import IncidentRules

  class Session {
    ghost var pc: PC

    constructor (key: Key)
      ensures pc == Begin(key)
    {
      pc := Begin(key);
    }

    method Call(req: Request) returns (reply: Reply)
      requires !pc.Done? && req == RequestOf(pc)
      modifies this
      ensures pc == Resume(old(pc), reply)
    {
      reply := *;
      pc := Resume(pc, reply);
    }
  }

  /** A resource in memory: its key, the version that was read, and the id in its status. */
  class Resource {
    const key: Key
    var id: string
    var ver: nat

    constructor (key: Key, id: string, ver: nat)
      ensures this.key == key && Held() == Snap(key, id, ver)
    {
      this.key := key;
      this.id := id;
      this.ver := ver;
    }

    function Held(): Snap
      reads this
    {
      Snap(key, id, ver)
    }

    /** Writes the status; a write that succeeds makes the resource in memory the version it wrote. */
    method PutStatus(session: Session) returns (written: bool)
      requires !session.pc.Done? && RequestOf(session.pc) == Request.PutStatus(key, ver, id)
      modifies this`ver, session
      ensures written ==> session.pc == Resume(old(session.pc), Written(ver))
      ensures !written ==> ver == old(ver)
      ensures !written ==> exists reply: Reply :: !reply.Written? && session.pc == Resume(old(session.pc), reply)
    {
      var reply := session.Call(Request.PutStatus(key, ver, id));
      written := reply.Written?;
      if written {
        ver := reply.ver;
      }
    }
  }

  /** The read that opens every reconcile, or the outcome that ends it at once. */
  method Fetch(session: Session, key: Key) returns (spec: Option<Spec>, cr: Resource, outcome: Outcome)
    requires session.pc == Begin(key)
    modifies session
    ensures fresh(cr)
    ensures spec.Some? ==> SpecFits(key.kind, spec.value) && session.pc == Start(cr.Held(), spec.value)
                           && cr.key == key
    ensures spec.None? ==> session.pc == Done(outcome)
  {
    var reply := session.Call(GetCR(key));
    if reply.GotCR? && SpecFits(key.kind, reply.cr.spec) {
      cr := new Resource(key, reply.cr.id, reply.ver);
      return Some(reply.cr.spec), cr, Requeue(5);
    }
    cr := new Resource(key, "", 0);
    // A resource that is gone is not an error.
    return None, cr, if reply.NotFound? then Stop else Error;
  }

  // ---- services -----------------------------------------------------------------------

  method ResolveServiceTeam(session: Session, s: Snap, svc: ServiceSpec) returns (teamId: Option<string>)
    requires session.pc == ServiceStart(s, svc)
    modifies session
    ensures teamId.Some? ==> session.pc == ServiceResolved(s, svc, teamId.value)
    ensures teamId.None? ==> session.pc == Done(Stop)
  {
    if svc.teamID != "" {
      return Some(svc.teamID);
    }
    if svc.teamRef.Some? {
      var reply := session.Call(GetCR(Key(Team, s.key.namespace, svc.teamRef.value)));
      if !reply.GotCR? {
        return None;
      }
      return Some(reply.cr.id);
    }
    return None;
  }

  method IsServiceUpdateRequired(svc: ServiceSpec, seen: RemoteService) returns (r: bool)
    ensures r == ServiceDiffers(svc, seen)
    ensures !r <==>
            && svc.name == seen.name && svc.description == seen.description
            && |svc.tags| == |seen.tags| && forall x :: x in seen.tags ==> x in svc.tags
  {
    if svc.name != seen.name || svc.description != seen.description {
      return true;
    }
    var same := Tags.EqualStringSlices(svc.tags, seen.tags);
    return !same;
  }

  method ReconcileService(session: Session, key: Key) returns (outcome: Outcome)
    requires session.pc == Begin(key) && key.kind.Service?
    modifies session
    ensures session.pc == Done(outcome)
  {
    var spec, cr, early := Fetch(session, key);
    if spec.None? {
      return early;
    }
    var svc := spec.value.service;
    var teamId := ResolveServiceTeam(session, cr.Held(), svc);
    if teamId.None? {
      return Stop;
    }
    if cr.id != "" {
      var got := session.Call(GetById(RKey(Service, cr.id)));
      if !(got.GotObj? && got.obj.ServiceObj?) {
        return Error;
      }
      var required := IsServiceUpdateRequired(svc, got.obj.service);
      if required {
        var put := session.Call(Update(RKey(Service, cr.id),
                                       ServiceObj(RemoteService(svc.name, svc.description, svc.tags, ""))));
        if !put.Updated? {
          return Error;
        }
        var written := cr.PutStatus(session);
        if !written {
          return Error;
        }
      }
    } else {
      var made := session.Call(Create(cr.key,
                                      ServiceObj(RemoteService(svc.name, svc.description, svc.tags, teamId.value))));
      if !made.Created? {
        return Error;
      }
      cr.id := made.id;
      var written := cr.PutStatus(session);
      if !written {
        return Error;
      }
    }
    return Requeue(5);
  }

  // ---- teams --------------------------------------------------------------------------

  /** Sends name and description, then records the time of the update in the status. */
  method UpdateTeam(session: Session, cr: Resource, team: TeamSpec, seen: RemoteTeam, teamId: string) returns (ok: bool)
    requires cr.id == teamId && session.pc == OnTeam(cr.Held(), team, TeamMeta(seen))
    modifies session, cr`ver
    ensures ok ==> session.pc == TeamDescribed(cr.Held(), team, seen)
    ensures !ok ==> session.pc == Done(Error)
  {
    var put := session.Call(Update(RKey(Team, teamId), TeamObj(RemoteTeam(team.name, team.description, []))));
    if !put.Updated? {
      return false;
    }
    ok := cr.PutStatus(session);
  }

  /** Sends the members, then records the time of the update in the status. */
  method UpdateTeamMembers(session: Session, cr: Resource, team: TeamSpec, teamId: string) returns (ok: bool)
    requires cr.id == teamId && session.pc == OnTeam(cr.Held(), team, TeamMembers)
    modifies session, cr`ver
    ensures session.pc == Done(if ok then Requeue(5) else Error)
  {
    var members := Members.MapTeamMembers(team.members);
    var put := session.Call(Update(RKey(Team, teamId), TeamObj(RemoteTeam("", "", members))));
    if !put.Updated? {
      return false;
    }
    ok := cr.PutStatus(session);
  }

  method ReconcileTeam(session: Session, key: Key) returns (outcome: Outcome)
    requires session.pc == Begin(key) && key.kind.Team?
    modifies session
    ensures session.pc == Done(outcome)
  {
    var spec, cr, early := Fetch(session, key);
    if spec.None? {
      return early;
    }
    var team := spec.value.team;
    var got := session.Call(GetByName(Team, team.name));
    if got.GotObj? && got.obj.TeamObj? && got.id != "" {
      var seen := got.obj.team;
      if cr.id != got.id {
        cr.id := got.id;
        var written := cr.PutStatus(session);
        if !written {
          return Error;
        }
      }
      if team.name != seen.name || team.description != seen.description {
        var ok := UpdateTeam(session, cr, team, seen, got.id);
        if !ok {
          return Error;
        }
      }
      var required := Members.IsMembersUpdateRequired(team.members, seen.members);
      if required {
        var ok := UpdateTeamMembers(session, cr, team, got.id);
        if !ok {
          return Error;
        }
      }
      return Requeue(5);
    }
    var members := Members.MapTeamMembers(team.members);
    var made := session.Call(Create(cr.key, TeamObj(RemoteTeam(team.name, team.description, members))));
    if !made.Created? {
      return Error;
    }
    cr.id := made.id;
    var written := cr.PutStatus(session);
    if !written {
      return Error;
    }
    return Requeue(5);
  }

  // ---- schedules ----------------------------------------------------------------------

  method IsScheduleUpdateRequired(c: ScheduleSpec, seen: RemoteSchedule, rots: seq<Rotations.Rotation>)
    returns (r: bool)
    ensures r == ScheduleDiffers(c, rots, seen)
    ensures !r <==>
            && c.description == seen.description && c.timeZone == seen.timeZone
            && |seen.rotations| == |rots|
            && forall i :: 0 <= i < |rots| ==>
                 && seen.rotations[i].name == rots[i].name && seen.rotations[i].kind == rots[i].kind
                 && seen.rotations[i].startDate == rots[i].startDate && seen.rotations[i].length == rots[i].length
  {
    if c.description != seen.description || c.timeZone != seen.timeZone {
      return true;
    }
    var same := Rotations.AreRotationsSame(seen.rotations, rots);
    return !same;
  }

  method CreateSchedule(session: Session, cr: Resource, c: ScheduleSpec, rots: seq<Rotations.Rotation>)
    returns (outcome: Outcome)
    requires session.pc == OnSchedule(cr.Held(), c, SchedCreate(rots))
    modifies session, cr
    ensures session.pc == Done(outcome)
  {
    var made := session.Call(Create(cr.key,
                                    ScheduleObj(RemoteSchedule(c.name, c.description, c.timeZone, c.ownerTeam, rots))));
    if !made.Created? {
      // The name is taken: the existing schedule is imported.
      if made.Exists? {
        var got := session.Call(GetByName(Schedule, c.name));
        if !got.GotObj? {
          return Error;
        }
        cr.id := got.id;
        var imported := cr.PutStatus(session);
        if !imported {
          return Error;
        }
        return Stop;
      }
      return Error;
    }
    cr.id := made.id;
    var written := cr.PutStatus(session);
    if !written {
      return Error;
    }
    return Requeue(60);
  }

  method UpdateSchedule(session: Session, cr: Resource, c: ScheduleSpec, rots: seq<Rotations.Rotation>)
    returns (outcome: Outcome)
    requires session.pc == OnSchedule(cr.Held(), c, SchedGet(rots))
    modifies session, cr
    ensures session.pc == Done(outcome)
  {
    var got := session.Call(GetById(RKey(Schedule, cr.id)));
    if !(got.GotObj? && got.obj.ScheduleObj?) {
      return Error;
    }
    var required := IsScheduleUpdateRequired(c, got.obj.schedule, rots);
    if !required {
      return Requeue(5);
    }
    var put := session.Call(Update(RKey(Schedule, cr.id),
                                   ScheduleObj(RemoteSchedule(c.name, c.description, c.timeZone, c.ownerTeam, rots))));
    if !put.Updated? {
      return Error;
    }
    var written := cr.PutStatus(session);
    if !written {
      return Error;
    }
    return Requeue(5);
  }

  method ReconcileSchedule(session: Session, key: Key) returns (outcome: Outcome)
    requires session.pc == Begin(key) && key.kind.Schedule?
    modifies session
    ensures session.pc == Done(outcome)
  {
    var spec, cr, early := Fetch(session, key);
    if spec.None? {
      return early;
    }
    var c := spec.value.schedule;
    var rots := Rotations.ConvertRotations(c.rotations);
    if rots.None? {
      return Error;
    }
    if cr.id != "" {
      outcome := UpdateSchedule(session, cr, c, rots.value);
    } else {
      outcome := CreateSchedule(session, cr, c, rots.value);
    }
  }

  // ---- escalations --------------------------------------------------------------------

  method ResolveEscalationTeam(session: Session, s: Snap, e: EscalationSpec) returns (teamId: Option<string>)
    requires session.pc == EscalationStart(s, e)
    modifies session
    ensures teamId.Some? ==> session.pc == EscalationRules(s, e, teamId.value, [])
    ensures teamId.None? ==> session.pc == Done(Error)
  {
    if e.teamID != "" {
      return Some(e.teamID);
    }
    if e.teamRef.Some? {
      var reply := session.Call(GetCR(Key(Team, s.key.namespace, e.teamRef.value)));
      if !reply.GotCR? {
        return None;
      }
      return Some(reply.cr.id);
    }
    return None;
  }

  /** The id and username of the next recipient. */
  method ResolveRecipient(session: Session, s: Snap, e: EscalationSpec, teamId: string,
                          acc: seq<Escalations.RuleRequest>) returns (r: Option<(string, string)>)
    requires |acc| < |e.rules| && session.pc == EscalationRules(s, e, teamId, acc)
    modifies session
    ensures r.Some? ==>
              session.pc == EscalationRules(s, e, teamId,
                                            acc + [Escalations.MapRule(e.rules[|acc|], r.value.0, r.value.1)])
    ensures r.None? ==> session.pc == Done(Error)
  {
    var recipient := e.rules[|acc|].recipient;
    if recipient.id != "" {
      return Some((recipient.id, ""));
    }
    if recipient.kind == "user" && recipient.username != "" {
      return Some(("", recipient.username));
    }
    if recipient.teamRef.Some? {
      var reply := session.Call(GetCR(Key(Team, s.key.namespace, recipient.teamRef.value)));
      if !reply.GotCR? {
        return None;
      }
      return Some((reply.cr.id, ""));
    }
    if recipient.scheduleRef.Some? {
      var reply := session.Call(GetCR(Key(Schedule, s.key.namespace, recipient.scheduleRef.value)));
      if !reply.GotCR? {
        return None;
      }
      return Some((reply.cr.id, ""));
    }
    return None;
  }

  method MapEscalationRules(session: Session, s: Snap, e: EscalationSpec, teamId: string)
    returns (rules: Option<seq<Escalations.RuleRequest>>)
    requires session.pc == EscalationRules(s, e, teamId, [])
    modifies session
    ensures rules.Some? ==> session.pc == EscalationMapped(s, e, teamId, rules.value)
    ensures rules.None? ==> session.pc == Done(Error)
  {
    var acc: seq<Escalations.RuleRequest> := [];
    for i := 0 to |e.rules|
      invariant |acc| == i && session.pc == EscalationRules(s, e, teamId, acc)
    {
      var rule := e.rules[i];
      var resolved := ResolveRecipient(session, s, e, teamId, acc);
      if resolved.None? {
        return None;
      }
      var (id, username) := resolved.value;
      var recipient := Rotations.Participant(rule.recipient.kind, "", "", "");
      if id != "" {
        recipient := recipient.(id := id);
      } else if username != "" {
        recipient := recipient.(username := username);
      }
      acc := acc + [Escalations.RuleRequest(rule.condition, rule.notifyType, Wrap32(rule.delayMin), recipient)];
    }
    return Some(acc);
  }

  method IsEscalationUpdateRequired(e: EscalationSpec, seen: RemoteEscalation) returns (r: bool)
    ensures r == EscalationDiffers(e, seen)
    ensures !r <==>
            && e.name == seen.name && e.description == seen.description
            && |e.rules| == |seen.rules|
            && forall i :: 0 <= i < |e.rules| ==>
                 && e.rules[i].condition == seen.rules[i].condition
                 && e.rules[i].notifyType == seen.rules[i].notifyType
                 && e.rules[i].delayMin % 0x1_0000_0000 == seen.rules[i].delay
                 && e.rules[i].recipient.kind == seen.rules[i].recipient.kind
                 && e.rules[i].recipient.id == seen.rules[i].recipient.name
  {
    if e.name != seen.name || e.description != seen.description {
      return true;
    }
    var same := Escalations.CompareEscalationRules(e.rules, seen.rules);
    return !same;
  }

  method UpdateEscalation(session: Session, cr: Resource, e: EscalationSpec, id: string, teamId: string,
                          rules: seq<Escalations.RuleRequest>) returns (ok: bool)
    requires session.pc == OnEscalation(cr.Held(), e, EscUpdate(teamId, rules, id))
    modifies session, cr`ver
    ensures session.pc == Done(if ok then Requeue(5) else Error)
  {
    var put := session.Call(Update(RKey(Escalation, id),
                                   EscalationObj(RemoteEscalation(e.name, e.description, teamId, rules))));
    if !put.Updated? {
      return false;
    }
    ok := cr.PutStatus(session);
  }

  /** Looks for the remote escalation by id or by name; one found by name is imported first. */
  method FindEscalation(session: Session, cr: Resource, e: EscalationSpec, teamId: string,
                        rules: seq<Escalations.RuleRequest>)
    returns (failed: bool, id: string, found: Option<RemoteEscalation>)
    requires session.pc == EscalationMapped(cr.Held(), e, teamId, rules)
    modifies session, cr
    ensures failed ==> session.pc == Done(Error)
    ensures !failed && found.Some? ==> session.pc == EscalationFound(cr.Held(), e, teamId, rules, id, found.value)
    ensures !failed && found.None? ==> session.pc == OnEscalation(cr.Held(), e, EscCreate(teamId, rules))
  {
    if cr.id != "" {
      var got := session.Call(GetById(RKey(Escalation, cr.id)));
      if !(got.GotObj? && got.obj.EscalationObj?) {
        return true, "", None;
      }
      return false, got.id, Some(got.obj.escalation);
    }
    var got := session.Call(GetByName(Escalation, e.name));
    if got.GotObj? && got.obj.EscalationObj? && got.id != "" {
      cr.id := got.id;
      var written := cr.PutStatus(session);
      if !written {
        return true, "", None;
      }
      return false, got.id, Some(got.obj.escalation);
    }
    return false, "", None;
  }

  method ReconcileEscalation(session: Session, key: Key) returns (outcome: Outcome)
    requires session.pc == Begin(key) && key.kind.Escalation?
    modifies session
    ensures session.pc == Done(outcome)
  {
    var spec, cr, early := Fetch(session, key);
    if spec.None? {
      return early;
    }
    var e := spec.value.escalation;
    var teamId := ResolveEscalationTeam(session, cr.Held(), e);
    if teamId.None? {
      return Error;
    }
    var rules := MapEscalationRules(session, cr.Held(), e, teamId.value);
    if rules.None? {
      return Error;
    }
    var failed, id, existing := FindEscalation(session, cr, e, teamId.value, rules.value);
    if failed {
      return Error;
    }
    if existing.Some? && id != "" {
      var required := IsEscalationUpdateRequired(e, existing.value);
      if required {
        var ok := UpdateEscalation(session, cr, e, id, teamId.value, rules.value);
        if !ok {
          return Error;
        }
      }
      return Requeue(5);
    }
    var made := session.Call(Create(cr.key,
                                    EscalationObj(RemoteEscalation(e.name, e.description, teamId.value, rules.value))));
    if !made.Created? {
      return Error;
    }
    cr.id := made.id;
    var written := cr.PutStatus(session);
    if !written {
      return Error;
    }
    return Requeue(5);
  }

  // ---- incident rules -----------------------------------------------------------------

  method ReconcileRule(session: Session, key: Key) returns (outcome: Outcome)
    requires session.pc == Begin(key) && key.kind.Rule?
    modifies session
    ensures session.pc == Done(outcome)
  {
    var spec, cr, early := Fetch(session, key);
    if spec.None? {
      return early;
    }
    var r := spec.value.rule;
    if r.serviceRef.None? {
      return Error;
    }
    var ref := session.Call(GetCR(Key(Service, cr.key.namespace, r.serviceRef.value)));
    if !ref.GotCR? {
      return Error;
    }
    var service := ref.cr.id;
    var listed := session.Call(ListRules(service));
    if !listed.RulesAre? {
      return Error;
    }
    var found := IncidentRules.FindRule(listed.list, cr.id);
    var conditions := IncidentRules.MapConditions(r.conditions);
    var fields := RuleObj(IncidentRules.IncidentRule(service, conditions, r.matchType, r.properties));
    if found {
      var put := session.Call(Update(RKey(Rule, cr.id), fields));
      if !put.Updated? {
        return Error;
      }
    } else {
      var made := session.Call(Create(cr.key, fields));
      if !made.Created? {
        return Error;
      }
      cr.id := made.id;
    }
    var written := cr.PutStatus(session);
    if !written {
      return Error;
    }
    return Requeue(5);
  }
}
