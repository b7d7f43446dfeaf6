/**
 Agreement of one remote object with one spec, for all kinds, and what updates do to it.

 An update may hit an object that others have changed since it was looked at. What is proved here
 holds of any object: one that agrees goes on to agree after every update with the same spec.
 */
module Agreement {
  import opened Basics
  import opened Environment
  import opened Programs
  import Members
  import Rotations
  import Escalations
  import IncidentRules
  import SC = ServiceConvergence
  import TC = TeamConvergence
  import HC = ScheduleConvergence
  import EC = EscalationConvergence
  import RC = RuleConvergence

  /** The object agrees with the spec on everything that is compared. */
  predicate Agrees(spec: Spec, obj: Obj) {
    match (spec, obj)
    case (ServiceCR(svc), ServiceObj(o)) => !ServiceDiffers(svc, o)
    case (TeamCR(team), TeamObj(o)) => !MetaDiffers(team, o) && !Members.MembersDiffer(team.members, o.members)
    case (ScheduleCR(c), ScheduleObj(o)) =>
      Rotations.Convertible(c.rotations) && !ScheduleDiffers(c, Rotations.ToRotations(c.rotations), o)
    case (EscalationCR(e), EscalationObj(o)) => EC.Agrees(e, o)
    case (RuleCR(r), RuleObj(o)) => IncidentRules.RuleFollows(r, o.service, o)
    case _ => false
  }

  // Agreement in the fields of spec and object.
  lemma AgreesExactly(spec: Spec, obj: Obj)
    ensures spec.ServiceCR? && obj.ServiceObj? ==>
              var svc, o := spec.service, obj.service;
              Agrees(spec, obj) <==>
              && svc.name == o.name && svc.description == o.description
              && |svc.tags| == |o.tags| && forall x :: x in o.tags ==> x in svc.tags
    ensures spec.TeamCR? && obj.TeamObj? ==>
              var team, o := spec.team, obj.team;
              Agrees(spec, obj) <==>
              && team.name == o.name && team.description == o.description
              && |team.members| == |o.members|
              && forall m :: m in team.members ==> exists n :: Members.LastEntryIs(o.members, n, m)
    ensures spec.ScheduleCR? && obj.ScheduleObj? && Rotations.Convertible(spec.schedule.rotations) ==>
              var c, o := spec.schedule, obj.schedule;
              Agrees(spec, obj) <==>
              && c.description == o.description && c.timeZone == o.timeZone
              && |o.rotations| == |c.rotations|
              && forall i :: 0 <= i < |c.rotations| ==>
                   && o.rotations[i].name == c.rotations[i].name
                   && o.rotations[i].kind == c.rotations[i].kind
                   && Some(o.rotations[i].startDate) == c.rotations[i].startDate.instant
                   && o.rotations[i].length == c.rotations[i].length % 0x1_0000_0000
    ensures spec.EscalationCR? && obj.EscalationObj? ==>
              var e, o := spec.escalation, obj.escalation;
              Agrees(spec, obj) <==>
              && e.name == o.name && e.description == o.description
              && |e.rules| == |o.rules|
              && forall i :: 0 <= i < |e.rules| ==>
                   && e.rules[i].condition == o.rules[i].condition
                   && e.rules[i].notifyType == o.rules[i].notifyType
                   && e.rules[i].delayMin % 0x1_0000_0000 == o.rules[i].delay
                   && e.rules[i].recipient.kind == o.rules[i].recipient.kind
    ensures spec.RuleCR? && obj.RuleObj? ==>
              (Agrees(spec, obj) <==> IncidentRules.RuleFollows(spec.rule, obj.rule.service, obj.rule))
  {
    match (spec, obj)
    case (TeamCR(team), TeamObj(o)) => Members.DifferenceExactly(team.members, o.members);
    case (ScheduleCR(c), ScheduleObj(o)) =>
      if Rotations.Convertible(c.rotations) {
        HC.DiffersExactly(c, o);
      }
    case _ =>
  }

  /** No update can make the object agree: a field is absent from the spec and set remotely, or roles conflict. */
  predicate Jammed(spec: Spec, obj: Obj) {
    match (spec, obj)
    case (ServiceCR(svc), ServiceObj(o)) => SC.Stuck(svc, o)
    case (TeamCR(team), TeamObj(o)) => TC.FieldsStuck(team, o)
    case (ScheduleCR(c), ScheduleObj(o)) => HC.FieldsStuck(c, o)
    case (EscalationCR(e), EscalationObj(o)) => EC.FieldsStuck(e, o)
    case (RuleCR(r), RuleObj(o)) => RC.FieldsStuck(r, o)
    case _ => false
  }

  predicate Fine(spec: Spec, obj: Obj) {
    Agrees(spec, obj) || Jammed(spec, obj)
  }

  // ---- teams, which are updated in two parts ------------------------------------------

  predicate HasName(team: TeamSpec, obj: Obj) {
    obj.TeamObj? && obj.team.name == team.name
  }

  predicate MetaFine(team: TeamSpec, obj: Obj) {
    && HasName(team, obj)
    && (obj.team.description == team.description || team.description == "")
  }

  predicate MembersFine(team: TeamSpec, obj: Obj) {
    && obj.TeamObj?
    && (|| !Members.MembersDiffer(team.members, obj.team.members) || !Members.RolesConsistent(team.members)
        || (team.members == [] && obj.team.members != []))
  }

  lemma PartsMakeFine(team: TeamSpec, obj: Obj)
    requires MetaFine(team, obj) && MembersFine(team, obj)
    ensures Fine(TeamCR(team), obj)
  {
  }

  // ---- one update ---------------------------------------------------------------------

  /** How an object of the resource may develop: agreement, once reached, stays, in whole and in part. */
  predicate Evolves(spec: Spec, was: Obj, now: Obj) {
    && (Agrees(spec, was) ==> Agrees(spec, now))
    && (Fine(spec, was) ==> Fine(spec, now))
    && (spec.TeamCR? ==> (MetaFine(spec.team, was) ==> MetaFine(spec.team, now))
                         && (MembersFine(spec.team, was) ==> MembersFine(spec.team, now))
                         && (HasName(spec.team, was) ==> HasName(spec.team, now)))
  }

  /** An update request whose fields come from the spec. */
  predicate SendsSpec(spec: Spec, obj: Obj) {
    match (spec, obj)
    case (ServiceCR(svc), ServiceObj(o)) => o == RemoteService(svc.name, svc.description, svc.tags, "")
    case (TeamCR(team), TeamObj(o)) =>
      || o == RemoteTeam(team.name, team.description, [])
      || o == RemoteTeam("", "", Members.ToMembers(team.members))
    case (ScheduleCR(c), ScheduleObj(_)) =>
      Rotations.Convertible(c.rotations) && obj == ScheduleFields(c, Rotations.ToRotations(c.rotations))
    case (EscalationCR(e), EscalationObj(o)) =>
      o.name == e.name && o.description == e.description && Escalations.RulesAgree(e.rules, o.rules)
    case (RuleCR(r), RuleObj(o)) => o == IncidentRules.MapSpec(r, o.service)
    case _ => false
  }

  /** What the remote makes of an update. */
  predicate Stored(was: Obj, sent: Obj, now: Obj) {
    && Keeps(Merge(was, sent), now, SendsRules(sent))
    && (sent.RuleObj? && was.RuleObj? ==> sent.rule.service == was.rule.service)
  }

  lemma ServiceUpdate(svc: ServiceSpec, was: Obj, sent: Obj, now: Obj)
    requires SendsSpec(ServiceCR(svc), sent) && Stored(was, sent, now) && was.ServiceObj?
    ensures Fine(ServiceCR(svc), now) && Evolves(ServiceCR(svc), was, now)
  {
    assert now == ServiceObj(SC.Brought(svc, was.service));
    SC.UpdateSettles(svc, was.service);
  }

  lemma ScheduleUpdate(c: ScheduleSpec, was: Obj, sent: Obj, now: Obj)
    requires SendsSpec(ScheduleCR(c), sent) && Stored(was, sent, now) && was.ScheduleObj?
    ensures Fine(ScheduleCR(c), now) && Evolves(ScheduleCR(c), was, now)
  {
    assert now == ScheduleObj(HC.Brought(c, was.schedule));
    HC.BroughtAgrees(c, was.schedule);
  }

  lemma EscalationUpdate(e: EscalationSpec, was: Obj, sent: Obj, now: Obj)
    requires SendsSpec(EscalationCR(e), sent) && Stored(was, sent, now) && was.EscalationObj?
    ensures Fine(EscalationCR(e), now) && Evolves(EscalationCR(e), was, now)
  {
    EC.AgreesExactly(e, now.escalation);
    EC.AgreesExactly(e, was.escalation);
  }

  lemma RuleUpdate(r: IncidentRules.IncidentRuleSpec, was: Obj, sent: Obj, now: Obj)
    requires SendsSpec(RuleCR(r), sent) && Stored(was, sent, now) && was.RuleObj?
    ensures Fine(RuleCR(r), now) && Evolves(RuleCR(r), was, now)
  {
    IncidentRules.MapSpecFollows(r, was.rule.service, now.rule);
    IncidentRules.MapSpecFollows(r, was.rule.service, was.rule);
  }

  lemma TeamMetaUpdate(team: TeamSpec, was: Obj, sent: Obj, now: Obj)
    requires sent == TeamObj(RemoteTeam(team.name, team.description, [])) && Stored(was, sent, now) && was.TeamObj?
    ensures was.team.name == team.name ==> MetaFine(team, now)
    ensures Evolves(TeamCR(team), was, now)
  {
    assert now.team.members == was.team.members;
  }

  lemma TeamMembersUpdate(team: TeamSpec, was: Obj, sent: Obj, now: Obj)
    requires sent == TeamObj(RemoteTeam("", "", Members.ToMembers(team.members)))
    requires Stored(was, sent, now) && was.TeamObj?
    ensures MembersFine(team, now)
    ensures Evolves(TeamCR(team), was, now)
  {
    Members.SelfDifference(team.members);
    assert now.team.name == was.team.name && now.team.description == was.team.description;
    if !Members.MembersDiffer(team.members, was.team.members) {
      TC.NoDifferenceMeansConsistent(team.members, was.team.members);
    }
  }

  // Every update with the spec's fields keeps what agrees; one that sends them all leaves the object
  // in agreement, or jammed.
  lemma UpdateEvolves(spec: Spec, was: Obj, sent: Obj, now: Obj)
    requires SendsSpec(spec, sent) && Stored(was, sent, now)
    requires forall kind :: SpecFits(kind, spec) ==> ObjFits(kind, was)
    ensures Evolves(spec, was, now)
    ensures !spec.TeamCR? ==> Fine(spec, now)
  {
    match spec
    case ServiceCR(svc) => assert ObjFits(Service, was); ServiceUpdate(svc, was, sent, now);
    case TeamCR(team) =>
      assert ObjFits(Team, was);
      if sent == TeamObj(RemoteTeam(team.name, team.description, [])) {
        TeamMetaUpdate(team, was, sent, now);
      } else {
        TeamMembersUpdate(team, was, sent, now);
      }
    case ScheduleCR(c) => assert ObjFits(Schedule, was); ScheduleUpdate(c, was, sent, now);
    case EscalationCR(e) => assert ObjFits(Escalation, was); EscalationUpdate(e, was, sent, now);
    case RuleCR(r) => assert ObjFits(Rule, was); RuleUpdate(r, was, sent, now);
  }

  // ---- one create ---------------------------------------------------------------------

  /** A create request with all the fields of the spec. */
  predicate MakesSpec(spec: Spec, obj: Obj) {
    match (spec, obj)
    case (ServiceCR(svc), ServiceObj(o)) => o == RemoteService(svc.name, svc.description, svc.tags, o.teamId)
    case (TeamCR(team), TeamObj(o)) => o == RemoteTeam(team.name, team.description, Members.ToMembers(team.members))
    case _ => SendsSpec(spec, obj)
  }

  /** The object agrees with the spec, unless no object does. */
  predicate AsMade(spec: Spec, obj: Obj) {
    Agrees(spec, obj) || (spec.TeamCR? && obj.TeamObj? && !Members.RolesConsistent(spec.team.members))
  }

  lemma CreateAgrees(spec: Spec, sent: Obj, now: Obj)
    requires MakesSpec(spec, sent) && Keeps(sent, now, SendsRules(sent))
    ensures AsMade(spec, now) && Fine(spec, now)
  {
    match spec
    case TeamCR(team) => Members.SelfDifference(team.members);
    case EscalationCR(e) => EC.AgreesExactly(e, now.escalation);
    case RuleCR(r) => IncidentRules.MapSpecFollows(r, now.rule.service, now.rule);
    case _ =>
  }

  lemma AsMadeEvolves(spec: Spec, was: Obj, now: Obj)
    requires AsMade(spec, was) && Evolves(spec, was, now) && (was.TeamObj? ==> now.TeamObj?)
    ensures AsMade(spec, now)
  {
  }

  // Where one object agrees, every object that was made from the spec does.
  lemma MadeAgreesToo(spec: Spec, one: Obj, made: Obj)
    requires Agrees(spec, one) && AsMade(spec, made)
    ensures Agrees(spec, made)
  {
    if spec.TeamCR? {
      TC.NoDifferenceMeansConsistent(spec.team.members, one.team.members);
    }
  }
}
