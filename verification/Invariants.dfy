/** What every step of the protocol keeps. */
module Invariants {
  import opened Environment
  import opened Programs
  import opened Protocol
  import Escalations
  import IncidentRules

  // ---- a reconcile keeps its own knowledge true --------------------------------------

  lemma {:induction false} EscalationRulesOk(w: World, s: Snap, e: EscalationSpec, teamId: string,
                                             acc: seq<Escalations.RuleRequest>)
    requires SnapIs(w, s, EscalationCR(e)) && EscOk(w, e, teamId, acc)
    ensures PcOk(w, EscalationRules(s, e, teamId, acc))
    decreases |e.rules| - |acc|
  {
    if |acc| < |e.rules| {
      var rule := e.rules[|acc|];
      match Escalations.SourceOf(rule.recipient)
      case Direct(id, username) =>
        EscalationRulesOk(w, s, e, teamId, acc + [Escalations.MapRule(rule, id, username)]);
      case _ =>
    }
  }

  lemma StartOk(w: World, s: Snap, spec: Spec)
    requires SnapIs(w, s, spec)
    ensures PcOk(w, Start(s, spec))
  {
    if spec.EscalationCR? && spec.escalation.teamID != "" {
      EscalationRulesOk(w, s, spec.escalation, spec.escalation.teamID, []);
    }
  }

  // A read finds versions whose ids exist, and leaves the stores alone.
  lemma ReadIsOk(w: World, key: Key, reply: Reply, eff: Effect)
    requires Handles(w, GetCR(key), reply, eff) && StoresOk(w)
    ensures Apply(w, eff) == w
    ensures reply.GotCR? ==> RefOk(w, key.kind, reply.cr.id)
                             && SnapIs(w, Snap(key, reply.cr.id, reply.ver), reply.cr.spec)
  {
  }

  lemma LookupIsOk(w: World, kind: Kind, name: string, reply: Reply, eff: Effect)
    requires Handles(w, GetByName(kind, name), reply, eff) && StoresOk(w)
    ensures Apply(w, eff) == w
    ensures reply.GotObj? ==> reply.id != "" && RKey(kind, reply.id) in w.remote && ObjFits(kind, reply.obj)
                              && ObjName(reply.obj) == name
  {
  }

  lemma FetchIsOk(w: World, rk: RKey, reply: Reply, eff: Effect)
    requires Handles(w, GetById(rk), reply, eff) && StoresOk(w)
    ensures Apply(w, eff) == w
    ensures reply.GotObj? ==> reply.id == rk.id && rk in w.remote && ObjFits(rk.kind, reply.obj)
  {
  }

  // After a status write that succeeded, the reconcile holds the version it wrote.
  lemma SaveIsOk(w: World, s: Snap, spec: Spec, id: string, reply: Reply, eff: Effect)
    requires SnapIs(w, s, spec) && Handles(w, PutStatus(s.key, s.ver, id), reply, eff)
    ensures Grows(w, Apply(w, eff))
    ensures reply.Written? ==> SnapIs(Apply(w, eff), Snap(s.key, id, reply.ver), spec)
  {
  }

  lemma CreateIsOk(w: World, s: Snap, obj: Obj, outcome: Outcome, reply: Reply, eff: Effect)
    requires Held(w, s) && (SetOnce(s.key.kind) ==> s.id == "")
    requires Handles(w, Create(s.key, obj), reply, eff)
    ensures PcOk(Apply(w, eff), AfterCreate(s, reply, outcome))
  {
  }

  lemma UpdateIsOk(w: World, s: Snap, rk: RKey, obj: Obj, reply: Reply, eff: Effect)
    requires Held(w, s) && s.id != "" && Handles(w, Update(rk, obj), reply, eff)
    ensures Grows(w, Apply(w, eff))
    ensures PcOk(Apply(w, eff), AfterUpdate(s, reply))
  {
  }

  lemma ServiceResumeOk(w: World, s: Snap, svc: ServiceSpec, at: ServiceStep, reply: Reply, eff: Effect)
    requires SnapIs(w, s, ServiceCR(svc)) && ServiceOk(w, s, svc, at) && StoresOk(w)
    requires Handles(w, ServiceRequest(s, svc, at), reply, eff)
    ensures PcOk(Apply(w, eff), ServiceResume(s, svc, at, reply))
  {
  }

  lemma TeamResumeOk(w: World, s: Snap, team: TeamSpec, at: TeamStep, reply: Reply, eff: Effect)
    requires SnapIs(w, s, TeamCR(team)) && TeamStepOk(w, s, at) && StoresOk(w)
    requires Handles(w, TeamRequest(s, team, at), reply, eff)
    ensures PcOk(Apply(w, eff), TeamResume(s, team, at, reply))
  {
  }

  lemma ScheduleResumeOk(w: World, s: Snap, c: ScheduleSpec, at: ScheduleStep, reply: Reply, eff: Effect)
    requires SnapIs(w, s, ScheduleCR(c)) && ScheduleOk(s, c, at) && StoresOk(w)
    requires Handles(w, ScheduleRequest(s, c, at), reply, eff)
    ensures PcOk(Apply(w, eff), ScheduleResume(s, c, at, reply))
  {
  }

  lemma EscalationFoundOk(w: World, s: Snap, e: EscalationSpec, teamId: string,
                          acc: seq<Escalations.RuleRequest>, id: string, seen: RemoteEscalation)
    requires SnapIs(w, s, EscalationCR(e)) && EscOk(w, e, teamId, acc) && |acc| == |e.rules| && id != "" && s.id == id
    ensures PcOk(w, EscalationFound(s, e, teamId, acc, id, seen))
  {
  }

  lemma EscalationResolveOk(w: World, s: Snap, e: EscalationSpec, at: EscalationStep, reply: Reply, eff: Effect)
    requires at.EscTeam? || at.EscRef?
    requires SnapIs(w, s, EscalationCR(e)) && EscalationOk(w, s, e, at) && StoresOk(w)
    requires Handles(w, EscalationRequest(s, e, at), reply, eff)
    ensures PcOk(Apply(w, eff), EscalationResume(s, e, at, reply))
  {
    if at.EscTeam? {
      ReadIsOk(w, Key(Team, s.key.namespace, at.ref), reply, eff);
      if reply.GotCR? {
        EscalationRulesOk(w, s, e, reply.cr.id, []);
      }
    } else {
      ReadIsOk(w, at.target, reply, eff);
      if reply.GotCR? {
        EscalationRulesOk(w, s, e, at.teamId, at.acc + [Escalations.MapRule(e.rules[|at.acc|], reply.cr.id, "")]);
      }
    }
  }

  lemma EscalationResumeOk(w: World, s: Snap, e: EscalationSpec, at: EscalationStep, reply: Reply, eff: Effect)
    requires SnapIs(w, s, EscalationCR(e)) && EscalationOk(w, s, e, at) && StoresOk(w)
    requires Handles(w, EscalationRequest(s, e, at), reply, eff)
    ensures PcOk(Apply(w, eff), EscalationResume(s, e, at, reply))
  {
    match at
    case EscTeam(_) => EscalationResolveOk(w, s, e, at, reply, eff);
    case EscRef(_, _, _) => EscalationResolveOk(w, s, e, at, reply, eff);
    case EscFetch(teamId, acc) =>
      FetchIsOk(w, RKey(Escalation, s.id), reply, eff);
      if reply.GotObj? {
        EscalationFoundOk(w, s, e, teamId, acc, s.id, reply.obj.escalation);
      }
    case EscFind(_, _) =>
      LookupIsOk(w, Escalation, e.name, reply, eff);
    case EscImport(teamId, acc, id, seen) =>
      SaveIsOk(w, s, EscalationCR(e), id, reply, eff);
      if reply.Written? {
        assert AccOk(Apply(w, eff), e, acc);
        EscalationFoundOk(Apply(w, eff), Snap(s.key, id, reply.ver), e, teamId, acc, id, seen);
      }
    case EscUpdate(teamId, acc, id) =>
      UpdateIsOk(w, s, RKey(Escalation, id), EscalationFields(e, teamId, acc), reply, eff);
    case EscCreate(teamId, acc) =>
      CreateIsOk(w, s, EscalationFields(e, teamId, acc), SYNC, reply, eff);
  }

  lemma RuleResumeOk(w: World, s: Snap, r: IncidentRules.IncidentRuleSpec, at: RuleStep, reply: Reply, eff: Effect)
    requires SnapIs(w, s, RuleCR(r)) && RuleOk(w, s, at) && StoresOk(w)
    requires Handles(w, RuleRequest(s, r, at), reply, eff)
    ensures PcOk(Apply(w, eff), RuleResume(s, r, at, reply))
  {
  }

  // What a reconcile knows stays true when it goes on.
  lemma ResumeOk(w: World, pc: PC, reply: Reply, eff: Effect)
    requires !pc.Done? && PcOk(w, pc) && Handles(w, RequestOf(pc), reply, eff) && StoresOk(w)
    ensures PcOk(Apply(w, eff), Resume(pc, reply))
  {
    match pc
    case Begin(key) =>
      ReadIsOk(w, key, reply, eff);
      if reply.GotCR? {
        StartOk(w, Snap(key, reply.cr.id, reply.ver), reply.cr.spec);
      }
    case SaveNew(_, _, _) =>
    case SaveImport(_, _) =>
    case SaveSync(_) =>
    case OnService(s, svc, at) => ServiceResumeOk(w, s, svc, at, reply, eff);
    case OnTeam(s, team, at) => TeamResumeOk(w, s, team, at, reply, eff);
    case OnSchedule(s, c, at) => ScheduleResumeOk(w, s, c, at, reply, eff);
    case OnEscalation(s, e, at) => EscalationResumeOk(w, s, e, at, reply, eff);
    case OnRule(s, r, at) => RuleResumeOk(w, s, r, at, reply, eff);
  }

  /** The stores are in order, and so is what every running reconcile knows of them. */
  ghost predicate Base(s: Sys) {
    StoresOk(s.w) && forall pid :: pid in s.procs ==> PcOk(s.w, s.procs[pid])
  }

  lemma BaseKept(s: Sys, ev: Event)
    requires Base(s) && Enabled(s, ev)
    ensures Base(Next(s, ev))
  {
    var s' := Next(s, ev);
    StepGrows(s, ev);
    match ev
    case Spawn(_, _) =>
    case Crash(_) =>
    case Act(pid, reply, eff) =>
      CallStaysOk(s.w, s.procs[pid], reply, eff);
      ResumeOk(s.w, s.procs[pid], reply, eff);
      forall p | p in s'.procs ensures PcOk(s'.w, s'.procs[p]) {
        if p != pid {
          PcOkGrows(s.w, s'.w, s.procs[p]);
        }
      }
    case Edit(key, spec) =>
      AppendedStaysOk(s.w, key, CR(spec, CurrentId(s.w, key)));
      forall p | p in s'.procs ensures PcOk(s'.w, s'.procs[p]) {
        PcOkGrows(s.w, s'.w, s.procs[p]);
      }
    case Foreign(rk, obj) =>
      AddedStaysOk(s.w, rk, obj);
      forall p | p in s'.procs ensures PcOk(s'.w, s'.procs[p]) {
        PcOkGrows(s.w, s'.w, s.procs[p]);
      }
  }

  // ---- status ids ---------------------------------------------------------------------

  /** A status id is never cleared, and for services, schedules and escalations never replaced. */
  ghost predicate IdsKept(w: World) {
    forall k, v, v' :: k in w.hist && 0 <= v <= v' < |w.hist[k]| && w.hist[k][v].id != "" ==>
                         && w.hist[k][v'].id != ""
                         && (SetOnce(k.kind) ==> w.hist[k][v'].id == w.hist[k][v].id)
  }

  // A status write of a kind whose id is set once keeps the id that the reconcile holds, if any.
  lemma SavedIdKept(w: World, pc: PC)
    requires !pc.Done? && PcOk(w, pc) && RequestOf(pc).PutStatus?
    ensures SavedId(pc) != ""
    ensures Held(w, pc.s) && RequestOf(pc).key == pc.s.key && RequestOf(pc).ver == pc.s.ver
    ensures SetOnce(pc.s.key.kind) && pc.s.id != "" ==> SavedId(pc) == pc.s.id
  {
  }

  lemma AppendKeepsIds(w: World, key: Key, cr: CR)
    requires IdsKept(w)
    requires key in w.hist && w.hist[key] != [] && CurrentId(w, key) != "" ==>
               cr.id != "" && (SetOnce(key.kind) ==> cr.id == CurrentId(w, key))
    ensures IdsKept(Apply(w, Appended(key, cr)))
  {
  }

  lemma IdsKeptByStep(s: Sys, ev: Event)
    requires Base(s) && IdsKept(s.w) && Enabled(s, ev)
    ensures IdsKept(Next(s, ev).w)
  {
    match ev
    case Act(pid, reply, eff) =>
      if eff.Appended? {
        var pc := s.procs[pid];
        CallShape(s.w, pc, reply, eff);
        SavedIdKept(s.w, pc);
        AppendKeepsIds(s.w, eff.key, eff.cr);
      }
    case Edit(key, spec) =>
      AppendKeepsIds(s.w, key, CR(spec, CurrentId(s.w, key)));
    case _ =>
  }
}
