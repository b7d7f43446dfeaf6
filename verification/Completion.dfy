/**
 Every reconcile that ends well establishes agreement, whatever else goes on while it runs.

 A reconcile decides on what it has read, and its object may have changed by the time it acts. What
 is proved to last is not what it saw but what it concluded from it.
 */
module Completion {
  import opened Basics
  import opened Environment
  import opened Programs
  import opened Protocol
  import opened Invariants
  import opened Ledger
  import opened Naming
  import opened Safety
  import opened Agreement
  import opened Interference
  import opened Stability
  import Members
  import Escalations

  // ---- what an unfinished reconcile knows ---------------------------------------------

  /** The object that a reconcile has turned to: the one it created, found, or holds the id of. */
  function SubjectId(pc: PC): string
    requires !pc.Done? && !pc.Begin?
  {
    if pc.SaveNew? then pc.id else if Importing(pc) then ImportId(pc) else pc.s.id
  }

  /** The members need no update according to what was seen, and that is still right. */
  predicate MembersSeen(team: TeamSpec, seen: RemoteTeam, obj: Obj) {
    !Members.MembersDiffer(team.members, seen.members) ==> MembersFine(team, obj)
  }

  predicate TeamSeen(team: TeamSpec, seen: RemoteTeam, obj: Obj) {
    && seen.name == team.name && HasName(team, obj) && MembersSeen(team, seen, obj)
    && (seen.description == team.description ==> MetaFine(team, obj))
  }

  /** What a reconcile may rely on when it skips an update, though its object may have changed since it was read. */
  predicate Knows(pc: PC, spec: Spec, obj: Obj) {
    match pc
    case SaveNew(_, _, _) => Fine(spec, obj)
    case SaveSync(_) => Fine(spec, obj)
    case OnTeam(_, team, TeamImport(_, seen)) => TeamSeen(team, seen, obj)
    case OnTeam(_, team, TeamMeta(seen)) => TeamSeen(team, seen, obj)
    case OnTeam(_, team, TeamMetaSave(seen)) => MetaFine(team, obj) && MembersSeen(team, seen, obj)
    case OnTeam(_, team, TeamMembers) => MetaFine(team, obj)
    case OnEscalation(_, e, EscImport(_, _, _, seen)) => !EscalationDiffers(e, seen) ==> Fine(spec, obj)
    case _ => true
  }

  predicate Tracked(w: World, pc: Live, k: Key, spec: Spec) {
    KeyOf(pc) == k && !pc.Begin? && RKey(k.kind, SubjectId(pc)) in w.remote ==>
      Knows(pc, spec, w.remote[RKey(k.kind, SubjectId(pc))])
  }

  // What is known of an object stays true as the object develops.
  lemma KnowsEvolves(pc: PC, spec: Spec, was: Obj, now: Obj)
    requires Knows(pc, spec, was) && Evolves(spec, was, now) && (SpecOf(pc).Some? ==> SpecOf(pc).value == spec)
    ensures Knows(pc, spec, now)
  {
  }

  lemma SubjectIsMine(s: Sys, names: Names, k: Key, pid: nat)
    requires Sound(s, names, k) && pid in s.procs && KeyOf(s.procs[pid]) == k && !s.procs[pid].Begin?
    requires SubjectId(s.procs[pid]) != ""
    ensures Mine(s, names, k, RKey(k.kind, SubjectId(s.procs[pid])))
  {
    var pc := s.procs[pid];
    if pc.SaveNew? {
      AwaitedIsMine(s, names, pid);
    } else if Importing(pc) {
      assert PcNamesOk(s.w, pc, names);
    } else {
      assert Held(s.w, pc.s);
      HeldIsMine(s, names, k, pc.s.id);
    }
  }

  lemma OthersStayTracked(s: Sys, w': World, names: Names, k: Key, spec: Spec, pid: nat)
    requires Sound(s, names, k) && Develops(s, w', names, k, spec) && StoresOk(w') && NoOlder(s, k, spec)
    requires pid in s.procs && Tracked(s.w, s.procs[pid], k, spec)
    ensures Tracked(w', s.procs[pid], k, spec)
  {
    var pc := s.procs[pid];
    if KeyOf(pc) == k && !pc.Begin? && RKey(k.kind, SubjectId(pc)) in w'.remote {
      assert SubjectId(pc) != "";
      SubjectIsMine(s, names, k, pid);
      assert WorksFrom(s.w, pc, k, spec);
      KnowsEvolves(pc, spec, s.w.remote[RKey(k.kind, SubjectId(pc))], w'.remote[RKey(k.kind, SubjectId(pc))]);
    }
  }

  // ---- what its own calls add ---------------------------------------------------------

  /** The reconcile ends with the id of a fine object in the status, just written or held before. */
  ghost predicate EndsWell(w: World, pc: Live, eff: Effect, k: Key, spec: Spec) {
    && !pc.Begin?
    && var rk, w' := RKey(k.kind, SubjectId(pc)), Apply(w, eff);
       && rk in w'.remote && Fine(spec, w'.remote[rk])
       && (|| (eff.Appended? && eff.key == k && eff.cr.id == rk.id)
           || (eff == Nothing && !k.kind.Rule? && rk.id == pc.s.id))
  }

  /** After a call the reconcile is tracked still, or has ended well or without a requeue. */
  ghost predicate GoesOnWell(w: World, pc: Live, reply: Reply, eff: Effect, k: Key, spec: Spec) {
    var next := Resume(pc, reply);
    if !next.Done? then Tracked(Apply(w, eff), next, k, spec)
    else next.outcome.Requeue? ==> EndsWell(w, pc, eff, k, spec)
  }

  ghost predicate InStep(w: World, pc: Live, reply: Reply, eff: Effect, k: Key, spec: Spec) {
    && PcOk(w, pc) && StoresOk(w) && Handles(w, RequestOf(pc), reply, eff)
    && KeyOf(pc) == k && (SpecOf(pc).Some? ==> SpecOf(pc).value == spec) && Tracked(w, pc, k, spec)
  }

  // What was concluded from a read decides whether the rest of the reconcile may be skipped.
  lemma DescribedKnows(s: Snap, team: TeamSpec, seen: RemoteTeam, obj: Obj)
    requires MetaFine(team, obj) && MembersSeen(team, seen, obj)
    ensures var next := TeamDescribed(s, team, seen);
            if next.Done? then Fine(TeamCR(team), obj)
            else !next.Begin? && next.s == s && SubjectId(next) == s.id && Knows(next, TeamCR(team), obj)
  {
    if !Members.MembersDiffer(team.members, seen.members) {
      PartsMakeFine(team, obj);
    }
  }

  lemma KnownKnows(s: Snap, team: TeamSpec, seen: RemoteTeam, obj: Obj)
    requires TeamSeen(team, seen, obj)
    ensures var next := TeamKnown(s, team, seen);
            if next.Done? then Fine(TeamCR(team), obj)
            else !next.Begin? && next.s == s && SubjectId(next) == s.id && Knows(next, TeamCR(team), obj)
  {
    if !MetaDiffers(team, seen) {
      DescribedKnows(s, team, seen, obj);
    }
  }

  lemma FoundKnows(s: Snap, team: TeamSpec, id: string, obj: Obj)
    requires HasName(team, obj)
    ensures var next := TeamFound(s, team, id, obj.team);
            if next.Done? then s.id == id && Fine(TeamCR(team), obj)
            else !next.Begin? && next.s == s && SubjectId(next) == id && Knows(next, TeamCR(team), obj)
  {
    if s.id == id {
      KnownKnows(s, team, obj.team, obj);
    }
  }

  lemma EscalationKnows(s: Snap, e: EscalationSpec, teamId: string, acc: seq<Escalations.RuleRequest>, id: string,
                        seen: RemoteEscalation, obj: Obj)
    requires id != "" && !EscalationDiffers(e, seen) ==> Fine(EscalationCR(e), obj)
    ensures var next := EscalationFound(s, e, teamId, acc, id, seen);
            if next.Done? then Fine(EscalationCR(e), obj)
            else !next.Begin? && next.s == s && SubjectId(next) == s.id && Knows(next, EscalationCR(e), obj)
  {
  }

  // ---- creates and updates ------------------------------------------------------------

  lemma OwnCreate(w: World, pc: Live, reply: Reply, eff: Effect, k: Key, spec: Spec)
    requires InStep(w, pc, reply, eff, k, spec) && RequestOf(pc).Create?
    ensures GoesOnWell(w, pc, reply, eff, k, spec)
  {
    SendsItsSpec(w, pc);
    if reply.Created? {
      CreateAgrees(spec, RequestOf(pc).obj, eff.obj);
      CreateGoesOn(pc, reply);
      assert SubjectId(Resume(pc, reply)) == reply.id;
    } else {
      CreateGoesOn(pc, reply);
    }
  }

  lemma CreateGoesOn(pc: Live, reply: Reply)
    requires RequestOf(pc).Create?
    ensures var next := Resume(pc, reply);
            if reply.Created? then next.SaveNew? && next.s == pc.s && next.id == reply.id
            else next == Done(Error) || (next.OnSchedule? && next.schedAt.SchedFind?)
  {
  }

  /** Updates that send everything. */
  lemma OwnUpdate(w: World, pc: Live, reply: Reply, eff: Effect, k: Key, spec: Spec)
    requires InStep(w, pc, reply, eff, k, spec) && RequestOf(pc).Update? && !pc.OnTeam?
    ensures GoesOnWell(w, pc, reply, eff, k, spec)
  {
    assert Resume(pc, reply) == AfterUpdate(pc.s, reply);
    if reply.Updated? {
      CallShape(w, pc, reply, eff);
      UpdateTarget(w, pc);
      UpdateOfMine(w, pc, eff.rk, eff.obj);
    }
  }

  lemma OwnTeamUpdate(w: World, s: Snap, team: TeamSpec, at: TeamStep, reply: Reply, eff: Effect)
    requires InStep(w, OnTeam(s, team, at), reply, eff, s.key, TeamCR(team)) && (at.TeamMeta? || at.TeamMembers?)
    ensures GoesOnWell(w, OnTeam(s, team, at), reply, eff, s.key, TeamCR(team))
  {
    if reply.Updated? {
      var rk, sent := RKey(Team, s.id), TeamRequest(s, team, at).obj;
      var was := w.remote[rk];
      assert eff.rk == rk && ObjFits(Team, was) && Stored(was, sent, eff.obj);
      if at.TeamMeta? {
        TeamMetaUpdate(team, was, sent, eff.obj);
      } else {
        TeamMembersUpdate(team, was, sent, eff.obj);
        PartsMakeFine(team, eff.obj);
      }
    }
  }

  // ---- status writes ------------------------------------------------------------------

  lemma OwnLastSave(w: World, pc: Live, reply: Reply, eff: Effect, k: Key, spec: Spec)
    requires InStep(w, pc, reply, eff, k, spec) && (pc.SaveNew? || pc.SaveSync? || pc.SaveImport?)
    ensures GoesOnWell(w, pc, reply, eff, k, spec)
  {
    LastSaveEnds(pc, reply);
    if reply.Written? && !pc.SaveImport? {
      CallShape(w, pc, reply, eff);
      assert eff.Appended? && RKey(k.kind, SubjectId(pc)) in w.remote;
    }
  }

  lemma LastSaveEnds(pc: Live, reply: Reply)
    requires pc.SaveNew? || pc.SaveSync? || pc.SaveImport?
    ensures var next := Resume(pc, reply);
            next.Done? && (next.outcome.Requeue? ==> reply.Written? && !pc.SaveImport?)
    ensures RequestOf(pc).PutStatus? && SavedId(pc) == SubjectId(pc)
  {
  }

  lemma OwnTeamSave(w: World, s: Snap, team: TeamSpec, at: TeamStep, reply: Reply, eff: Effect)
    requires InStep(w, OnTeam(s, team, at), reply, eff, s.key, TeamCR(team)) && (at.TeamImport? || at.TeamMetaSave?)
    ensures GoesOnWell(w, OnTeam(s, team, at), reply, eff, s.key, TeamCR(team))
  {
    if reply.Written? {
      assert Apply(w, eff).remote == w.remote && eff.key == s.key;
      match at
      case TeamImport(id, seen) =>
        assert eff.cr.id == id && RKey(Team, id) in w.remote;
        KnownKnows(Snap(s.key, id, reply.ver), team, seen, w.remote[RKey(Team, id)]);
      case TeamMetaSave(seen) =>
        assert eff.cr.id == s.id && RKey(Team, s.id) in w.remote;
        DescribedKnows(s.(ver := reply.ver), team, seen, w.remote[RKey(Team, s.id)]);
    }
  }

  lemma OwnEscalationSave(w: World, s: Snap, e: EscalationSpec, at: EscalationStep, reply: Reply, eff: Effect)
    requires InStep(w, OnEscalation(s, e, at), reply, eff, s.key, EscalationCR(e)) && at.EscImport?
    ensures GoesOnWell(w, OnEscalation(s, e, at), reply, eff, s.key, EscalationCR(e))
  {
    if reply.Written? {
      var EscImport(teamId, acc, id, seen) := at;
      EscalationKnows(Snap(s.key, id, reply.ver), e, teamId, acc, id, seen, w.remote[RKey(Escalation, id)]);
    }
  }

  // ---- reads --------------------------------------------------------------------------

  lemma OwnTeamRead(w: World, s: Snap, team: TeamSpec, reply: Reply, eff: Effect)
    requires InStep(w, OnTeam(s, team, TeamGet), reply, eff, s.key, TeamCR(team))
    ensures GoesOnWell(w, OnTeam(s, team, TeamGet), reply, eff, s.key, TeamCR(team))
  {
    if reply.GotObj? && reply.id != "" {
      assert w.remote[RKey(Team, reply.id)] == reply.obj && HasName(team, reply.obj);
      FoundKnows(s, team, reply.id, reply.obj);
    }
  }

  lemma OwnServiceRead(w: World, s: Snap, svc: ServiceSpec, at: ServiceStep, reply: Reply, eff: Effect)
    requires InStep(w, OnService(s, svc, at), reply, eff, s.key, ServiceCR(svc)) && (at.SvcTeam? || at.SvcGet?)
    ensures GoesOnWell(w, OnService(s, svc, at), reply, eff, s.key, ServiceCR(svc))
  {
  }

  lemma OwnScheduleRead(w: World, s: Snap, c: ScheduleSpec, at: ScheduleStep, reply: Reply, eff: Effect)
    requires InStep(w, OnSchedule(s, c, at), reply, eff, s.key, ScheduleCR(c)) && (at.SchedGet? || at.SchedFind?)
    ensures GoesOnWell(w, OnSchedule(s, c, at), reply, eff, s.key, ScheduleCR(c))
  {
  }

  /** Nothing has been concluded yet, or the reconcile has ended without a requeue. */
  predicate KnowsNothing(pc: PC) {
    match pc
    case Done(outcome) => !outcome.Requeue?
    case OnService(_, _, _) => true
    case OnTeam(_, _, at) => at.TeamGet? || at.TeamCreate?
    case OnSchedule(_, _, _) => true
    case OnEscalation(_, _, at) => !at.EscImport?
    case OnRule(_, _, _) => true
    case _ => false
  }

  lemma StartKnowsNothing(s: Snap, spec: Spec)
    ensures KnowsNothing(Start(s, spec))
  {
    if spec.EscalationCR? {
      MappingShape(s, spec.escalation, spec.escalation.teamID, []);
    }
  }

  lemma BlankGoesOn(w: World, pc: Live, reply: Reply, eff: Effect, k: Key, spec: Spec)
    requires KnowsNothing(Resume(pc, reply))
    ensures GoesOnWell(w, pc, reply, eff, k, spec)
  {
  }

  lemma OwnRuleRead(w: World, pc: Live, reply: Reply, eff: Effect, k: Key, spec: Spec)
    requires pc.OnRule? && (pc.ruleAt.RuleService? || pc.ruleAt.RuleList?)
    ensures GoesOnWell(w, pc, reply, eff, k, spec)
  {
    assert KnowsNothing(RuleResume(pc.s, pc.rule, pc.ruleAt, reply));
    BlankGoesOn(w, pc, reply, eff, k, spec);
  }

  lemma OwnEscalationFetch(w: World, s: Snap, e: EscalationSpec, at: EscalationStep, reply: Reply, eff: Effect)
    requires InStep(w, OnEscalation(s, e, at), reply, eff, s.key, EscalationCR(e)) && at.EscFetch?
    ensures GoesOnWell(w, OnEscalation(s, e, at), reply, eff, s.key, EscalationCR(e))
  {
    if reply.GotObj? {
      assert eff == Nothing && reply.id == s.id && reply.obj == w.remote[RKey(Escalation, s.id)];
      EscalationKnows(s, e, at.teamId, at.acc, reply.id, reply.obj.escalation, reply.obj);
    }
  }

  lemma OwnEscalationFind(w: World, s: Snap, e: EscalationSpec, at: EscalationStep, reply: Reply, eff: Effect)
    requires InStep(w, OnEscalation(s, e, at), reply, eff, s.key, EscalationCR(e)) && at.EscFind?
    ensures GoesOnWell(w, OnEscalation(s, e, at), reply, eff, s.key, EscalationCR(e))
  {
    if reply.GotObj? {
      assert eff == Nothing && reply.obj == w.remote[RKey(Escalation, reply.id)];
    }
  }

  lemma ReferenceKnowsNothing(s: Snap, e: EscalationSpec, at: EscalationStep, reply: Reply)
    requires at.EscTeam? || at.EscRef?
    ensures KnowsNothing(EscalationResume(s, e, at, reply))
  {
    match at
    case EscTeam(_) => MappingShape(s, e, if reply.GotCR? then reply.cr.id else "", []);
    case EscRef(teamId, acc, _) =>
      if reply.GotCR? && |acc| < |e.rules| {
        MappingShape(s, e, teamId, acc + [Escalations.MapRule(e.rules[|acc|], reply.cr.id, "")]);
      }
  }

  lemma OwnReference(w: World, pc: Live, reply: Reply, eff: Effect, k: Key, spec: Spec)
    requires pc.OnEscalation? && (pc.escAt.EscTeam? || pc.escAt.EscRef?)
    ensures GoesOnWell(w, pc, reply, eff, k, spec)
  {
    ReferenceKnowsNothing(pc.s, pc.esc, pc.escAt, reply);
    BlankGoesOn(w, pc, reply, eff, k, spec);
  }

  lemma OwnFirstRead(w: World, key: Key, reply: Reply, eff: Effect, k: Key, spec: Spec)
    ensures GoesOnWell(w, Begin(key), reply, eff, k, spec)
  {
    if reply.GotCR? {
      StartKnowsNothing(Snap(key, reply.cr.id, reply.ver), reply.cr.spec);
    }
    BlankGoesOn(w, Begin(key), reply, eff, k, spec);
  }

  // Whatever is replied to a reconcile of `k`, it goes on well.
  lemma OwnStep(w: World, pc: Live, reply: Reply, eff: Effect, k: Key, spec: Spec)
    requires InStep(w, pc, reply, eff, k, spec)
    ensures GoesOnWell(w, pc, reply, eff, k, spec)
  {
    match pc
    case Begin(key) => OwnFirstRead(w, key, reply, eff, k, spec);
    case OnService(s, svc, SvcTeam(_)) => OwnServiceRead(w, s, svc, pc.svcAt, reply, eff);
    case OnService(s, svc, SvcGet) => OwnServiceRead(w, s, svc, pc.svcAt, reply, eff);
    case OnService(_, _, SvcUpdate) => OwnUpdate(w, pc, reply, eff, k, spec);
    case OnService(_, _, SvcCreate(_)) => OwnCreate(w, pc, reply, eff, k, spec);
    case OnTeam(s, team, TeamGet) => OwnTeamRead(w, s, team, reply, eff);
    case OnTeam(_, _, TeamCreate) => OwnCreate(w, pc, reply, eff, k, spec);
    case OnTeam(s, team, TeamMeta(_)) => OwnTeamUpdate(w, s, team, pc.teamAt, reply, eff);
    case OnTeam(s, team, TeamMembers) => OwnTeamUpdate(w, s, team, pc.teamAt, reply, eff);
    case OnTeam(s, team, TeamImport(_, _)) => OwnTeamSave(w, s, team, pc.teamAt, reply, eff);
    case OnTeam(s, team, TeamMetaSave(_)) => OwnTeamSave(w, s, team, pc.teamAt, reply, eff);
    case OnSchedule(_, _, SchedUpdate(_)) => OwnUpdate(w, pc, reply, eff, k, spec);
    case OnSchedule(_, _, SchedCreate(_)) => OwnCreate(w, pc, reply, eff, k, spec);
    case OnSchedule(s, c, _) => OwnScheduleRead(w, s, c, pc.schedAt, reply, eff);
    case OnEscalation(s, e, EscTeam(_)) => OwnReference(w, pc, reply, eff, k, spec);
    case OnEscalation(s, e, EscRef(_, _, _)) => OwnReference(w, pc, reply, eff, k, spec);
    case OnEscalation(s, e, EscImport(_, _, _, _)) => OwnEscalationSave(w, s, e, pc.escAt, reply, eff);
    case OnEscalation(_, _, EscUpdate(_, _, _)) => OwnUpdate(w, pc, reply, eff, k, spec);
    case OnEscalation(_, _, EscCreate(_, _)) => OwnCreate(w, pc, reply, eff, k, spec);
    case OnEscalation(s, e, EscFetch(_, _)) => OwnEscalationFetch(w, s, e, pc.escAt, reply, eff);
    case OnEscalation(s, e, EscFind(_, _)) => OwnEscalationFind(w, s, e, pc.escAt, reply, eff);
    case OnRule(_, _, RuleUpdate(_)) => OwnUpdate(w, pc, reply, eff, k, spec);
    case OnRule(_, _, RuleCreate(_)) => OwnCreate(w, pc, reply, eff, k, spec);
    case OnRule(_, _, _) => OwnRuleRead(w, pc, reply, eff, k, spec);
    case SaveNew(_, _, _) => OwnLastSave(w, pc, reply, eff, k, spec);
    case SaveImport(_, _) => OwnLastSave(w, pc, reply, eff, k, spec);
    case SaveSync(_) => OwnLastSave(w, pc, reply, eff, k, spec);
  }

  // ---- whole runs ---------------------------------------------------------------------

  lemma ActorStaysTracked(s: Sys, pid: nat, reply: Reply, eff: Effect, k: Key, spec: Spec)
    requires Base(s) && NoOlder(s, k, spec) && Enabled(s, Act(pid, reply, eff)) && Tracked(s.w, s.procs[pid], k, spec)
    ensures var next := Resume(s.procs[pid], reply); !next.Done? ==> Tracked(Apply(s.w, eff), next, k, spec)
  {
    var pc := s.procs[pid];
    ReconcileTerminates(pc, reply);
    if KeyOf(pc) == k {
      assert WorksFrom(s.w, pc, k, spec);
      OwnStep(s.w, pc, reply, eff, k, spec);
    }
  }

  lemma OthersGoOn(s: Sys, ev: Event, pid: nat)
    requires Enabled(s, ev) && pid in s.procs && pid in Next(s, ev).procs && !(ev.Act? && ev.pid == pid)
    ensures Next(s, ev).procs[pid] == s.procs[pid]
  {
  }

  lemma TrackedKept(s: Sys, ev: Event, names: Names, k: Key, spec: Spec, pid: nat)
    requires Sound(s, names, k) && NoOlder(s, k, spec) && Enabled(s, ev)
    requires pid in s.procs ==> Tracked(s.w, s.procs[pid], k, spec)
    ensures pid in Next(s, ev).procs ==> Tracked(Next(s, ev).w, Next(s, ev).procs[pid], k, spec)
  {
    var s' := Next(s, ev);
    if ev.Act? && ev.pid == pid {
      ActorStaysTracked(s, pid, ev.reply, ev.eff, k, spec);
    } else if pid in s'.procs && pid in s.procs {
      StepDevelops(s, ev, names, k, spec);
      BaseKept(s, ev);
      OthersGoOn(s, ev, pid);
      OthersStayTracked(s, s'.w, names, k, spec, pid);
    }
  }

  lemma {:induction false} RunKeepsTracked(s: Sys, evs: seq<Event>, names: Names, k: Key, spec: Spec, pid: nat)
    requires Valid(s, evs) && SteadyRun(s, evs, k, spec) && Alone(After(s, evs).w, names, k)
    requires Sound(s, names, k) && NoOlder(s, k, spec)
    requires pid in s.procs ==> Tracked(s.w, s.procs[pid], k, spec)
    ensures var s' := After(s, evs);
            && Sound(s', names, k) && NoOlder(s', k, spec)
            && (pid in s'.procs ==> Tracked(s'.w, s'.procs[pid], k, spec))
    decreases |evs|
  {
    if evs != [] {
      RunGrows(Next(s, evs[0]), evs[1..]);
      AloneBefore(Next(s, evs[0]).w, After(s, evs).w, names, k);
      SoundKept(s, evs[0], names, k);
      NoOlderKept(s, evs[0], names, k, spec);
      TrackedKept(s, evs[0], names, k, spec, pid);
      RunKeepsTracked(Next(s, evs[0]), evs[1..], names, k, spec, pid);
    }
  }

  // The id a reconcile holds is the one the status holds now, however old its version.
  lemma HeldIsCurrent(s: Sys, names: Names, k: Key, snap: Snap)
    requires Sound(s, names, k) && snap.key == k && Held(s.w, snap) && snap.id != "" && !k.kind.Rule?
    ensures CurrentId(s.w, k) == snap.id
  {
    var last := |s.w.hist[k]| - 1;
    assert s.w.hist[k][snap.ver].id != "" && snap.ver <= last;
    if k.kind.Team? {
      assert (k, snap.id) in HeldIds(s.w) && (k, s.w.hist[k][last].id) in HeldIds(s.w);
      HeldBears(s, names, k, snap.id);
      HeldBears(s, names, k, CurrentId(s.w, k));
    }
  }

  /** The status holds the id of an object that agrees with the spec, or never will. */
  ghost predicate Completed(w: World, k: Key, spec: Spec) {
    && CurrentId(w, k) != "" && RKey(k.kind, CurrentId(w, k)) in w.remote
    && Fine(spec, w.remote[RKey(k.kind, CurrentId(w, k))])
  }

  lemma EndCompletes(s: Sys, names: Names, k: Key, spec: Spec, pid: nat, eff: Effect)
    requires Sound(s, names, k) && pid in s.procs && KeyOf(s.procs[pid]) == k
    requires EndsWell(s.w, s.procs[pid], eff, k, spec) && StoresOk(Apply(s.w, eff))
    ensures Completed(Apply(s.w, eff), k, spec)
  {
    var pc := s.procs[pid];
    if eff == Nothing {
      assert Held(s.w, pc.s);
      HeldIsCurrent(s, names, k, pc.s);
    }
  }

  // A reconcile of `k` that has started since some reachable state and now ends with a requeue leaves
  // the status with the id of an object that agrees with the spec, or that no update can make agree.
  // Meanwhile any reconciles of any resources, this one included, may have run, failed, read stale
  // versions or died, as long as the spec has stayed and no older reconcile of `k` holds another one.
  lemma AgreementAmidInterference(s0: Sys, past: seq<Event>, run: seq<Event>, names: Names, k: Key, spec: Spec,
                                  pid: nat, reply: Reply, eff: Effect)
    requires Init(s0) && Valid(s0, past) && Valid(After(s0, past), run)
    requires SteadyRun(After(s0, past), run, k, spec) && NoOlder(After(s0, past), k, spec)
    requires Alone(After(After(s0, past), run).w, names, k)
    requires pid !in After(s0, past).procs && pid in After(After(s0, past), run).procs
    requires var s := After(After(s0, past), run);
             && KeyOf(s.procs[pid]) == k && Enabled(s, Act(pid, reply, eff))
             && Resume(s.procs[pid], reply).Done? && Resume(s.procs[pid], reply).outcome.Requeue?
    ensures Completed(Apply(After(After(s0, past), run).w, eff), k, spec)
  {
    var s1 := After(s0, past);
    var s := After(s1, run);
    RunGrows(s1, run);
    AloneBefore(s1.w, s.w, names, k);
    ReachableIsSound(s0, past, names, k);
    RunKeepsTracked(s1, run, names, k, spec, pid);
    assert WorksFrom(s.w, s.procs[pid], k, spec);
    OwnStep(s.w, s.procs[pid], reply, eff, k, spec);
    CallStaysOk(s.w, s.procs[pid], reply, eff);
    EndCompletes(s, names, k, spec, pid, eff);
  }
}
