/**
 Any number of reconciles running at once against the two stores.

 A step is one call of one reconcile with any admitted reply, the start or the crash of a
 reconcile, a spec edit by a user, or an object that somebody else creates remotely. Two ledgers
 record what the stores do not show: who created a remote object, and which created ids were lost
 before a status held them.
 */
module Protocol {
  import opened Basics
  import opened Environment
  import opened Programs
  import Rotations
  import Escalations

  /** A reconcile that still has a call to make. */
  type Live = pc: PC | !pc.Done? witness Begin(Key(Service, "", ""))

  datatype Sys = Sys(w: World, procs: map<nat, Live>, creator: map<RKey, Key>, lost: set<RKey>)

  datatype Event =
    | Spawn(pid: nat, key: Key)
    | Crash(pid: nat)
    | Act(pid: nat, reply: Reply, eff: Effect)
    | Edit(key: Key, spec: Spec)
    | Foreign(rk: RKey, obj: Obj)

  /** The object a reconcile has created without having written its id to a status yet. */
  function Awaited(pc: PC): RKey
    requires pc.SaveNew?
  {
    RKey(pc.s.key.kind, pc.id)
  }

  function Pending(pc: PC): set<RKey> {
    if pc.SaveNew? then {Awaited(pc)} else {}
  }

  function CurrentId(w: World, key: Key): string {
    if key in w.hist && w.hist[key] != [] then w.hist[key][|w.hist[key]| - 1].id else ""
  }

  ghost predicate Enabled(s: Sys, ev: Event) {
    match ev
    case Spawn(pid, _) => pid !in s.procs
    case Crash(pid) => pid in s.procs
    case Act(pid, reply, eff) => pid in s.procs && Handles(s.w, RequestOf(s.procs[pid]), reply, eff)
    case Edit(key, spec) => SpecFits(key.kind, spec)
    case Foreign(rk, obj) =>
      && rk !in s.w.remote && rk.id != "" && ObjFits(rk.kind, obj) && ParentExists(s.w, obj)
      && (Named(rk.kind) ==> !NameTaken(s.w, rk.kind, ObjName(obj)))
  }

  function Advance(procs: map<nat, Live>, pid: nat, next: PC): map<nat, Live> {
    if next.Done? then procs - {pid} else procs[pid := next]
  }

  ghost function Next(s: Sys, ev: Event): Sys
    requires Enabled(s, ev)
  {
    match ev
    case Spawn(pid, key) => s.(procs := s.procs[pid := Begin(key)])
    case Crash(pid) => s.(procs := s.procs - {pid}, lost := s.lost + Pending(s.procs[pid]))
    case Act(pid, reply, eff) =>
      var pc := s.procs[pid];
      Sys(Apply(s.w, eff),
          Advance(s.procs, pid, Resume(pc, reply)),
          if eff.Added? then s.creator[eff.rk := KeyOf(pc)] else s.creator,
          s.lost
          + (if eff.Added? && !reply.Created? then {eff.rk} else {})
          + (if eff.Nothing? then Pending(pc) else {}))
    case Edit(key, spec) => s.(w := Apply(s.w, Appended(key, CR(spec, CurrentId(s.w, key)))))
    case Foreign(rk, obj) => s.(w := Apply(s.w, Added(rk, obj)))
  }

  ghost predicate Valid(s: Sys, evs: seq<Event>)
    decreases |evs|
  {
    evs == [] || (Enabled(s, evs[0]) && Valid(Next(s, evs[0]), evs[1..]))
  }

  ghost function After(s: Sys, evs: seq<Event>): Sys
    requires Valid(s, evs)
    decreases |evs|
  {
    if evs == [] then s else After(Next(s, evs[0]), evs[1..])
  }

  lemma {:induction false} RunsCompose(s: Sys, a: seq<Event>, b: seq<Event>)
    requires Valid(s, a) && Valid(After(s, a), b)
    ensures Valid(s, a + b) && After(s, a + b) == After(After(s, a), b)
    decreases |a|
  {
    if a == [] {
      assert a + b == b;
    } else {
      assert (a + b)[1..] == a[1..] + b;
      RunsCompose(Next(s, a[0]), a[1..], b);
    }
  }

  // A process number that is not in use.
  lemma {:induction false} SomeFreePid(pids: set<nat>) returns (pid: nat)
    ensures forall p :: p in pids ==> p < pid
    decreases |pids|
  {
    if pids == {} {
      pid := 0;
    } else {
      var p :| p in pids;
      var rest := SomeFreePid(pids - {p});
      pid := if p < rest then rest else p + 1;
      forall q | q in pids ensures q < pid {
        assert q == p || q in pids - {p};
      }
    }
  }

  // ---- the stores ---------------------------------------------------------------------

  ghost predicate SpecsFit(w: World) {
    forall k :: k in w.hist ==>
      w.hist[k] != [] && forall v :: 0 <= v < |w.hist[k]| ==> SpecFits(k.kind, w.hist[k][v].spec)
  }

  ghost predicate UniqueNames(w: World) {
    forall r1, r2 ::
      (r1 in w.remote && r2 in w.remote && r1.kind == r2.kind && Named(r1.kind)
       && ObjName(w.remote[r1]) == ObjName(w.remote[r2]))
      ==> r1 == r2
  }

  ghost predicate RemoteOk(w: World) {
    && (forall rk :: rk in w.remote ==> rk.id != "" && ObjFits(rk.kind, w.remote[rk]) && ParentExists(w, w.remote[rk]))
    && UniqueNames(w)
  }

  /** Every id that any version of a status holds names a remote object of the resource's kind. */
  ghost predicate IdsExist(w: World) {
    forall k, v :: k in w.hist && 0 <= v < |w.hist[k]| && w.hist[k][v].id != ""
                   ==> RKey(k.kind, w.hist[k][v].id) in w.remote
  }

  /** The start of every run: statuses are empty, the remote may hold anything. */
  ghost predicate Init(s: Sys) {
    && (forall k :: k in s.w.hist ==> |s.w.hist[k]| == 1 && s.w.hist[k][0].id == "")
    && SpecsFit(s.w) && RemoteOk(s.w)
    && s.procs == map[] && s.creator == map[] && s.lost == {}
  }

  // ---- what running reconciles know ---------------------------------------------------

  /** Kinds whose status id is set once. */
  predicate SetOnce(kind: Kind) {
    kind.Service? || kind.Schedule? || kind.Escalation?
  }

  predicate Held(w: World, s: Snap) {
    s.key in w.hist && s.ver < |w.hist[s.key]| && w.hist[s.key][s.ver].id == s.id
  }

  predicate SnapIs(w: World, s: Snap, spec: Spec) {
    && Held(w, s) && w.hist[s.key][s.ver].spec == spec && SpecFits(s.key.kind, spec)
  }

  /** The spec a reconcile works from, once it has read its resource and until its last status write. */
  function SpecOf(pc: PC): Option<Spec> {
    match pc
    case OnService(_, svc, _) => Some(ServiceCR(svc))
    case OnTeam(_, team, _) => Some(TeamCR(team))
    case OnSchedule(_, c, _) => Some(ScheduleCR(c))
    case OnEscalation(_, e, _) => Some(EscalationCR(e))
    case OnRule(_, r, _) => Some(RuleCR(r))
    case _ => None
  }

  predicate RefOk(w: World, kind: Kind, id: string) {
    id == "" || RKey(kind, id) in w.remote
  }

  predicate TeamOk(w: World, teamID: string, resolved: string) {
    if teamID != "" then resolved == teamID else RefOk(w, Team, resolved)
  }

  /** A mapped rule is the spec's rule, and an id it took from a reference exists. */
  predicate MappedOk(w: World, rule: Escalations.EscalationRule, sent: Escalations.RuleRequest) {
    match Escalations.SourceOf(rule.recipient)
    case Direct(id, username) => sent == Escalations.MapRule(rule, id, username)
    case FromTeam(_) => sent == Escalations.MapRule(rule, sent.recipient.id, "") && RefOk(w, Team, sent.recipient.id)
    case FromSchedule(_) =>
      sent == Escalations.MapRule(rule, sent.recipient.id, "") && RefOk(w, Schedule, sent.recipient.id)
    case Missing => false
  }

  predicate AccOk(w: World, e: EscalationSpec, acc: seq<Escalations.RuleRequest>) {
    |acc| <= |e.rules| && forall i :: 0 <= i < |acc| ==> MappedOk(w, e.rules[i], acc[i])
  }

  predicate EscOk(w: World, e: EscalationSpec, teamId: string, acc: seq<Escalations.RuleRequest>) {
    TeamOk(w, e.teamID, teamId) && AccOk(w, e, acc)
  }

  predicate RefTarget(s: Snap, e: EscalationSpec, acc: seq<Escalations.RuleRequest>, target: Key) {
    && |acc| < |e.rules|
    && match Escalations.SourceOf(e.rules[|acc|].recipient)
       case FromTeam(name) => target == Key(Team, s.key.namespace, name)
       case FromSchedule(name) => target == Key(Schedule, s.key.namespace, name)
       case _ => false
  }

  predicate ServiceOk(w: World, s: Snap, svc: ServiceSpec, at: ServiceStep) {
    match at
    case SvcTeam(_) => svc.teamID == ""
    case SvcCreate(teamId) => s.id == "" && TeamOk(w, svc.teamID, teamId)
    case _ => s.id != ""
  }

  predicate TeamStepOk(w: World, s: Snap, at: TeamStep) {
    match at
    case TeamGet => true
    case TeamImport(id, _) => id != "" && RKey(Team, id) in w.remote
    case TeamCreate => true
    case _ => s.id != ""
  }

  predicate Converted(c: ScheduleSpec, rots: seq<Rotations.Rotation>) {
    Rotations.Convertible(c.rotations) && rots == Rotations.ToRotations(c.rotations)
  }

  predicate ScheduleOk(s: Snap, c: ScheduleSpec, at: ScheduleStep) {
    match at
    case SchedGet(rots) => s.id != "" && Converted(c, rots)
    case SchedUpdate(rots) => s.id != "" && Converted(c, rots)
    case SchedCreate(rots) => s.id == "" && Converted(c, rots)
    case SchedFind => s.id == ""
  }

  predicate EscalationOk(w: World, s: Snap, e: EscalationSpec, at: EscalationStep) {
    match at
    case EscTeam(_) => e.teamID == ""
    case EscRef(teamId, acc, target) => EscOk(w, e, teamId, acc) && RefTarget(s, e, acc, target)
    case EscFetch(teamId, acc) => EscOk(w, e, teamId, acc) && |acc| == |e.rules| && s.id != ""
    case EscFind(teamId, acc) => EscOk(w, e, teamId, acc) && |acc| == |e.rules| && s.id == ""
    case EscImport(teamId, acc, id, _) =>
      EscOk(w, e, teamId, acc) && |acc| == |e.rules| && s.id == "" && id != "" && RKey(Escalation, id) in w.remote
    case EscUpdate(teamId, acc, id) => EscOk(w, e, teamId, acc) && |acc| == |e.rules| && s.id != "" && id == s.id
    case EscCreate(teamId, acc) => EscOk(w, e, teamId, acc) && |acc| == |e.rules| && s.id == ""
  }

  predicate RuleOk(w: World, s: Snap, at: RuleStep) {
    match at
    case RuleService(_) => true
    case RuleList(service) => RefOk(w, Service, service)
    case RuleUpdate(service) => RefOk(w, Service, service) && s.id != ""
    case RuleCreate(service) => RefOk(w, Service, service)
  }

  predicate PcOk(w: World, pc: PC) {
    match pc
    case Done(_) => true
    case Begin(_) => true
    case SaveNew(s, id, _) =>
      Held(w, s) && id != "" && RKey(s.key.kind, id) in w.remote && (SetOnce(s.key.kind) ==> s.id == "")
    case SaveImport(s, id) =>
      Held(w, s) && s.key.kind.Schedule? && s.id == "" && id != "" && RKey(Schedule, id) in w.remote
    case SaveSync(s) => Held(w, s) && s.id != ""
    case OnService(s, svc, at) => SnapIs(w, s, ServiceCR(svc)) && ServiceOk(w, s, svc, at)
    case OnTeam(s, team, at) => SnapIs(w, s, TeamCR(team)) && TeamStepOk(w, s, at)
    case OnSchedule(s, c, at) => SnapIs(w, s, ScheduleCR(c)) && ScheduleOk(s, c, at)
    case OnEscalation(s, e, at) => SnapIs(w, s, EscalationCR(e)) && EscalationOk(w, s, e, at)
    case OnRule(s, r, at) => SnapIs(w, s, RuleCR(r)) && RuleOk(w, s, at)
  }

  // ---- the stores only grow -----------------------------------------------------------

  /** Versions and objects are added, never removed; an object keeps its kind. */
  ghost predicate Grows(w: World, w': World) {
    && (forall k :: k in w.hist ==> k in w'.hist && w.hist[k] <= w'.hist[k])
    && (forall rk :: rk in w.remote ==> rk in w'.remote)
  }

  lemma GrowsTransitively(a: World, b: World, c: World)
    requires Grows(a, b) && Grows(b, c)
    ensures Grows(a, c)
  {
  }

  lemma PcOkGrows(w: World, w': World, pc: PC)
    requires PcOk(w, pc) && Grows(w, w')
    ensures PcOk(w', pc)
  {
  }

  lemma StepGrows(s: Sys, ev: Event)
    requires Enabled(s, ev)
    ensures Grows(s.w, Next(s, ev).w)
  {
  }

  lemma {:induction false} RunGrows(s: Sys, evs: seq<Event>)
    requires Valid(s, evs)
    ensures Grows(s.w, After(s, evs).w)
    decreases |evs|
  {
    if evs != [] {
      StepGrows(s, evs[0]);
      RunGrows(Next(s, evs[0]), evs[1..]);
      GrowsTransitively(s.w, Next(s, evs[0]).w, After(s, evs).w);
    }
  }

  // ---- what one call can do -----------------------------------------------------------

  /** The id that a pending status write stores. */
  function SavedId(pc: PC): string
    requires !pc.Done? && RequestOf(pc).PutStatus?
  {
    RequestOf(pc).id
  }

  // Calls touch the caller's own kind only, and status writes store a non-empty id.
  lemma CallShape(w: World, pc: PC, reply: Reply, eff: Effect)
    requires !pc.Done? && PcOk(w, pc) && Handles(w, RequestOf(pc), reply, eff) && IdsExist(w)
    ensures eff.Added? ==> RequestOf(pc).Create? && CreateApplied(w, KeyOf(pc), RequestOf(pc).obj, eff)
    ensures eff.Patched? ==> RequestOf(pc).Update? && UpdateApplied(w, eff.rk, RequestOf(pc).obj, eff)
                             && eff.rk.kind == KeyOf(pc).kind
    ensures eff.Appended? ==> RequestOf(pc).PutStatus? && StatusApplied(w, KeyOf(pc), pc.s.ver, SavedId(pc), eff)
    ensures RequestOf(pc).PutStatus? ==> SavedId(pc) != "" && RKey(KeyOf(pc).kind, SavedId(pc)) in w.remote
  {
  }

  ghost predicate StoresOk(w: World) {
    SpecsFit(w) && RemoteOk(w) && IdsExist(w)
  }

  // What the remote keeps of an object has its kind, its name and its parent.
  lemma KeepsShape(obj: Obj, stored: Obj, renames: bool)
    requires Keeps(obj, stored, renames)
    ensures forall kind :: ObjFits(kind, stored) <==> ObjFits(kind, obj)
    ensures ObjName(stored) == ObjName(obj)
    ensures obj.RuleObj? || stored.RuleObj? ==> stored == obj
  {
  }

  // An update keeps the kind and the parent of an object, and renames it only to a name that is sent.
  lemma MergeShape(was: Obj, sent: Obj)
    ensures forall kind :: ObjFits(kind, Merge(was, sent)) <==> ObjFits(kind, was)
    ensures ObjName(sent) == "" || ObjName(sent) == ObjName(was) ==> ObjName(Merge(was, sent)) == ObjName(was)
    ensures was.RuleObj? ==> Merge(was, sent).RuleObj? && Merge(was, sent).rule.service == was.rule.service
    ensures !was.RuleObj? ==> !Merge(was, sent).RuleObj?
  {
  }

  lemma AddedStaysOk(w: World, rk: RKey, obj: Obj)
    requires StoresOk(w)
    requires rk !in w.remote && rk.id != "" && ObjFits(rk.kind, obj) && ParentExists(w, obj)
    requires Named(rk.kind) ==> !NameTaken(w, rk.kind, ObjName(obj))
    ensures StoresOk(Apply(w, Added(rk, obj)))
  {
  }

  lemma PatchedStaysOk(w: World, rk: RKey, obj: Obj)
    requires StoresOk(w)
    requires rk in w.remote && ObjFits(rk.kind, obj) && ParentExists(w, obj)
    requires Named(rk.kind) ==> !NameClash(w, rk, ObjName(obj))
    ensures StoresOk(Apply(w, Patched(rk, obj)))
  {
  }

  lemma AppendedStaysOk(w: World, key: Key, cr: CR)
    requires StoresOk(w)
    requires SpecFits(key.kind, cr.spec) && RefOk(w, key.kind, cr.id)
    ensures StoresOk(Apply(w, Appended(key, cr)))
  {
  }

  lemma CallStaysOk(w: World, pc: PC, reply: Reply, eff: Effect)
    requires !pc.Done? && PcOk(w, pc) && Handles(w, RequestOf(pc), reply, eff) && StoresOk(w)
    ensures StoresOk(Apply(w, eff))
  {
    CallShape(w, pc, reply, eff);
    match eff
    case Nothing =>
    case Added(rk, obj) =>
      KeepsShape(RequestOf(pc).obj, obj, SendsRules(RequestOf(pc).obj));
      AddedStaysOk(w, rk, obj);
    case Patched(rk, obj) =>
      var sent := RequestOf(pc).obj;
      MergeShape(w.remote[rk], sent);
      KeepsShape(Merge(w.remote[rk], sent), obj, SendsRules(sent));
      PatchedStaysOk(w, rk, obj);
    case Appended(key, cr) =>
      AppendedStaysOk(w, key, cr);
  }
}
