/**
 The two stores that a reconcile talks to, and what may come back from a call.

 The cluster keeps, for every resource, all of its versions; the last one is current. The remote
 keeps objects by kind and id. `Handles` is the contract of one call: it lists every reply the
 program may see together with what the call did, so that a call may fail with or without having
 taken effect and a read may return any version. `Serve` is the well-behaved case.
 */
module Environment {
  import opened Basics
  import opened Members
  import Rotations
  import Escalations
  import IncidentRules

  datatype Kind = Service | Team | Schedule | Escalation | Rule

  /** Kinds whose remote names are unique. */
  predicate Named(kind: Kind) {
    kind.Team? || kind.Schedule? || kind.Escalation?
  }

  // ---- resources ----------------------------------------------------------------------

  datatype ServiceSpec = ServiceSpec(
    name: string, description: string, teamID: string, teamRef: Option<string>, tags: seq<string>)

  datatype TeamSpec = TeamSpec(name: string, description: string, members: seq<MemberSpec>)

  datatype ScheduleSpec = ScheduleSpec(
    name: string, description: string, timeZone: string, rotations: seq<Rotations.RotationSpec>, ownerTeam: string)

  datatype EscalationSpec = EscalationSpec(
    name: string, description: string, teamID: string, teamRef: Option<string>,
    rules: seq<Escalations.EscalationRule>)

  datatype Spec =
    | ServiceCR(service: ServiceSpec)
    | TeamCR(team: TeamSpec)
    | ScheduleCR(schedule: ScheduleSpec)
    | EscalationCR(escalation: EscalationSpec)
    | RuleCR(rule: IncidentRules.IncidentRuleSpec)

  datatype Key = Key(kind: Kind, namespace: string, name: string)

  /** One version of a resource: its spec and the remote id its status holds ("" for none). */
  datatype CR = CR(spec: Spec, id: string)

  predicate SpecFits(kind: Kind, spec: Spec) {
    match spec
    case ServiceCR(_) => kind.Service?
    case TeamCR(_) => kind.Team?
    case ScheduleCR(_) => kind.Schedule?
    case EscalationCR(_) => kind.Escalation?
    case RuleCR(_) => kind.Rule?
  }

  function SpecName(spec: Spec): string {
    match spec
    case ServiceCR(s) => s.name
    case TeamCR(t) => t.name
    case ScheduleCR(c) => c.name
    case EscalationCR(e) => e.name
    case RuleCR(_) => ""
  }

  // ---- remote objects -----------------------------------------------------------------

  datatype RemoteService = RemoteService(name: string, description: string, tags: seq<string>, teamId: string)

  datatype RemoteTeam = RemoteTeam(name: string, description: string, members: seq<Member>)

  datatype RemoteSchedule = RemoteSchedule(
    name: string, description: string, timeZone: string, ownerTeam: string, rotations: seq<Rotations.Rotation>)

  datatype RemoteEscalation = RemoteEscalation(
    name: string, description: string, ownerTeam: string, rules: seq<Escalations.RuleRequest>)

  /** An object of the remote; also the fields of a create or update request, empty ones being absent. */
  datatype Obj =
    | ServiceObj(service: RemoteService)
    | TeamObj(team: RemoteTeam)
    | ScheduleObj(schedule: RemoteSchedule)
    | EscalationObj(escalation: RemoteEscalation)
    | RuleObj(rule: IncidentRules.IncidentRule)

  datatype RKey = RKey(kind: Kind, id: string)

  predicate ObjFits(kind: Kind, obj: Obj) {
    match obj
    case ServiceObj(_) => kind.Service?
    case TeamObj(_) => kind.Team?
    case ScheduleObj(_) => kind.Schedule?
    case EscalationObj(_) => kind.Escalation?
    case RuleObj(_) => kind.Rule?
  }

  function ObjName(obj: Obj): string {
    match obj
    case ServiceObj(s) => s.name
    case TeamObj(t) => t.name
    case ScheduleObj(c) => c.name
    case EscalationObj(e) => e.name
    case RuleObj(_) => ""
  }

  /** The value of a text field after an update: an absent field is left alone. */
  function Or(was: string, sent: string): string {
    if sent == "" then was else sent
  }

  function OrSeq<T>(was: seq<T>, sent: seq<T>): seq<T> {
    if |sent| == 0 then was else sent
  }

  /** An update stores the fields that are sent and leaves the absent ones alone. A service keeps its rules. */
  function Merge(was: Obj, sent: Obj): Obj {
    match (was, sent)
    case (ServiceObj(o), ServiceObj(p)) =>
      ServiceObj(RemoteService(Or(o.name, p.name), Or(o.description, p.description),
                               OrSeq(o.tags, p.tags), Or(o.teamId, p.teamId)))
    case (TeamObj(o), TeamObj(p)) =>
      TeamObj(RemoteTeam(Or(o.name, p.name), Or(o.description, p.description), OrSeq(o.members, p.members)))
    case (ScheduleObj(o), ScheduleObj(p)) =>
      ScheduleObj(RemoteSchedule(Or(o.name, p.name), Or(o.description, p.description), Or(o.timeZone, p.timeZone),
                                 Or(o.ownerTeam, p.ownerTeam), OrSeq(o.rotations, p.rotations)))
    case (EscalationObj(o), EscalationObj(p)) =>
      EscalationObj(RemoteEscalation(Or(o.name, p.name), Or(o.description, p.description),
                                     Or(o.ownerTeam, p.ownerTeam), OrSeq(o.rules, p.rules)))
    case (RuleObj(o), RuleObj(p)) =>
      RuleObj(IncidentRules.IncidentRule(o.service, OrSeq(o.conditions, p.conditions),
                                         Or(o.matchType, p.matchType), p.properties))
    case _ => was
  }

  /** What the remote keeps of an object: everything, with recipients' names of its own choice in rules
      that were sent (`renames`). */
  predicate Keeps(obj: Obj, stored: Obj, renames: bool) {
    if obj.EscalationObj? && renames then
      && stored.EscalationObj?
      && Escalations.StoredAs(obj.escalation.rules, stored.escalation.rules)
      && stored.escalation == obj.escalation.(rules := stored.escalation.rules)
    else
      stored == obj
  }

  /** Whether a request carries escalation rules, whose recipients' names the remote then fills in. */
  predicate SendsRules(obj: Obj) {
    obj.EscalationObj? && obj.escalation.rules != []
  }

  // ---- the world and its calls --------------------------------------------------------

  datatype World = World(hist: map<Key, seq<CR>>, remote: map<RKey, Obj>)

  ghost predicate NameTaken(w: World, kind: Kind, name: string) {
    exists id :: RKey(kind, id) in w.remote && ObjName(w.remote[RKey(kind, id)]) == name
  }

  /** Some other object of the kind bears the name. */
  ghost predicate NameClash(w: World, rk: RKey, name: string) {
    exists id :: id != rk.id && RKey(rk.kind, id) in w.remote && ObjName(w.remote[RKey(rk.kind, id)]) == name
  }

  datatype Request =
    | GetCR(key: Key)
    | GetById(rk: RKey)
    | GetByName(kind: Kind, name: string)
    | Create(owner: Key, obj: Obj)
    | Update(rk: RKey, obj: Obj)
    | PutStatus(key: Key, ver: nat, id: string)
    | ListRules(service: string)

  datatype Reply =
    | Failed
    | NotFound
    | Exists
    | GotCR(cr: CR, ver: nat)
    | GotObj(id: string, obj: Obj)
    | Created(id: string)
    | Updated
    | Written(ver: nat)
    | RulesAre(list: seq<IncidentRules.Listed>)

  /** What one call did to the stores. */
  datatype Effect =
    | Nothing
    | Added(rk: RKey, obj: Obj)
    | Patched(rk: RKey, obj: Obj)
    | Appended(key: Key, cr: CR)

  function Apply(w: World, eff: Effect): World {
    match eff
    case Nothing => w
    case Added(rk, obj) => w.(remote := w.remote[rk := obj])
    case Patched(rk, obj) => w.(remote := w.remote[rk := obj])
    case Appended(key, cr) =>
      w.(hist := w.hist[key := (if key in w.hist then w.hist[key] else []) + [cr]])
  }

  predicate IsRuleOf(obj: Obj, service: string) {
    obj.RuleObj? && obj.rule.service == service
  }

  /** `list` shows exactly the rules below a service. */
  ghost predicate Lists(w: World, service: string, list: seq<IncidentRules.Listed>) {
    && (forall i :: 0 <= i < |list| ==>
          && RKey(Rule, list[i].id) in w.remote
          && w.remote[RKey(Rule, list[i].id)] == RuleObj(list[i].rule)
          && list[i].rule.service == service)
    && (forall id :: (RKey(Rule, id) in w.remote && IsRuleOf(w.remote[RKey(Rule, id)], service))
                     ==> IncidentRules.IsListed(list, id))
  }

  /** Rules can only be kept below a service that exists. */
  predicate ParentExists(w: World, obj: Obj) {
    obj.RuleObj? ==> RKey(Service, obj.rule.service) in w.remote
  }

  ghost predicate CreateApplied(w: World, owner: Key, obj: Obj, eff: Effect) {
    && eff.Added?
    && eff.rk.kind == owner.kind && eff.rk.id != "" && eff.rk !in w.remote
    && ObjFits(owner.kind, obj) && Keeps(obj, eff.obj, SendsRules(obj))
    && ParentExists(w, obj)
    && (Named(owner.kind) ==> !NameTaken(w, owner.kind, ObjName(obj)))
  }

  ghost predicate UpdateApplied(w: World, rk: RKey, obj: Obj, eff: Effect) {
    && eff.Patched? && eff.rk == rk && rk in w.remote
    && ObjFits(rk.kind, obj) && Keeps(Merge(w.remote[rk], obj), eff.obj, SendsRules(obj))
    && (obj.RuleObj? && w.remote[rk].RuleObj? ==> obj.rule.service == w.remote[rk].rule.service)
    && (Named(rk.kind) ==> !NameClash(w, rk, ObjName(Merge(w.remote[rk], obj))))
  }

  /** A status write succeeds only from the current version, and leaves the spec as it is. */
  predicate StatusApplied(w: World, key: Key, ver: nat, id: string, eff: Effect) {
    && key in w.hist && ver == |w.hist[key]| - 1
    && eff == Appended(key, CR(w.hist[key][ver].spec, id))
  }

  /** Every reply a call may give, together with what the call did. */
  ghost predicate Handles(w: World, req: Request, reply: Reply, eff: Effect) {
    || (reply == Failed && eff == Nothing)
    || match req
       case GetCR(key) =>
         && eff == Nothing
         && (|| reply == NotFound
             || (reply.GotCR? && key in w.hist && reply.ver < |w.hist[key]| && reply.cr == w.hist[key][reply.ver]))
       case GetById(rk) =>
         && eff == Nothing
         && if rk in w.remote then reply == GotObj(rk.id, w.remote[rk]) else reply == NotFound
       case GetByName(kind, name) =>
         && eff == Nothing
         && if NameTaken(w, kind, name) then
              && reply.GotObj? && RKey(kind, reply.id) in w.remote
              && reply.obj == w.remote[RKey(kind, reply.id)] && ObjName(reply.obj) == name
            else
              reply == NotFound
       case Create(owner, obj) =>
         || (eff == Nothing && reply == Exists && Named(owner.kind) && NameTaken(w, owner.kind, ObjName(obj)))
         || (CreateApplied(w, owner, obj, eff) && (reply == Failed || reply == Created(eff.rk.id)))
       case Update(rk, obj) =>
         UpdateApplied(w, rk, obj, eff) && (reply == Failed || reply == Updated)
       case PutStatus(key, ver, id) =>
         StatusApplied(w, key, ver, id, eff) && (reply == Failed || reply == Written(ver + 1))
       case ListRules(service) =>
         && eff == Nothing && RKey(Service, service) in w.remote
         && reply.RulesAre? && Lists(w, service, reply.list)
  }

  // ---- the well-behaved case ----------------------------------------------------------

  /** The choices a well-behaved environment has left: the next id, and the recipients' names it shows. */
  datatype Oracle = Oracle(newId: string, shown: seq<string>)

  /** The name shown for the recipient of rule `i`; none if the oracle has none. */
  function Shown(o: Oracle, i: nat): string {
    if i < |o.shown| then o.shown[i] else ""
  }

  function ShowName(r: Escalations.RuleRequest, o: Oracle, i: nat): Escalations.RuleRequest {
    r.(recipient := r.recipient.(name := Shown(o, i)))
  }

  function ShowNames(rules: seq<Escalations.RuleRequest>, o: Oracle): (stored: seq<Escalations.RuleRequest>)
    ensures Escalations.StoredAs(rules, stored)
  {
    seq(|rules|, i requires 0 <= i < |rules| => ShowName(rules[i], o, i))
  }

  function Store(obj: Obj, renames: bool, o: Oracle): (stored: Obj)
    ensures Keeps(obj, stored, renames)
  {
    if obj.EscalationObj? && renames then
      EscalationObj(obj.escalation.(rules := ShowNames(obj.escalation.rules, o)))
    else
      obj
  }

  ghost function Order(ids: set<string>): (s: seq<string>)
    ensures forall id :: id in s <==> id in ids
  {
    if ids == {} then []
    else
      var id :| id in ids;
      [id] + Order(ids - {id})
  }

  ghost function RuleIds(w: World, service: string): (ids: set<string>)
    ensures forall id :: id in ids <==>
              RKey(Rule, id) in w.remote && IsRuleOf(w.remote[RKey(Rule, id)], service)
  {
    set rk | rk in w.remote && rk.kind.Rule? && IsRuleOf(w.remote[rk], service) :: rk.id
  }

  ghost function Enumerate(w: World, service: string): (list: seq<IncidentRules.Listed>)
    ensures Lists(w, service, list)
  {
    var ids := Order(RuleIds(w, service));
    var list := seq(|ids|, i requires 0 <= i < |ids| =>
                      assert ids[i] in RuleIds(w, service);
                      IncidentRules.Listed(ids[i], w.remote[RKey(Rule, ids[i])].rule));
    assert forall i :: 0 <= i < |ids| ==> list[i].id == ids[i] && ids[i] in RuleIds(w, service);
    assert forall id :: id in RuleIds(w, service) ==> exists i :: 0 <= i < |ids| && ids[i] == id && list[i].id == id;
    list
  }

  /** The reply and effect of a call when nothing goes wrong and reads are current. */
  ghost function Serve(w: World, req: Request, o: Oracle): (Reply, Effect) {
    match req
    case GetCR(key) =>
      if key in w.hist && w.hist[key] != []
      then (GotCR(w.hist[key][|w.hist[key]| - 1], |w.hist[key]| - 1), Nothing)
      else (NotFound, Nothing)
    case GetById(rk) =>
      if rk in w.remote then (GotObj(rk.id, w.remote[rk]), Nothing) else (NotFound, Nothing)
    case GetByName(kind, name) =>
      if NameTaken(w, kind, name) then
        var id :| RKey(kind, id) in w.remote && ObjName(w.remote[RKey(kind, id)]) == name;
        (GotObj(id, w.remote[RKey(kind, id)]), Nothing)
      else (NotFound, Nothing)
    case Create(owner, obj) =>
      if Named(owner.kind) && NameTaken(w, owner.kind, ObjName(obj)) then (Exists, Nothing)
      else if ObjFits(owner.kind, obj) && ParentExists(w, obj)
      then (Created(o.newId), Added(RKey(owner.kind, o.newId), Store(obj, SendsRules(obj), o)))
      else (Failed, Nothing)
    case Update(rk, obj) =>
      if rk in w.remote && ObjFits(rk.kind, obj)
         && (obj.RuleObj? && w.remote[rk].RuleObj? ==> obj.rule.service == w.remote[rk].rule.service)
         && (Named(rk.kind) ==> !NameClash(w, rk, ObjName(Merge(w.remote[rk], obj))))
      then (Updated, Patched(rk, Store(Merge(w.remote[rk], obj), SendsRules(obj), o)))
      else (Failed, Nothing)
    case PutStatus(key, ver, id) =>
      if key in w.hist && ver == |w.hist[key]| - 1
      then (Written(ver + 1), Appended(key, CR(w.hist[key][ver].spec, id)))
      else (Failed, Nothing)
    case ListRules(service) =>
      if RKey(Service, service) in w.remote
      then (RulesAre(Enumerate(w, service)), Nothing)
      else (Failed, Nothing)
  }

  /** The id the oracle hands out next is new. */
  predicate FreshId(w: World, id: string) {
    id != "" && forall rk :: rk in w.remote ==> rk.id != id
  }

  // The well-behaved environment is one of the behaviours that `Handles` admits.
  lemma ServeIsHandled(w: World, req: Request, o: Oracle)
    requires FreshId(w, o.newId)
    ensures Handles(w, req, Serve(w, req, o).0, Serve(w, req, o).1)
  {
  }

  // New ids never run out.
  lemma SomeFreshId(w: World) returns (id: string)
    ensures FreshId(w, id)
  {
    var ids := Order(set rk | rk in w.remote :: rk.id);
    id := Unlike(ids);
    UnlikeIsFresh(ids);
    assert id[|id| - 1] == '#';
    forall rk | rk in w.remote ensures rk.id != id {
      assert rk.id in ids;
    }
  }
}
