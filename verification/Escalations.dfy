/** Escalation rules: their translation to requests and the comparison that decides on a rewrite. */
module Escalations {
  import opened Basics
  import Rotations

  type Participant = Rotations.Participant

  datatype Recipient = Recipient(
    kind: string, id: string, username: string, teamRef: Option<string>, scheduleRef: Option<string>)

  datatype EscalationRule = EscalationRule(
    condition: string, notifyType: string, delayMin: int, recipient: Recipient)

  /** A rule as it is sent; the remote stores it and fills in the recipient's name. */
  datatype RuleRequest = RuleRequest(condition: string, notifyType: string, delay: nat, recipient: Participant)

  /** Where the identity of a recipient comes from. */
  datatype Source = Direct(id: string, username: string) | FromTeam(name: string) | FromSchedule(name: string) | Missing

  function SourceOf(r: Recipient): Source {
    if r.id != "" then Direct(r.id, "")
    else if r.kind == "user" && r.username != "" then Direct("", r.username)
    else if r.teamRef.Some? then FromTeam(r.teamRef.value)
    else if r.scheduleRef.Some? then FromSchedule(r.scheduleRef.value)
    else Missing
  }

  function MapRule(rule: EscalationRule, id: string, username: string): RuleRequest {
    RuleRequest(rule.condition, rule.notifyType, Wrap32(rule.delayMin),
                Rotations.Participant(rule.recipient.kind, id, "", if id != "" then "" else username))
  }

  /** The status ids of the resources that references may name. */
  datatype Directory = Directory(teams: map<string, string>, schedules: map<string, string>)

  /** The id and username a recipient resolves to, if it does. */
  function Resolve(r: Recipient, dir: Directory): Option<(string, string)> {
    match SourceOf(r)
    case Direct(id, username) => Some((id, username))
    case FromTeam(name) => if name in dir.teams then Some((dir.teams[name], "")) else None
    case FromSchedule(name) => if name in dir.schedules then Some((dir.schedules[name], "")) else None
    case Missing => None
  }

  function MapRuleIn(rule: EscalationRule, dir: Directory): RuleRequest
    requires Resolve(rule.recipient, dir).Some?
  {
    var (id, username) := Resolve(rule.recipient, dir).value;
    MapRule(rule, id, username)
  }

  predicate Resolvable(rules: seq<EscalationRule>, dir: Directory) {
    forall i :: 0 <= i < |rules| ==> Resolve(rules[i].recipient, dir).Some?
  }

  function MapRules(rules: seq<EscalationRule>, dir: Directory): seq<RuleRequest>
    requires Resolvable(rules, dir)
  {
    seq(|rules|, i requires 0 <= i < |rules| => MapRuleIn(rules[i], dir))
  }

  // A recipient fails to resolve exactly when nothing identifies it, or what its first reference names
  // does not exist.
  lemma ResolvesExactly(r: Recipient, dir: Directory)
    ensures Resolve(r, dir).None? <==>
            && r.id == "" && !(r.kind == "user" && r.username != "")
            && if r.teamRef.Some? then r.teamRef.value !in dir.teams
               else r.scheduleRef.None? || r.scheduleRef.value !in dir.schedules
  {
  }

  // Each recipient is sent with its id if the spec has one, else a user's username, else the status id
  // of its team reference, else that of its schedule reference.
  lemma MappingPrecedence(rules: seq<EscalationRule>, dir: Directory, i: nat)
    requires Resolvable(rules, dir) && i < |rules|
    ensures |MapRules(rules, dir)| == |rules|
    ensures var spec, sent := rules[i], MapRules(rules, dir)[i];
            && sent.condition == spec.condition && sent.notifyType == spec.notifyType
            && sent.delay == spec.delayMin % 0x1_0000_0000 && sent.recipient.kind == spec.recipient.kind
            && var r, p := spec.recipient, sent.recipient;
               if r.id != "" then p.id == r.id && p.username == ""
               else if r.kind == "user" && r.username != "" then p.id == "" && p.username == r.username
               else if r.teamRef.Some? then p.username == "" && p.id == dir.teams[r.teamRef.value]
               else r.scheduleRef.Some? && p.username == "" && p.id == dir.schedules[r.scheduleRef.value]
  {
  }

  // A recipient is sent with both an id and a username never, and with neither exactly when it is
  // a reference to a resource that has no status id yet.
  lemma MappingIdentifiers(rules: seq<EscalationRule>, dir: Directory, i: nat)
    requires Resolvable(rules, dir) && i < |rules|
    ensures var p := MapRules(rules, dir)[i].recipient;
            && (p.id == "" || p.username == "")
            && ((p.id == "" && p.username == "") <==>
                match SourceOf(rules[i].recipient)
                case FromTeam(name) => dir.teams[name] == ""
                case FromSchedule(name) => dir.schedules[name] == ""
                case _ => false)
  {
  }

  // ---- comparison ---------------------------------------------------------------------

  /** Agreement on everything but the identity of the recipient. */
  predicate RuleAgrees(rule: EscalationRule, remote: RuleRequest) {
    && rule.condition == remote.condition
    && rule.notifyType == remote.notifyType
    && Wrap32(rule.delayMin) == remote.delay
    && rule.recipient.kind == remote.recipient.kind
  }

  predicate RulesAgree(rules: seq<EscalationRule>, remote: seq<RuleRequest>) {
    |rules| == |remote| && forall i :: 0 <= i < |rules| ==> RuleAgrees(rules[i], remote[i])
  }

  /** The identity test of the comparison: the spec's id against the name the remote shows. */
  predicate IdsMatchNames(rules: seq<EscalationRule>, remote: seq<RuleRequest>) {
    |rules| == |remote| && forall i :: 0 <= i < |rules| ==> rules[i].recipient.id == remote[i].recipient.name
  }

  method CompareEscalationRules(rules: seq<EscalationRule>, remote: seq<RuleRequest>) returns (r: bool)
    ensures r <==> RulesAgree(rules, remote) && IdsMatchNames(rules, remote)
    ensures r <==>
            && |rules| == |remote|
            && forall i :: 0 <= i < |rules| ==>
                 && rules[i].condition == remote[i].condition
                 && rules[i].notifyType == remote[i].notifyType
                 && rules[i].delayMin % 0x1_0000_0000 == remote[i].delay
                 && rules[i].recipient.kind == remote[i].recipient.kind
                 && rules[i].recipient.id == remote[i].recipient.name
  {
    if |rules| != |remote| {
      return false;
    }
    for i := 0 to |rules|
      invariant forall j :: 0 <= j < i ==> RuleAgrees(rules[j], remote[j])
      invariant forall j :: 0 <= j < i ==> rules[j].recipient.id == remote[j].recipient.name
    {
      var rule, opsRule := rules[i], remote[i];
      if rule.condition != opsRule.condition {
        assert !RuleAgrees(rules[i], remote[i]);
        return false;
      }
      if rule.notifyType != opsRule.notifyType {
        assert !RuleAgrees(rules[i], remote[i]);
        return false;
      }
      if Wrap32(rule.delayMin) != opsRule.delay {
        assert !RuleAgrees(rules[i], remote[i]);
        return false;
      }
      if rule.recipient.kind != opsRule.recipient.kind || rule.recipient.id != opsRule.recipient.name {
        assert !RuleAgrees(rules[i], remote[i]) || rules[i].recipient.id != remote[i].recipient.name;
        return false;
      }
    }
    return true;
  }

  /** The stored form of rules that were sent: the remote may choose the recipients' names. */
  predicate StoredAs(sent: seq<RuleRequest>, stored: seq<RuleRequest>) {
    |sent| == |stored| &&
    forall i :: 0 <= i < |sent| ==>
      stored[i] == sent[i].(recipient := sent[i].recipient.(name := stored[i].recipient.name))
  }

  lemma MappedRulesAgree(rules: seq<EscalationRule>, dir: Directory)
    requires Resolvable(rules, dir)
    ensures RulesAgree(rules, MapRules(rules, dir))
  {
  }
}
