/** Incident rules: their translation and the search for a persisted rule. */
module IncidentRules {
  import opened Basics

  datatype ConditionSpec = ConditionSpec(field: string, operation: string, expectedValue: string)

  datatype Condition = Condition(field: string, operation: string, expectedValue: string)

  datatype Stakeholders = Stakeholders(enable: Option<bool>, message: string, description: string)

  datatype Properties = Properties(
    message: string, tags: seq<string>, details: map<string, string>, description: string,
    priority: string, stakeholders: Stakeholders)

  datatype IncidentRuleSpec = IncidentRuleSpec(
    serviceRef: Option<string>, conditions: seq<ConditionSpec>, matchType: string, properties: Properties)

  /** A rule as the remote keeps it, below the service with id `service`. */
  datatype IncidentRule = IncidentRule(
    service: string, conditions: seq<Condition>, matchType: string, properties: Properties)

  datatype Listed = Listed(id: string, rule: IncidentRule)

  function ToConditions(cs: seq<ConditionSpec>): seq<Condition> {
    seq(|cs|, i requires 0 <= i < |cs| => Condition(cs[i].field, cs[i].operation, cs[i].expectedValue))
  }

  method MapConditions(cs: seq<ConditionSpec>) returns (r: seq<Condition>)
    ensures r == ToConditions(cs)
    ensures |r| == |cs|
    ensures forall i :: 0 <= i < |cs| ==>
              && r[i].field == cs[i].field && r[i].operation == cs[i].operation
              && r[i].expectedValue == cs[i].expectedValue
  {
    r := [];
    for i := 0 to |cs|
      invariant r == ToConditions(cs[..i])
    {
      r := r + [Condition(cs[i].field, cs[i].operation, cs[i].expectedValue)];
    }
    assert cs[..|cs|] == cs;
  }

  function MapSpec(c: IncidentRuleSpec, service: string): IncidentRule {
    IncidentRule(service, ToConditions(c.conditions), c.matchType, c.properties)
  }

  /** The rule says what the spec says, below the given service. */
  predicate RuleFollows(c: IncidentRuleSpec, service: string, rule: IncidentRule) {
    && rule.service == service
    && |rule.conditions| == |c.conditions|
    && (forall i :: 0 <= i < |c.conditions| ==>
          && rule.conditions[i].field == c.conditions[i].field
          && rule.conditions[i].operation == c.conditions[i].operation
          && rule.conditions[i].expectedValue == c.conditions[i].expectedValue)
    && rule.matchType == c.matchType
    && rule.properties == c.properties
  }

  // What is sent follows the spec, and nothing else does.
  lemma MapSpecFollows(c: IncidentRuleSpec, service: string, rule: IncidentRule)
    ensures RuleFollows(c, service, rule) <==> rule == MapSpec(c, service)
  {
    if RuleFollows(c, service, rule) {
      assert rule.conditions == ToConditions(c.conditions);
    }
  }

  predicate IsListed(list: seq<Listed>, id: string) {
    exists i :: 0 <= i < |list| && list[i].id == id
  }

  method FindRule(list: seq<Listed>, id: string) returns (found: bool)
    ensures found <==> IsListed(list, id)
    ensures found <==> exists i :: 0 <= i < |list| && list[i].id == id
  {
    found := false;
    for i := 0 to |list|
      invariant forall j :: 0 <= j < i ==> list[j].id != id
    {
      if list[i].id == id {
        return true;
      }
    }
  }
}
