/** What one undisturbed reconcile of an incident rule achieves, and that repeating it changes nothing. */
module RuleConvergence {
  import opened Basics
  import opened Environment
  import opened Programs
  import opened Protocol
  import opened Undisturbed
  import IncidentRules

  function Spc(w: World, k: Key): IncidentRules.IncidentRuleSpec
    requires k in w.hist && w.hist[k] != [] && SpecFits(Rule, Now(w, k).spec)
  {
    Now(w, k).spec.rule
  }

  ghost predicate HasService(w: World, k: Key) {
    && StoresOk(w) && k.kind.Rule? && k in w.hist
    && Spc(w, k).serviceRef.Some? && Key(Service, k.namespace, Spc(w, k).serviceRef.value) in w.hist
  }

  /** The status id of the service that the rule refers to; "" while that service is not ready. */
  ghost function ServiceNow(w: World, k: Key): string
    requires HasService(w, k)
  {
    CurrentId(w, Key(Service, k.namespace, Spc(w, k).serviceRef.value))
  }

  ghost predicate Ready(w: World, k: Key) {
    HasService(w, k) && RKey(Service, ServiceNow(w, k)) in w.remote
  }

  /** The persisted rule is among those the service lists. */
  ghost predicate IsThere(w: World, k: Key)
    requires HasService(w, k)
  {
    RKey(Rule, Now(w, k).id) in w.remote && IsRuleOf(w.remote[RKey(Rule, Now(w, k).id)], ServiceNow(w, k))
  }

  ghost function Wanted(w: World, k: Key): IncidentRules.IncidentRule
    requires HasService(w, k)
  {
    IncidentRules.MapSpec(Spc(w, k), ServiceNow(w, k))
  }

  lemma ServiceStep(w: World, s: Snap, r: IncidentRules.IncidentRuleSpec, ref: string, o: Oracle)
    requires Key(Service, s.key.namespace, ref) in w.hist && w.hist[Key(Service, s.key.namespace, ref)] != []
    ensures var pc, next := OnRule(s, r, RuleService(ref)),
                            OnRule(s, r, RuleList(CurrentId(w, Key(Service, s.key.namespace, ref))));
            Solo(w, pc, o) == Solo(w, next, o) && Quiet(w, pc, o) == Quiet(w, next, o)
  {
    var target := Key(Service, s.key.namespace, ref);
    SoloStep(w, OnRule(s, r, RuleService(ref)), o, GotCR(Now(w, target), |w.hist[target]| - 1), Nothing);
  }

  lemma ListStep(w: World, k: Key, o: Oracle)
    requires HasService(w, k)
    ensures var pc := OnRule(SnapNow(w, k), Spc(w, k), RuleList(ServiceNow(w, k)));
            Reconcile(w, k, o) == Solo(w, pc, o) && Quiet(w, Begin(k), o) == Quiet(w, pc, o)
  {
    BeginSolo(w, k, o);
    ServiceStep(w, SnapNow(w, k), Spc(w, k), Spc(w, k).serviceRef.value, o);
  }

  // A rule whose service is not ready fails before any write.
  lemma UnreadyServiceFails(w: World, k: Key, o: Oracle)
    requires HasService(w, k) && !Ready(w, k)
    ensures Reconcile(w, k, o) == (w, Error) && Quiet(w, Begin(k), o)
  {
    ListStep(w, k, o);
    var pc := OnRule(SnapNow(w, k), Spc(w, k), RuleList(ServiceNow(w, k)));
    SoloStep(w, pc, o, Failed, Nothing);
  }

  // The search through the listed rules decides whether the persisted one is there.
  lemma ListedIffThere(w: World, k: Key)
    requires HasService(w, k)
    ensures IncidentRules.IsListed(Enumerate(w, ServiceNow(w, k)), Now(w, k).id) <==> IsThere(w, k)
  {
  }

  lemma FindStep(w: World, s: Snap, r: IncidentRules.IncidentRuleSpec, service: string, o: Oracle)
    requires RKey(Service, service) in w.remote
    ensures Solo(w, OnRule(s, r, RuleList(service)), o)
         == Solo(w, OnRule(s, r, if IncidentRules.IsListed(Enumerate(w, service), s.id)
                                 then RuleUpdate(service) else RuleCreate(service)), o)
  {
    SoloStep(w, OnRule(s, r, RuleList(service)), o, RulesAre(Enumerate(w, service)), Nothing);
  }

  lemma SearchStep(w: World, k: Key, o: Oracle)
    requires Ready(w, k)
    ensures var s, r, service := SnapNow(w, k), Spc(w, k), ServiceNow(w, k);
            Reconcile(w, k, o)
            == Solo(w, OnRule(s, r, if IsThere(w, k) then RuleUpdate(service) else RuleCreate(service)), o)
  {
    ListStep(w, k, o);
    ListedIffThere(w, k);
    FindStep(w, SnapNow(w, k), Spc(w, k), ServiceNow(w, k), o);
  }

  /** A field is absent from the spec and set remotely. */
  predicate FieldsStuck(r: IncidentRules.IncidentRuleSpec, was: IncidentRules.IncidentRule) {
    (r.conditions == [] && was.conditions != []) || (r.matchType == "" && was.matchType != "")
  }

  function Brought(was: IncidentRules.IncidentRule, sent: IncidentRules.IncidentRule): IncidentRules.IncidentRule {
    IncidentRules.IncidentRule(was.service, OrSeq(was.conditions, sent.conditions), Or(was.matchType, sent.matchType),
                               sent.properties)
  }

  lemma UpdateStep(w: World, s: Snap, r: IncidentRules.IncidentRuleSpec, service: string, o: Oracle)
    requires Fresh(w, s) && s.key.kind.Rule?
    requires RKey(Rule, s.id) in w.remote && IsRuleOf(w.remote[RKey(Rule, s.id)], service)
    ensures var now := RuleObj(Brought(w.remote[RKey(Rule, s.id)].rule, IncidentRules.MapSpec(r, service)));
            Solo(w, OnRule(s, r, RuleUpdate(service)), o)
            == (WithId(Apply(w, Patched(RKey(Rule, s.id), now)), s.key, s.id), Requeue(5))
  {
    var rk, sent := RKey(Rule, s.id), RuleObj(IncidentRules.MapSpec(r, service));
    var now := RuleObj(Brought(w.remote[rk].rule, IncidentRules.MapSpec(r, service)));
    assert Serve(w, Update(rk, sent), o) == (Updated, Patched(rk, now));
    UpdateEnds(w, OnRule(s, r, RuleUpdate(service)), o, now);
  }

  lemma CreateStep(w: World, s: Snap, r: IncidentRules.IncidentRuleSpec, service: string, o: Oracle)
    requires Fresh(w, s) && s.key.kind.Rule? && RKey(Service, service) in w.remote
    ensures var made := RuleObj(IncidentRules.MapSpec(r, service));
            Solo(w, OnRule(s, r, RuleCreate(service)), o)
            == (WithId(Apply(w, Added(RKey(Rule, o.newId), made)), s.key, o.newId), Requeue(5))
  {
    var obj := RuleObj(IncidentRules.MapSpec(r, service));
    assert Serve(w, Create(s.key, obj), o) == (Created(o.newId), Added(RKey(Rule, o.newId), obj));
    CreateEnds(w, OnRule(s, r, RuleCreate(service)), o, obj, Requeue(5));
  }

  // A persisted rule that is there is updated in place.
  lemma UpdatesInPlace(w: World, k: Key, o: Oracle)
    requires Ready(w, k) && IsThere(w, k)
    ensures var rk := RKey(Rule, Now(w, k).id);
            var now := RuleObj(Brought(w.remote[rk].rule, Wanted(w, k)));
            Reconcile(w, k, o) == (WithId(Apply(w, Patched(rk, now)), k, Now(w, k).id), Requeue(5))
  {
    SearchStep(w, k, o);
    UpdateStep(w, SnapNow(w, k), Spc(w, k), ServiceNow(w, k), o);
  }

  // One that is not there is created.
  lemma CreatesWhatIsMissing(w: World, k: Key, o: Oracle)
    requires Ready(w, k) && !IsThere(w, k)
    ensures Reconcile(w, k, o)
         == (WithId(Apply(w, Added(RKey(Rule, o.newId), RuleObj(Wanted(w, k)))), k, o.newId), Requeue(5))
  {
    SearchStep(w, k, o);
    CreateStep(w, SnapNow(w, k), Spc(w, k), ServiceNow(w, k), o);
  }

  /** What the rule ends with, and what it leaves alone. */
  ghost predicate Kept(w: World, k: Key, w': World)
    requires Ready(w, k)
  {
    && k in w'.hist && w'.hist[k] != [] && Now(w', k).spec == Now(w, k).spec
    && var rk := RKey(Rule, Now(w', k).id);
       && rk in w'.remote && IsRuleOf(w'.remote[rk], ServiceNow(w, k))
       && (IncidentRules.RuleFollows(Spc(w, k), ServiceNow(w, k), w'.remote[rk].rule)
           <==> !(IsThere(w, k) && FieldsStuck(Spc(w, k), w.remote[RKey(Rule, Now(w, k).id)].rule)))
          // A rule is added only if the persisted one was not listed, and every other object stays.
       && w'.remote.Keys == w.remote.Keys + {rk}
       && (rk in w.remote <==> IsThere(w, k)) && (IsThere(w, k) ==> Now(w', k).id == Now(w, k).id)
       && (forall x :: x in w.remote && x != rk ==> w'.remote[x] == w.remote[x])
  }

  lemma FollowsUnlessStuck(r: IncidentRules.IncidentRuleSpec, service: string, was: IncidentRules.IncidentRule)
    requires was.service == service
    ensures var now := Brought(was, IncidentRules.MapSpec(r, service));
            IncidentRules.RuleFollows(r, service, now) <==> !FieldsStuck(r, was)
  {
    var want := IncidentRules.MapSpec(r, service);
    assert |want.conditions| == |r.conditions|;
    assert Brought(was, want) == want <==> !FieldsStuck(r, was);
    IncidentRules.MapSpecFollows(r, service, Brought(was, want));
  }

  // One reconcile leaves exactly one rule with the persisted id under the service, equal to the mapped
  // spec unless a field was stuck, and touches nothing else.
  lemma RuleAgreement(w: World, k: Key, o: Oracle)
    requires Ready(w, k) && FreshId(w, o.newId)
    ensures Reconcile(w, k, o).1 == Requeue(5) && Kept(w, k, Reconcile(w, k, o).0)
  {
    if IsThere(w, k) {
      UpdatesInPlace(w, k, o);
      FollowsUnlessStuck(Spc(w, k), ServiceNow(w, k), w.remote[RKey(Rule, Now(w, k).id)].rule);
    } else {
      CreatesWhatIsMissing(w, k, o);
      IncidentRules.MapSpecFollows(Spc(w, k), ServiceNow(w, k), Wanted(w, k));
    }
  }

  lemma StaysReady(w: World, k: Key, o: Oracle)
    requires Ready(w, k) && FreshId(w, o.newId)
    ensures var w' := Reconcile(w, k, o).0;
            Ready(w', k) && ServiceNow(w', k) == ServiceNow(w, k) && Wanted(w', k) == Wanted(w, k) && IsThere(w', k)
  {
    RuleAgreement(w, k, o);
    ReconcileKeepsStores(w, k, o);
    var w' := Reconcile(w, k, o).0;
    var target := Key(Service, k.namespace, Spc(w, k).serviceRef.value);
    if IsThere(w, k) {
      UpdatesInPlace(w, k, o);
    } else {
      CreatesWhatIsMissing(w, k, o);
    }
    assert w'.hist[target] == w.hist[target];
  }

  // Repeated on an unchanged spec, a reconcile writes again but leaves the remote as it is.
  lemma RuleIdempotence(w: World, k: Key, o1: Oracle, o2: Oracle)
    requires Ready(w, k) && FreshId(w, o1.newId)
    ensures var w1 := Reconcile(w, k, o1).0;
            var w2 := Reconcile(w1, k, o2).0;
            && w2.remote == w1.remote && k in w1.hist && w1.hist[k] != []
            && k in w2.hist && w2.hist[k] == w1.hist[k] + [Now(w1, k)]
  {
    StaysReady(w, k, o1);
    IsBrought(w, k, o1);
    UpdatesInPlace(Reconcile(w, k, o1).0, k, o2);
  }

  // What a reconcile leaves does not change by sending the spec again.
  lemma IsBrought(w: World, k: Key, o: Oracle)
    requires Ready(w, k) && FreshId(w, o.newId)
    ensures var w' := Reconcile(w, k, o).0;
            && k in w'.hist && w'.hist[k] != []
            && var rk := RKey(Rule, Now(w', k).id);
               && rk in w'.remote && w'.remote[rk].RuleObj?
               && Brought(w'.remote[rk].rule, Wanted(w, k)) == w'.remote[rk].rule
  {
    if IsThere(w, k) {
      UpdatesInPlace(w, k, o);
    } else {
      CreatesWhatIsMissing(w, k, o);
    }
  }
}
