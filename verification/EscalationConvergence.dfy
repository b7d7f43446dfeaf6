/** What one undisturbed reconcile of an escalation achieves, and when the next one is quiet. */
module EscalationConvergence {
  import opened Basics
  import opened Environment
  import opened Programs
  import opened Protocol
  import opened Undisturbed
  import Escalations

  /** The status ids that references in a namespace stand for now. */
  ghost function DirectoryNow(w: World, namespace: string): Escalations.Directory {
    Escalations.Directory(
      map k | k in w.hist && k == Key(Team, namespace, k.name) :: k.name := CurrentId(w, k),
      map k | k in w.hist && k == Key(Schedule, namespace, k.name) :: k.name := CurrentId(w, k))
  }

  function Esc(w: World, k: Key): EscalationSpec
    requires k in w.hist && w.hist[k] != [] && SpecFits(Escalation, Now(w, k).spec)
  {
    Now(w, k).spec.escalation
  }

  /** A current escalation whose team and recipients can be resolved. */
  ghost predicate Ready(w: World, k: Key) {
    && StoresOk(w) && k.kind.Escalation? && k in w.hist
    && TeamNow(w, k.namespace, Esc(w, k).teamID, Esc(w, k).teamRef).Some?
    && Escalations.Resolvable(Esc(w, k).rules, DirectoryNow(w, k.namespace))
  }

  ghost function TeamId(w: World, k: Key): string
    requires Ready(w, k)
  {
    TeamNow(w, k.namespace, Esc(w, k).teamID, Esc(w, k).teamRef).value
  }

  ghost function Mapped(w: World, k: Key): seq<Escalations.RuleRequest>
    requires Ready(w, k)
  {
    Escalations.MapRules(Esc(w, k).rules, DirectoryNow(w, k.namespace))
  }

  // ---- mapping ------------------------------------------------------------------------

  // A reference is read, or is missing.
  lemma ReadRef(w: World, s: Snap, e: EscalationSpec, teamId: string, acc: seq<Escalations.RuleRequest>,
                target: Key, o: Oracle)
    requires SpecsFit(w) && |acc| < |e.rules|
    ensures var pc := OnEscalation(s, e, EscRef(teamId, acc, target));
            var sent := Escalations.MapRule(e.rules[|acc|], CurrentId(w, target), "");
            var next := if target in w.hist then EscalationRules(s, e, teamId, acc + [sent]) else Done(Error);
            Solo(w, pc, o) == Solo(w, next, o) && Quiet(w, pc, o) == Quiet(w, next, o)
  {
    var pc := OnEscalation(s, e, EscRef(teamId, acc, target));
    if target in w.hist {
      SoloStep(w, pc, o, GotCR(Now(w, target), |w.hist[target]| - 1), Nothing);
    } else {
      SoloStep(w, pc, o, NotFound, Nothing);
    }
  }

  // Reading one reference gives what the directory says, or the end of the reconcile.
  lemma RefStep(w: World, s: Snap, e: EscalationSpec, teamId: string, acc: seq<Escalations.RuleRequest>, o: Oracle)
    requires StoresOk(w) && |acc| < |e.rules| && !Escalations.SourceOf(e.rules[|acc|].recipient).Direct?
    ensures var dir, rule := DirectoryNow(w, s.key.namespace), e.rules[|acc|];
            var pc := EscalationRules(s, e, teamId, acc);
            var next := if Escalations.Resolve(rule.recipient, dir).Some?
                        then EscalationRules(s, e, teamId, acc + [Escalations.MapRuleIn(rule, dir)])
                        else pc;
            && Solo(w, pc, o) == (if Escalations.Resolve(rule.recipient, dir).Some? then Solo(w, next, o)
                                  else (w, Error))
            && Quiet(w, pc, o) == (if Escalations.Resolve(rule.recipient, dir).Some? then Quiet(w, next, o) else true)
  {
    var pc := EscalationRules(s, e, teamId, acc);
    match Escalations.SourceOf(e.rules[|acc|].recipient)
    case FromTeam(name) =>
      var target := Key(Team, s.key.namespace, name);
      assert pc == OnEscalation(s, e, EscRef(teamId, acc, target));
      assert target in w.hist <==> name in DirectoryNow(w, s.key.namespace).teams;
      ReadRef(w, s, e, teamId, acc, target, o);
    case FromSchedule(name) =>
      var target := Key(Schedule, s.key.namespace, name);
      assert pc == OnEscalation(s, e, EscRef(teamId, acc, target));
      assert target in w.hist <==> name in DirectoryNow(w, s.key.namespace).schedules;
      ReadRef(w, s, e, teamId, acc, target, o);
    case Missing =>
      assert pc == Done(Error);
  }

  // The rules are mapped as the directory says.
  lemma {:induction false} MappingSolo(w: World, s: Snap, e: EscalationSpec, teamId: string,
                                       acc: seq<Escalations.RuleRequest>, o: Oracle)
    requires StoresOk(w) && Escalations.Resolvable(e.rules, DirectoryNow(w, s.key.namespace))
    requires |acc| <= |e.rules| && acc == Escalations.MapRules(e.rules, DirectoryNow(w, s.key.namespace))[..|acc|]
    ensures var all := Escalations.MapRules(e.rules, DirectoryNow(w, s.key.namespace));
            && Solo(w, EscalationRules(s, e, teamId, acc), o) == Solo(w, EscalationMapped(s, e, teamId, all), o)
            && Quiet(w, EscalationRules(s, e, teamId, acc), o) == Quiet(w, EscalationMapped(s, e, teamId, all), o)
    decreases |e.rules| - |acc|
  {
    var dir := DirectoryNow(w, s.key.namespace);
    var all := Escalations.MapRules(e.rules, dir);
    if |acc| == |e.rules| {
      assert all[..|acc|] == all;
    } else {
      var rule := e.rules[|acc|];
      assert Escalations.Resolve(rule.recipient, dir).Some?;
      var acc' := acc + [Escalations.MapRuleIn(rule, dir)];
      assert acc' == all[..|acc'|];
      if !Escalations.SourceOf(rule.recipient).Direct? {
        RefStep(w, s, e, teamId, acc, o);
      }
      MappingSolo(w, s, e, teamId, acc', o);
    }
  }

  // A recipient that cannot be resolved ends the reconcile with an error, before any write.
  lemma {:induction false} UnresolvableFails(w: World, s: Snap, e: EscalationSpec, teamId: string,
                                             acc: seq<Escalations.RuleRequest>, bad: nat, o: Oracle)
    requires StoresOk(w) && |acc| <= bad < |e.rules|
    requires Escalations.Resolve(e.rules[bad].recipient, DirectoryNow(w, s.key.namespace)).None?
    ensures Solo(w, EscalationRules(s, e, teamId, acc), o) == (w, Error)
    ensures Quiet(w, EscalationRules(s, e, teamId, acc), o)
    decreases bad - |acc|
  {
    var rule := e.rules[|acc|];
    match Escalations.SourceOf(rule.recipient)
    case Direct(id, username) =>
      UnresolvableFails(w, s, e, teamId, acc + [Escalations.MapRule(rule, id, username)], bad, o);
    case _ =>
      RefStep(w, s, e, teamId, acc, o);
      if Escalations.Resolve(rule.recipient, DirectoryNow(w, s.key.namespace)).Some? {
        var mapped := Escalations.MapRuleIn(rule, DirectoryNow(w, s.key.namespace));
        UnresolvableFails(w, s, e, teamId, acc + [mapped], bad, o);
      }
  }

  // Once everything resolves, the reconcile goes on with the mapped rules.
  lemma MappedSolo(w: World, k: Key, o: Oracle)
    requires Ready(w, k)
    ensures var pc := EscalationMapped(SnapNow(w, k), Esc(w, k), TeamId(w, k), Mapped(w, k));
            Reconcile(w, k, o) == Solo(w, pc, o) && Quiet(w, Begin(k), o) == Quiet(w, pc, o)
  {
    BeginSolo(w, k, o);
    TeamStep(w, SnapNow(w, k), Esc(w, k), o);
    MappingSolo(w, SnapNow(w, k), Esc(w, k), TeamId(w, k), [], o);
  }

  lemma TeamStep(w: World, s: Snap, e: EscalationSpec, o: Oracle)
    requires StoresOk(w) && TeamNow(w, s.key.namespace, e.teamID, e.teamRef).Some?
    ensures var pc := EscalationRules(s, e, TeamNow(w, s.key.namespace, e.teamID, e.teamRef).value, []);
            Solo(w, EscalationStart(s, e), o) == Solo(w, pc, o) && Quiet(w, EscalationStart(s, e), o) == Quiet(w, pc, o)
  {
    if e.teamID == "" {
      var target := Key(Team, s.key.namespace, e.teamRef.value);
      SoloStep(w, EscalationStart(s, e), o, GotCR(Now(w, target), |w.hist[target]| - 1), Nothing);
    }
  }

  // ---- the three ways -----------------------------------------------------------------

  /** The remote escalation after an update, with the names the remote shows. */
  function Brought(e: EscalationSpec, teamId: string, acc: seq<Escalations.RuleRequest>,
                   was: RemoteEscalation, o: Oracle): RemoteEscalation
  {
    RemoteEscalation(Or(was.name, e.name), Or(was.description, e.description), Or(was.ownerTeam, teamId),
                     if acc == [] then was.rules else ShowNames(acc, o))
  }

  /** The stores and the outcome once a remote escalation was found: it is updated if the comparison
      says so, which fails if its new name belongs to another one. */
  ghost predicate Settled(w: World, s: Snap, e: EscalationSpec, now: RemoteEscalation, rk: RKey,
                          w': World, outcome: Outcome)
    requires Fresh(w, s) && rk in w.remote && w.remote[rk].EscalationObj?
  {
    if !EscalationDiffers(e, w.remote[rk].escalation) then w' == w && outcome == Requeue(5)
    else if NameClash(w, rk, now.name) then w' == w && outcome == Error
    else w' == WithId(Apply(w, Patched(rk, EscalationObj(now))), s.key, s.id) && outcome == Requeue(5)
  }

  lemma FoundSolo(w: World, s: Snap, e: EscalationSpec, teamId: string, acc: seq<Escalations.RuleRequest>,
                  rk: RKey, o: Oracle)
    requires Fresh(w, s) && rk.kind.Escalation? && rk.id != "" && rk in w.remote && w.remote[rk].EscalationObj?
    ensures var was := w.remote[rk].escalation;
            var (w', outcome) := Solo(w, EscalationFound(s, e, teamId, acc, rk.id, was), o);
            Settled(w, s, e, Brought(e, teamId, acc, was, o), rk, w', outcome)
  {
    var was := w.remote[rk].escalation;
    var now := Brought(e, teamId, acc, was, o);
    if EscalationDiffers(e, was) {
      var pc := OnEscalation(s, e, EscUpdate(teamId, acc, rk.id));
      assert rk == RKey(Escalation, rk.id) && w.remote[rk] == EscalationObj(was);
      if NameClash(w, rk, now.name) {
        SoloStep(w, pc, o, Failed, Nothing);
      } else {
        assert Serve(w, RequestOf(pc), o) == (Updated, Patched(rk, EscalationObj(now)));
        SoloStep(w, pc, o, Updated, Patched(rk, EscalationObj(now)));
        SaveSolo(Apply(w, Patched(rk, EscalationObj(now))), SaveSync(s), o);
      }
    }
  }

  // With an id in the status: fetch and compare.
  lemma FetchSolo(w: World, s: Snap, e: EscalationSpec, teamId: string, acc: seq<Escalations.RuleRequest>,
                  rk: RKey, o: Oracle)
    requires Fresh(w, s) && s.id != "" && rk == RKey(Escalation, s.id)
    requires rk in w.remote && w.remote[rk].EscalationObj?
    ensures var was := w.remote[rk].escalation;
            var pc := EscalationMapped(s, e, teamId, acc);
            var (w', outcome) := Solo(w, pc, o);
            && Settled(w, s, e, Brought(e, teamId, acc, was, o), rk, w', outcome)
            && Quiet(w, pc, o) == !EscalationDiffers(e, was)
  {
    var get := OnEscalation(s, e, EscFetch(teamId, acc));
    var found := EscalationFound(s, e, teamId, acc, rk.id, w.remote[rk].escalation);
    assert Solo(w, get, o) == Solo(w, found, o) && Quiet(w, get, o) == Quiet(w, found, o);
    FoundSolo(w, s, e, teamId, acc, rk, o);
  }

  // Adoption: a status without an id takes over the remote escalation that bears the name, and the
  // same reconcile goes on to compare and update it; nothing is created.
  lemma AdoptsByName(w: World, s: Snap, e: EscalationSpec, teamId: string, acc: seq<Escalations.RuleRequest>,
                     rk: RKey, o: Oracle)
    requires StoresOk(w) && Fresh(w, s) && s.id == "" && rk.kind.Escalation? && rk in w.remote
    requires w.remote[rk].escalation.name == e.name
    ensures var w1, s1, was := WithId(w, s.key, rk.id), Snap(s.key, rk.id, s.ver + 1), w.remote[rk].escalation;
            var (w', outcome) := Solo(w, EscalationMapped(s, e, teamId, acc), o);
            && Fresh(w1, s1) && outcome == Requeue(5)
            && Settled(w1, s1, e, Brought(e, teamId, acc, was, o), rk, w', outcome)
  {
    LookupSolo(w, rk, o);
    var was := w.remote[rk].escalation;
    assert rk.id != "" && w.remote[rk] == EscalationObj(was);
    var find := OnEscalation(s, e, EscFind(teamId, acc));
    assert Serve(w, RequestOf(find), o) == (GotObj(rk.id, EscalationObj(was)), Nothing);
    var save := OnEscalation(s, e, EscImport(teamId, acc, rk.id, was));
    assert Solo(w, find, o) == Solo(w, save, o);
    var w1, s1 := WithId(w, s.key, rk.id), Snap(s.key, rk.id, s.ver + 1);
    ImportStep(w, s, e, teamId, acc, rk.id, was, o);
    NoClash(w, rk);
    assert !NameClash(w1, rk, was.name);
    FoundSolo(w1, s1, e, teamId, acc, rk, o);
  }

  lemma ImportStep(w: World, s: Snap, e: EscalationSpec, teamId: string, acc: seq<Escalations.RuleRequest>,
                   id: string, was: RemoteEscalation, o: Oracle)
    requires Fresh(w, s)
    ensures var w1, s1 := WithId(w, s.key, id), Snap(s.key, id, s.ver + 1);
            && Solo(w, OnEscalation(s, e, EscImport(teamId, acc, id, was)), o)
               == Solo(w1, EscalationFound(s1, e, teamId, acc, id, was), o)
            && Fresh(w1, s1)
  {
  }

  // Without one, the escalation is created as its spec describes it.
  lemma CreatesWhatIsWanted(w: World, s: Snap, e: EscalationSpec, teamId: string,
                            acc: seq<Escalations.RuleRequest>, o: Oracle)
    requires Fresh(w, s) && s.id == "" && s.key.kind.Escalation? && !NameTaken(w, Escalation, e.name)
    ensures var made := EscalationObj(RemoteEscalation(e.name, e.description, teamId, ShowNames(acc, o)));
            Solo(w, EscalationMapped(s, e, teamId, acc), o)
            == (WithId(Apply(w, Added(RKey(Escalation, o.newId), made)), s.key, o.newId), Requeue(5))
  {
    var find := OnEscalation(s, e, EscFind(teamId, acc));
    var pc := OnEscalation(s, e, EscCreate(teamId, acc));
    assert Solo(w, find, o) == Solo(w, pc, o);
    var (reply, eff) := Serve(w, RequestOf(pc), o);
    assert acc == [] ==> ShowNames(acc, o) == acc;
    assert eff == Added(RKey(Escalation, o.newId),
                        EscalationObj(RemoteEscalation(e.name, e.description, teamId, ShowNames(acc, o))));
    assert Solo(w, pc, o) == Solo(Apply(w, eff), SaveNew(s, o.newId, Requeue(5)), o);
    SaveSolo(Apply(w, eff), SaveNew(s, o.newId, Requeue(5)), o);
  }

  // ---- agreement ----------------------------------------------------------------------

  /** The remote agrees with the spec on name, description and, in number and order, on each rule's
      condition, notify type, delay modulo 2^32 and type of recipient. */
  predicate Agrees(e: EscalationSpec, seen: RemoteEscalation) {
    && e.name == seen.name && e.description == seen.description
    && |e.rules| == |seen.rules|
    && forall i :: 0 <= i < |e.rules| ==>
         && e.rules[i].condition == seen.rules[i].condition
         && e.rules[i].notifyType == seen.rules[i].notifyType
         && e.rules[i].delayMin % 0x1_0000_0000 == seen.rules[i].delay
         && e.rules[i].recipient.kind == seen.rules[i].recipient.kind
  }

  // It is what the update decision looks at, apart from the names shown for recipients.
  lemma AgreesExactly(e: EscalationSpec, seen: RemoteEscalation)
    ensures Agrees(e, seen) <==>
            e.name == seen.name && e.description == seen.description && Escalations.RulesAgree(e.rules, seen.rules)
    ensures !EscalationDiffers(e, seen) <==>
            && Agrees(e, seen)
            && forall i :: 0 <= i < |e.rules| && i < |seen.rules| ==>
                 e.rules[i].recipient.id == seen.rules[i].recipient.name
  {
    if Agrees(e, seen) {
      forall i | 0 <= i < |e.rules| ensures Escalations.RuleAgrees(e.rules[i], seen.rules[i]) {
      }
    }
    if Escalations.RulesAgree(e.rules, seen.rules) {
      assert forall i :: 0 <= i < |e.rules| ==> Escalations.RuleAgrees(e.rules[i], seen.rules[i]);
    }
  }

  /** A compared field is absent from the spec and set remotely. */
  predicate FieldsStuck(e: EscalationSpec, was: RemoteEscalation) {
    || (e.name == "" && was.name != "")
    || (e.description == "" && was.description != "")
    || (e.rules == [] && was.rules != [])
  }

  lemma ShownRulesAgree(rules: seq<Escalations.EscalationRule>, acc: seq<Escalations.RuleRequest>, o: Oracle)
    requires Escalations.RulesAgree(rules, acc)
    ensures Escalations.RulesAgree(rules, ShowNames(acc, o))
  {
  }

  lemma BroughtAgrees(e: EscalationSpec, teamId: string, acc: seq<Escalations.RuleRequest>,
                      was: RemoteEscalation, o: Oracle)
    requires Escalations.RulesAgree(e.rules, acc)
    ensures Agrees(e, Brought(e, teamId, acc, was, o)) <==> !FieldsStuck(e, was)
  {
    ShownRulesAgree(e.rules, acc, o);
    AgreesExactly(e, Brought(e, teamId, acc, was, o));
  }

  lemma MappedAgree(w: World, k: Key)
    requires Ready(w, k)
    ensures Escalations.RulesAgree(Esc(w, k).rules, Mapped(w, k))
  {
  }

  /** The status names a remote escalation, and that one agrees with the spec exactly when no field was stuck. */
  ghost predicate Agreed(w: World, k: Key, e: EscalationSpec, w': World)
    requires k in w.hist && w.hist[k] != []
  {
    && k in w'.hist && w'.hist[k] != [] && Now(w', k).spec == Now(w, k).spec
    && (Now(w, k).id != "" ==> Now(w', k).id == Now(w, k).id)
    && var rk := RKey(Escalation, Now(w', k).id);
       && rk in w'.remote && w'.remote[rk].EscalationObj?
       && (rk in w.remote && w.remote[rk].EscalationObj? ==>
             (Agrees(e, w'.remote[rk].escalation) <==> !FieldsStuck(e, w.remote[rk].escalation)))
       && (rk !in w.remote ==> Agrees(e, w'.remote[rk].escalation))
  }

  /** A difference that an update would remove is held back: the name it brings belongs to another one. */
  ghost predicate HeldBack(w: World, e: EscalationSpec, id: string) {
    && id != "" && RKey(Escalation, id) in w.remote && w.remote[RKey(Escalation, id)].EscalationObj?
    && var was := w.remote[RKey(Escalation, id)].escalation;
       EscalationDiffers(e, was) && NameClash(w, RKey(Escalation, id), Or(was.name, e.name))
  }

  // What settled agrees with the spec, unless a field was stuck.
  lemma SettledAgrees(w: World, s: Snap, e: EscalationSpec, now: RemoteEscalation, rk: RKey, w': World)
    requires Fresh(w, s) && s.id != "" && rk == RKey(Escalation, s.id) && rk in w.remote && w.remote[rk].EscalationObj?
    requires Settled(w, s, e, now, rk, w', Requeue(5)) && (Agrees(e, now) <==> !FieldsStuck(e, w.remote[rk].escalation))
    ensures s.key in w'.hist && w'.hist[s.key] != [] && Now(w', s.key) == Now(w, s.key)
    ensures w'.remote.Keys == w.remote.Keys && w'.remote[rk].EscalationObj?
    ensures Agrees(e, w'.remote[rk].escalation) <==> !FieldsStuck(e, w.remote[rk].escalation)
  {
    AgreesExactly(e, w.remote[rk].escalation);
  }

  lemma FetchAgrees(w: World, s: Snap, e: EscalationSpec, teamId: string, acc: seq<Escalations.RuleRequest>,
                    rk: RKey, o: Oracle)
    requires Fresh(w, s) && s.id != "" && rk == RKey(Escalation, s.id)
    requires rk in w.remote && w.remote[rk].EscalationObj? && Escalations.RulesAgree(e.rules, acc)
    ensures var (w', outcome) := Solo(w, EscalationMapped(s, e, teamId, acc), o);
            if HeldBack(w, e, s.id) then w' == w && outcome == Error
            else outcome == Requeue(5) && Agreed(w, s.key, e, w')
  {
    var was := w.remote[rk].escalation;
    FetchSolo(w, s, e, teamId, acc, rk, o);
    BroughtAgrees(e, teamId, acc, was, o);
    var (w', outcome) := Solo(w, EscalationMapped(s, e, teamId, acc), o);
    if outcome != Error {
      SettledAgrees(w, s, e, Brought(e, teamId, acc, was, o), rk, w');
    }
  }

  lemma AdoptionAgrees(w: World, s: Snap, e: EscalationSpec, teamId: string, acc: seq<Escalations.RuleRequest>,
                       rk: RKey, o: Oracle)
    requires StoresOk(w) && Fresh(w, s) && s.id == "" && rk.kind.Escalation? && rk in w.remote
    requires w.remote[rk].escalation.name == e.name && Escalations.RulesAgree(e.rules, acc)
    ensures var (w', outcome) := Solo(w, EscalationMapped(s, e, teamId, acc), o);
            && outcome == Requeue(5) && Agreed(w, s.key, e, w')
            && Now(w', s.key).id == rk.id && w'.remote.Keys == w.remote.Keys
  {
    var was := w.remote[rk].escalation;
    var w1, s1 := WithId(w, s.key, rk.id), Snap(s.key, rk.id, s.ver + 1);
    AdoptsByName(w, s, e, teamId, acc, rk, o);
    BroughtAgrees(e, teamId, acc, was, o);
    assert rk == RKey(Escalation, rk.id) && rk.id != "" && w1.remote == w.remote;
    SettledAgrees(w1, s1, e, Brought(e, teamId, acc, was, o), rk, Solo(w, EscalationMapped(s, e, teamId, acc), o).0);
  }

  lemma CreateAgrees(w: World, s: Snap, e: EscalationSpec, teamId: string, acc: seq<Escalations.RuleRequest>, o: Oracle)
    requires Fresh(w, s) && s.id == "" && s.key.kind.Escalation? && !NameTaken(w, Escalation, e.name)
    requires FreshId(w, o.newId) && Escalations.RulesAgree(e.rules, acc)
    ensures var (w', outcome) := Solo(w, EscalationMapped(s, e, teamId, acc), o);
            && outcome == Requeue(5) && Agreed(w, s.key, e, w') && Now(w', s.key).id == o.newId
            && w'.remote[RKey(Escalation, o.newId)].escalation.rules == ShowNames(acc, o)
  {
    CreatesWhatIsWanted(w, s, e, teamId, acc, o);
    MadeAgrees(e, teamId, acc, o);
  }

  lemma MadeAgrees(e: EscalationSpec, teamId: string, acc: seq<Escalations.RuleRequest>, o: Oracle)
    requires Escalations.RulesAgree(e.rules, acc)
    ensures Agrees(e, RemoteEscalation(e.name, e.description, teamId, ShowNames(acc, o)))
  {
    ShownRulesAgree(e.rules, acc, o);
    AgreesExactly(e, RemoteEscalation(e.name, e.description, teamId, ShowNames(acc, o)));
  }

  // Whatever the remote holds, one reconcile either is held back by a name clash and changes nothing,
  // or ends with a status that names a remote escalation, and that one agrees with the spec exactly
  // when no field was stuck.
  lemma EscalationAgreement(w: World, k: Key, o: Oracle)
    requires Ready(w, k) && FreshId(w, o.newId)
    ensures var (w', outcome) := Reconcile(w, k, o);
            if HeldBack(w, Esc(w, k), Now(w, k).id) then w' == w && outcome == Error
            else outcome == Requeue(5) && Agreed(w, k, Esc(w, k), w')
  {
    MappedSolo(w, k, o);
    MappedAgree(w, k);
    var s, e, teamId, acc := SnapNow(w, k), Esc(w, k), TeamId(w, k), Mapped(w, k);
    if s.id != "" {
      FetchAgrees(w, s, e, teamId, acc, RKey(Escalation, s.id), o);
    } else if NameTaken(w, Escalation, e.name) {
      var id :| RKey(Escalation, id) in w.remote && ObjName(w.remote[RKey(Escalation, id)]) == e.name;
      AdoptionAgrees(w, s, e, teamId, acc, RKey(Escalation, id), o);
    } else {
      CreateAgrees(w, s, e, teamId, acc, o);
    }
  }

  // Orphan adoption: with an empty status, the reconcile ends with the id of the remote escalation
  // that bears the name, and creates nothing.
  lemma OrphanAdoption(w: World, k: Key, rk: RKey, o: Oracle)
    requires Ready(w, k) && Now(w, k).id == "" && rk.kind.Escalation? && rk in w.remote
    requires w.remote[rk].escalation.name == Esc(w, k).name
    ensures var w' := Reconcile(w, k, o).0;
            k in w'.hist && w'.hist[k] != [] && Now(w', k).id == rk.id && w'.remote.Keys == w.remote.Keys
  {
    MappedSolo(w, k, o);
    MappedAgree(w, k);
    AdoptionAgrees(w, SnapNow(w, k), Esc(w, k), TeamId(w, k), Mapped(w, k), rk, o);
  }

  // The next reconcile is quiet exactly when, beyond agreement, every recipient's id in the spec
  // equals the name that the remote shows for it.
  lemma QuietExactly(w: World, k: Key, o: Oracle)
    requires Ready(w, k) && Now(w, k).id != ""
    ensures var seen := w.remote[RKey(Escalation, Now(w, k).id)].escalation;
            Quiet(w, Begin(k), o) <==>
            && Esc(w, k).name == seen.name && Esc(w, k).description == seen.description
            && |Esc(w, k).rules| == |seen.rules|
            && forall i :: 0 <= i < |seen.rules| ==>
                 && Esc(w, k).rules[i].condition == seen.rules[i].condition
                 && Esc(w, k).rules[i].notifyType == seen.rules[i].notifyType
                 && Esc(w, k).rules[i].delayMin % 0x1_0000_0000 == seen.rules[i].delay
                 && Esc(w, k).rules[i].recipient.kind == seen.rules[i].recipient.kind
                 && Esc(w, k).rules[i].recipient.id == seen.rules[i].recipient.name
  {
    AgreesExactly(Esc(w, k), w.remote[RKey(Escalation, Now(w, k).id)].escalation);
    MappedSolo(w, k, o);
    FetchSolo(w, SnapNow(w, k), Esc(w, k), TeamId(w, k), Mapped(w, k), RKey(Escalation, Now(w, k).id), o);
  }

  lemma ResolvableGrows(w: World, w': World, rules: seq<Escalations.EscalationRule>, namespace: string)
    requires Grows(w, w') && Escalations.Resolvable(rules, DirectoryNow(w, namespace))
    ensures Escalations.Resolvable(rules, DirectoryNow(w', namespace))
  {
  }

  /** The remote shows, for the recipient of rule `i`, a name other than the id in the spec. */
  ghost predicate ShownOtherwise(w: World, k: Key, i: nat)
    requires Ready(w, k) && Now(w, k).id != ""
  {
    var seen := w.remote[RKey(Escalation, Now(w, k).id)].escalation;
    i < |seen.rules| && i < |Esc(w, k).rules| && seen.rules[i].recipient.name != Esc(w, k).rules[i].recipient.id
  }

  lemma StaysReady(w: World, k: Key, o: Oracle)
    requires Ready(w, k) && FreshId(w, o.newId)
    requires var w' := Reconcile(w, k, o).0; k in w'.hist && w'.hist[k] != [] && Now(w', k).spec == Now(w, k).spec
    ensures Ready(Reconcile(w, k, o).0, k)
  {
    ReconcileKeepsStores(w, k, o);
    TeamNowGrows(w, Reconcile(w, k, o).0, k.namespace, Esc(w, k).teamID, Esc(w, k).teamRef);
    ResolvableGrows(w, Reconcile(w, k, o).0, Esc(w, k).rules, k.namespace);
  }

  lemma SettledShows(w: World, s: Snap, e: EscalationSpec, teamId: string, acc: seq<Escalations.RuleRequest>,
                     rk: RKey, o: Oracle, w': World, outcome: Outcome, i: nat)
    requires Fresh(w, s) && rk in w.remote && w.remote[rk].EscalationObj? && |acc| == |e.rules|
    requires Settled(w, s, e, Brought(e, teamId, acc, w.remote[rk].escalation, o), rk, w', outcome)
    requires i < |e.rules| && i < |w.remote[rk].escalation.rules|
    requires w.remote[rk].escalation.rules[i].recipient.name != e.rules[i].recipient.id
    requires Shown(o, i) != e.rules[i].recipient.id
    ensures s.key in w'.hist && w'.hist[s.key] != [] && Now(w', s.key) == Now(w, s.key)
    ensures rk in w'.remote && w'.remote[rk].EscalationObj?
    ensures var seen := w'.remote[rk].escalation;
            i < |seen.rules| && seen.rules[i].recipient.name != e.rules[i].recipient.id
  {
  }

  lemma StaysShownOtherwise(w: World, k: Key, o: Oracle, i: nat)
    requires Ready(w, k) && Now(w, k).id != "" && FreshId(w, o.newId) && ShownOtherwise(w, k, i)
    requires Shown(o, i) != Esc(w, k).rules[i].recipient.id
    ensures var w' := Reconcile(w, k, o).0;
            Ready(w', k) && Now(w', k) == Now(w, k) && ShownOtherwise(w', k, i)
  {
    var s, e, rk := SnapNow(w, k), Esc(w, k), RKey(Escalation, Now(w, k).id);
    MappedSolo(w, k, o);
    FetchSolo(w, s, e, TeamId(w, k), Mapped(w, k), rk, o);
    var (w', outcome) := Reconcile(w, k, o);
    SettledShows(w, s, e, TeamId(w, k), Mapped(w, k), rk, o, w', outcome, i);
    StaysReady(w, k, o);
  }

  // One recipient whose shown name differs from its id in the spec, then and in every later reply,
  // keeps the reconciles writing however often they run, agreement or not. A reference, which has no
  // id in the spec, is such a recipient whenever its target is shown with a name; an id is one
  // whenever the remote shows no name.
  lemma {:induction false} NamedRecipientNeverQuiet(w: World, k: Key, os: seq<Oracle>, i: nat, o: Oracle)
    requires Ready(w, k) && Now(w, k).id != "" && AllFresh(w, k, os) && ShownOtherwise(w, k, i)
    requires forall p :: p in os ==> Shown(p, i) != Esc(w, k).rules[i].recipient.id
    ensures !Quiet(Repeated(w, k, os), Begin(k), o)
    decreases |os|
  {
    if os == [] {
      QuietExactly(w, k, o);
    } else {
      assert os[0] in os;
      StaysShownOtherwise(w, k, os[0], i);
      NamedRecipientNeverQuiet(Reconcile(w, k, os[0]).0, k, os[1..], i, o);
      assert Repeated(w, k, os) == Repeated(Reconcile(w, k, os[0]).0, k, os[1..]);
    }
  }

  /** The status names a remote escalation that agrees with the spec. */
  ghost predicate InAgreement(w: World, k: Key)
    requires Ready(w, k)
  {
    Now(w, k).id != "" && Agrees(Esc(w, k), w.remote[RKey(Escalation, Now(w, k).id)].escalation)
  }

  // Agreement does not imply quiet: a new escalation agrees with its spec from its first reconcile on,
  // and is written again if the remote shows one of its recipients under a name that is not its id.
  lemma AgreedYetRewritten(w: World, k: Key, o: Oracle, i: nat, next: Oracle)
    requires Ready(w, k) && Now(w, k).id == "" && !NameTaken(w, Escalation, Esc(w, k).name) && FreshId(w, o.newId)
    requires i < |Esc(w, k).rules| && Shown(o, i) != Esc(w, k).rules[i].recipient.id
    ensures var w' := Reconcile(w, k, o).0;
            && Ready(w', k) && Now(w', k) == CR(Now(w, k).spec, o.newId) && InAgreement(w', k)
            && ShownOtherwise(w', k, i) && !Quiet(w', Begin(k), next)
  {
    MappedSolo(w, k, o);
    MappedAgree(w, k);
    CreateAgrees(w, SnapNow(w, k), Esc(w, k), TeamId(w, k), Mapped(w, k), o);
    StaysReady(w, k, o);
    QuietExactly(Reconcile(w, k, o).0, k, next);
  }
}
