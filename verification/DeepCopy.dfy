/**
 Deep copies of the nested spec types, on the heap.

 A Go slice is an array here (nil is null), a pointer or a map is an object, and a struct held by
 value is a datatype whose fields may refer to both. The views read a structure as a value; the
 footprints are the objects it reaches. Each copy starts as the shallow copy of the source.
 */
module DeepCopy {
  import opened Basics
  import Rotations
  import IncidentRules

  // ---- slices, references and maps ----------------------------------------------------

  function SliceView<T>(a: array?<T>): Option<seq<T>>
    reads a
  {
    if a == null then None else Some(a[..])
  }

  method CopySlice<T(0)>(a: array?<T>) returns (b: array?<T>)
    ensures SliceView(b) == SliceView(a)
    ensures (b == null) == (a == null)
    ensures b != null ==> fresh(b) && b.Length == a.Length && b[..] == a[..]
  {
    b := a;
    if a != null {
      b := new T[a.Length];
      for i := 0 to a.Length
        invariant fresh(b) && b.Length == a.Length && b[..i] == a[..i]
        modifies b
      {
        b[i] := a[i];
      }
      assert b[..] == a[..];
    }
  }

  /** A reference to another resource by name. */
  class NameRef {
    var name: string

    constructor (name: string)
      ensures this.name == name
    {
      this.name := name;
    }
  }

  function RefView(r: NameRef?): Option<string>
    reads r
  {
    if r == null then None else Some(r.name)
  }

  method CopyRef(r: NameRef?) returns (c: NameRef?)
    ensures RefView(c) == RefView(r)
    ensures (c == null) == (r == null)
    ensures c != null ==> fresh(c) && c.name == r.name
  {
    c := r;
    if r != null {
      c := new NameRef(r.name);
    }
  }

  class Flag {
    var on: bool

    constructor (on: bool)
      ensures this.on == on
    {
      this.on := on;
    }
  }

  function FlagView(f: Flag?): Option<bool>
    reads f
  {
    if f == null then None else Some(f.on)
  }

  class StringMap {
    var entries: map<string, string>

    constructor ()
      ensures entries == map[]
    {
      entries := map[];
    }
  }

  function MapView(m: StringMap?): Option<map<string, string>>
    reads m
  {
    if m == null then None else Some(m.entries)
  }

  method CopyMap(m: StringMap?) returns (c: StringMap?)
    ensures MapView(c) == MapView(m)
    ensures (c == null) == (m == null)
    ensures c != null ==> fresh(c) && c.entries == m.entries
  {
    c := m;
    if m != null {
      c := new StringMap();
      var todo := m.entries.Keys;
      while todo != {}
        invariant fresh(c) && c != m && todo <= m.entries.Keys
        invariant c.entries == map k | k in m.entries && k !in todo :: m.entries[k]
        modifies c
        decreases |todo|
      {
        var key :| key in todo;
        c.entries := c.entries[key := m.entries[key]];
        todo := todo - {key};
      }
      assert c.entries == m.entries;
    }
  }

  // ---- schedules ----------------------------------------------------------------------

  class TimeRestriction {
    var kind: string
    var intervals: array?<Rotations.Interval>

    constructor (kind: string, intervals: array?<Rotations.Interval>)
      ensures this.kind == kind && this.intervals == intervals
    {
      this.kind := kind;
      this.intervals := intervals;
    }

    method DeepCopyInto(out: TimeRestriction)
      requires out != this
      modifies out
      ensures View(out) == old(View(this))
      ensures out.kind == old(kind) && (out.intervals == null) == (old(intervals) == null)
      ensures out.intervals != null ==> fresh(out.intervals) && out.intervals[..] == old(intervals[..])
    {
      out.kind, out.intervals := kind, intervals;
      if intervals != null {
        var copied := CopySlice(intervals);
        out.intervals := copied;
      }
    }
  }

  datatype RestrictionView = RestrictionView(kind: string, intervals: Option<seq<Rotations.Interval>>)

  function View(t: TimeRestriction): RestrictionView
    reads t, t.intervals
  {
    RestrictionView(t.kind, SliceView(t.intervals))
  }

  datatype Rotation = Rotation(
    name: string, kind: string, startDate: string, endDate: string, length: int,
    participants: array?<Rotations.ParticipantSpec>, restriction: TimeRestriction?)

  datatype RotationView = RotationView(
    name: string, kind: string, startDate: string, endDate: string, length: int,
    participants: Option<seq<Rotations.ParticipantSpec>>, restriction: Option<RestrictionView>)

  function Objects(o: object?): set<object> {
    if o == null then {} else {o}
  }

  function RotationObjects(r: Rotation): set<object>
    reads r.restriction
  {
    Objects(r.participants) + Objects(r.restriction)
    + (if r.restriction == null then {} else Objects(r.restriction.intervals))
  }

  function ViewRotation(r: Rotation): RotationView
    reads r.participants, r.restriction, if r.restriction == null then null else r.restriction.intervals
  {
    RotationView(r.name, r.kind, r.startDate, r.endDate, r.length, SliceView(r.participants),
                 if r.restriction == null then None else Some(View(r.restriction)))
  }

  // A view shows everything: what looks alike is equal, null for null and element by element.
  lemma AlikeRotations(a: Rotation, b: Rotation)
    requires ViewRotation(a) == ViewRotation(b)
    ensures a == b.(participants := a.participants, restriction := a.restriction)
    ensures (a.participants == null) == (b.participants == null)
    ensures a.participants != null ==> a.participants[..] == b.participants[..]
    ensures (a.restriction == null) == (b.restriction == null)
    ensures a.restriction != null ==>
              && a.restriction.kind == b.restriction.kind
              && (a.restriction.intervals == null) == (b.restriction.intervals == null)
              && (a.restriction.intervals != null ==> a.restriction.intervals[..] == b.restriction.intervals[..])
  {
  }

  method CopyRotation(r: Rotation) returns (c: Rotation)
    ensures ViewRotation(c) == ViewRotation(r)
    ensures fresh(RotationObjects(c))
    ensures c == r.(participants := c.participants, restriction := c.restriction)
    ensures (c.participants == null) == (r.participants == null)
    ensures c.participants != null ==> fresh(c.participants) && c.participants[..] == r.participants[..]
    ensures (c.restriction == null) == (r.restriction == null)
    ensures c.restriction != null ==>
              && fresh(c.restriction) && c.restriction.kind == r.restriction.kind
              && (c.restriction.intervals == null) == (r.restriction.intervals == null)
              && (c.restriction.intervals != null ==>
                    fresh(c.restriction.intervals) && c.restriction.intervals[..] == r.restriction.intervals[..])
  {
    c := r;
    if r.participants != null {
      var participants := CopySlice(r.participants);
      c := c.(participants := participants);
    }
    if r.restriction != null {
      var restriction := new TimeRestriction("", null);
      r.restriction.DeepCopyInto(restriction);
      c := c.(restriction := restriction);
    }
  }

  // The loop over rotations fills a new slice in place, element by element. Every rotation of the
  // copy looks like the source's, nothing it reaches existed before, and no two share an object.
  method CopyRotations(a: array<Rotation>) returns (b: array<Rotation>)
    ensures fresh(b) && b.Length == a.Length
    ensures forall i :: 0 <= i < b.Length ==>
              && ViewRotation(b[i]) == old(ViewRotation(a[i]))
              && fresh(RotationObjects(b[i]))
    ensures forall i, j :: 0 <= i < j < b.Length ==> RotationObjects(b[i]) !! RotationObjects(b[j])
  {
    b := new Rotation[a.Length];
    ghost var made: seq<Rotation>, reached: seq<set<object>> := [], [];
    for i := 0 to a.Length
      invariant fresh(b) && b.Length == a.Length && b[..i] == made && |reached| == i
      invariant forall j :: 0 <= j < i ==>
                  && RotationObjects(made[j]) == reached[j] && fresh(reached[j]) && b !in reached[j]
                  && ViewRotation(made[j]) == old(ViewRotation(a[j]))
      invariant forall j, k :: 0 <= j < k < i ==> reached[j] !! reached[k]
      modifies b
    {
      label before:
      var copied := CopyRotation(a[i]);
      assert fresh@before(RotationObjects(copied));
      b[i] := copied;
      made, reached := made + [copied], reached + [RotationObjects(copied)];
    }
  }

  datatype ScheduleSpec = ScheduleSpec(
    name: string, description: string, timeZone: string, rotations: array?<Rotation>, ownerTeam: string)

  method CopySchedule(s: ScheduleSpec) returns (c: ScheduleSpec)
    ensures c == s.(rotations := c.rotations)
    ensures (c.rotations == null) == (s.rotations == null)
    ensures c.rotations != null ==> fresh(c.rotations) && c.rotations.Length == s.rotations.Length
    ensures c.rotations != null ==> forall i :: 0 <= i < c.rotations.Length ==>
              && ViewRotation(c.rotations[i]) == ViewRotation(s.rotations[i]) == old(ViewRotation(s.rotations[i]))
              && fresh(RotationObjects(c.rotations[i]))
    ensures c.rotations != null ==> forall i, j :: 0 <= i < j < c.rotations.Length ==>
              RotationObjects(c.rotations[i]) !! RotationObjects(c.rotations[j])
  {
    c := s;
    if s.rotations != null {
      var rotations := CopyRotations(s.rotations);
      c := c.(rotations := rotations);
    }
  }

  // ---- escalations --------------------------------------------------------------------

  datatype Recipient = Recipient(kind: string, id: string, username: string, scheduleRef: NameRef?, teamRef: NameRef?)

  datatype RecipientView = RecipientView(
    kind: string, id: string, username: string, scheduleRef: Option<string>, teamRef: Option<string>)

  function ViewRecipient(r: Recipient): RecipientView
    reads r.scheduleRef, r.teamRef
  {
    RecipientView(r.kind, r.id, r.username, RefView(r.scheduleRef), RefView(r.teamRef))
  }

  function RecipientObjects(r: Recipient): set<object> {
    Objects(r.scheduleRef) + Objects(r.teamRef)
  }

  lemma AlikeRecipients(a: Recipient, b: Recipient)
    requires ViewRecipient(a) == ViewRecipient(b)
    ensures a == b.(scheduleRef := a.scheduleRef, teamRef := a.teamRef)
    ensures (a.scheduleRef == null) == (b.scheduleRef == null) && (a.teamRef == null) == (b.teamRef == null)
    ensures a.scheduleRef != null ==> a.scheduleRef.name == b.scheduleRef.name
    ensures a.teamRef != null ==> a.teamRef.name == b.teamRef.name
  {
  }

  // Both references are copied apart, even where the source shares one object between them.
  method CopyRecipient(r: Recipient) returns (c: Recipient)
    ensures ViewRecipient(c) == ViewRecipient(r)
    ensures fresh(RecipientObjects(c))
    ensures c == r.(scheduleRef := c.scheduleRef, teamRef := c.teamRef)
    ensures (c.scheduleRef == null) == (r.scheduleRef == null) && (c.teamRef == null) == (r.teamRef == null)
    ensures c.scheduleRef != null ==> fresh(c.scheduleRef) && c.scheduleRef.name == r.scheduleRef.name
    ensures c.teamRef != null ==> fresh(c.teamRef) && c.teamRef.name == r.teamRef.name
    ensures c.scheduleRef != null ==> c.scheduleRef != c.teamRef
  {
    c := r;
    if r.scheduleRef != null {
      var scheduleRef := CopyRef(r.scheduleRef);
      c := c.(scheduleRef := scheduleRef);
    }
    if r.teamRef != null {
      var teamRef := CopyRef(r.teamRef);
      c := c.(teamRef := teamRef);
    }
  }

  datatype EscalationRule = EscalationRule(condition: string, notifyType: string, delayMin: int, recipient: Recipient)

  datatype EscalationSpec = EscalationSpec(
    name: string, description: string, teamID: string, teamRef: NameRef?, rules: array?<EscalationRule>)

  method CopyEscalation(s: EscalationSpec) returns (c: EscalationSpec)
    ensures c == s.(teamRef := c.teamRef, rules := c.rules)
    ensures RefView(c.teamRef) == RefView(s.teamRef) && fresh(Objects(c.teamRef))
    ensures (c.rules == null) == (s.rules == null)
    ensures c.rules != null ==> fresh(c.rules) && c.rules.Length == s.rules.Length
    ensures c.rules != null ==> forall i :: 0 <= i < c.rules.Length ==>
              && c.rules[i] == s.rules[i].(recipient := c.rules[i].recipient)
              && ViewRecipient(c.rules[i].recipient) == old(ViewRecipient(s.rules[i].recipient))
              && fresh(RecipientObjects(c.rules[i].recipient))
              && c.teamRef !in RecipientObjects(c.rules[i].recipient)
    ensures c.rules != null ==> forall i, j :: 0 <= i < j < c.rules.Length ==>
              RecipientObjects(c.rules[i].recipient) !! RecipientObjects(c.rules[j].recipient)
  {
    c := s;
    if s.teamRef != null {
      var teamRef := CopyRef(s.teamRef);
      c := c.(teamRef := teamRef);
    }
    if s.rules != null {
      var rules := new EscalationRule[s.rules.Length];
      for i := 0 to s.rules.Length
        invariant fresh(rules) && rules.Length == s.rules.Length
        invariant forall j :: 0 <= j < i ==>
                    && rules[j] == s.rules[j].(recipient := rules[j].recipient)
                    && ViewRecipient(rules[j].recipient) == old(ViewRecipient(s.rules[j].recipient))
                    && fresh(RecipientObjects(rules[j].recipient))
                    && c.teamRef !in RecipientObjects(rules[j].recipient)
        invariant forall j, k :: 0 <= j < k < i ==>
                    RecipientObjects(rules[j].recipient) !! RecipientObjects(rules[k].recipient)
        modifies rules
      {
        label before:
        var recipient := CopyRecipient(s.rules[i].recipient);
        assert fresh@before(RecipientObjects(recipient));
        rules[i] := s.rules[i].(recipient := recipient);
      }
      c := c.(rules := rules);
    }
  }

  // ---- incident rules -----------------------------------------------------------------

  datatype Stakeholders = Stakeholders(enable: Flag?, message: string, description: string)

  datatype Properties = Properties(
    message: string, tags: array?<string>, details: StringMap?, description: string, priority: string,
    stakeholders: Stakeholders)

  datatype PropertiesView = PropertiesView(
    message: string, tags: Option<seq<string>>, details: Option<map<string, string>>, description: string,
    priority: string, enable: Option<bool>, stakeholderMessage: string, stakeholderDescription: string)

  function ViewProperties(p: Properties): PropertiesView
    reads p.tags, p.details, p.stakeholders.enable
  {
    PropertiesView(p.message, SliceView(p.tags), MapView(p.details), p.description, p.priority,
                   FlagView(p.stakeholders.enable), p.stakeholders.message, p.stakeholders.description)
  }

  function PropertiesObjects(p: Properties): set<object> {
    Objects(p.tags) + Objects(p.details) + Objects(p.stakeholders.enable)
  }

  lemma AlikeProperties(a: Properties, b: Properties)
    requires ViewProperties(a) == ViewProperties(b)
    ensures a == b.(tags := a.tags, details := a.details,
                    stakeholders := b.stakeholders.(enable := a.stakeholders.enable))
    ensures (a.tags == null) == (b.tags == null) && (a.details == null) == (b.details == null)
    ensures a.tags != null ==> a.tags[..] == b.tags[..]
    ensures a.details != null ==> a.details.entries == b.details.entries
    ensures (a.stakeholders.enable == null) == (b.stakeholders.enable == null)
    ensures a.stakeholders.enable != null ==> a.stakeholders.enable.on == b.stakeholders.enable.on
  {
  }

  method CopyProperties(p: Properties) returns (c: Properties)
    ensures ViewProperties(c) == ViewProperties(p)
    ensures fresh(PropertiesObjects(c))
    ensures c == p.(tags := c.tags, details := c.details,
                    stakeholders := p.stakeholders.(enable := c.stakeholders.enable))
    ensures (c.tags == null) == (p.tags == null) && (c.details == null) == (p.details == null)
    ensures c.tags != null ==> fresh(c.tags) && c.tags[..] == p.tags[..]
    ensures c.details != null ==> fresh(c.details) && c.details.entries == p.details.entries
    ensures (c.stakeholders.enable == null) == (p.stakeholders.enable == null)
    ensures c.stakeholders.enable != null ==>
              fresh(c.stakeholders.enable) && c.stakeholders.enable.on == p.stakeholders.enable.on
  {
    c := p;
    if p.tags != null {
      var tags := CopySlice(p.tags);
      c := c.(tags := tags);
    }
    if p.details != null {
      var details := CopyMap(p.details);
      c := c.(details := details);
    }
    if p.stakeholders.enable != null {
      var enable := new Flag(p.stakeholders.enable.on);
      c := c.(stakeholders := c.stakeholders.(enable := enable));
    }
  }

  datatype IncidentRuleSpec = IncidentRuleSpec(
    serviceRef: NameRef?, conditions: array?<IncidentRules.ConditionSpec>, matchType: string, properties: Properties)

  method CopyIncidentRule(s: IncidentRuleSpec) returns (c: IncidentRuleSpec)
    ensures c.matchType == s.matchType
    ensures RefView(c.serviceRef) == RefView(s.serviceRef)
    ensures SliceView(c.conditions) == SliceView(s.conditions)
    ensures ViewProperties(c.properties) == ViewProperties(s.properties)
    ensures fresh(Objects(c.serviceRef) + Objects(c.conditions) + PropertiesObjects(c.properties))
  {
    c := s;
    if s.serviceRef != null {
      var serviceRef := CopyRef(s.serviceRef);
      c := c.(serviceRef := serviceRef);
    }
    if s.conditions != null {
      var conditions := CopySlice(s.conditions);
      c := c.(conditions := conditions);
    }
    var properties := CopyProperties(s.properties);
    c := c.(properties := properties);
  }
}
