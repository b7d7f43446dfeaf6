/** Schedule rotations: their conversion and the comparison that decides whether a schedule is rewritten. */
module Rotations {
  import opened Basics

  /** A start date as written, with the instant RFC 3339 parsing gives it, if any. */
  datatype Stamp = Stamp(text: string, instant: Option<int>)

  datatype ParticipantSpec = ParticipantSpec(kind: string, id: string, name: string, username: string)

  datatype Interval = Interval(startDay: int, endDay: int, startHour: int, endHour: int)

  datatype RestrictionSpec = RestrictionSpec(kind: string, intervals: seq<Interval>)

  datatype RotationSpec = RotationSpec(
    name: string, kind: string, startDate: Stamp, endDate: string, length: int,
    participants: seq<ParticipantSpec>, restriction: Option<RestrictionSpec>)

  datatype Participant = Participant(kind: string, id: string, name: string, username: string)

  datatype Day = Monday | Tuesday | Wednesday | Thursday | Friday | Saturday | Sunday

  datatype Restriction = Restriction(
    startDay: Day, endDay: Day, startHour: nat, startMin: nat, endHour: nat, endMin: nat)

  datatype TimeRestriction = TimeRestriction(kind: string, restrictions: seq<Restriction>)

  datatype Rotation = Rotation(
    name: string, kind: string, startDate: int, length: nat,
    participants: seq<Participant>, restriction: Option<TimeRestriction>)

  // ---- participants -------------------------------------------------------------------

  /** Whether a participant is accepted. Only users need an id or a username of their own. */
  predicate Admissible(p: ParticipantSpec) {
    && (p.id != "" || p.name != "" || p.username != "")
    && match p.kind
       case "user" => p.id != "" || p.username != ""
       case "team" => true
       case "escalation" => true
       case "role" => true
       case _ => false
  }

  function ToParticipant(p: ParticipantSpec): Participant {
    if p.id != "" then Participant(p.kind, p.id, "", "")
    else if p.kind == "user" then Participant(p.kind, "", "", p.username)
    else Participant(p.kind, "", p.name, "")
  }

  /** What is sent for a participant: its type, and its id, or else a user's username or another's name. */
  predicate ParticipantFollows(p: ParticipantSpec, q: Participant) {
    && q.kind == p.kind
    && (p.id != "" ==> q.id == p.id && q.username == "" && q.name == "")
    && (p.id == "" && p.kind == "user" ==> q.id == "" && q.username == p.username && q.name == "")
    && (p.id == "" && p.kind != "user" ==> q.id == "" && q.username == "" && q.name == p.name)
  }

  lemma ParticipantsFollow(p: ParticipantSpec)
    ensures ParticipantFollows(p, ToParticipant(p))
  {
  }

  // Users, teams, escalations and roles are accepted with any identifier, users only with one of their own.
  lemma AdmissibleExactly(p: ParticipantSpec)
    ensures Admissible(p) <==>
            && (p.kind == "user" || p.kind == "team" || p.kind == "escalation" || p.kind == "role")
            && (p.id != "" || p.name != "" || p.username != "")
            && (p.kind == "user" ==> p.id != "" || p.username != "")
  {
  }

  method ConvertParticipants(ps: seq<ParticipantSpec>) returns (r: Option<seq<Participant>>)
    ensures r.Some? <==> forall p :: p in ps ==> Admissible(p)
    ensures r.Some? ==> r.value == seq(|ps|, i requires 0 <= i < |ps| => ToParticipant(ps[i]))
    ensures r.Some? ==> |r.value| == |ps| && forall i :: 0 <= i < |ps| ==> ParticipantFollows(ps[i], r.value[i])
  {
    var participants: seq<Participant> := [];
    for i := 0 to |ps|
      invariant forall p :: p in ps[..i] ==> Admissible(p)
      invariant participants == seq(i, j requires 0 <= j < i => ToParticipant(ps[j]))
    {
      var p := ps[i];
      assert p in ps;
      if p.id == "" && p.name == "" && p.username == "" {
        return None;
      }
      var participant := Participant(p.kind, "", "", "");
      match p.kind {
        case "user" =>
          if p.id != "" {
            participant := participant.(id := p.id);
          } else if p.username != "" {
            participant := participant.(username := p.username);
          } else {
            return None;
          }
        case "team" =>
          participant := if p.id != "" then participant.(id := p.id) else participant.(name := p.name);
        case "escalation" =>
          participant := if p.id != "" then participant.(id := p.id) else participant.(name := p.name);
        case "role" =>
          participant := if p.id != "" then participant.(id := p.id) else participant.(name := p.name);
        case _ =>
          return None;
      }
      participants := participants + [participant];
    }
    assert ps[..|ps|] == ps;
    return Some(participants);
  }

  // An accepted participant reaches the remote with at most one identifier, and with none
  // exactly when it is a team, an escalation or a role that carries a username alone.
  lemma ParticipantIdentifiers(p: ParticipantSpec)
    requires Admissible(p)
    ensures var q := ToParticipant(p);
            && (q.id == "" || q.name == "") && (q.id == "" || q.username == "") && (q.name == "" || q.username == "")
            && ((q.id == "" && q.name == "" && q.username == "") <==>
                (p.kind != "user" && p.id == "" && p.name == "" && p.username != ""))
  {
  }

  // ---- time restrictions --------------------------------------------------------------

  /** The day names, numbered from 1. */
  const DAYS: seq<Day> := [Monday, Tuesday, Wednesday, Thursday, Friday, Saturday, Sunday]

  function MapDay(day: int): Option<Day> {
    if 1 <= day <= 7 then Some(DAYS[day - 1]) else None
  }

  function DayNumber(d: Day): int {
    match d
    case Monday => 1
    case Tuesday => 2
    case Wednesday => 3
    case Thursday => 4
    case Friday => 5
    case Saturday => 6
    case Sunday => 7
  }

  predicate DaysValid(i: Interval) {
    1 <= i.startDay <= 7 && 1 <= i.endDay <= 7
  }

  function ToRestriction(i: Interval): Restriction
    requires DaysValid(i)
  {
    Restriction(MapDay(i.startDay).value, MapDay(i.endDay).value, Wrap32(i.startHour), 0, Wrap32(i.endHour), 0)
  }

  predicate RestrictionValid(c: RestrictionSpec) {
    c.kind != "" && forall i :: i in c.intervals ==> DaysValid(i)
  }

  function ToTimeRestriction(c: RestrictionSpec): TimeRestriction
    requires RestrictionValid(c)
  {
    TimeRestriction(c.kind, seq(|c.intervals|, i requires 0 <= i < |c.intervals| => ToRestriction(c.intervals[i])))
  }

  /** What is sent for an interval: the days by name from Monday to Sunday, hours modulo 2^32, whole hours. */
  predicate IntervalFollows(i: Interval, r: Restriction) {
    && 1 <= i.startDay <= 7 && 1 <= i.endDay <= 7
    && r.startDay == [Monday, Tuesday, Wednesday, Thursday, Friday, Saturday, Sunday][i.startDay - 1]
    && r.endDay == [Monday, Tuesday, Wednesday, Thursday, Friday, Saturday, Sunday][i.endDay - 1]
    && r.startHour == i.startHour % 0x1_0000_0000 && r.startMin == 0
    && r.endHour == i.endHour % 0x1_0000_0000 && r.endMin == 0
  }

  predicate RestrictionFollows(c: RestrictionSpec, t: TimeRestriction) {
    && t.kind == c.kind
    && |t.restrictions| == |c.intervals|
    && forall i :: 0 <= i < |c.intervals| ==> IntervalFollows(c.intervals[i], t.restrictions[i])
  }

  lemma RestrictionsFollow(c: RestrictionSpec)
    requires RestrictionValid(c)
    ensures RestrictionFollows(c, ToTimeRestriction(c))
  {
    forall i | 0 <= i < |c.intervals| ensures IntervalFollows(c.intervals[i], ToTimeRestriction(c).restrictions[i]) {
      assert DaysValid(c.intervals[i]);
    }
  }

  method ConvertTimeRestrictions(c: RestrictionSpec) returns (r: Option<TimeRestriction>)
    ensures r.Some? <==> RestrictionValid(c)
    ensures r.Some? ==> r.value == ToTimeRestriction(c)
    ensures r.Some? <==> c.kind != "" && forall i :: i in c.intervals ==> 1 <= i.startDay <= 7 && 1 <= i.endDay <= 7
    ensures r.Some? ==> RestrictionFollows(c, r.value)
  {
    if RestrictionValid(c) {
      RestrictionsFollow(c);
    }
    if c.kind == "" {
      return None;
    }
    var restrictions: seq<Restriction> := [];
    for i := 0 to |c.intervals|
      invariant forall x :: x in c.intervals[..i] ==> DaysValid(x)
      invariant |restrictions| == i
      invariant forall j :: 0 <= j < i ==> DaysValid(c.intervals[j]) && restrictions[j] == ToRestriction(c.intervals[j])
    {
      var interval := c.intervals[i];
      assert interval in c.intervals;
      var startDay := MapDay(interval.startDay);
      if startDay.None? {
        return None;
      }
      var endDay := MapDay(interval.endDay);
      if endDay.None? {
        return None;
      }
      restrictions := restrictions
      + [Restriction(startDay.value, endDay.value, Wrap32(interval.startHour), 0, Wrap32(interval.endHour), 0)];
    }
    assert c.intervals[..|c.intervals|] == c.intervals;
    return Some(TimeRestriction(c.kind, restrictions));
  }

  /** What an interval looks like when it is read back from a restriction. */
  function ReadBack(r: Restriction): Interval {
    Interval(DayNumber(r.startDay), DayNumber(r.endDay), r.startHour, r.endHour)
  }

  // Reading a converted restriction back gives the original intervals, in order, exactly when
  // every hour fits 32 bits.
  lemma TimeRestrictionRoundTrip(c: RestrictionSpec)
    requires RestrictionValid(c)
    ensures var rs := ToTimeRestriction(c).restrictions;
            && |rs| == |c.intervals|
            && ((forall i :: 0 <= i < |rs| ==> ReadBack(rs[i]) == c.intervals[i]) <==>
                (forall x :: x in c.intervals ==> 0 <= x.startHour < 0x1_0000_0000 && 0 <= x.endHour < 0x1_0000_0000))
  {
    var rs := ToTimeRestriction(c).restrictions;
    forall i | 0 <= i < |rs|
      ensures ReadBack(rs[i]) == c.intervals[i] <==>
              0 <= c.intervals[i].startHour < 0x1_0000_0000 && 0 <= c.intervals[i].endHour < 0x1_0000_0000
    {
      assert c.intervals[i] in c.intervals;
    }
    if forall i :: 0 <= i < |rs| ==> ReadBack(rs[i]) == c.intervals[i] {
      forall x | x in c.intervals
        ensures 0 <= x.startHour < 0x1_0000_0000 && 0 <= x.endHour < 0x1_0000_0000
      {
        var i :| 0 <= i < |c.intervals| && c.intervals[i] == x;
        assert ReadBack(rs[i]) == c.intervals[i];
      }
    }
  }

  // ---- rotations ----------------------------------------------------------------------

  predicate RotationValid(r: RotationSpec) {
    && r.startDate.instant.Some?
    && r.participants != []
    && (forall p :: p in r.participants ==> Admissible(p))
    && (r.restriction.Some? ==> RestrictionValid(r.restriction.value))
  }

  function ToRotation(r: RotationSpec): Rotation
    requires RotationValid(r)
  {
    Rotation(r.name, r.kind, r.startDate.instant.value, Wrap32(r.length),
             seq(|r.participants|, i requires 0 <= i < |r.participants| => ToParticipant(r.participants[i])),
             if r.restriction.Some? then Some(ToTimeRestriction(r.restriction.value)) else None)
  }

  predicate Convertible(rs: seq<RotationSpec>) {
    forall r :: r in rs ==> RotationValid(r)
  }

  function ToRotations(rs: seq<RotationSpec>): (res: seq<Rotation>)
    requires Convertible(rs)
  {
    seq(|rs|, i requires 0 <= i < |rs| => ToRotation(rs[i]))
  }

  /** The rotation says what the spec says; end dates are not sent. */
  predicate RotationFollows(s: RotationSpec, r: Rotation) {
    && r.name == s.name && r.kind == s.kind
    && s.startDate.instant == Some(r.startDate)
    && r.length == s.length % 0x1_0000_0000
    && |r.participants| == |s.participants|
    && (forall i :: 0 <= i < |s.participants| ==> ParticipantFollows(s.participants[i], r.participants[i]))
    && (r.restriction.Some? <==> s.restriction.Some?)
    && (s.restriction.Some? ==> RestrictionFollows(s.restriction.value, r.restriction.value))
  }

  predicate RotationsFollow(rs: seq<RotationSpec>, res: seq<Rotation>) {
    |res| == |rs| && forall i :: 0 <= i < |rs| ==> RotationFollows(rs[i], res[i])
  }

  lemma ConversionFollows(rs: seq<RotationSpec>)
    requires Convertible(rs)
    ensures RotationsFollow(rs, ToRotations(rs))
  {
    forall i | 0 <= i < |rs| ensures RotationFollows(rs[i], ToRotations(rs)[i]) {
      assert RotationValid(rs[i]);
      if rs[i].restriction.Some? {
        RestrictionsFollow(rs[i].restriction.value);
      }
    }
  }

  // What conversion demands of every rotation, in the fields of the spec.
  lemma ConvertibleExactly(rs: seq<RotationSpec>)
    ensures Convertible(rs) <==>
            forall r :: r in rs ==>
              && r.startDate.instant.Some?
              && |r.participants| > 0
              && (forall p :: p in r.participants ==>
                    && (p.kind == "user" || p.kind == "team" || p.kind == "escalation" || p.kind == "role")
                    && (p.id != "" || p.name != "" || p.username != "")
                    && (p.kind == "user" ==> p.id != "" || p.username != ""))
              && (r.restriction.Some? ==>
                    && r.restriction.value.kind != ""
                    && forall i :: i in r.restriction.value.intervals ==> 1 <= i.startDay <= 7 && 1 <= i.endDay <= 7)
  {
    forall p: ParticipantSpec
      ensures Admissible(p) <==>
              && (p.kind == "user" || p.kind == "team" || p.kind == "escalation" || p.kind == "role")
              && (p.id != "" || p.name != "" || p.username != "")
              && (p.kind == "user" ==> p.id != "" || p.username != "")
    {
      AdmissibleExactly(p);
    }
  }

  // All or nothing: a result exists exactly when every rotation is valid, and then it follows
  // the spec element by element.
  method ConvertRotations(rs: seq<RotationSpec>) returns (res: Option<seq<Rotation>>)
    ensures res.Some? <==> Convertible(rs)
    ensures res.Some? ==> res.value == ToRotations(rs)
    ensures res.Some? ==> RotationsFollow(rs, res.value)
  {
    if Convertible(rs) {
      ConversionFollows(rs);
    }
    var rotations: seq<Rotation> := [];
    for i := 0 to |rs|
      invariant forall r :: r in rs[..i] ==> RotationValid(r)
      invariant |rotations| == i
      invariant forall j :: 0 <= j < i ==> RotationValid(rs[j]) && rotations[j] == ToRotation(rs[j])
    {
      var r := rs[i];
      assert r in rs;
      if r.startDate.instant.None? {
        return None;
      }
      var participants := ConvertParticipants(r.participants);
      if participants.None? {
        return None;
      }
      if |participants.value| == 0 {
        return None;
      }
      var restriction: Option<TimeRestriction> := None;
      if r.restriction.Some? {
        restriction := ConvertTimeRestrictions(r.restriction.value);
        if restriction.None? {
          return None;
        }
      }
      rotations := rotations
      + [Rotation(r.name, r.kind, r.startDate.instant.value, Wrap32(r.length), participants.value, restriction)];
    }
    assert rs[..|rs|] == rs;
    return Some(rotations);
  }

  /** The part of a rotation that the comparison looks at. */
  datatype Projection = Projection(name: string, kind: string, startDate: int, length: nat)

  function Project(r: Rotation): Projection {
    Projection(r.name, r.kind, r.startDate, r.length)
  }

  predicate RotationsSame(existing: seq<Rotation>, wanted: seq<Rotation>) {
    |existing| == |wanted| && forall i :: 0 <= i < |existing| ==> Project(existing[i]) == Project(wanted[i])
  }

  method AreRotationsSame(existing: seq<Rotation>, wanted: seq<Rotation>) returns (r: bool)
    ensures r == RotationsSame(existing, wanted)
    ensures r <==>
            && |existing| == |wanted|
            && forall i :: 0 <= i < |existing| ==>
                 && existing[i].name == wanted[i].name && existing[i].kind == wanted[i].kind
                 && existing[i].startDate == wanted[i].startDate && existing[i].length == wanted[i].length
  {
    if |existing| != |wanted| {
      return false;
    }
    for i := 0 to |existing|
      invariant forall j :: 0 <= j < i ==> Project(existing[j]) == Project(wanted[j])
    {
      if existing[i].name != wanted[i].name || existing[i].kind != wanted[i].kind
         || existing[i].startDate != wanted[i].startDate || existing[i].length != wanted[i].length
      {
        assert Project(existing[i]) != Project(wanted[i]);
        return false;
      }
    }
    return true;
  }

  // Against the conversion of a spec, the comparison looks at exactly these fields of the remote.
  lemma ComparedWithSpec(seen: seq<Rotation>, rs: seq<RotationSpec>)
    requires Convertible(rs)
    ensures RotationsSame(seen, ToRotations(rs)) <==>
            && |seen| == |rs|
            && forall i :: 0 <= i < |rs| ==>
                 && seen[i].name == rs[i].name && seen[i].kind == rs[i].kind
                 && Some(seen[i].startDate) == rs[i].startDate.instant
                 && seen[i].length == rs[i].length % 0x1_0000_0000
  {
    ConversionFollows(rs);
    if |seen| == |rs| {
      forall i | 0 <= i < |rs|
        ensures Project(seen[i]) == Project(ToRotations(rs)[i]) <==>
                && seen[i].name == rs[i].name && seen[i].kind == rs[i].kind
                && Some(seen[i].startDate) == rs[i].startDate.instant
                && seen[i].length == rs[i].length % 0x1_0000_0000
      {
        assert RotationFollows(rs[i], ToRotations(rs)[i]);
      }
      if RotationsSame(seen, ToRotations(rs)) {
        forall i | 0 <= i < |rs| ensures Project(seen[i]) == Project(ToRotations(rs)[i]) {
        }
      }
    }
  }

  lemma RotationsSameIsAnEquivalence(a: seq<Rotation>, b: seq<Rotation>, c: seq<Rotation>)
    ensures RotationsSame(a, a)
    ensures RotationsSame(a, b) <==> RotationsSame(b, a)
    ensures RotationsSame(a, b) && RotationsSame(b, c) ==> RotationsSame(a, c)
  {
  }

  /** What two specs share if the comparison cannot tell them apart. */
  predicate SpecsAlike(a: RotationSpec, b: RotationSpec) {
    && a.name == b.name && a.kind == b.kind && a.startDate.instant == b.startDate.instant
    && (a.length - b.length) % 0x1_0000_0000 == 0
  }

  // Compared through their conversions, two specs are the same exactly when they agree, place by place,
  // on name, type and instant, and on the length modulo 2^32.
  lemma LengthsWrap(a: seq<RotationSpec>, b: seq<RotationSpec>)
    requires Convertible(a) && Convertible(b)
    ensures RotationsSame(ToRotations(a), ToRotations(b)) <==>
            |a| == |b| && forall i :: 0 <= i < |a| ==> SpecsAlike(a[i], b[i])
  {
    var x, y := ToRotations(a), ToRotations(b);
    if |a| == |b| {
      forall i | 0 <= i < |a| ensures Project(x[i]) == Project(y[i]) <==> SpecsAlike(a[i], b[i]) {
        assert a[i] in a && b[i] in b;
        assert Wrap32(a[i].length) == Wrap32(b[i].length) <==> (a[i].length - b[i].length) % 0x1_0000_0000 == 0;
      }
      if RotationsSame(x, y) {
        forall i | 0 <= i < |a| ensures SpecsAlike(a[i], b[i]) {
          assert Project(x[i]) == Project(y[i]);
        }
      }
    }
  }

  // For lengths that fit 32 bits that is equality of the four fields.
  lemma ComparisonDecidesSpecs(a: seq<RotationSpec>, b: seq<RotationSpec>)
    requires Convertible(a) && Convertible(b)
    requires forall r :: r in a + b ==> 0 <= r.length < 0x1_0000_0000
    ensures RotationsSame(ToRotations(a), ToRotations(b)) <==>
            |a| == |b| && forall i :: 0 <= i < |a| ==>
              && a[i].name == b[i].name && a[i].kind == b[i].kind
              && a[i].startDate.instant == b[i].startDate.instant && a[i].length == b[i].length
  {
    LengthsWrap(a, b);
    if |a| == |b| {
      forall i | 0 <= i < |a|
        ensures (a[i].length - b[i].length) % 0x1_0000_0000 == 0 <==> a[i].length == b[i].length
      {
        assert a[i] in a + b && b[i] in a + b;
        SmallLengths(a[i].length, b[i].length);
      }
    }
  }

  lemma SmallLengths(x: int, y: int)
    requires 0 <= x < 0x1_0000_0000 && 0 <= y < 0x1_0000_0000
    ensures (x - y) % 0x1_0000_0000 == 0 <==> x == y
  {
  }

  /** `b` is `a` but for participants, restriction, end date and the wording of the start date. */
  predicate DiffersUnseen(a: RotationSpec, b: RotationSpec) {
    b == a.(participants := b.participants, restriction := b.restriction, endDate := b.endDate,
            startDate := Stamp(b.startDate.text, a.startDate.instant))
  }

  // Changes to participants, restrictions and end dates, in any number of rotations, are never seen.
  lemma ComparisonIgnores(a: seq<RotationSpec>, b: seq<RotationSpec>)
    requires Convertible(a) && Convertible(b) && |a| == |b|
    requires forall i :: 0 <= i < |a| ==> DiffersUnseen(a[i], b[i])
    ensures RotationsSame(ToRotations(a), ToRotations(b))
  {
    LengthsWrap(a, b);
    forall i | 0 <= i < |a| ensures SpecsAlike(a[i], b[i]) {
      assert DiffersUnseen(a[i], b[i]);
    }
  }
}
