/**
 The ledger of creates: who made a remote object, and where its id went.

 A `Book` is what remains of the protocol when only ids matter. Its entries move between three
 columns: an id is awaited by the reconcile that created it, held by some version of a status, or
 lost. The invariants are proved on books; every step of the protocol is one entry or none.
 */
module Ledger {
  import opened Environment
  import opened Programs
  import opened Protocol
  import opened Invariants
  import Escalations

  /** Kinds without unique names: nothing but the status ties an object to its resource. */
  predicate Unnamed(kind: Kind) {
    kind.Service? || kind.Rule?
  }

  datatype Book = Book(
    known: set<RKey>, creator: map<RKey, Key>, lost: set<RKey>, awaits: map<nat, RKey>, held: set<(Key, string)>)

  // ---- the entries --------------------------------------------------------------------

  function Answered(b: Book, pid: nat, rk: RKey, k: Key): Book {
    b.(known := b.known + {rk}, creator := b.creator[rk := k], awaits := b.awaits[pid := rk])
  }

  function Unanswered(b: Book, rk: RKey, k: Key): Book {
    b.(known := b.known + {rk}, creator := b.creator[rk := k], lost := b.lost + {rk})
  }

  function Dropped(b: Book, pid: nat): Book
    requires pid in b.awaits
  {
    b.(lost := b.lost + {b.awaits[pid]}, awaits := b.awaits - {pid})
  }

  function Persisted(b: Book, pid: nat): Book
    requires pid in b.awaits && b.awaits[pid] in b.creator
  {
    b.(held := b.held + {(b.creator[b.awaits[pid]], b.awaits[pid].id)}, awaits := b.awaits - {pid})
  }

  function HeldAgain(b: Book, k: Key, id: string): Book {
    b.(held := b.held + {(k, id)})
  }

  function Noticed(b: Book, rk: RKey): Book {
    b.(known := b.known + {rk})
  }

  ghost predicate BookOk(b: Book) {
    && (forall rk :: rk in b.creator ==> rk in b.known && rk.kind == b.creator[rk].kind)
    && (forall rk :: rk in b.lost ==> rk in b.creator)
    && (forall p :: p in b.awaits ==> b.awaits[p] in b.creator && b.awaits[p] !in b.lost)
    && (forall p, q :: p in b.awaits && q in b.awaits && b.awaits[p] == b.awaits[q] ==> p == q)
       // Services and incident rules hold only what was created for them.
    && (forall e :: e in b.held && Unnamed(e.0.kind) ==>
          RKey(e.0.kind, e.1) in b.creator && b.creator[RKey(e.0.kind, e.1)] == e.0)
       // For them the three columns are disjoint and complete.
    && (forall p :: p in b.awaits && Unnamed(b.awaits[p].kind) ==> !IsHeld(b, b.awaits[p]))
    && (forall rk :: rk in b.lost && Unnamed(rk.kind) ==> !IsHeld(b, rk))
    && (forall rk :: rk in b.creator && Unnamed(rk.kind) ==> rk in b.lost || rk in b.awaits.Values || IsHeld(b, rk))
  }

  predicate IsHeld(b: Book, rk: RKey) {
    rk in b.creator && (b.creator[rk], rk.id) in b.held
  }

  lemma AnsweredKeeps(b: Book, pid: nat, rk: RKey, k: Key)
    requires BookOk(b) && rk !in b.known && pid !in b.awaits && rk.kind == k.kind
    ensures BookOk(Answered(b, pid, rk, k))
  {
    var b' := Answered(b, pid, rk, k);
    assert forall r :: r in b.creator ==> (IsHeld(b', r) <==> IsHeld(b, r));
    assert rk == RKey(k.kind, rk.id);
    assert Unnamed(k.kind) ==> (k, rk.id) !in b.held;
    forall r | r in b'.awaits.Values ensures r == rk || r in b.awaits.Values {
    }
    forall r | r == rk || r in b.awaits.Values ensures r in b'.awaits.Values {
      if r == rk {
        assert b'.awaits[pid] == rk;
      } else {
        var p :| p in b.awaits && b.awaits[p] == r;
        assert b'.awaits[p] == r;
      }
    }
  }

  lemma UnansweredKeeps(b: Book, rk: RKey, k: Key)
    requires BookOk(b) && rk !in b.known && rk.kind == k.kind
    ensures BookOk(Unanswered(b, rk, k))
  {
  }

  lemma RemainingAwaits(b: Book, pid: nat)
    requires BookOk(b) && pid in b.awaits
    ensures (b.awaits - {pid}).Values == b.awaits.Values - {b.awaits[pid]}
  {
    forall r | r in b.awaits.Values && r != b.awaits[pid] ensures r in (b.awaits - {pid}).Values {
      var p :| p in b.awaits && b.awaits[p] == r;
      assert p in b.awaits - {pid} && (b.awaits - {pid})[p] == r;
    }
  }

  lemma DroppedKeeps(b: Book, pid: nat)
    requires BookOk(b) && pid in b.awaits
    ensures BookOk(Dropped(b, pid))
  {
    RemainingAwaits(b, pid);
    assert forall r :: IsHeld(Dropped(b, pid), r) <==> IsHeld(b, r);
  }

  lemma PersistedKeeps(b: Book, pid: nat)
    requires BookOk(b) && pid in b.awaits
    ensures BookOk(Persisted(b, pid))
  {
    RemainingAwaits(b, pid);
    var rk := b.awaits[pid];
    assert RKey(rk.kind, rk.id) == rk;
    forall r | r in b.creator ensures IsHeld(Persisted(b, pid), r) <==> IsHeld(b, r) || r == rk {
      assert RKey(r.kind, r.id) == r;
    }
  }

  lemma HeldAgainKeeps(b: Book, k: Key, id: string)
    requires BookOk(b) && (Unnamed(k.kind) ==> (k, id) in b.held)
    ensures BookOk(HeldAgain(b, k, id))
  {
  }

  // ---- the book of a state ------------------------------------------------------------

  ghost function HeldIds(w: World): (held: set<(Key, string)>)
    ensures forall k, id :: (k, id) in held <==>
              id != "" && k in w.hist && exists v :: 0 <= v < |w.hist[k]| && w.hist[k][v].id == id
  {
    set k, v | k in w.hist && 0 <= v < |w.hist[k]| && w.hist[k][v].id != "" :: (k, w.hist[k][v].id)
  }

  function Awaits(procs: map<nat, Live>): map<nat, RKey> {
    map pid | pid in procs && procs[pid].SaveNew? :: Awaited(procs[pid])
  }

  ghost function BookOf(s: Sys): Book {
    Book(s.w.remote.Keys, s.creator, s.lost, Awaits(s.procs), HeldIds(s.w))
  }

  /** A reconcile awaits only ids of objects it created for its own resource. */
  ghost predicate AwaitersOwn(s: Sys) {
    forall pid :: pid in s.procs && s.procs[pid].SaveNew? ==>
                    Awaited(s.procs[pid]) in s.creator && s.creator[Awaited(s.procs[pid])] == s.procs[pid].s.key
  }

  ghost predicate LedgerOk(s: Sys) {
    BookOk(BookOf(s)) && AwaitersOwn(s)
  }

  // ---- every step is one entry or none ------------------------------------------------

  // A reconcile comes to await an id exactly by a create that is answered, and leaves that point for good.
  lemma AwaitShape(pc: PC, reply: Reply)
    requires !pc.Done?
    ensures Resume(pc, reply).SaveNew? <==> RequestOf(pc).Create? && reply.Created?
    ensures Resume(pc, reply).SaveNew? ==> Resume(pc, reply).id == reply.id && Resume(pc, reply).s == pc.s
    ensures pc.SaveNew? ==> Resume(pc, reply).Done?
  {
    match pc
    case Begin(key) =>
      if reply.GotCR? && reply.cr.spec.EscalationCR? {
        MappingShape(Snap(key, reply.cr.id, reply.ver), reply.cr.spec.escalation,
                            reply.cr.spec.escalation.teamID, []);
      }
    case OnEscalation(s, e, EscTeam(_)) =>
      if reply.GotCR? {
        MappingShape(s, e, reply.cr.id, []);
      }
    case OnEscalation(s, e, EscRef(teamId, acc, _)) =>
      if reply.GotCR? && |acc| < |e.rules| {
        MappingShape(s, e, teamId, acc + [Escalations.MapRule(e.rules[|acc|], reply.cr.id, "")]);
      }
    case _ =>
  }

  // Who awaits what after one reconcile has gone on.
  lemma AwaitsAfter(procs: map<nat, Live>, pid: nat, next: PC)
    requires pid in procs
    ensures Awaits(Advance(procs, pid, next))
         == if next.SaveNew? then Awaits(procs)[pid := Awaited(next)] else Awaits(procs) - {pid}
  {
  }

  lemma HeldAfterAppend(w: World, key: Key, cr: CR)
    ensures HeldIds(Apply(w, Appended(key, cr)))
         == if cr.id == "" then HeldIds(w) else HeldIds(w) + {(key, cr.id)}
  {
    var w' := Apply(w, Appended(key, cr));
    var held := if cr.id == "" then HeldIds(w) else HeldIds(w) + {(key, cr.id)};
    forall k, id | (k, id) in held ensures (k, id) in HeldIds(w') {
      if (k, id) in HeldIds(w) {
        var v :| 0 <= v < |w.hist[k]| && w.hist[k][v].id == id;
        assert w'.hist[k][v].id == id;
      } else {
        assert w'.hist[k][|w'.hist[k]| - 1].id == id;
      }
    }
    forall k, id | (k, id) in HeldIds(w') ensures (k, id) in held {
      var v :| 0 <= v < |w'.hist[k]| && w'.hist[k][v].id == id;
      if k != key || v < |w'.hist[k]| - 1 {
        assert w.hist[k][v].id == id;
      }
    }
  }

  /** One reconcile has gone on to `next`. */
  predicate Moves(s: Sys, s': Sys, pid: nat, next: PC) {
    pid in s.procs && s'.procs == Advance(s.procs, pid, next)
  }

  lemma CreateIsAnEntry(s: Sys, s': Sys, pid: nat, next: PC, rk: RKey, obj: Obj)
    requires Moves(s, s', pid, next) && !s.procs[pid].SaveNew?
    requires s'.w == Apply(s.w, Added(rk, obj)) && s'.creator == s.creator[rk := KeyOf(s.procs[pid])]
    requires if next.SaveNew? then Awaited(next) == rk && s'.lost == s.lost else s'.lost == s.lost + {rk}
    ensures var b, k := BookOf(s), KeyOf(s.procs[pid]);
            pid !in b.awaits && BookOf(s') == if next.SaveNew? then Answered(b, pid, rk, k) else Unanswered(b, rk, k)
  {
  }

  lemma UpdateIsNoEntry(s: Sys, s': Sys, pid: nat, next: PC)
    requires Moves(s, s', pid, next) && !s.procs[pid].SaveNew? && !next.SaveNew?
    requires s'.w.hist == s.w.hist && s'.w.remote.Keys == s.w.remote.Keys
    requires s'.creator == s.creator && s'.lost == s.lost
    ensures BookOf(s') == BookOf(s)
  {
  }

  lemma SaveIsAnEntry(s: Sys, s': Sys, pid: nat, next: PC, cr: CR)
    requires Moves(s, s', pid, next) && AwaitersOwn(s) && !next.SaveNew? && cr.id != ""
    requires s'.w == Apply(s.w, Appended(KeyOf(s.procs[pid]), cr))
    requires s'.creator == s.creator && s'.lost == s.lost
    requires s.procs[pid].SaveNew? ==> cr.id == s.procs[pid].id
    ensures var b, k := BookOf(s), KeyOf(s.procs[pid]);
            if s.procs[pid].SaveNew?
            then pid in b.awaits && b.awaits[pid] in b.creator && BookOf(s') == Persisted(b, pid)
            else BookOf(s') == HeldAgain(b, k, cr.id)
  {
    AwaitsAfter(s.procs, pid, next);
    HeldAfterAppend(s.w, KeyOf(s.procs[pid]), cr);
    if !s.procs[pid].SaveNew? {
      assert Awaits(s.procs) - {pid} == Awaits(s.procs);
    }
  }

  lemma FailureIsAnEntry(s: Sys, s': Sys, pid: nat, next: PC)
    requires Moves(s, s', pid, next) && !next.SaveNew?
    requires s'.w == s.w && s'.creator == s.creator && s'.lost == s.lost + Pending(s.procs[pid])
    ensures BookOf(s') == if s.procs[pid].SaveNew? then Dropped(BookOf(s), pid) else BookOf(s)
  {
    AwaitsAfter(s.procs, pid, next);
    if !s.procs[pid].SaveNew? {
      assert Awaits(s.procs) - {pid} == Awaits(s.procs);
    }
  }

  lemma AwaitersOwnMoves(s: Sys, s': Sys, pid: nat, next: PC)
    requires Moves(s, s', pid, next) && LedgerOk(s)
    requires forall rk :: rk in s.w.remote && rk in s.creator ==> rk in s'.creator && s'.creator[rk] == s.creator[rk]
    requires next.SaveNew? ==> Awaited(next) in s'.creator && s'.creator[Awaited(next)] == next.s.key
    ensures AwaitersOwn(s')
  {
  }

  lemma CreateEntryKeeps(s: Sys, s': Sys, pid: nat, next: PC, rk: RKey, obj: Obj)
    requires LedgerOk(s) && Moves(s, s', pid, next) && !s.procs[pid].SaveNew?
    requires rk !in s.w.remote && rk.kind == KeyOf(s.procs[pid]).kind
    requires s'.w == Apply(s.w, Added(rk, obj)) && s'.creator == s.creator[rk := KeyOf(s.procs[pid])]
    requires if next.SaveNew? then Awaited(next) == rk && next.s.key == KeyOf(s.procs[pid]) && s'.lost == s.lost
             else s'.lost == s.lost + {rk}
    ensures LedgerOk(s')
  {
    CreateIsAnEntry(s, s', pid, next, rk, obj);
    if next.SaveNew? {
      AnsweredKeeps(BookOf(s), pid, rk, KeyOf(s.procs[pid]));
    } else {
      UnansweredKeeps(BookOf(s), rk, KeyOf(s.procs[pid]));
    }
    AwaitersOwnMoves(s, s', pid, next);
  }

  lemma CreateKeeps(s: Sys, pid: nat, reply: Reply, rk: RKey, obj: Obj)
    requires Base(s) && LedgerOk(s) && Enabled(s, Act(pid, reply, Added(rk, obj)))
    ensures LedgerOk(Next(s, Act(pid, reply, Added(rk, obj))))
  {
    var pc := s.procs[pid];
    CallShape(s.w, pc, reply, Added(rk, obj));
    AwaitShape(pc, reply);
    CreateEntryKeeps(s, Next(s, Act(pid, reply, Added(rk, obj))), pid, Resume(pc, reply), rk, obj);
  }

  lemma UpdateEntryKeeps(s: Sys, s': Sys, pid: nat, next: PC)
    requires LedgerOk(s) && Moves(s, s', pid, next) && !s.procs[pid].SaveNew? && !next.SaveNew?
    requires s'.w.hist == s.w.hist && s'.w.remote.Keys == s.w.remote.Keys
    requires s'.creator == s.creator && s'.lost == s.lost
    ensures LedgerOk(s')
  {
    UpdateIsNoEntry(s, s', pid, next);
    AwaitersOwnMoves(s, s', pid, next);
  }

  lemma UpdateKeeps(s: Sys, pid: nat, reply: Reply, rk: RKey, obj: Obj)
    requires Base(s) && LedgerOk(s) && Enabled(s, Act(pid, reply, Patched(rk, obj)))
    ensures LedgerOk(Next(s, Act(pid, reply, Patched(rk, obj))))
  {
    var pc, s' := s.procs[pid], Next(s, Act(pid, reply, Patched(rk, obj)));
    CallShape(s.w, pc, reply, Patched(rk, obj));
    AwaitShape(pc, reply);
    assert s'.w.remote.Keys == s.w.remote.Keys;
    UpdateEntryKeeps(s, s', pid, Resume(pc, reply));
  }

  // Status writes of services and incident rules store an id that was created or already held.
  lemma SavedIdIsHeld(w: World, pc: PC)
    requires !pc.Done? && PcOk(w, pc) && RequestOf(pc).PutStatus? && !pc.SaveNew?
    requires SpecsFit(w) && Unnamed(KeyOf(pc).kind)
    ensures (KeyOf(pc), SavedId(pc)) in HeldIds(w)
  {
  }

  lemma SaveEntryKeeps(s: Sys, s': Sys, pid: nat, next: PC, cr: CR)
    requires LedgerOk(s) && Moves(s, s', pid, next) && !next.SaveNew? && cr.id != ""
    requires s'.w == Apply(s.w, Appended(KeyOf(s.procs[pid]), cr))
    requires s'.creator == s.creator && s'.lost == s.lost
    requires if s.procs[pid].SaveNew? then cr.id == s.procs[pid].id
             else Unnamed(KeyOf(s.procs[pid]).kind) ==> (KeyOf(s.procs[pid]), cr.id) in HeldIds(s.w)
    ensures LedgerOk(s')
  {
    SaveIsAnEntry(s, s', pid, next, cr);
    if s.procs[pid].SaveNew? {
      PersistedKeeps(BookOf(s), pid);
    } else {
      HeldAgainKeeps(BookOf(s), KeyOf(s.procs[pid]), cr.id);
    }
    AwaitersOwnMoves(s, s', pid, next);
  }

  lemma SaveKeeps(s: Sys, pid: nat, reply: Reply, key: Key, cr: CR)
    requires Base(s) && LedgerOk(s) && Enabled(s, Act(pid, reply, Appended(key, cr)))
    ensures LedgerOk(Next(s, Act(pid, reply, Appended(key, cr))))
  {
    var pc := s.procs[pid];
    CallShape(s.w, pc, reply, Appended(key, cr));
    AwaitShape(pc, reply);
    if !pc.SaveNew? && Unnamed(key.kind) {
      SavedIdIsHeld(s.w, pc);
    }
    SaveEntryKeeps(s, Next(s, Act(pid, reply, Appended(key, cr))), pid, Resume(pc, reply), cr);
  }

  lemma FailureKeeps(s: Sys, pid: nat, reply: Reply)
    requires Base(s) && LedgerOk(s) && Enabled(s, Act(pid, reply, Nothing))
    ensures LedgerOk(Next(s, Act(pid, reply, Nothing)))
  {
    var pc, s' := s.procs[pid], Next(s, Act(pid, reply, Nothing));
    NoSilentCreate(s.w, pc, reply);
    AwaitShape(pc, reply);
    FailureIsAnEntry(s, s', pid, Resume(pc, reply));
    if pc.SaveNew? {
      DroppedKeeps(BookOf(s), pid);
    }
    AwaitersOwnMoves(s, s', pid, Resume(pc, reply));
  }

  // A create that is answered with an id has taken effect.
  lemma NoSilentCreate(w: World, pc: PC, reply: Reply)
    requires !pc.Done? && Handles(w, RequestOf(pc), reply, Nothing)
    ensures !(RequestOf(pc).Create? && reply.Created?)
  {
  }

  lemma CrashKeepsBook(s: Sys, pid: nat)
    requires LedgerOk(s) && pid in s.procs
    ensures LedgerOk(Next(s, Crash(pid)))
  {
    var b := BookOf(s);
    AwaitsAfter(s.procs, pid, Done(Error));
    if s.procs[pid].SaveNew? {
      assert BookOf(Next(s, Crash(pid))) == Dropped(b, pid);
      DroppedKeeps(b, pid);
    } else {
      assert b.awaits - {pid} == b.awaits;
      assert BookOf(Next(s, Crash(pid))) == b;
    }
  }

  lemma EditKeepsBook(s: Sys, key: Key, spec: Spec)
    requires LedgerOk(s) && SpecFits(key.kind, spec)
    ensures LedgerOk(Next(s, Edit(key, spec)))
  {
    var id := CurrentId(s.w, key);
    HeldAfterAppend(s.w, key, CR(spec, id));
    if id != "" {
      assert BookOf(Next(s, Edit(key, spec))) == HeldAgain(BookOf(s), key, id);
      HeldAgainKeeps(BookOf(s), key, id);
    } else {
      assert BookOf(Next(s, Edit(key, spec))) == BookOf(s);
    }
  }

  lemma ForeignKeepsBook(s: Sys, rk: RKey, obj: Obj)
    requires LedgerOk(s) && Enabled(s, Foreign(rk, obj))
    ensures LedgerOk(Next(s, Foreign(rk, obj)))
  {
    var b := BookOf(s);
    assert BookOf(Next(s, Foreign(rk, obj))) == Noticed(b, rk);
    assert forall r :: IsHeld(Noticed(b, rk), r) <==> IsHeld(b, r);
  }

  lemma SpawnKeepsBook(s: Sys, pid: nat, key: Key)
    requires LedgerOk(s) && pid !in s.procs
    ensures LedgerOk(Next(s, Spawn(pid, key)))
  {
    assert Awaits(s.procs[pid := Begin(key)]) == Awaits(s.procs);
  }

  // No step of the protocol loses track of an id.
  lemma LedgerKept(s: Sys, ev: Event)
    requires Base(s) && LedgerOk(s) && Enabled(s, ev)
    ensures LedgerOk(Next(s, ev))
  {
    match ev
    case Spawn(pid, key) => SpawnKeepsBook(s, pid, key);
    case Crash(pid) => CrashKeepsBook(s, pid);
    case Edit(key, spec) => EditKeepsBook(s, key, spec);
    case Foreign(rk, obj) => ForeignKeepsBook(s, rk, obj);
    case Act(pid, reply, Nothing) => FailureKeeps(s, pid, reply);
    case Act(pid, reply, Added(rk, obj)) => CreateKeeps(s, pid, reply, rk, obj);
    case Act(pid, reply, Patched(rk, obj)) => UpdateKeeps(s, pid, reply, rk, obj);
    case Act(pid, reply, Appended(key, cr)) =>
      SaveKeeps(s, pid, reply, key, cr);
  }
}
