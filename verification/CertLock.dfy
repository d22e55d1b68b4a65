/**
 * internal/controllers/certificates/certificates.go: callers of `ManageCertificates` and
 * `RefreshCertificates` rotating the certificate under `certGenMu`, one step at a time.
 */
module CertLock {
  import opened Wrappers

  type Caller = nat

  /** A generation numbers one issued pair of certificate and key. */
  type Generation = nat

  /** Where a caller is. Everything but `Outside` holds the lock. */
  datatype Place =
    | Outside
    | Checking
    | Issued(g: Generation)
    | CertRenamed(g: Generation)
    | KeyRenamed(g: Generation)
    | BundleRead(ca: Generation)
    | BundleStored

  /** The generations of `tls.crt`, of `tls.key` and of the bundle in memory. */
  datatype State = State(holder: Option<Caller>, places: map<Caller, Place>,
                         cert: Generation, key: Generation, ca: Generation, next: Generation)

  datatype Action =
    | Lock
    | StillValid      // or the check failed: nothing was issued
    | Issue
    | FailEarly       // before or at the first rename
    | RenameCert
    | FailKeyRename
    | RenameKey
    | FailRead
    | ReadBundle
    | StoreBundle
    | Unlock

  function PlaceOf(s: State, c: Caller): Place
  {
    if c in s.places then s.places[c] else Outside
  }

  function Leave(s: State, c: Caller): State
  {
    s.(holder := None, places := s.places[c := Outside])
  }

  function Move(s: State, c: Caller, p: Place): State
  {
    s.(places := s.places[c := p])
  }

  /** One step of a caller; `None` when the step is not possible there. */
  function Step(s: State, c: Caller, a: Action): Option<State>
  {
    var p := PlaceOf(s, c);
    match a
    case Lock =>
      if p.Outside? && s.holder.None? then Some(Move(s.(holder := Some(c)), c, Checking)) else None
    case StillValid => if p.Checking? then Some(Leave(s, c)) else None
    case Issue => if p.Checking? then Some(Move(s.(next := s.next + 1), c, Issued(s.next))) else None
    case FailEarly => if p.Issued? then Some(Leave(s, c)) else None
    case RenameCert => if p.Issued? then Some(Move(s.(cert := p.g), c, CertRenamed(p.g))) else None
    case FailKeyRename => if p.CertRenamed? then Some(Leave(s, c)) else None
    case RenameKey => if p.CertRenamed? then Some(Move(s.(key := p.g), c, KeyRenamed(p.g))) else None
    case FailRead => if p.KeyRenamed? then Some(Leave(s, c)) else None
    case ReadBundle => if p.KeyRenamed? then Some(Move(s, c, BundleRead(s.cert))) else None
    case StoreBundle => if p.BundleRead? then Some(Move(s.(ca := p.ca), c, BundleStored)) else None
    case Unlock => if p.BundleStored? then Some(Leave(s, c)) else None
  }

  /** Certificate, key and bundle are one generation. */
  predicate Consistent(s: State)
  {
    s.cert == s.key == s.ca
  }

  datatype Event = Event(caller: Caller, action: Action)

  /** A rotation has renamed the certificate and not (yet) stored its bundle. */
  function Dirty(d: bool, a: Action): bool
  {
    if a.RenameCert? then true else if a.StoreBundle? then false else d
  }

  function DirtyAfter(d: bool, events: seq<Event>): bool
    decreases |events|
  {
    if events == [] then d else DirtyAfter(Dirty(d, events[0].action), events[1..])
  }

  function Run(s: State, events: seq<Event>): Option<State>
    decreases |events|
  {
    if events == [] then Some(s)
    else
      match Step(s, events[0].caller, events[0].action)
      case None => None
      case Some(s') => Run(s', events[1..])
  }

  ghost predicate Exclusive(s: State)
  {
    forall c: Caller :: !PlaceOf(s, c).Outside? <==> s.holder == Some(c)
  }

  /** What the shared state looks like while the holder is at a place, given whether a rotation is unfinished. */
  predicate Middle(s: State, p: Place, dirty: bool)
  {
    && s.cert < s.next && s.key < s.next && s.ca < s.next
    && (!dirty ==> Consistent(s))
    && (dirty ==> s.ca != s.cert)
    && match p
       case Outside => true
       case Checking => true
       case Issued(g) => s.cert < g < s.next && s.key < g && s.ca < g
       case CertRenamed(g) => dirty && s.cert == g && s.ca < g
       case KeyRenamed(g) => dirty && s.cert == s.key == g && s.ca < g
       case BundleRead(ca) => dirty && s.cert == s.key == ca && s.ca < ca
       case BundleStored => !dirty
  }

  ghost predicate Inv(s: State, dirty: bool)
  {
    && Exclusive(s)
    && Middle(s, if s.holder.Some? then PlaceOf(s, s.holder.value) else Outside, dirty)
  }

  lemma StepKeepsInv(s: State, c: Caller, a: Action, dirty: bool)
    requires Inv(s, dirty) && Step(s, c, a).Some?
    ensures Inv(Step(s, c, a).value, Dirty(dirty, a))
  {
    var s' := Step(s, c, a).value;
    assert !PlaceOf(s, c).Outside? <==> s.holder == Some(c);
    forall d: Caller ensures !PlaceOf(s', d).Outside? <==> s'.holder == Some(d) {
      assert !PlaceOf(s, d).Outside? <==> s.holder == Some(d);
    }
  }

  lemma {:induction false} RunKeepsInv(s: State, events: seq<Event>, dirty: bool)
    requires Inv(s, dirty) && Run(s, events).Some?
    ensures Inv(Run(s, events).value, DirtyAfter(dirty, events))
    decreases |events|
  {
    if events != [] {
      StepKeepsInv(s, events[0].caller, events[0].action, dirty);
      RunKeepsInv(Step(s, events[0].caller, events[0].action).value, events[1..], Dirty(dirty, events[0].action));
    }
  }

  /**
   * In every interleaving and with every failure: whenever the lock is free, certificate, key and
   * bundle agree exactly when every rotation that renamed the certificate since the last complete
   * one also stored its bundle.
   */
  lemma ConsistentWhenFree(s: State, events: seq<Event>)
    requires Inv(s, false) && Run(s, events).Some? && Run(s, events).value.holder.None?
    ensures Consistent(Run(s, events).value) <==> !DirtyAfter(false, events)
  {
    RunKeepsInv(s, events, false);
  }

  /** No caller fails between its first rename and storing the bundle. */
  ghost predicate NoLateFailure(events: seq<Event>)
  {
    forall i :: 0 <= i < |events| ==> !events[i].action.FailKeyRename? && !events[i].action.FailRead?
  }

  /** Without late failures an unfinished rotation always has the lock. */
  ghost predicate Attended(s: State, dirty: bool)
  {
    Inv(s, dirty) && (dirty ==> s.holder.Some? && var p := PlaceOf(s, s.holder.value);
                                p.CertRenamed? || p.KeyRenamed? || p.BundleRead?)
  }

  lemma {:induction false} RunAttended(s: State, events: seq<Event>, dirty: bool)
    requires Attended(s, dirty) && NoLateFailure(events) && Run(s, events).Some?
    ensures Attended(Run(s, events).value, DirtyAfter(dirty, events))
    decreases |events|
  {
    if events != [] {
      var e := events[0];
      StepKeepsInv(s, e.caller, e.action, dirty);
      assert !PlaceOf(s, e.caller).Outside? <==> s.holder == Some(e.caller);
      RunAttended(Step(s, e.caller, e.action).value, events[1..], Dirty(dirty, e.action));
    }
  }

  /** When no caller fails late, every state with the lock free is consistent. */
  lemma SuccessfulCallersAgree(s: State, events: seq<Event>)
    requires Inv(s, false) && NoLateFailure(events)
    requires Run(s, events).Some? && Run(s, events).value.holder.None?
    ensures Consistent(Run(s, events).value)
  {
    RunAttended(s, events, false);
    ConsistentWhenFree(s, events);
  }

  /** A failed second rename is not repaired by later callers that find the certificate still valid. */
  lemma LateFailureLasts()
    ensures var s := State(None, map[], 0, 0, 0, 1);
            var events := [Event(0, Lock), Event(0, Issue), Event(0, RenameCert), Event(0, FailKeyRename),
                           Event(1, Lock), Event(1, StillValid)];
            && Inv(s, false) && Run(s, events).Some?
            && Run(s, events).value.holder.None? && !Consistent(Run(s, events).value)
  {
    var s := State(None, map[], 0, 0, 0, 1);
    var s1 := Step(s, 0, Lock).value;
    var s2 := Step(s1, 0, Issue).value;
    var s3 := Step(s2, 0, RenameCert).value;
    var s4 := Step(s3, 0, FailKeyRename).value;
    var s5 := Step(s4, 1, Lock).value;
    var s6 := Step(s5, 1, StillValid).value;
    var e1, e2 := [Event(1, StillValid)], [Event(1, Lock), Event(1, StillValid)];
    var e3 := [Event(0, FailKeyRename), Event(1, Lock), Event(1, StillValid)];
    var e4 := [Event(0, RenameCert), Event(0, FailKeyRename), Event(1, Lock), Event(1, StillValid)];
    var e5 := [Event(0, Issue), Event(0, RenameCert), Event(0, FailKeyRename), Event(1, Lock), Event(1, StillValid)];
    assert Run(s5, e1) == Run(s6, []) == Some(s6) by { assert e1[1..] == []; }
    assert Run(s4, e2) == Run(s5, e1) by { assert e2[1..] == e1; }
    assert Run(s3, e3) == Run(s4, e2) by { assert e3[1..] == e2; }
    assert Run(s2, e4) == Run(s3, e3) by { assert e4[1..] == e3; }
    assert Run(s1, e5) == Run(s2, e4) by { assert e5[1..] == e4; }
    var events := [Event(0, Lock), Event(0, Issue), Event(0, RenameCert), Event(0, FailKeyRename), Event(1, Lock),
                   Event(1, StillValid)];
    assert events[1..] == e5;
  }
}
