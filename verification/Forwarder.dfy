/// The broker forwarder's shutdown as a transition system (internal/engine/forwarder.go).
///
/// One accept loop, any number of relays each with two copiers, and any number of
/// Close calls share the connection set, the closed flag, the mutex and the wait
/// group. Close holds the mutex over several steps; the other critical sections take
/// one step each and need the mutex free. Connections are numbered as they are made;
/// `owner` records which relay each one is made for.
module Forwarder {
  type Conn = nat

  datatype Accept =
    | Accepting
    | AcceptFailed
    | Accepted(guest: Conn)
    | Counted(guest: Conn)
    | Leaving
    | AcceptEnded

  datatype Pc =
    | Start(guest: Conn)
    | RefuseGuest(guest: Conn)
    | Dial(guest: Conn)
    | TrackBroker(guest: Conn, broker: Conn)
    | RefuseBroker(guest: Conn, broker: Conn)
    | Copy(guest: Conn, broker: Conn)
    | UntrackBroker(guest: Conn, broker: Conn)
    | CloseBroker(guest: Conn, broker: Conn)
    | UntrackGuest(guest: Conn)
    | CloseGuest(guest: Conn)
    | WaitGroupDone
    | Ended

  /** A copier reads from one connection and writes to the other until either fails. */
  datatype Copier = Idle | Reading | Writing | Sending | Sent

  /** `received` says whether the relay has taken a message from `done`. */
  datatype Relay = Relay(pc: Pc, guest: Conn, broker: Conn, up: Copier, down: Copier, received: bool)

  datatype Close =
    | Enter
    | CloseListener
    | CloseConns(todo: set<Conn>)
    | Wait
    | Returned(first: bool)

  datatype Lock = Free | Held(closer: nat)

  datatype State = State(
    listening: bool,
    lock: Lock,
    closed: bool,
    conns: set<Conn>,
    open: set<Conn>,
    owner: seq<nat>,
    wg: int,
    accept: Accept,
    relays: seq<Relay>,
    closers: seq<Close>)

  // ---- Steps ----
  // `outside` says whether a step may be due to a peer: a guest that connects or hangs
  // up, a broker that does, an accept that fails on its own.

  ghost predicate AcceptStep(s: State, s': State, outside: bool) {
    match s.accept
    case Accepting =>
      || (outside && s.listening &&
          s' == s.(open := s.open + {|s.owner|}, owner := s.owner + [|s.relays|], accept := Accepted(|s.owner|)))
      || ((outside || !s.listening) && s' == s.(accept := AcceptFailed))
    case AcceptFailed =>
      s.lock.Free? && s' == s.(accept := if s.closed then Leaving else Accepting)
    case Accepted(guest) =>
      s' == s.(wg := s.wg + 1, accept := Counted(guest))
    case Counted(guest) =>
      s' == s.(relays := s.relays + [Relay(Start(guest), guest, guest, Idle, Idle, false)], accept := Accepting)
    case Leaving =>
      s' == s.(wg := s.wg - 1, accept := AcceptEnded)
    case AcceptEnded => false
  }

  function Moved(s: State, i: nat, pc: Pc): State
    requires i < |s.relays|
  {
    s.(relays := s.relays[i := s.relays[i].(pc := pc)])
  }

  /** How many messages `done` holds; its capacity is two. */
  function Buffered(r: Relay): int {
    (if r.up.Sent? then 1 else 0) + (if r.down.Sent? then 1 else 0) - (if r.received then 1 else 0)
  }

  ghost predicate RelayStep(s: State, s': State, i: nat)
    requires i < |s.relays|
  {
    var r := s.relays[i];
    match r.pc
    case Start(guest) =>
      && s.lock.Free?
      && s' == if s.closed then Moved(s, i, RefuseGuest(guest))
               else Moved(s, i, Dial(guest)).(conns := s.conns + {guest})
    case RefuseGuest(guest) =>
      s' == Moved(s, i, WaitGroupDone).(open := s.open - {guest})
    case Dial(guest) =>
      // a dial succeeds, or fails by its timeout at the latest
      || s' == Moved(s, i, UntrackGuest(guest))
      || s' == Moved(s, i, TrackBroker(guest, |s.owner|)).(open := s.open + {|s.owner|}, owner := s.owner + [i])
    case TrackBroker(guest, broker) =>
      && s.lock.Free?
      && s' == if s.closed then Moved(s, i, RefuseBroker(guest, broker))
               else s.(relays := s.relays[i := Relay(Copy(guest, broker), guest, broker, Reading, Reading, false)],
                       conns := s.conns + {broker})
    case RefuseBroker(guest, broker) =>
      s' == Moved(s, i, UntrackGuest(guest)).(open := s.open - {broker})
    case Copy(guest, broker) =>
      && Buffered(r) > 0
      && s' == s.(relays := s.relays[i := r.(pc := UntrackBroker(guest, broker), received := true)])
    case UntrackBroker(guest, broker) =>
      s.lock.Free? && s' == Moved(s, i, CloseBroker(guest, broker)).(conns := s.conns - {broker})
    case CloseBroker(guest, broker) =>
      s' == Moved(s, i, UntrackGuest(guest)).(open := s.open - {broker})
    case UntrackGuest(guest) =>
      s.lock.Free? && s' == Moved(s, i, CloseGuest(guest)).(conns := s.conns - {guest})
    case CloseGuest(guest) =>
      s' == Moved(s, i, WaitGroupDone).(open := s.open - {guest})
    case WaitGroupDone =>
      s' == Moved(s, i, Ended).(wg := s.wg - 1)
    case Ended => false
  }

  /** The copier can fail: the connection it is at is closed, or a peer hangs up. */
  predicate CopyFails(s: State, c: Copier, source: Conn, sink: Conn, outside: bool) {
    || (c.Reading? && (outside || source !in s.open))
    || (c.Writing? && (outside || sink !in s.open))
  }

  ghost predicate CopierMoves(s: State, r: Relay, c: Copier, c': Copier, source: Conn, sink: Conn, outside: bool) {
    || (CopyFails(s, c, source, sink, outside) && c' == Sending)
    || (c.Sending? && Buffered(r) < 2 && c' == Sent)
  }

  ghost predicate CopierStep(s: State, s': State, i: nat, outside: bool)
    requires i < |s.relays|
  {
    var r := s.relays[i];
    || (exists c :: CopierMoves(s, r, r.up, c, r.guest, r.broker, outside) &&
          s' == s.(relays := s.relays[i := r.(up := c)]))
    || (exists c :: CopierMoves(s, r, r.down, c, r.broker, r.guest, outside) &&
          s' == s.(relays := s.relays[i := r.(down := c)]))
  }

  /** Bytes arrive from one peer, or are taken by the other. */
  predicate Passes(s: State, c: Copier, c': Copier, source: Conn, sink: Conn) {
    || (c.Reading? && source in s.open && c' == Writing)
    || (c.Writing? && sink in s.open && c' == Reading)
  }

  ghost predicate TrafficStep(s: State, s': State, i: nat)
    requires i < |s.relays|
  {
    var r := s.relays[i];
    || (exists c :: Passes(s, r.up, c, r.guest, r.broker) && s' == s.(relays := s.relays[i := r.(up := c)]))
    || (exists c :: Passes(s, r.down, c, r.broker, r.guest) && s' == s.(relays := s.relays[i := r.(down := c)]))
  }

  ghost predicate CloserStep(s: State, s': State, j: nat)
    requires j < |s.closers|
  {
    match s.closers[j]
    case Enter =>
      && s.lock.Free?
      && s' == if s.closed then s.(closers := s.closers[j := Returned(false)])
               else s.(closed := true, lock := Held(j), closers := s.closers[j := CloseListener])
    case CloseListener =>
      s' == s.(listening := false, closers := s.closers[j := CloseConns(s.conns)])
    case CloseConns(todo) =>
      if todo == {} then
        s' == s.(lock := Free, closers := s.closers[j := Wait])
      else
        exists c :: c in todo && s' == s.(open := s.open - {c}, closers := s.closers[j := CloseConns(todo - {c})])
    case Wait =>
      s.wg == 0 && s' == s.(closers := s.closers[j := Returned(true)])
    case Returned(_) => false
  }

  /** A step of the accept loop, a relay or a copier; passing bytes on is not counted. */
  ghost predicate Work(s: State, s': State, outside: bool) {
    || AcceptStep(s, s', outside)
    || (exists i :: 0 <= i < |s.relays| && RelayStep(s, s', i))
    || (exists i :: 0 <= i < |s.relays| && CopierStep(s, s', i, outside))
  }

  ghost predicate Next(s: State, s': State) {
    || Work(s, s', true)
    || (exists i :: 0 <= i < |s.relays| && TrafficStep(s, s', i))
    || (exists j :: 0 <= j < |s.closers| && CloserStep(s, s', j))
    || s' == s.(closers := s.closers + [Enter])
  }

  /** StartForwarder: listening, the accept loop counted and running. */
  ghost predicate Init(s: State) {
    s == State(true, Free, false, {}, {}, [], 1, Accepting, [], [])
  }

  ghost predicate IsRun(run: seq<State>) {
    && |run| > 0
    && forall i :: 0 <= i < |run| - 1 ==> Next(run[i], run[i + 1])
  }

  // ---- The inductive invariant ----

  /** The connections a relay still has to close. */
  function Holds(pc: Pc): set<Conn> {
    match pc
    case Start(g) => {g}
    case RefuseGuest(g) => {g}
    case Dial(g) => {g}
    case TrackBroker(g, b) => {g, b}
    case RefuseBroker(g, b) => {g, b}
    case Copy(g, b) => {g, b}
    case UntrackBroker(g, b) => {g, b}
    case CloseBroker(g, b) => {g, b}
    case UntrackGuest(g) => {g}
    case CloseGuest(g) => {g}
    case WaitGroupDone => {}
    case Ended => {}
  }

  /** Those of them in the shared set. */
  function Tracks(pc: Pc): set<Conn> {
    match pc
    case Dial(g) => {g}
    case TrackBroker(g, _) => {g}
    case RefuseBroker(g, _) => {g}
    case Copy(g, b) => {g, b}
    case UntrackBroker(g, b) => {g, b}
    case CloseBroker(g, _) => {g}
    case UntrackGuest(g) => {g}
    case _ => {}
  }

  function AcceptHolds(a: Accept): set<Conn> {
    match a
    case Accepted(g) => {g}
    case Counted(g) => {g}
    case _ => {}
  }

  function AcceptCount(a: Accept): nat {
    if a.AcceptEnded? then 0 else if a.Counted? then 2 else 1
  }

  function Live(relays: seq<Relay>): nat {
    if relays == [] then 0
    else Live(relays[..|relays| - 1]) + (if relays[|relays| - 1].pc.Ended? then 0 else 1)
  }

  predicate BeforeCopy(pc: Pc) {
    pc.Start? || pc.RefuseGuest? || pc.Dial? || pc.TrackBroker? || pc.RefuseBroker?
  }

  /** The relay holds both of its connections. */
  predicate HasBroker(pc: Pc) {
    pc.TrackBroker? || pc.RefuseBroker? || pc.Copy? || pc.UntrackBroker? || pc.CloseBroker?
  }

  ghost predicate RelayOk(r: Relay) {
    && (BeforeCopy(r.pc) ==> !r.received)
    && (!r.received && !r.pc.Copy? ==> r.up.Idle? && r.down.Idle?)
    && (match r.pc
        case TrackBroker(g, b) => g != b
        case RefuseBroker(g, b) => g != b
        case Copy(g, b) => g != b && r.guest == g && r.broker == b && !r.received && !r.up.Idle? && !r.down.Idle?
        case UntrackBroker(g, b) => g != b && r.received
        case CloseBroker(g, b) => g != b && r.received
        case _ => true)
    && (r.received ==> !r.up.Idle? && !r.down.Idle? && (r.up.Sent? || r.down.Sent?))
  }

  /** Each connection is held by the relay it was made for, and by nothing else. */
  ghost predicate Owners(s: State) {
    && (forall i, c {:trigger c in Holds(s.relays[i].pc)} :: 0 <= i < |s.relays| && c in Holds(s.relays[i].pc) ==>
          c < |s.owner| && s.owner[c] == i)
    && (forall c :: c in AcceptHolds(s.accept) ==> c < |s.owner| && s.owner[c] == |s.relays|)
    && (forall c :: c in s.open ==> c < |s.owner| && HeldByOwner(s, c))
  }

  ghost predicate HeldByOwner(s: State, c: Conn)
    requires c < |s.owner|
  {
    if s.owner[c] < |s.relays| then c in Holds(s.relays[s.owner[c]].pc) else c in AcceptHolds(s.accept)
  }

  /** The shared set is exactly what the relays track. */
  ghost predicate Tracking(s: State) {
    && (forall i, c :: 0 <= i < |s.relays| && c in Tracks(s.relays[i].pc) ==> c in s.conns)
    && (forall c :: c in s.conns ==> c < |s.owner| && s.owner[c] < |s.relays| && c in Tracks(s.relays[s.owner[c]].pc))
  }

  predicate Locking(c: Close) {
    c.CloseListener? || c.CloseConns?
  }

  predicate First(c: Close) {
    Locking(c) || c.Wait? || c == Returned(true)
  }

  ghost predicate Closing(s: State) {
    && (s.lock.Held? ==> s.lock.closer < |s.closers| && Locking(s.closers[s.lock.closer]))
    && (forall j :: 0 <= j < |s.closers| && Locking(s.closers[j]) ==> s.lock == Held(j))
    && (forall j :: 0 <= j < |s.closers| && First(s.closers[j]) ==> s.closed)
    && (forall j, k :: 0 <= j < |s.closers| && 0 <= k < |s.closers| && First(s.closers[j]) && First(s.closers[k]) ==>
          j == k)
    && (s.accept.Leaving? || s.accept.AcceptEnded? ==> s.closed)
    // what Close has done so far
    && (s.closed && s.lock.Free? ==> !s.listening && s.conns * s.open == {})
    && (forall j :: 0 <= j < |s.closers| && s.closers[j].CloseConns? ==>
          !s.listening && s.conns * s.open <= s.closers[j].todo)
  }

  ghost predicate Drained(s: State) {
    && s.accept.AcceptEnded?
    && (forall i :: 0 <= i < |s.relays| ==> s.relays[i].pc.Ended?)
  }

  ghost predicate Inv(s: State) {
    && s.wg == AcceptCount(s.accept) + Live(s.relays)
    && (forall i :: 0 <= i < |s.relays| ==> RelayOk(s.relays[i]))
    && Owners(s)
    && Tracking(s)
    && Closing(s)
    && (forall j :: 0 <= j < |s.closers| && s.closers[j] == Returned(true) ==> Drained(s))
  }

  // ---- Counting ----

  lemma {:induction false} LiveUpdate(relays: seq<Relay>, i: nat, r: Relay)
    requires i < |relays|
    ensures Live(relays[i := r]) + (if relays[i].pc.Ended? then 0 else 1)
         == Live(relays) + (if r.pc.Ended? then 0 else 1)
  {
    var n := |relays| - 1;
    var updated := relays[i := r];
    if i == n {
      assert updated[..n] == relays[..n];
    } else {
      LiveUpdate(relays[..n], i, r);
      assert updated[..n] == relays[..n][i := r];
    }
  }

  lemma {:induction false} NoneLive(relays: seq<Relay>)
    ensures Live(relays) == 0 <==> forall i :: 0 <= i < |relays| ==> relays[i].pc.Ended?
  {
    if relays != [] {
      var n := |relays| - 1;
      NoneLive(relays[..n]);
      assert forall i :: 0 <= i < n ==> relays[i] == relays[..n][i];
    }
  }

  // ---- Preservation ----

  lemma TrackedIsHeld(pc: Pc)
    ensures Tracks(pc) <= Holds(pc)
  {
  }

  /** What one step of relay i may do to the connections: those it stops holding it has
      closed, a new one is its own, and the shared set follows what it tracks. */
  ghost predicate OwnConnsOnly(s: State, s': State, i: nat)
    requires i < |s.relays|
  {
    && |s'.relays| == |s.relays| && s'.relays == s.relays[i := s'.relays[i]]
    && s'.accept == s.accept && s'.closers == s.closers && s'.lock == s.lock
    && s'.closed == s.closed && s'.listening == s.listening
    && (s'.owner == s.owner || s'.owner == s.owner + [i])
    && var was, now := s.relays[i].pc, s'.relays[i].pc;
       && (forall c :: c in Holds(now) ==> c in Holds(was) || c == |s.owner| < |s'.owner|)
       && (forall c :: |s.owner| <= c < |s'.owner| ==> c in Holds(now))
       && (forall c :: c in s'.open ==> c in s.open || |s.owner| <= c < |s'.owner|)
       && (forall c :: c in Holds(was) && c !in Holds(now) ==> c !in s'.open)
       && s'.conns == s.conns - Tracks(was) + Tracks(now)
       && (s.closed ==> Tracks(now) <= Tracks(was))
  }

  lemma OwnersKept(s: State, s': State, i: nat)
    requires i < |s.relays| && Owners(s) && OwnConnsOnly(s, s', i)
    ensures Owners(s')
  {
  }

  lemma TrackingKept(s: State, s': State, i: nat)
    requires i < |s.relays| && Owners(s) && Tracking(s) && OwnConnsOnly(s, s', i) && Owners(s')
    ensures Tracking(s')
  {
    var was, now := s.relays[i].pc, s'.relays[i].pc;
    TrackedIsHeld(was);
    TrackedIsHeld(now);
    forall j, c | 0 <= j < |s'.relays| && c in Tracks(s'.relays[j].pc)
      ensures c in s'.conns
    {
      TrackedIsHeld(s'.relays[j].pc);
      if j != i {
        assert c in Holds(s.relays[j].pc);
        assert c < |s.owner| && s.owner[c] == j;
        assert c !in Tracks(was);
      }
    }
    forall c | c in s'.conns
      ensures c < |s'.owner| && s'.owner[c] < |s'.relays| && c in Tracks(s'.relays[s'.owner[c]].pc)
    {
      if c in Tracks(now) {
        assert s'.owner[c] == i;
      } else {
        assert c in s.conns && c !in Tracks(was);
        assert s.owner[c] != i;
      }
    }
  }

  lemma ClosingKept(s: State, s': State, i: nat)
    requires i < |s.relays| && Tracking(s) && Closing(s) && OwnConnsOnly(s, s', i)
    ensures Closing(s')
  {
    if s.closed {
      NothingReopened(s, s', i);
    }
    hide Tracking, OwnConnsOnly;
    assert s'.closers == s.closers && s'.lock == s.lock && s'.accept == s.accept;
  }

  /** Once the flag is set, what is tracked and open was so before. */
  lemma NothingReopened(s: State, s': State, i: nat)
    requires i < |s.relays| && Tracking(s) && s.closed && OwnConnsOnly(s, s', i)
    ensures s'.conns <= s.conns
    ensures s'.conns * s'.open <= s.conns * s.open
  {
    forall c | c in s'.conns
      ensures c in s.conns && c < |s.owner|
    {
      assert c in Tracks(s.relays[i].pc) ==> c in s.conns;
    }
    forall c | c in s'.conns && c in s'.open
      ensures c in s.open
    {
      assert c < |s.owner|;
    }
  }

  lemma RelayTouchesItsConns(s: State, s': State, i: nat)
    requires i < |s.relays| && RelayStep(s, s', i) && RelayOk(s.relays[i])
    requires forall c :: c in Holds(s.relays[i].pc) ==> c < |s.owner|
    requires forall c :: c in Tracks(s.relays[i].pc) ==> c in s.conns
    ensures OwnConnsOnly(s, s', i)
  {
    hide RelayStep, OwnConnsOnly;
    var early, both := BeforeCopy(s.relays[i].pc), HasBroker(s.relays[i].pc);
    if early && !both {
      OpeningTouchesItsConns(s, s', i);
    } else if early {
      RefusingTouchesItsConns(s, s', i);
    } else if both {
      EndingCopyTouchesItsConns(s, s', i);
    } else {
      EndingTouchesItsConns(s, s', i);
    }
  }

  lemma OpeningTouchesItsConns(s: State, s': State, i: nat)
    requires i < |s.relays| && RelayStep(s, s', i) && RelayOk(s.relays[i])
    requires forall c :: c in Holds(s.relays[i].pc) ==> c < |s.owner|
    requires forall c :: c in Tracks(s.relays[i].pc) ==> c in s.conns
    requires BeforeCopy(s.relays[i].pc) && !HasBroker(s.relays[i].pc)
    ensures OwnConnsOnly(s, s', i)
  {
    assert |s'.relays| == |s.relays|;
    assert s'.relays == s.relays[i := s'.relays[i]];
  }

  lemma RefusingTouchesItsConns(s: State, s': State, i: nat)
    requires i < |s.relays| && RelayStep(s, s', i) && RelayOk(s.relays[i])
    requires forall c :: c in Holds(s.relays[i].pc) ==> c < |s.owner|
    requires forall c :: c in Tracks(s.relays[i].pc) ==> c in s.conns
    requires BeforeCopy(s.relays[i].pc) && HasBroker(s.relays[i].pc)
    ensures OwnConnsOnly(s, s', i)
  {
  }

  lemma EndingCopyTouchesItsConns(s: State, s': State, i: nat)
    requires i < |s.relays| && RelayStep(s, s', i) && RelayOk(s.relays[i])
    requires forall c :: c in Holds(s.relays[i].pc) ==> c < |s.owner|
    requires forall c :: c in Tracks(s.relays[i].pc) ==> c in s.conns
    requires !BeforeCopy(s.relays[i].pc) && HasBroker(s.relays[i].pc)
    ensures OwnConnsOnly(s, s', i)
  {
  }

  lemma EndingTouchesItsConns(s: State, s': State, i: nat)
    requires i < |s.relays| && RelayStep(s, s', i) && RelayOk(s.relays[i])
    requires forall c :: c in Holds(s.relays[i].pc) ==> c < |s.owner|
    requires forall c :: c in Tracks(s.relays[i].pc) ==> c in s.conns
    requires !BeforeCopy(s.relays[i].pc) && !HasBroker(s.relays[i].pc)
    ensures OwnConnsOnly(s, s', i)
  {
  }

  lemma RelayStaysOk(s: State, s': State, i: nat)
    requires i < |s.relays| && RelayStep(s, s', i) && RelayOk(s.relays[i])
    requires forall c :: c in Holds(s.relays[i].pc) ==> c < |s.owner|
    ensures |s'.relays| == |s.relays| && RelayOk(s'.relays[i])
    ensures s'.wg - s.wg == (if s'.relays[i].pc.Ended? then 0 else 1) - (if s.relays[i].pc.Ended? then 0 else 1)
  {
    if s.relays[i].pc.Dial? {
      assert s.relays[i].pc.guest in Holds(s.relays[i].pc);
    }
  }

  /** With its connections, its own place and the count in order, a relay's step keeps the rest. */
  lemma RestOfInv(s: State, s': State, i: nat)
    requires Inv(s) && i < |s.relays| && !s.relays[i].pc.Ended? && OwnConnsOnly(s, s', i) && RelayOk(s'.relays[i])
    requires s'.wg - s.wg == Live(s'.relays) - Live(s.relays)
    ensures Inv(s')
  {
    hide RelayOk, Live, Holds, Tracks;
    OwnersKept(s, s', i);
    TrackingKept(s, s', i);
    ClosingKept(s, s', i);
    hide Owners, Tracking, Closing;
    assert !Drained(s);
  }

  lemma RelayKeepsInv(s: State, s': State, i: nat)
    requires Inv(s) && i < |s.relays| && RelayStep(s, s', i)
    ensures Inv(s')
  {
    assert RelayOk(s.relays[i]);
    assert forall c :: c in Holds(s.relays[i].pc) ==> c < |s.owner|;
    assert forall c :: c in Tracks(s.relays[i].pc) ==> c in s.conns;
    assert !s.relays[i].pc.Ended?;
    hide Inv, RelayStep, RelayOk, Live, Holds, Tracks;
    RelayTouchesItsConns(s, s', i);
    RelayStaysOk(s, s', i);
    LiveUpdate(s.relays, i, s'.relays[i]);
    RestOfInv(s, s', i);
  }

  lemma CopierStaysOk(s: State, s': State, i: nat)
    requires i < |s.relays| && (CopierStep(s, s', i, true) || TrafficStep(s, s', i)) && RelayOk(s.relays[i])
    ensures |s'.relays| == |s.relays| && RelayOk(s'.relays[i]) && s'.relays[i].pc == s.relays[i].pc
    ensures s' == s.(relays := s.relays[i := s'.relays[i]])
  {
  }

  lemma CopierKeepsInv(s: State, s': State, i: nat)
    requires Inv(s) && i < |s.relays| && (CopierStep(s, s', i, true) || TrafficStep(s, s', i))
    ensures Inv(s')
  {
    hide CopierStep, TrafficStep, Live;
    assert RelayOk(s.relays[i]);
    CopierStaysOk(s, s', i);
    hide RelayOk;
    LiveUpdate(s.relays, i, s'.relays[i]);
    TrackedIsHeld(s.relays[i].pc);
    assert OwnConnsOnly(s, s', i) by {
      assert s.conns - Tracks(s.relays[i].pc) + Tracks(s.relays[i].pc) == s.conns;
    }
    hide Holds, Tracks;
    OwnersKept(s, s', i);
    TrackingKept(s, s', i);
    ClosingKept(s, s', i);
    hide Owners, Tracking, Closing;
    forall j | 0 <= j < |s'.closers| && s'.closers[j] == Returned(true)
      ensures Drained(s')
    {
      assert Drained(s);
    }
  }

  lemma AcceptedIsOwned(s: State, s': State)
    requires Owners(s) && Tracking(s) && s.accept.Accepting?
    requires s' == s.(open := s.open + {|s.owner|}, owner := s.owner + [|s.relays|], accept := Accepted(|s.owner|))
    ensures Owners(s') && Tracking(s')
  {
  }

  lemma SpawnedIsOwned(s: State, s': State, guest: Conn)
    requires Owners(s) && Tracking(s) && s.accept == Counted(guest)
    requires s' == s.(relays := s.relays + [Relay(Start(guest), guest, guest, Idle, Idle, false)], accept := Accepting)
    ensures Owners(s') && Tracking(s')
  {
  }

  lemma AcceptKeepsOwners(s: State, s': State, outside: bool)
    requires Owners(s) && Tracking(s) && AcceptStep(s, s', outside)
    ensures Owners(s') && Tracking(s')
  {
    match s.accept
    case Accepting =>
      if s'.accept.Accepted? {
        AcceptedIsOwned(s, s');
      } else {
        HandlingKeepsOwners(s, s');
      }
    case Counted(guest) => SpawnedIsOwned(s, s', guest);
    case _ => HandlingKeepsOwners(s, s');
  }

  lemma HandlingKeepsOwners(s: State, s': State)
    requires Owners(s) && Tracking(s)
    requires s' == s.(wg := s'.wg, accept := s'.accept) && AcceptHolds(s'.accept) == AcceptHolds(s.accept)
    ensures Owners(s') && Tracking(s')
  {
  }

  lemma AcceptKeepsClosing(s: State, s': State, outside: bool)
    requires Tracking(s) && Closing(s) && AcceptStep(s, s', outside)
    ensures Closing(s')
  {
  }

  lemma AcceptKeepsCount(s: State, s': State, outside: bool)
    requires s.wg == AcceptCount(s.accept) + Live(s.relays) && AcceptStep(s, s', outside)
    ensures s'.wg == AcceptCount(s'.accept) + Live(s'.relays)
  {
  }

  lemma AcceptKeepsInv(s: State, s': State, outside: bool)
    requires Inv(s) && AcceptStep(s, s', outside)
    ensures Inv(s')
  {
    hide Live, Holds, Tracks;
    AcceptKeepsOwners(s, s', outside);
    AcceptKeepsClosing(s, s', outside);
    AcceptKeepsCount(s, s', outside);
    assert s'.closers == s.closers && !s.accept.AcceptEnded?;
    forall i | 0 <= i < |s'.relays|
      ensures RelayOk(s'.relays[i])
    {
      assert i < |s.relays| ==> s'.relays[i] == s.relays[i];
    }
    hide Owners, Tracking, Closing, AcceptStep, RelayOk;
  }

  lemma CloserKeepsClosing(s: State, s': State, j: nat)
    requires Closing(s) && j < |s.closers| && CloserStep(s, s', j)
    ensures Closing(s')
  {
  }

  lemma CloserKeepsOwners(s: State, s': State, j: nat)
    requires Owners(s) && Tracking(s) && j < |s.closers| && CloserStep(s, s', j)
    ensures Owners(s') && Tracking(s')
  {
    assert s'.open <= s.open && s'.conns == s.conns;
    assert s'.owner == s.owner && s'.relays == s.relays && s'.accept == s.accept;
    hide CloserStep;
    forall c | c in s'.open
      ensures c < |s'.owner| && HeldByOwner(s', c)
    {
      assert HeldByOwner(s, c);
    }
  }

  lemma CloserKeepsInv(s: State, s': State, j: nat)
    requires Inv(s) && j < |s.closers| && CloserStep(s, s', j)
    ensures Inv(s')
  {
    CloserKeepsClosing(s, s', j);
    CloserKeepsOwners(s, s', j);
    NoneLive(s.relays);
    hide Closing, Owners, Tracking, RelayOk;
    forall k | 0 <= k < |s'.closers| && s'.closers[k] == Returned(true)
      ensures Drained(s')
    {
      if k != j {
        assert s.closers[k] == Returned(true);
      }
    }
  }

  lemma NextKeepsInv(s: State, s': State)
    requires Inv(s) && Next(s, s')
    ensures Inv(s')
  {
    hide Inv, AcceptStep, RelayStep, CopierStep, TrafficStep, CloserStep;
    if AcceptStep(s, s', true) {
      AcceptKeepsInv(s, s', true);
    } else if i :| 0 <= i < |s.relays| && RelayStep(s, s', i) {
      RelayKeepsInv(s, s', i);
    } else if i :| 0 <= i < |s.relays| && CopierStep(s, s', i, true) {
      CopierKeepsInv(s, s', i);
    } else if i :| 0 <= i < |s.relays| && TrafficStep(s, s', i) {
      CopierKeepsInv(s, s', i);
    } else if j :| 0 <= j < |s.closers| && CloserStep(s, s', j) {
      CloserKeepsInv(s, s', j);
    } else {
      CallKeepsInv(s, s');
    }
  }

  lemma CallKeepsInv(s: State, s': State)
    requires Inv(s) && s' == s.(closers := s.closers + [Enter])
    ensures Inv(s')
  {
    assert forall j :: 0 <= j < |s.closers| ==> s'.closers[j] == s.closers[j];
    hide Live;
    forall c | c in s'.open
      ensures c < |s'.owner| && HeldByOwner(s', c)
    {
      assert HeldByOwner(s, c);
    }
  }

  lemma {:induction false} RunKeepsInv(run: seq<State>, k: nat)
    requires IsRun(run) && Inv(run[0]) && k < |run|
    ensures Inv(run[k])
  {
    hide Inv, Next;
    if k > 0 {
      RunKeepsInv(run, k - 1);
      assert Next(run[k - 1], run[k - 1 + 1]);
      NextKeepsInv(run[k - 1], run[k]);
    }
  }

  lemma ReachableInv(run: seq<State>, k: nat)
    requires IsRun(run) && Init(run[0]) && k < |run|
    ensures Inv(run[k])
  {
    RunKeepsInv(run, k);
  }

  // ---- Main results ----

  /** Drain: in every interleaving, once the Close call that set the flag has returned,
      the accept loop and every relay have ended, nothing is tracked, and every guest
      accepted and every broker connection dialled has been closed. */
  lemma CloseDrains(run: seq<State>, k: nat, j: nat)
    requires IsRun(run) && Init(run[0]) && k < |run|
    requires j < |run[k].closers| && run[k].closers[j] == Returned(true)
    ensures Drained(run[k]) && run[k].wg == 0
    ensures run[k].conns == {} && run[k].open == {} && !run[k].listening
  {
    ReachableInv(run, k);
    var s := run[k];
    assert Drained(s);
    NoneLive(s.relays);
  }

  lemma OnlyAcceptCounts(s: State, s': State)
    requires Next(s, s') && s'.wg > s.wg
    ensures s.accept.Accepted?
  {
    if i :| 0 <= i < |s.relays| && RelayStep(s, s', i) {
      hide CopierStep, CloserStep;
    }
  }

  /** The wait group counts the accept loop and the live relays, and is never
      incremented from zero, so Wait cannot miss a relay. */
  lemma WaitGroupIsSound(run: seq<State>, k: nat)
    requires IsRun(run) && Init(run[0]) && k < |run|
    ensures run[k].wg == AcceptCount(run[k].accept) + Live(run[k].relays)
    ensures k + 1 < |run| && run[k + 1].wg > run[k].wg ==> run[k].wg > 0
  {
    ReachableInv(run, k);
    hide Next, Live;
    if k + 1 < |run| && run[k + 1].wg > run[k].wg {
      assert Next(run[k], run[k + 1]);
      OnlyAcceptCounts(run[k], run[k + 1]);
    }
  }

  /** Once Close has released the mutex, every tracked connection is closed and no
      connection is added to the shared set again. */
  lemma ClosedMeansClosed(run: seq<State>, k: nat)
    requires IsRun(run) && Init(run[0]) && k < |run| && run[k].closed
    ensures run[k].lock.Free? ==> !run[k].listening && run[k].conns * run[k].open == {}
    ensures k + 1 < |run| ==> run[k + 1].closed && run[k + 1].conns <= run[k].conns
  {
    ReachableInv(run, k);
    if k + 1 < |run| {
      assert Next(run[k], run[k + 1]);
      ConnsShrink(run[k], run[k + 1]);
    }
  }

  lemma ConnsShrink(s: State, s': State)
    requires Inv(s) && Next(s, s') && s.closed
    ensures s'.closed && s'.conns <= s.conns
  {
    if i :| 0 <= i < |s.relays| && RelayStep(s, s', i) {
      RelayShrinksConns(s, s', i);
    } else {
      hide Inv, RelayStep;
    }
  }

  lemma RelayShrinksConns(s: State, s': State, i: nat)
    requires i < |s.relays| && RelayStep(s, s', i) && s.closed
    ensures s'.closed && s'.conns <= s.conns
  {
  }

  /** A copier that has ended can always send: `done` never holds its two messages yet. */
  lemma CopiersNeverBlock(run: seq<State>, k: nat, i: nat)
    requires IsRun(run) && Init(run[0]) && k < |run| && i < |run[k].relays|
    requires run[k].relays[i].up.Sending? || run[k].relays[i].down.Sending?
    ensures 0 <= Buffered(run[k].relays[i]) < 2
  {
    ReachableInv(run, k);
    assert RelayOk(run[k].relays[i]);
  }

  // ---- Close terminates ----

  function AcceptRank(a: Accept): nat {
    match a
    case Accepting => 3
    case AcceptFailed => 2
    case Accepted(_) => 22
    case Counted(_) => 21
    case Leaving => 1
    case AcceptEnded => 0
  }

  function PcRank(pc: Pc): nat {
    match pc
    case Start(_) => 13
    case RefuseGuest(_) => 2
    case Dial(_) => 12
    case TrackBroker(_, _) => 11
    case RefuseBroker(_, _) => 4
    case Copy(_, _) => 6
    case UntrackBroker(_, _) => 5
    case CloseBroker(_, _) => 4
    case UntrackGuest(_) => 3
    case CloseGuest(_) => 2
    case WaitGroupDone => 1
    case Ended => 0
  }

  function CopierRank(c: Copier): nat {
    match c
    case Reading => 2
    case Writing => 2
    case Sending => 1
    case _ => 0
  }

  function RelayRank(r: Relay): nat {
    PcRank(r.pc) + CopierRank(r.up) + CopierRank(r.down)
  }

  function RelaysRank(relays: seq<Relay>): nat {
    if relays == [] then 0 else RelaysRank(relays[..|relays| - 1]) + RelayRank(relays[|relays| - 1])
  }

  /** What the accept loop, the relays and the copiers still have to do. */
  function Rank(s: State): nat {
    AcceptRank(s.accept) + RelaysRank(s.relays)
  }

  lemma {:induction false} RankUpdate(relays: seq<Relay>, i: nat, r: Relay)
    requires i < |relays|
    ensures RelaysRank(relays[i := r]) + RelayRank(relays[i]) == RelaysRank(relays) + RelayRank(r)
  {
    var n := |relays| - 1;
    var updated := relays[i := r];
    if i == n {
      assert updated[..n] == relays[..n];
    } else {
      RankUpdate(relays[..n], i, r);
      assert updated[..n] == relays[..n][i := r];
    }
  }

  /** Close has let go of the mutex: the listener and all tracked connections are closed. */
  ghost predicate ShutDown(s: State) {
    s.closed && s.lock.Free?
  }

  lemma RelayRankFalls(s: State, s': State, i: nat)
    requires i < |s.relays| && RelayStep(s, s', i) && RelayOk(s.relays[i])
    ensures |s'.relays| == |s.relays| && s'.relays == s.relays[i := s'.relays[i]] && s'.accept == s.accept
    ensures RelayRank(s'.relays[i]) < RelayRank(s.relays[i])
  {
  }

  lemma AcceptLowersRank(s: State, s': State, outside: bool)
    requires !s.listening && AcceptStep(s, s', outside) && (s.accept.AcceptFailed? ==> s.closed)
    ensures Rank(s') < Rank(s)
  {
  }

  lemma RelayLowersRank(s: State, s': State, i: nat)
    requires i < |s.relays| && RelayStep(s, s', i) && RelayOk(s.relays[i])
    ensures Rank(s') < Rank(s)
  {
    RelayRankFalls(s, s', i);
    hide RelaysRank, RelayStep, RelayOk, RelayRank;
    RankUpdate(s.relays, i, s'.relays[i]);
  }

  lemma CopierLowersRank(s: State, s': State, i: nat, outside: bool)
    requires i < |s.relays| && CopierStep(s, s', i, outside)
    ensures Rank(s') < Rank(s)
  {
    hide RelaysRank;
    RankUpdate(s.relays, i, s'.relays[i]);
  }

  /** After Close has let go of the mutex every step of the accept loop, a relay or a
      copier brings the shutdown nearer. */
  lemma WorkLowersRank(s: State, s': State, outside: bool)
    requires Inv(s) && ShutDown(s) && Work(s, s', outside)
    ensures Rank(s') < Rank(s)
  {
    assert !s.listening;
    hide Inv, AcceptStep, RelayStep, CopierStep, RelayOk, Rank;
    if AcceptStep(s, s', outside) {
      AcceptLowersRank(s, s', outside);
    } else if i :| 0 <= i < |s.relays| && RelayStep(s, s', i) {
      assert RelayOk(s.relays[i]) by { RelaysOk(s); }
      RelayLowersRank(s, s', i);
    } else {
      var i :| 0 <= i < |s.relays| && CopierStep(s, s', i, outside);
      CopierLowersRank(s, s', i, outside);
    }
  }

  lemma RelaysOk(s: State)
    requires Inv(s)
    ensures forall i :: 0 <= i < |s.relays| ==> RelayOk(s.relays[i])
  {
  }

  lemma TrafficKeepsRank(s: State, s': State, i: nat)
    requires i < |s.relays| && TrafficStep(s, s', i)
    ensures Rank(s') == Rank(s)
  {
    hide RelaysRank;
    RankUpdate(s.relays, i, s'.relays[i]);
  }

  lemma OthersKeepRank(s: State, s': State)
    requires ShutDown(s) && Next(s, s') && !Work(s, s', true)
    ensures Rank(s') == Rank(s) && ShutDown(s')
  {
    hide Work, Rank, TrafficStep;
    if i :| 0 <= i < |s.relays| && TrafficStep(s, s', i) {
      TrafficKeepsRank(s, s', i);
      TrafficKeepsShutDown(s, s', i);
    } else {
      assert s'.accept == s.accept && s'.relays == s.relays;
      hide Next;
      assert Rank(s') == Rank(s) by {
        SameRank(s, s');
      }
    }
  }

  lemma TrafficKeepsShutDown(s: State, s': State, i: nat)
    requires i < |s.relays| && TrafficStep(s, s', i) && ShutDown(s)
    ensures ShutDown(s')
  {
  }

  lemma SameRank(s: State, s': State)
    requires s'.accept == s.accept && s'.relays == s.relays
    ensures Rank(s') == Rank(s)
  {
  }

  lemma WorkKeepsShutDown(s: State, s': State)
    requires ShutDown(s) && Work(s, s', true)
    ensures ShutDown(s')
  {
  }

  /** No deadlock: until everything has ended, something can move without the help of
      any peer, because closed connections end copies and dials time out. */
  lemma SomethingMoves(s: State)
    requires Inv(s) && ShutDown(s) && !Drained(s)
    ensures exists s' :: Work(s, s', false)
  {
    if !s.accept.AcceptEnded? {
      var s' := match s.accept
        case Accepting => s.(accept := AcceptFailed)
        case AcceptFailed => s.(accept := Leaving)
        case Accepted(g) => s.(wg := s.wg + 1, accept := Counted(g))
        case Counted(g) => s.(relays := s.relays + [Relay(Start(g), g, g, Idle, Idle, false)], accept := Accepting)
        case Leaving => s.(wg := s.wg - 1, accept := AcceptEnded)
        case AcceptEnded => s;
      assert !s.listening && s.closed;
      assert AcceptStep(s, s', false);
      assert Work(s, s', false);
    } else {
      var i :| 0 <= i < |s.relays| && !s.relays[i].pc.Ended?;
      RelayMoves(s, i);
    }
  }

  lemma RelayMoves(s: State, i: nat)
    requires Inv(s) && ShutDown(s) && i < |s.relays| && !s.relays[i].pc.Ended?
    ensures exists s' :: Work(s, s', false)
  {
    var r := s.relays[i];
    assert RelayOk(r);
    if r.pc.Copy? {
      CopyMoves(s, i);
    } else {
      var s' := match r.pc
        case Start(g) => Moved(s, i, RefuseGuest(g))
        case RefuseGuest(g) => Moved(s, i, WaitGroupDone).(open := s.open - {g})
        case Dial(g) => Moved(s, i, UntrackGuest(g))
        case TrackBroker(g, b) => Moved(s, i, RefuseBroker(g, b))
        case RefuseBroker(g, b) => Moved(s, i, UntrackGuest(g)).(open := s.open - {b})
        case UntrackBroker(g, b) => Moved(s, i, CloseBroker(g, b)).(conns := s.conns - {b})
        case CloseBroker(g, b) => Moved(s, i, UntrackGuest(g)).(open := s.open - {b})
        case UntrackGuest(g) => Moved(s, i, CloseGuest(g)).(conns := s.conns - {g})
        case CloseGuest(g) => Moved(s, i, WaitGroupDone).(open := s.open - {g})
        case WaitGroupDone => Moved(s, i, Ended).(wg := s.wg - 1)
        case _ => s;
      hide Inv, RelayOk;
      assert RelayStep(s, s', i);
      assert Work(s, s', false);
    }
  }

  lemma CopyMoves(s: State, i: nat)
    requires Inv(s) && ShutDown(s) && i < |s.relays| && s.relays[i].pc.Copy?
    ensures exists s' :: Work(s, s', false)
  {
    var r := s.relays[i];
    assert RelayOk(r);
    if r.up.Sent? || r.down.Sent? {
      var s' := s.(relays := s.relays[i := r.(pc := UntrackBroker(r.guest, r.broker), received := true)]);
      assert RelayStep(s, s', i);
      assert Work(s, s', false);
    } else {
      assert r.guest in Tracks(r.pc) && r.broker in Tracks(r.pc);
      assert r.guest in s.conns && r.broker in s.conns;
      assert r.guest !in s.open && r.broker !in s.open;
      CopierEnds(s, i);
    }
  }

  /** A copier between two closed connections ends on its own: it fails, then it can send. */
  lemma CopierEnds(s: State, i: nat)
    requires i < |s.relays| && RelayOk(s.relays[i])
    requires s.relays[i].guest !in s.open && s.relays[i].broker !in s.open
    requires !s.relays[i].up.Idle? && !s.relays[i].down.Idle? && !(s.relays[i].up.Sent? && s.relays[i].down.Sent?)
    ensures exists s' :: CopierStep(s, s', i, false) && Work(s, s', false)
  {
    var r := s.relays[i];
    if !r.up.Sent? {
      var c := if r.up.Sending? then Sent else Sending;
      var s' := s.(relays := s.relays[i := r.(up := c)]);
      assert CopierMoves(s, r, r.up, c, r.guest, r.broker, false);
      assert CopierStep(s, s', i, false);
      assert Work(s, s', false);
    } else {
      var c := if r.down.Sending? then Sent else Sending;
      var s' := s.(relays := s.relays[i := r.(down := c)]);
      assert CopierMoves(s, r, r.down, c, r.broker, r.guest, false);
      assert CopierStep(s, s', i, false);
      assert Work(s, s', false);
    }
  }

  /** How many steps between two states of a run are the accept loop's, a relay's or a copier's. */
  ghost function WorkSteps(run: seq<State>, k: nat, m: nat): nat
    requires k <= m < |run|
    decreases m
  {
    if k == m then 0
    else WorkSteps(run, k, m - 1) + (if Work(run[m - 1], run[m], true) then 1 else 0)
  }

  lemma {:induction false} WorkIsBounded(run: seq<State>, k: nat, m: nat)
    requires IsRun(run) && Init(run[0]) && k <= m < |run| && ShutDown(run[k])
    ensures ShutDown(run[m]) && WorkSteps(run, k, m) + Rank(run[m]) <= Rank(run[k])
  {
    hide Inv, Rank, Work, Next, ShutDown;
    if k < m {
      WorkIsBounded(run, k, m - 1);
      ReachableInv(run, m - 1);
      assert Next(run[m - 1], run[m - 1 + 1]);
      if Work(run[m - 1], run[m], true) {
        WorkLowersRank(run[m - 1], run[m], true);
        WorkKeepsShutDown(run[m - 1], run[m]);
      } else {
        OthersKeepRank(run[m - 1], run[m]);
      }
    }
  }

  /** No copier is at work: each has sent its message or was never started. */
  ghost predicate CopiersEnded(s: State) {
    forall i :: 0 <= i < |s.relays| ==>
      (s.relays[i].up.Sent? || s.relays[i].up.Idle?) && (s.relays[i].down.Sent? || s.relays[i].down.Idle?)
  }

  /** What is left when a Close that set the flag has returned: of each relay one copier at
      most, both of whose connections are closed and which can end without any peer. */
  lemma OneCopierMayRemain(run: seq<State>, k: nat, j: nat, i: nat)
    requires IsRun(run) && Init(run[0]) && k < |run| && i < |run[k].relays|
    requires j < |run[k].closers| && run[k].closers[j] == Returned(true)
    ensures var r := run[k].relays[i];
            && (r.up.Idle? <==> r.down.Idle?)
            && (!r.up.Idle? ==> r.up.Sent? || r.down.Sent?)
            && r.guest !in run[k].open && r.broker !in run[k].open
            && (!r.up.Idle? && !(r.up.Sent? && r.down.Sent?) ==> exists s' :: CopierStep(run[k], s', i, false))
  {
    CloseDrains(run, k, j);
    ReachableInv(run, k);
    var r := run[k].relays[i];
    assert RelayOk(r) && r.pc.Ended?;
    if !r.up.Idle? && !(r.up.Sent? && r.down.Sent?) {
      CopierEnds(run[k], i);
    }
  }

  lemma CopiersEndToo(s: State)
    requires Inv(s) && Drained(s) && !CopiersEnded(s) && s.open == {}
    ensures exists s' :: Work(s, s', false)
  {
    var i :| 0 <= i < |s.relays| &&
      !((s.relays[i].up.Sent? || s.relays[i].up.Idle?) && (s.relays[i].down.Sent? || s.relays[i].down.Idle?));
    assert RelayOk(s.relays[i]) && s.relays[i].pc.Ended?;
    CopierEnds(s, i);
  }

  /** Close terminates: after it has let go of the mutex only so many steps of the accept
      loop, the relays and the copiers are left as the rank says, bytes passed on aside, in
      any order and whatever else is called meanwhile; and when none of them can move on
      its own any more, all have ended, the copiers too, and Wait lets Close return. */
  lemma CloseTerminates(run: seq<State>, k: nat, m: nat)
    requires IsRun(run) && Init(run[0]) && k <= m < |run| && ShutDown(run[k])
    ensures WorkSteps(run, k, m) <= Rank(run[k])
    ensures (forall s' :: !Work(run[m], s', false)) ==> Drained(run[m]) && run[m].wg == 0 && CopiersEnded(run[m])
  {
    WorkIsBounded(run, k, m);
    ReachableInv(run, m);
    if !Drained(run[m]) {
      SomethingMoves(run[m]);
    } else {
      NoneLive(run[m].relays);
      NothingOpen(run[m]);
      if !CopiersEnded(run[m]) {
        CopiersEndToo(run[m]);
      }
    }
  }

  lemma NothingOpen(s: State)
    requires Inv(s) && Drained(s)
    ensures s.open == {}
  {
  }

  // ---- Only the Close that set the flag waits ----

  /** A guest is being served when two Close calls come in. */
  function TwoCloses(): seq<State> {
    var served := [Relay(Start(0), 0, 0, Idle, Idle, false)];
    [ State(true, Free, false, {}, {}, [], 1, Accepting, [], []),
      State(true, Free, false, {}, {0}, [0], 1, Accepted(0), [], []),
      State(true, Free, false, {}, {0}, [0], 2, Counted(0), [], []),
      State(true, Free, false, {}, {0}, [0], 2, Accepting, served, []),
      State(true, Free, false, {}, {0}, [0], 2, Accepting, served, [Enter]),
      State(true, Held(0), true, {}, {0}, [0], 2, Accepting, served, [CloseListener]),
      State(false, Held(0), true, {}, {0}, [0], 2, Accepting, served, [CloseConns({})]),
      State(false, Free, true, {}, {0}, [0], 2, Accepting, served, [Wait]),
      State(false, Free, true, {}, {0}, [0], 2, Accepting, served, [Wait, Enter]),
      State(false, Free, true, {}, {0}, [0], 2, Accepting, served, [Wait, Returned(false)]) ]
  }

  /** A Close that finds the flag set returns at once: on this run it does while a relay
      is still live and its guest's connection open. */
  lemma SecondCloseReturnsEarly()
    ensures var run := TwoCloses();
            && IsRun(run) && Init(run[0])
            && run[9].closers[1] == Returned(false)
            && !Drained(run[9]) && run[9].open == {0} && run[9].wg == 2
  {
    var run := TwoCloses();
    assert AcceptStep(run[0], run[1], true);
    assert AcceptStep(run[1], run[2], true);
    assert AcceptStep(run[2], run[3], true);
    assert CloserStep(run[4], run[5], 0);
    assert CloserStep(run[5], run[6], 0);
    assert CloserStep(run[6], run[7], 0);
    assert CloserStep(run[8], run[9], 1);
    assert !run[9].relays[0].pc.Ended?;
  }

  /** A relay whose guest has hung up, on its way out; the copier from the broker still reads. */
  function HungUp(pc: Pc): seq<Relay> {
    [Relay(pc, 0, 1, Sent, Reading, true)]
  }

  /** The relay while it copies between connections 0 and 1. */
  function Serving(up: Copier): seq<Relay> {
    [Relay(Copy(0, 1), 0, 1, up, Reading, false)]
  }

  function Starting(pc: Pc): seq<Relay> {
    [Relay(pc, 0, 0, Idle, Idle, false)]
  }

  /** A guest connects, is served and hangs up; the relay ends. */
  function OneGuest(): seq<State> {
    [ State(true, Free, false, {}, {}, [], 1, Accepting, [], []),
      State(true, Free, false, {}, {0}, [0], 1, Accepted(0), [], []),
      State(true, Free, false, {}, {0}, [0], 2, Counted(0), [], []),
      State(true, Free, false, {}, {0}, [0], 2, Accepting, Starting(Start(0)), []),
      State(true, Free, false, {0}, {0}, [0], 2, Accepting, Starting(Dial(0)), []),
      State(true, Free, false, {0}, {0, 1}, [0, 0], 2, Accepting, Starting(TrackBroker(0, 1)), []),
      State(true, Free, false, {0, 1}, {0, 1}, [0, 0], 2, Accepting, Serving(Reading), []),
      State(true, Free, false, {0, 1}, {0, 1}, [0, 0], 2, Accepting, Serving(Sending), []),
      State(true, Free, false, {0, 1}, {0, 1}, [0, 0], 2, Accepting, Serving(Sent), []),
      State(true, Free, false, {0, 1}, {0, 1}, [0, 0], 2, Accepting, HungUp(UntrackBroker(0, 1)), []),
      State(true, Free, false, {0}, {0, 1}, [0, 0], 2, Accepting, HungUp(CloseBroker(0, 1)), []),
      State(true, Free, false, {0}, {0}, [0, 0], 2, Accepting, HungUp(UntrackGuest(0)), []),
      State(true, Free, false, {}, {0}, [0, 0], 2, Accepting, HungUp(CloseGuest(0)), []),
      State(true, Free, false, {}, {}, [0, 0], 2, Accepting, HungUp(WaitGroupDone), []),
      State(true, Free, false, {}, {}, [0, 0], 1, Accepting, HungUp(Ended), []) ]
  }

  /** Then Close is called and returns. */
  function ThenClose(): seq<State> {
    [ State(true, Free, false, {}, {}, [0, 0], 1, Accepting, HungUp(Ended), []),
      State(true, Free, false, {}, {}, [0, 0], 1, Accepting, HungUp(Ended), [Enter]),
      State(true, Held(0), true, {}, {}, [0, 0], 1, Accepting, HungUp(Ended), [CloseListener]),
      State(false, Held(0), true, {}, {}, [0, 0], 1, Accepting, HungUp(Ended), [CloseConns({})]),
      State(false, Free, true, {}, {}, [0, 0], 1, Accepting, HungUp(Ended), [Wait]),
      State(false, Free, true, {}, {}, [0, 0], 1, AcceptFailed, HungUp(Ended), [Wait]),
      State(false, Free, true, {}, {}, [0, 0], 1, Leaving, HungUp(Ended), [Wait]),
      State(false, Free, true, {}, {}, [0, 0], 0, AcceptEnded, HungUp(Ended), [Wait]),
      State(false, Free, true, {}, {}, [0, 0], 0, AcceptEnded, HungUp(Ended), [Returned(true)]) ]
  }

  lemma OneGuestConnects()
    ensures var run := OneGuest();
            && Next(run[0], run[1]) && Next(run[1], run[2]) && Next(run[2], run[3])
            && Next(run[3], run[4]) && Next(run[4], run[5])
  {
    var run := OneGuest();
    assert AcceptStep(run[0], run[1], true);
    assert AcceptStep(run[1], run[2], true);
    assert AcceptStep(run[2], run[3], true);
    assert RelayStep(run[3], run[4], 0);
    assert RelayStep(run[4], run[5], 0);
  }

  lemma OneGuestIsServed()
    ensures var run := OneGuest();
            Next(run[5], run[6]) && Next(run[6], run[7]) && Next(run[7], run[8]) && Next(run[8], run[9])
  {
    var run := OneGuest();
    var r6, r7 := run[6].relays[0], run[7].relays[0];
    assert RelayStep(run[5], run[6], 0);
    assert CopierMoves(run[6], r6, Reading, Sending, 0, 1, true);
    assert CopierStep(run[6], run[7], 0, true);
    assert CopierMoves(run[7], r7, Sending, Sent, 0, 1, true);
    assert CopierStep(run[7], run[8], 0, true);
    assert RelayStep(run[8], run[9], 0);
  }

  lemma OneGuestLeaves()
    ensures var run := OneGuest();
            && Next(run[9], run[10]) && Next(run[10], run[11]) && Next(run[11], run[12])
            && Next(run[12], run[13]) && Next(run[13], run[14])
  {
    var run := OneGuest();
    assert RelayStep(run[9], run[10], 0);
    assert RelayStep(run[10], run[11], 0);
    assert RelayStep(run[11], run[12], 0);
    assert RelayStep(run[12], run[13], 0);
    assert RelayStep(run[13], run[14], 0);
  }

  lemma ThenCloseIsARun()
    ensures IsRun(ThenClose())
  {
    var run := ThenClose();
    assert CloserStep(run[1], run[2], 0);
    assert CloserStep(run[2], run[3], 0);
    assert CloserStep(run[3], run[4], 0);
    assert AcceptStep(run[4], run[5], true);
    assert AcceptStep(run[5], run[6], true);
    assert AcceptStep(run[6], run[7], true);
    assert CloserStep(run[7], run[8], 0);
  }

  lemma RunsJoin(first: seq<State>, rest: seq<State>)
    requires IsRun(first) && IsRun(rest) && first[|first| - 1] == rest[0]
    ensures IsRun(first + rest[1..])
  {
    hide Next;
    var run := first + rest[1..];
    forall i | 0 <= i < |run| - 1
      ensures Next(run[i], run[i + 1])
    {
      if i < |first| - 1 {
        assert Next(first[i], first[i + 1]);
      } else {
        var k := i - (|first| - 1);
        assert run[i] == rest[k] && run[i + 1] == rest[k + 1];
      }
    }
  }

  /** The wait group does not count copiers: on this run Close has returned, and the copier
      that reads from the broker has not ended yet. */
  lemma CopierOutlivesClose()
    ensures var run := OneGuest() + ThenClose()[1..];
            && IsRun(run) && Init(run[0])
            && run[22].closers[0] == Returned(true) && Drained(run[22]) && run[22].relays[0].down == Reading
  {
    OneGuestConnects();
    OneGuestIsServed();
    OneGuestLeaves();
    ThenCloseIsARun();
    RunsJoin(OneGuest(), ThenClose());
  }

  // ---- The critical sections as they are written ----

  /** A stretch of a run in which only this Close call moves. */
  ghost predicate ClosesAlone(run: seq<State>, j: nat) {
    && |run| > 0
    && forall k :: 0 <= k < |run| - 1 ==> j < |run[k].closers| && CloserStep(run[k], run[k + 1], j)
  }

  lemma OneMoreClose(run: seq<State>, j: nat, next: State)
    requires ClosesAlone(run, j) && j < |run[|run| - 1].closers| && CloserStep(run[|run| - 1], next, j)
    ensures ClosesAlone(run + [next], j)
  {
  }

  /** The fields the mutex guards, and which connections are open. Each method is one
      critical section and takes the machine from one of its states to the next; Close is
      shown as it runs undisturbed, the machine above lets everything else move meanwhile. */
  class Shared {
    var conns: set<Conn>
    var closed: bool
    var listening: bool
    var open: set<Conn>

    ghost predicate Matches(s: State)
      reads this
    {
      conns == s.conns && closed == s.closed && listening == s.listening && open == s.open
    }

    constructor ()
      ensures forall s :: Init(s) ==> Matches(s)
    {
      conns, closed, listening, open := {}, false, true, {};
    }

    /** track: adds the connection unless Close has been called. */
    method Track(c: Conn, ghost s: State, ghost i: nat) returns (ok: bool, ghost s': State)
      requires Matches(s) && s.lock.Free? && i < |s.relays|
      requires match s.relays[i].pc case Start(g) => c == g case TrackBroker(_, b) => c == b case _ => false
      modifies this`conns
      ensures ok <==> !closed
      ensures conns == if closed then old(conns) else old(conns) + {c}
      ensures RelayStep(s, s', i) && Matches(s')
      ensures ok <==> s'.relays[i].pc.Dial? || s'.relays[i].pc.Copy?
    {
      if closed {
        s' := match s.relays[i].pc
          case Start(g) => Moved(s, i, RefuseGuest(g))
          case TrackBroker(g, b) => Moved(s, i, RefuseBroker(g, b));
        return false, s';
      }
      conns := conns + {c};
      ok := true;
      s' := match s.relays[i].pc
        case Start(g) => Moved(s, i, Dial(g)).(conns := conns)
        case TrackBroker(g, b) =>
          s.(relays := s.relays[i := Relay(Copy(g, b), g, b, Reading, Reading, false)], conns := conns);
    }

    /** release: forgets the connection under the mutex, then closes it: two steps. */
    method Release(c: Conn, ghost s: State, ghost i: nat) returns (ghost s1: State, ghost s': State)
      requires Matches(s) && s.lock.Free? && i < |s.relays|
      requires match s.relays[i].pc case UntrackBroker(_, b) => c == b case UntrackGuest(g) => c == g case _ => false
      modifies this`conns, this`open
      ensures conns == old(conns) - {c} && open == old(open) - {c}
      ensures RelayStep(s, s1, i) && i < |s1.relays| && RelayStep(s1, s', i) && Matches(s')
    {
      conns := conns - {c};
      s1 := match s.relays[i].pc
        case UntrackBroker(g, b) => Moved(s, i, CloseBroker(g, b)).(conns := conns)
        case UntrackGuest(g) => Moved(s, i, CloseGuest(g)).(conns := conns);
      open := open - {c};
      s' := match s1.relays[i].pc
        case CloseBroker(g, _) => Moved(s1, i, UntrackGuest(g)).(open := open)
        case CloseGuest(_) => Moved(s1, i, WaitGroupDone).(open := open);
    }

    /** What Close does before it waits: only the first call does anything, and it leaves
        the listener and every tracked connection closed. */
    method CloseAll(ghost s: State, ghost j: nat) returns (first: bool, ghost steps: seq<State>)
      requires Matches(s) && s.lock.Free? && j < |s.closers| && s.closers[j] == Enter
      modifies this`closed, this`listening, this`open
      ensures first <==> !old(closed)
      ensures closed && (first ==> !listening && open == old(open) - conns)
      ensures !first ==> listening == old(listening) && open == old(open)
      ensures ClosesAlone(steps, j) && steps[0] == s && Matches(steps[|steps| - 1])
      ensures steps[|steps| - 1].lock.Free?
      ensures j < |steps[|steps| - 1].closers|
      ensures steps[|steps| - 1].closers[j] == if first then Wait else Returned(false)
    {
      steps := [s];
      ghost var next := s;
      if closed {
        next := s.(closers := s.closers[j := Returned(false)]);
        OneMoreClose(steps, j, next);
        return false, steps + [next];
      }
      closed := true;
      next := s.(closed := true, lock := Held(j), closers := s.closers[j := CloseListener]);
      OneMoreClose(steps, j, next);
      steps := steps + [next];
      listening := false;
      next := next.(listening := false, closers := next.closers[j := CloseConns(conns)]);
      OneMoreClose(steps, j, next);
      steps := steps + [next];
      var todo := conns;
      while todo != {}
        invariant closed && !listening && todo <= conns
        invariant open == old(open) - (conns - todo)
        invariant ClosesAlone(steps, j) && steps[0] == s && steps[|steps| - 1] == next && Matches(next)
        invariant j < |next.closers| && next.closers[j] == CloseConns(todo)
        decreases todo
      {
        var c :| c in todo;
        open := open - {c};
        todo := todo - {c};
        next := next.(open := open, closers := next.closers[j := CloseConns(todo)]);
        OneMoreClose(steps, j, next);
        steps := steps + [next];
      }
      next := next.(lock := Free, closers := next.closers[j := Wait]);
      OneMoreClose(steps, j, next);
      steps := steps + [next];
      first := true;
    }
  }
}
