/**
 * The pointer to the current assistant session, and the operations that move it
 * (server/src/assistant-controller.ts). They run one after another; the pool answers
 * as it likes.
 */
module Controller {
  import opened Options
  import opened Sequences

  /** A session, by its file. */
  type File = string

  datatype Pointer = Pointer(file: File, sessionId: string)

  /** Why the pointer moved. */
  datatype Why = Opened | WasReset | Adopted

  /** What the controller did, in order. */
  datatype Note =
    | Aborted(file: File)
    | Retired(file: File)
    | Moved(was: Option<File>, now: File, why: Why)

  /** `pinned` is what the pool keeps on the controller's behalf. */
  datatype Control = Control(pointer: Option<Pointer>, ownCreations: seq<File>, pinned: set<File>, log: seq<Note>)

  const OWN_KEPT := 100

  // -------------------------------------------------------------------------
  // Steps

  function FileOf(p: Option<Pointer>): Option<File> {
    if p.Some? then Some(p.value.file) else None
  }

  function Unpinned(pinned: set<File>, previous: Option<File>, file: File): set<File> {
    if previous.Some? && previous.value != file then pinned - {previous.value} else pinned
  }

  function MovePointer(s: Control, to: Pointer, why: Why): Control {
    if s.pointer == Some(to) then s
    else
      s.(pointer := Some(to),
         pinned := Unpinned(s.pinned, FileOf(s.pointer), to.file) + {to.file},
         log := s.log + [Moved(FileOf(s.pointer), to.file, why)])
  }

  /** The pointer's session ends what it is doing, and is given up. */
  function Retire(s: Control, streaming: bool): Control {
    if s.pointer.None? then s
    else
      var file := s.pointer.value.file;
      s.(log := s.log + (if streaming then [Aborted(file)] else []) + [Retired(file)])
  }

  /** `Set.delete`. */
  function Forgotten(q: seq<File>, file: File): seq<File> {
    Without(q, IndexOf(q, file))
  }

  /** `Set.add`, and past the bound the oldest is forgotten. */
  function Remember(q: seq<File>, file: File): seq<File> {
    var more := if file in q then q else q + [file];
    if |more| > OWN_KEPT then more[1..] else more
  }

  /** Nothing moves when the pool could not create a session. */
  function CreateAndPoint(s: Control, created: Option<Pointer>, why: Why): Control {
    if created.None? then s
    else MovePointer(s.(ownCreations := Remember(s.ownCreations, created.value.file)), created.value, why)
  }

  /** `found`: the pool or the disk still has the session pointed at. Without one a new session takes its place. */
  function EnsureCurrent(s: Control, found: bool, created: Option<Pointer>): Control {
    if s.pointer.Some? && found then s else CreateAndPoint(s, created, Opened)
  }

  function Reset(s: Control, streaming: bool, created: Option<Pointer>): Control {
    CreateAndPoint(Retire(s, streaming), created, WasReset)
  }

  function SessionCreated(s: Control, session: Pointer, streaming: bool): Control {
    if session.file in s.ownCreations then s.(ownCreations := Forgotten(s.ownCreations, session.file))
    else if FileOf(s.pointer) == Some(session.file) then s
    else MovePointer(Retire(s, streaming), session, Adopted)
  }

  /** What a send does before the message is handed over: ensure a session, and replace one that does not load. */
  function SendTarget(s: Control, found: bool, created: Option<Pointer>, loads: bool,
                      createdAgain: Option<Pointer>): Control {
    var t := EnsureCurrent(s, found, created);
    if (s.pointer.None? || !found) && created.None? then t
    else if loads then t
    else CreateAndPoint(t, createdAgain, Opened)
  }

  class AssistantController {
    var pointer: Option<Pointer>
    var ownCreations: seq<File>
    var pinned: set<File>
    ghost var log: seq<Note>

    ghost function State(): Control
      reads this
    {
      Control(pointer, ownCreations, pinned, log)
    }

    /** The pointer as read back from the state directory. */
    constructor (read: Option<Pointer>)
      ensures State() == Started(read)
    {
      pointer, ownCreations, log := read, [], [];
      pinned := if read.Some? then {read.value.file} else {};
    }

    method Move(to: Pointer, ghost why: Why)
      modifies this
      ensures State() == MovePointer(old(State()), to, why)
    {
      var previous := FileOf(pointer);
      if pointer.Some? && pointer.value.file == to.file && pointer.value.sessionId == to.sessionId {
        return;
      }
      if previous.Some? && previous.value != to.file {
        pinned := pinned - {previous.value};
      }
      pointer := Some(to);
      pinned := pinned + {to.file};
      log := log + [Moved(previous, to.file, why)];
    }

    method RetireCurrent(streaming: bool)
      modifies this
      ensures State() == Retire(old(State()), streaming)
    {
      if pointer.Some? {
        log := log + (if streaming then [Aborted(pointer.value.file)] else []) + [Retired(pointer.value.file)];
      }
    }

    method Create(created: Option<Pointer>, ghost why: Why) returns (ok: bool)
      modifies this
      ensures State() == CreateAndPoint(old(State()), created, why) && ok == created.Some?
    {
      if created.None? {
        return false;
      }
      if created.value.file !in ownCreations {
        ownCreations := ownCreations + [created.value.file];
      }
      if |ownCreations| > OWN_KEPT {
        ownCreations := ownCreations[1..];
      }
      Move(created.value, why);
      return true;
    }

    method EnsureCurrentUnqueued(found: bool, created: Option<Pointer>) returns (ok: bool)
      modifies this
      ensures State() == EnsureCurrent(old(State()), found, created)
      ensures ok == ((old(pointer).Some? && found) || created.Some?)
    {
      if pointer.Some? && found {
        return true;
      }
      ok := Create(created, Opened);
    }

    method ResetSession(streaming: bool, created: Option<Pointer>)
      modifies this
      ensures State() == Reset(old(State()), streaming, created)
    {
      RetireCurrent(streaming);
      var ok := Create(created, WasReset);
    }

    /** The pool reports a session that appeared among the assistant's, whoever made it. */
    method HandleSessionCreated(session: Pointer, streaming: bool)
      modifies this
      ensures State() == SessionCreated(old(State()), session, streaming)
    {
      if session.file in ownCreations {
        ownCreations := Forgotten(ownCreations, session.file);
        return;
      }
      if pointer.Some? && pointer.value.file == session.file {
        return;
      }
      RetireCurrent(streaming);
      Move(session, Adopted);
    }

    method TargetForSend(found: bool, created: Option<Pointer>, loads: bool, createdAgain: Option<Pointer>)
      modifies this
      ensures State() == SendTarget(old(State()), found, created, loads, createdAgain)
    {
      var ok := EnsureCurrentUnqueued(found, created);
      if ok && !loads {
        ok := Create(createdAgain, Opened);
      }
    }
  }

  function Started(read: Option<Pointer>): Control {
    Control(read, [], if read.Some? then {read.value.file} else {}, [])
  }

  // -------------------------------------------------------------------------
  // Runs

  /** The controller, the callbacks still to come for sessions it created, and every session it created. */
  datatype System = System(ctl: Control, outstanding: seq<File>, own: set<File>)

  datatype Event =
    | Open(found: bool, created: Option<Pointer>)
    | ResetNow(streaming: bool, created: Option<Pointer>)
    | Send(found: bool, created: Option<Pointer>, loads: bool, createdAgain: Option<Pointer>)
    | Callback(session: Pointer, streaming: bool)

  function Created(y: System, ctl: Control, created: Option<Pointer>): System {
    if created.None? then y.(ctl := ctl)
    else System(ctl, y.outstanding + [created.value.file], y.own + {created.value.file})
  }

  /** The session pointed at is still there. */
  predicate Keeps(y: System, found: bool) {
    y.ctl.pointer.Some? && found
  }

  function Step(y: System, e: Event): System {
    match e
    case Open(found, created) =>
      Created(y, EnsureCurrent(y.ctl, found, created), if Keeps(y, found) then None else created)
    case ResetNow(streaming, created) => Created(y, Reset(y.ctl, streaming, created), created)
    case Send(found, created, loads, createdAgain) =>
      var ctl := SendTarget(y.ctl, found, created, loads, createdAgain);
      if Keeps(y, found) then Created(y, ctl, if loads then None else createdAgain)
      else Created(Created(y, ctl, created), ctl, if loads || created.None? then None else createdAgain)
    case Callback(session, streaming) =>
      y.(ctl := SessionCreated(y.ctl, session, streaming), outstanding := Forgotten(y.outstanding, session.file))
  }

  /** The pool creates a session under a new name. */
  predicate New(y: System, created: Option<Pointer>) {
    created.Some? ==> created.value.file !in y.own
  }

  /** A session is called back for at most once: an own one only while its callback is outstanding. */
  predicate Legal(y: System, e: Event) {
    match e
    case Open(_, created) => New(y, created)
    case ResetNow(_, created) => New(y, created)
    case Send(_, created, _, createdAgain) =>
      New(y, created) && New(y, createdAgain) && (created.Some? ==> FileOf(createdAgain) != Some(created.value.file))
    case Callback(session, _) => session.file in y.own ==> session.file in y.outstanding
  }

  /** A send that finds no session creates one, and another when that does not load. */
  lemma SendSteps(y: System, found: bool, created: Option<Pointer>, loads: bool, createdAgain: Option<Pointer>)
    ensures var t := if Keeps(y, found) then y else Created(y, CreateAndPoint(y.ctl, created, Opened), created);
            Step(y, Send(found, created, loads, createdAgain)) ==
            if loads || (!Keeps(y, found) && created.None?) then t
            else Created(t, CreateAndPoint(t.ctl, createdAgain, Opened), createdAgain)
  {
  }

  predicate PinnedIsPointer(s: Control) {
    s.pinned == if s.pointer.Some? then {s.pointer.value.file} else {}
  }

  /** A reset or an adoption retires the session it replaces before the pointer moves. */
  predicate RetiredFirst(log: seq<Note>) {
    forall k :: 0 <= k < |log| && log[k].Moved? && !log[k].why.Opened? && log[k].was.Some? ==>
        k > 0 && log[k - 1] == Retired(log[k].was.value)
  }

  predicate Inv(s: Control) {
    PinnedIsPointer(s) && RetiredFirst(s.log)
  }

  /** No callback got lost track of: those outstanding are those remembered. */
  predicate Tracked(y: System) {
    && y.ctl.ownCreations == y.outstanding
    && (forall i, j :: 0 <= i < j < |y.outstanding| ==> y.outstanding[i] != y.outstanding[j])
    && (forall f <- y.outstanding :: f in y.own)
  }

  lemma MoveKeeps(s: Control, to: Pointer, why: Why)
    requires Inv(s)
    requires !why.Opened? && s.pointer.Some? ==> |s.log| > 0 && s.log[|s.log| - 1] == Retired(s.pointer.value.file)
    ensures Inv(MovePointer(s, to, why))
  {
  }

  lemma CreateKeeps(s: Control, created: Option<Pointer>, why: Why)
    requires Inv(s)
    requires !why.Opened? && s.pointer.Some? ==> |s.log| > 0 && s.log[|s.log| - 1] == Retired(s.pointer.value.file)
    ensures Inv(CreateAndPoint(s, created, why))
  {
    if created.Some? {
      MoveKeeps(s.(ownCreations := Remember(s.ownCreations, created.value.file)), created.value, why);
    }
  }

  lemma RetireKeeps(s: Control, streaming: bool)
    requires Inv(s)
    ensures Inv(Retire(s, streaming))
    ensures s.pointer.Some? ==>
            |Retire(s, streaming).log| > 0
                && Retire(s, streaming).log[|Retire(s, streaming).log| - 1] == Retired(s.pointer.value.file)
  {
  }

  lemma StepKeepsInv(y: System, e: Event)
    requires Inv(y.ctl)
    ensures Inv(Step(y, e).ctl)
  {
    match e
    case Open(found, created) => CreateKeeps(y.ctl, created, Opened);
    case ResetNow(streaming, created) =>
      RetireKeeps(y.ctl, streaming);
      CreateKeeps(Retire(y.ctl, streaming), created, WasReset);
    case Send(found, created, loads, createdAgain) =>
      CreateKeeps(y.ctl, created, Opened);
      CreateKeeps(EnsureCurrent(y.ctl, found, created), createdAgain, Opened);
    case Callback(session, streaming) =>
      RetireKeeps(y.ctl, streaming);
      MoveKeeps(Retire(y.ctl, streaming), session, Adopted);
  }

  /** Remembering is adding to a set, which past the bound loses its oldest. */
  lemma RememberAdds(q: seq<File>, file: File)
    requires |q| <= OWN_KEPT && forall i, j :: 0 <= i < j < |q| ==> q[i] != q[j]
    ensures var r := Remember(q, file);
            && file in r && |r| <= OWN_KEPT && (forall i, j :: 0 <= i < j < |r| ==> r[i] != r[j])
            && (if file in q then r == q else r == (if |q| == OWN_KEPT then q[1..] else q) + [file])
  {
    var r := Remember(q, file);
    if file !in q {
      assert r[|r| - 1] == file;
    }
  }

  lemma CreatedTracked(y: System, ctl: Control, created: Option<Pointer>)
    requires Tracked(y) && New(y, created) && ctl.ownCreations == y.ctl.ownCreations
    requires |y.outstanding| < OWN_KEPT || created.None?
    ensures Tracked(Created(y, CreateAndPoint(ctl, created, Opened), created))
    ensures Tracked(Created(y, CreateAndPoint(ctl, created, WasReset), created))
  {
  }

  lemma WithoutTracked(q: seq<File>, file: File)
    requires forall i, j :: 0 <= i < j < |q| ==> q[i] != q[j]
    ensures var r := Forgotten(q, file);
            (forall i, j :: 0 <= i < j < |r| ==> r[i] != r[j]) && (forall f <- r :: f in q) && (file !in q ==> r == q)
  {
    if file !in q {
      IndexOfNone(q, file);
    }
  }

  lemma StepKeepsTracked(y: System, e: Event)
    requires Tracked(y) && Legal(y, e) && |Step(y, e).outstanding| <= OWN_KEPT
    ensures Tracked(Step(y, e))
  {
    match e
    case Open(found, created) =>
      if !Keeps(y, found) {
        CreatedTracked(y, y.ctl, created);
      }
    case ResetNow(streaming, created) => CreatedTracked(y, Retire(y.ctl, streaming), created);
    case Send(found, created, loads, createdAgain) =>
      SendSteps(y, found, created, loads, createdAgain);
      var t := if Keeps(y, found) then y else Created(y, CreateAndPoint(y.ctl, created, Opened), created);
      if !Keeps(y, found) {
        CreatedTracked(y, y.ctl, created);
      }
      if !loads && (Keeps(y, found) || created.Some?) {
        CreatedTracked(t, t.ctl, createdAgain);
      }
    case Callback(session, streaming) => WithoutTracked(y.outstanding, session.file);
  }

  function Run(read: Option<Pointer>, events: seq<Event>): System {
    if |events| == 0 then System(Started(read), [], {})
    else Step(Run(read, events[..|events| - 1]), events[|events| - 1])
  }

  predicate LegalRun(read: Option<Pointer>, events: seq<Event>) {
    forall k :: 0 <= k < |events| ==> Legal(Run(read, events[..k]), events[k])
  }

  /** Never more callbacks to come than the controller remembers. */
  predicate FewOutstanding(read: Option<Pointer>, events: seq<Event>) {
    forall k :: 0 <= k <= |events| ==> |Run(read, events[..k]).outstanding| <= OWN_KEPT
  }

  lemma {:induction false} RunKeepsInv(read: Option<Pointer>, events: seq<Event>)
    ensures Inv(Run(read, events).ctl)
  {
    if |events| > 0 {
      RunKeepsInv(read, events[..|events| - 1]);
      StepKeepsInv(Run(read, events[..|events| - 1]), events[|events| - 1]);
    }
  }

  lemma {:induction false} RunKeepsTracked(read: Option<Pointer>, events: seq<Event>)
    requires LegalRun(read, events) && FewOutstanding(read, events)
    ensures Tracked(Run(read, events))
  {
    if |events| > 0 {
      var before := events[..|events| - 1];
      assert forall k :: 0 <= k <= |before| ==> before[..k] == events[..k];
      assert events[..|events|] == events;
      RunKeepsTracked(read, before);
      StepKeepsTracked(Run(read, before), events[|events| - 1]);
    }
  }

  // -------------------------------------------------------------------------
  // Main results

  /** After every run exactly the pointer's session is pinned. */
  lemma PinnedAlways(read: Option<Pointer>, events: seq<Event>)
    ensures PinnedIsPointer(Run(read, events).ctl)
  {
    RunKeepsInv(read, events);
  }

  /** When a reset or an adoption moves the pointer off a session, retiring that session was the step before. */
  lemma ReplacedIsRetired(read: Option<Pointer>, events: seq<Event>, k: nat)
    requires var log := Run(read, events).ctl.log;
             k < |log| && log[k].Moved? && !log[k].why.Opened? && log[k].was.Some?
    ensures var log := Run(read, events).ctl.log; k > 0 && log[k - 1] == Retired(log[k].was.value)
  {
    RunKeepsInv(read, events);
  }

  /** The callback for a session the controller created changes neither the pointer nor any session. */
  lemma OwnCallbackMovesNothing(read: Option<Pointer>, events: seq<Event>, session: Pointer, streaming: bool)
    requires LegalRun(read, events) && FewOutstanding(read, events)
    requires Legal(Run(read, events), Callback(session, streaming)) && session.file in Run(read, events).own
    ensures var ctl := Run(read, events).ctl;
            Step(Run(read, events), Callback(session, streaming)).ctl ==
                ctl.(ownCreations := Forgotten(ctl.ownCreations, session.file))
  {
    RunKeepsTracked(read, events);
  }

  /** What the controller remembers is the newest of the callbacks to come, at most a hundred. */
  predicate RemembersNewest(y: System) {
    && y.ctl.ownCreations == y.outstanding[if |y.outstanding| > OWN_KEPT then |y.outstanding| - OWN_KEPT else 0..]
    && (forall i, j :: 0 <= i < j < |y.outstanding| ==> y.outstanding[i] != y.outstanding[j])
    && (forall f <- y.outstanding :: f in y.own)
  }

  /** The pointer is the session created last. */
  predicate PointsAtLast(y: System) {
    |y.outstanding| > 0 && FileOf(y.ctl.pointer) == Some(y.outstanding[|y.outstanding| - 1])
  }

  lemma CreatedRemembers(y: System, ctl: Control, created: Option<Pointer>, why: Why)
    requires RemembersNewest(y) && New(y, created) && ctl.ownCreations == y.ctl.ownCreations
    ensures RemembersNewest(Created(y, CreateAndPoint(ctl, created, why), created))
    ensures created.Some? ==> PointsAtLast(Created(y, CreateAndPoint(ctl, created, why), created))
  {
    if created.Some? {
      assert created.value.file !in y.outstanding && created.value.file !in y.ctl.ownCreations;
    }
  }

  /** A step that creates past the bound forgets the oldest callbacks, and points at its last creation. */
  lemma StepPastBound(y: System, e: Event)
    requires Tracked(y) && |y.outstanding| <= OWN_KEPT && Legal(y, e) && |Step(y, e).outstanding| > OWN_KEPT
    ensures RemembersNewest(Step(y, e)) && PointsAtLast(Step(y, e))
  {
    match e
    case Open(found, created) => CreatedRemembers(y, y.ctl, created, Opened);
    case ResetNow(streaming, created) => CreatedRemembers(y, Retire(y.ctl, streaming), created, WasReset);
    case Send(found, created, loads, createdAgain) =>
      SendSteps(y, found, created, loads, createdAgain);
      var t := if Keeps(y, found) then y else Created(y, CreateAndPoint(y.ctl, created, Opened), created);
      CreatedRemembers(y, y.ctl, created, Opened);
      CreatedRemembers(t, t.ctl, createdAgain, Opened);
    case Callback(session, _) =>
  }

  lemma OldestMovesBack(t: System, sessionId: string, streaming: bool)
    requires RemembersNewest(t) && PointsAtLast(t) && |t.outstanding| > OWN_KEPT
    ensures var oldest, last := t.outstanding[0], t.outstanding[|t.outstanding| - 1];
            && Legal(t, Callback(Pointer(oldest, sessionId), streaming)) && last != oldest
            && FileOf(Step(t, Callback(Pointer(oldest, sessionId), streaming)).ctl.pointer) == Some(oldest)
  {
    assert t.outstanding[0] in t.outstanding;
  }

  /** The oldest callback after such a step moves the pointer back, off the session created last. */
  lemma OverflowMovesBack(y: System, e: Event, sessionId: string, streaming: bool)
    requires Tracked(y) && |y.outstanding| <= OWN_KEPT && Legal(y, e) && |Step(y, e).outstanding| > OWN_KEPT
    ensures var t := Step(y, e);
            var oldest, last := t.outstanding[0], t.outstanding[|t.outstanding| - 1];
            && Legal(t, Callback(Pointer(oldest, sessionId), streaming))
            && FileOf(t.ctl.pointer) == Some(last) && last != oldest
            && FileOf(Step(t, Callback(Pointer(oldest, sessionId), streaming)).ctl.pointer) == Some(oldest)
  {
    StepPastBound(y, e);
    OldestMovesBack(Step(y, e), sessionId, streaming);
  }

  /** Every callback to come for a session the controller created will only be ticked off. */
  ghost predicate OwnCallbacksTickOff(y: System) {
    forall session: Pointer, streaming :: session.file in y.outstanding ==>
        Step(y, Callback(session, streaming)).ctl == y.ctl.(ownCreations := Forgotten(y.ctl.ownCreations, session.file))
  }

  /** That holds after a step of any kind exactly when it leaves no more than a hundred callbacks to come. */
  lemma TickOffExactly(y: System, e: Event)
    requires Tracked(y) && |y.outstanding| <= OWN_KEPT && Legal(y, e)
    ensures OwnCallbacksTickOff(Step(y, e)) <==> |Step(y, e).outstanding| <= OWN_KEPT
  {
    if |Step(y, e).outstanding| <= OWN_KEPT {
      StepKeepsTracked(y, e);
    } else {
      OverflowMovesBack(y, e, "", false);
      var session := Pointer(Step(y, e).outstanding[0], "");
      assert session.file in Step(y, e).outstanding;
      assert Step(Step(y, e), Callback(session, false)).ctl.pointer != Step(y, e).ctl.pointer;
    }
  }

  /** So over every run: own callbacks tick off until one more creation than the controller remembers is outstanding. */
  lemma OwnCallbacksExactly(read: Option<Pointer>, events: seq<Event>, e: Event)
    requires LegalRun(read, events) && FewOutstanding(read, events) && Legal(Run(read, events), e)
    ensures OwnCallbacksTickOff(Step(Run(read, events), e)) <==> |Step(Run(read, events), e).outstanding| <= OWN_KEPT
  {
    RunKeepsTracked(read, events);
    assert events[..|events|] == events;
    TickOffExactly(Run(read, events), e);
  }

  /** What a step adds to the log. */
  function Added(y: System, e: Event): seq<Note> {
    var was, now := y.ctl.log, Step(y, e).ctl.log;
    if was <= now then now[|was|..] else []
  }

  /** A reset gives up the session pointed at, and so does another assistant session, unless it is an own creation. */
  predicate GivesUp(y: System, e: Event, file: File) {
    && FileOf(y.ctl.pointer) == Some(file)
    && match e
       case ResetNow(_, _) => true
       case Callback(session, _) => session.file !in y.own && session.file != file
       case Open(_, _) => false
       case Send(_, _, _, _) => false
  }

  lemma SentAdds(y: System, found: bool, created: Option<Pointer>, loads: bool, createdAgain: Option<Pointer>)
    ensures var e := Send(found, created, loads, createdAgain);
            y.ctl.log <= Step(y, e).ctl.log && forall n <- Added(y, e) :: n.Moved?
  {
  }

  /** What giving up a session logs, before the pointer moves. */
  function GivenUp(file: File, streaming: bool): seq<Note> {
    if streaming then [Aborted(file), Retired(file)] else [Retired(file)]
  }

  lemma RetiredIn(moves: seq<Note>, was: File, streaming: bool, file: File)
    requires forall m <- moves :: m.Moved?
    ensures var added := GivenUp(was, streaming) + moves;
            && (Retired(file) in added <==> file == was)
            && (Aborted(file) in added <==> file == was && streaming)
  {
    var front := GivenUp(was, streaming);
    assert Retired(was) == front[|front| - 1];
    if streaming {
      assert Aborted(was) == front[0];
    }
  }

  lemma RetiredAdds(y: System, e: Event, file: File) returns (moves: seq<Note>)
    requires FileOf(y.ctl.pointer) == Some(file)
    requires e.ResetNow? || (e.Callback? && e.session.file !in y.ctl.ownCreations && e.session.file != file)
    ensures y.ctl.log <= Step(y, e).ctl.log && Added(y, e) == GivenUp(file, e.streaming) + moves
    ensures forall m <- moves :: m.Moved?
  {
    var retired := Retire(y.ctl, e.streaming);
    assert retired.log == y.ctl.log + GivenUp(file, e.streaming);
    if e.Callback? {
      moves := MoveAdds(retired, e.session, Adopted);
    } else if e.created.None? {
      moves := [];
    } else {
      var file := e.created.value.file;
      moves := MoveAdds(retired.(ownCreations := Remember(retired.ownCreations, file)), e.created.value, WasReset);
    }
    SinceLog(y.ctl.log, GivenUp(file, e.streaming), moves);
  }

  lemma SinceLog(log: seq<Note>, given: seq<Note>, moves: seq<Note>)
    ensures var now := log + given + moves; log <= now && now[|log|..] == given + moves
  {
  }

  lemma MoveAdds(s: Control, to: Pointer, why: Why) returns (moves: seq<Note>)
    ensures MovePointer(s, to, why).log == s.log + moves && forall m <- moves :: m.Moved?
  {
    moves := if s.pointer == Some(to) then [] else [Moved(FileOf(s.pointer), to.file, why)];
  }

  /**
   * Over every run with at most a hundred callbacks to come: a step retires a session
   * exactly when it is pointed at and given up, and its turn is aborted, first of all,
   * exactly when one is running. No step takes anything back.
   */
  lemma RetiresExactly(read: Option<Pointer>, events: seq<Event>, e: Event, file: File)
    requires LegalRun(read, events) && FewOutstanding(read, events) && Legal(Run(read, events), e)
    ensures var y := Run(read, events);
            && y.ctl.log <= Step(y, e).ctl.log
            && (Retired(file) in Added(y, e) <==> GivesUp(y, e, file))
            && (Aborted(file) in Added(y, e) <==> GivesUp(y, e, file) && e.streaming)
            && (GivesUp(y, e, file) ==> GivenUp(file, e.streaming) <= Added(y, e))
  {
    RunKeepsTracked(read, events);
    RetiresOnce(Run(read, events), e, file);
  }

  lemma RetiresOnce(y: System, e: Event, file: File)
    requires Tracked(y) && Legal(y, e)
    ensures y.ctl.log <= Step(y, e).ctl.log
    ensures Retired(file) in Added(y, e) <==> GivesUp(y, e, file)
    ensures Aborted(file) in Added(y, e) <==> GivesUp(y, e, file) && e.streaming
    ensures GivesUp(y, e, file) ==> GivenUp(file, e.streaming) <= Added(y, e)
  {
    match e
    case Open(_, _) =>
    case Send(found, created, loads, createdAgain) => SentAdds(y, found, created, loads, createdAgain);
    case ResetNow(streaming, created) =>
      if y.ctl.pointer.Some? {
        var moves := RetiredAdds(y, e, y.ctl.pointer.value.file);
        RetiredIn(moves, y.ctl.pointer.value.file, streaming, file);
      }
    case Callback(session, streaming) =>
      if y.ctl.pointer.Some? && session.file !in y.ctl.ownCreations && session.file != y.ctl.pointer.value.file {
        var moves := RetiredAdds(y, e, y.ctl.pointer.value.file);
        RetiredIn(moves, y.ctl.pointer.value.file, streaming, file);
      }
  }

  function Newest(was: Option<Pointer>, created: Option<Pointer>): Option<Pointer> {
    if created.Some? then created else was
  }

  /**
   * And it points where it should: a session that is found and loads is kept, one that
   * is not is replaced, a failed creation changes nothing, a reset points at its new
   * session, and a session that is not an own creation is adopted.
   */
  lemma PointsWhere(read: Option<Pointer>, events: seq<Event>, e: Event)
    requires LegalRun(read, events) && FewOutstanding(read, events) && Legal(Run(read, events), e)
    ensures var y := Run(read, events);
            var was, now := y.ctl.pointer, Step(y, e).ctl.pointer;
            match e
            case Open(found, created) => now == if was.Some? && found then was else Newest(was, created)
            case ResetNow(_, created) => now == Newest(was, created)
            case Send(found, created, loads, createdAgain) =>
              if was.Some? && found then now == if loads then was else Newest(was, createdAgain)
              else if created.None? then now == was
              else now == if loads then created else Newest(created, createdAgain)
            case Callback(session, _) =>
              now == if session.file in y.own || FileOf(was) == Some(session.file) then was else Some(session)
  {
    RunKeepsTracked(read, events);
  }
}
