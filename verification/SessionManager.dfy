/** The session manager: one lock around the manager's fields, tasks that take the session out
    of the lock, work on it and put it back, and a watchdog task per session that resets the
    manager when the session's shutdown is triggered.

    Each event is one critical section of the lock (or one move of a task between two of
    them). Every `ShutdownManager` the manager installs is a generation number. */
module SessionManager {
  import opened Common

  datatype Stage = Initialized | Launched | Active

  function Rank(stage: Stage): nat {
    match stage case Initialized => 0 case Launched => 1 case Active => 2
  }

  /** A session object. `gen` is the generation of the shutdown manager it was built with and
      `chan` the key channel it listens on; no two sessions share a channel. `streams` is the
      generation of the shutdown manager its streams were started under. */
  datatype Session = Session(stage: Stage, gen: nat, chan: nat, streams: Option<nat>)

  /** The fields behind the lock that the protocol is about. Contexts carry the number of the
      ANNOUNCE they came from; `watcher` is the task handle of the watchdog. */
  datatype Manager = Manager(
    session: Option<Session>, gen: nat, keys: Option<nat>,
    video: Option<nat>, audio: Option<nat>, watcher: Option<nat>)

  /** A task that holds a session it took out of the manager. */
  datatype Checkout =
    | Launching(session: Session)
    | Starting(session: Session, video: Option<nat>, audio: Option<nat>, stop: nat)

  /** A watchdog: waiting for its generation's shutdown, past that and on its way to the lock,
      or done. An abort takes effect at the task's next await. */
  datatype Phase = Waiting | Fired | Done
  datatype Watchdog = Watchdog(gen: nat, phase: Phase, aborted: bool)

  datatype System = System(
    m: Manager, out: seq<Checkout>, dogs: seq<Watchdog>, triggered: set<nat>, nextChan: nat)

  function Initial(): System {
    System(Manager(None, 0, None, None, None, None), [], [], {}, 0)
  }

  // ---------- Critical sections ----------

  function Abort(dogs: seq<Watchdog>, handle: Option<nat>): seq<Watchdog> {
    if handle.Some? && handle.value < |dogs|
    then dogs[handle.value := dogs[handle.value].(aborted := true)] else dogs
  }

  function ResetManager(m: Manager): Manager {
    Manager(None, m.gen + 1, None, None, None, None)
  }

  /** `reset_session`: aborts the watchdog and installs a fresh shutdown manager. */
  function Reset(s: System): System {
    s.(m := ResetManager(s.m), dogs := Abort(s.dogs, s.m.watcher))
  }

  function Initialize(s: System, ok: bool): System {
    if s.m.session.Some? || s.m.keys.Some? || !ok then s
    else
      var installed := s.m.(session := Some(Session(Initialized, s.m.gen, s.nextChan, None)), keys := Some(s.nextChan));
      if s.m.watcher.Some? then s.(m := installed, nextChan := s.nextChan + 1)
      else s.(m := installed.(watcher := Some(|s.dogs|)), dogs := s.dogs + [Watchdog(s.m.gen, Waiting, false)],
              nextChan := s.nextChan + 1)
  }

  function LaunchTake(s: System): System {
    match s.m.session
    case Some(Session(Initialized, _, _, _)) =>
      s.(m := s.m.(session := None), out := s.out + [Launching(s.m.session.value)])
    case _ => s
  }

  /** The launching task comes back: it puts its session in the slot without looking at it. */
  function LaunchDone(s: System, k: nat, ok: bool): System
    requires k < |s.out| && s.out[k].Launching?
  {
    var rest := s.(out := Without(s.out, k));
    if ok then rest.(m := s.m.(session := Some(s.out[k].session.(stage := Launched)))) else Reset(rest)
  }

  function Announce(s: System, n: nat): System {
    if s.m.session.Some? && s.m.session.value.stage.Launched?
    then s.(m := s.m.(video := Some(n), audio := Some(n))) else s
  }

  /** Both contexts are taken whatever the slot holds. The streams will run under the shutdown
      manager of this moment. */
  function StartTake(s: System): System {
    var taken := s.m.(video := None, audio := None);
    match s.m.session
    case Some(Session(Launched, _, _, _)) =>
      s.(m := taken.(session := None),
         out := s.out + [Starting(s.m.session.value, s.m.video, s.m.audio, s.m.gen)])
    case _ => s.(m := taken)
  }

  /** The session once its streams run. */
  function Started(c: Checkout): Session
    requires c.Starting?
  {
    c.session.(stage := Active, streams := Some(c.stop))
  }

  /** The starting task comes back. With a context missing it only drops its session. */
  function StartDone(s: System, k: nat, ok: bool): System
    requires k < |s.out| && s.out[k].Starting?
  {
    var rest := s.(out := Without(s.out, k));
    if s.out[k].video.None? || s.out[k].audio.None? then rest
    else if ok then rest.(m := s.m.(session := Some(Started(s.out[k]))))
    else Reset(rest)
  }

  /** `stop_session`: nothing at all when the slot is empty. */
  function Stop(s: System): System {
    if s.m.session.None? then s else Reset(s).(triggered := s.triggered + {s.m.gen})
  }

  /** Where `update_keys` delivers: the manager's key channel, for an Active session. */
  function UpdateKeysTarget(s: System): Option<nat> {
    if s.m.gen in s.triggered then None
    else if s.m.session.Some? && s.m.session.value.stage.Active? then s.m.keys
    else None
  }

  datatype Event =
    | EInitialize(ok: bool)
    | ELaunchTake
    | ELaunchDone(k: nat, ok: bool)
    | EAnnounce(n: nat)
    | EStartTake
    | EStartDone(k: nat, ok: bool)
    | EAbandon(k: nat)
    | EStop
    | ETrigger(gen: nat)
    | EFire(w: nat, global: bool)
    | EDogReset(w: nat)

  /** The watchdog has seen the shutdown and would reset the manager next. */
  predicate CanReset(s: System, w: nat) {
    w < |s.dogs| && s.dogs[w].phase.Fired? && !s.dogs[w].aborted
  }

  function DogReset(s: System, w: nat): System
    requires w < |s.dogs|
  {
    var r := Reset(s);
    if w < |r.dogs| then r.(dogs := r.dogs[w := r.dogs[w].(phase := Done)]) else r
  }

  function Step(s: System, e: Event): System {
    match e
    case EInitialize(ok) => Initialize(s, ok)
    case ELaunchTake => LaunchTake(s)
    case ELaunchDone(k, ok) => if k < |s.out| && s.out[k].Launching? then LaunchDone(s, k, ok) else s
    case EAnnounce(n) => Announce(s, n)
    case EStartTake => StartTake(s)
    case EStartDone(k, ok) => if k < |s.out| && s.out[k].Starting? then StartDone(s, k, ok) else s
    case EAbandon(k) => if k < |s.out| then s.(out := Without(s.out, k)) else s
    case EStop => Stop(s)
    case ETrigger(gen) => s.(triggered := s.triggered + {gen})
    case EFire(w, global) =>
      if w < |s.dogs| && s.dogs[w].phase.Waiting? && !s.dogs[w].aborted && (global || s.dogs[w].gen in s.triggered)
      then s.(dogs := s.dogs[w := s.dogs[w].(phase := Fired)], triggered := s.triggered + {s.dogs[w].gen})
      else s
    case EDogReset(w) => if CanReset(s, w) then DogReset(s, w) else s
  }

  function Run(s: System, es: seq<Event>): System
    decreases |es|
  {
    if es == [] then s else Run(Step(s, es[0]), es[1..])
  }

  // ---------- What every interleaving keeps ----------

  predicate Live(d: Watchdog) {
    !d.aborted && !d.phase.Done?
  }

  /** The key sender exists exactly with a watchdog handle. The live watchdog is the one in the
      handle and watches the current generation; all others watched earlier ones. */
  ghost predicate Guarded(s: System) {
    && (s.m.keys.Some? <==> s.m.watcher.Some?)
    && (forall w: nat :: w < |s.dogs| && Live(s.dogs[w]) <==> s.m.watcher == Some(w))
    && (forall w: nat :: w < |s.dogs| ==> if Live(s.dogs[w]) then s.dogs[w].gen == s.m.gen else s.dogs[w].gen < s.m.gen)
  }

  /** A session object belongs to the current generation exactly when it listens on the
      manager's key channel; otherwise it is left over from an earlier one. */
  predicate Placed(s: System, x: Session) {
    && x.gen <= s.m.gen && x.chan < s.nextChan
    && (x.gen == s.m.gen <==> s.m.keys == Some(x.chan))
    && (x.stage.Active? <==> x.streams.Some?)
    && (x.streams.Some? ==> x.gen <= x.streams.value <= s.m.gen)
  }

  /** Every session object, in the slot or checked out, is placed, and no two share a channel:
      so at most one object of the current generation exists. */
  ghost predicate Generations(s: System) {
    && (s.m.keys.Some? ==> s.m.keys.value < s.nextChan)
    && (s.m.session.Some? ==> Placed(s, s.m.session.value))
    && (forall k :: 0 <= k < |s.out| ==> Placed(s, s.out[k].session))
    && (forall k :: 0 <= k < |s.out| && s.out[k].Starting? ==> s.out[k].session.gen <= s.out[k].stop <= s.m.gen)
    && (forall j, k :: 0 <= j < k < |s.out| ==> s.out[j].session.chan != s.out[k].session.chan)
    && (s.m.session.Some? ==> forall k :: 0 <= k < |s.out| ==> s.out[k].session.chan != s.m.session.value.chan)
  }

  /** Stored contexts are a pair from one ANNOUNCE and never rest beside an empty slot or a
      session that was not launched. */
  ghost predicate Contexts(s: System) {
    && s.m.video == s.m.audio
    && (s.m.video.Some? ==> s.m.session.Some? && !s.m.session.value.stage.Initialized?)
    && (forall k :: 0 <= k < |s.out| && s.out[k].Starting? ==>
          s.out[k].session.stage.Launched? && s.out[k].video == s.out[k].audio)
    && (forall k :: 0 <= k < |s.out| && s.out[k].Launching? ==> s.out[k].session.stage.Initialized?)
  }

  ghost predicate Inv(s: System) {
    Guarded(s) && Generations(s) && Contexts(s)
  }

  lemma ResetKeepsInv(s: System)
    requires Inv(s)
    ensures Inv(Reset(s)) && Reset(s).m.gen == s.m.gen + 1
  {}

  lemma DropKeepsInv(s: System, k: nat)
    requires Inv(s) && k < |s.out|
    ensures Inv(s.(out := Without(s.out, k)))
  {}

  /** The session a task puts back: launched, or with its streams running. */
  function Returned(c: Checkout): Session {
    if c.Launching? then c.session.(stage := Launched) else Started(c)
  }

  /** Putting a checked-out session back, whatever the slot holds by then. */
  lemma PutBackKeepsInv(s: System, k: nat)
    requires Inv(s) && k < |s.out|
    ensures Inv(s.(out := Without(s.out, k), m := s.m.(session := Some(Returned(s.out[k])))))
  {}

  lemma TakeKeepsInv(s: System, c: Checkout, m: Manager)
    requires Inv(s) && s.m.session == Some(c.session)
    requires m == s.m.(session := None, video := None, audio := None)
    requires c.Launching? ==> c.session.stage.Initialized?
    requires c.Starting? ==> c.session.stage.Launched? && c.video == c.audio && c.stop == s.m.gen
    ensures Inv(s.(m := m, out := s.out + [c]))
  {}

  lemma InitializeKeepsInv(s: System, ok: bool)
    requires Inv(s)
    ensures Inv(Initialize(s, ok))
    ensures s.m.session.None? && s.m.keys.None? ==> s.m.watcher.None?
  {}

  lemma DogResetKeepsInv(s: System, w: nat)
    requires Inv(s) && CanReset(s, w)
    ensures Inv(DogReset(s, w))
  {}

  lemma FireKeepsInv(s: System, w: nat, global: bool)
    requires Inv(s)
    ensures Inv(Step(s, EFire(w, global)))
  {}

  lemma TakesKeepInv(s: System)
    requires Inv(s)
    ensures Inv(LaunchTake(s)) && Inv(StartTake(s))
  {
    if s.m.session.Some? && s.m.session.value.stage.Initialized? {
      TakeKeepsInv(s, Launching(s.m.session.value), LaunchTake(s).m);
    }
    if s.m.session.Some? && s.m.session.value.stage.Launched? {
      TakeKeepsInv(s, Starting(s.m.session.value, s.m.video, s.m.audio, s.m.gen), StartTake(s).m);
    }
  }

  lemma ReturnsKeepInv(s: System, k: nat, ok: bool)
    requires Inv(s) && k < |s.out|
    ensures s.out[k].Launching? ==> Inv(LaunchDone(s, k, ok))
    ensures s.out[k].Starting? ==> Inv(StartDone(s, k, ok))
  {
    DropKeepsInv(s, k);
    PutBackKeepsInv(s, k);
    ResetKeepsInv(s.(out := Without(s.out, k)));
  }

  lemma StepKeepsInv(s: System, e: Event)
    requires Inv(s)
    ensures Inv(Step(s, e))
  {
    match e
    case EInitialize(ok) =>
      InitializeKeepsInv(s, ok);
    case ELaunchTake =>
      TakesKeepInv(s);
    case ELaunchDone(k, ok) =>
      if k < |s.out| {
        ReturnsKeepInv(s, k, ok);
      }
    case EStartTake =>
      TakesKeepInv(s);
    case EStartDone(k, ok) =>
      if k < |s.out| {
        ReturnsKeepInv(s, k, ok);
      }
    case EAbandon(k) =>
      if k < |s.out| {
        DropKeepsInv(s, k);
      }
    case EStop =>
      ResetKeepsInv(s);
    case EFire(w, global) =>
      FireKeepsInv(s, w, global);
    case EDogReset(w) =>
      if CanReset(s, w) {
        DogResetKeepsInv(s, w);
      }
    case _ =>
  }

  /** Whatever the interleaving, whenever the lock is free the watchdog, generation and context
      invariants hold. */
  lemma {:induction false} EveryInterleavingIsGuarded(s: System, es: seq<Event>)
    requires Inv(s)
    ensures Guarded(Run(s, es)) && Generations(Run(s, es)) && Contexts(Run(s, es))
    decreases |es|
  {
    if es != [] {
      StepKeepsInv(s, es[0]);
      EveryInterleavingIsGuarded(Step(s, es[0]), es[1..]);
    }
  }

  lemma InitialInv()
    ensures Inv(Initial())
  {}

  // ---------- Consequences ----------

  /** At most one session of the current generation exists anywhere, in every interleaving. */
  lemma OneSessionPerGeneration(es: seq<Event>, x: Session, y: Session)
    requires var s := Run(Initial(), es);
             Has(s, x) && Has(s, y) && x.gen == y.gen == s.m.gen
    ensures x == y
  {
    InitialInv();
    EveryInterleavingIsGuarded(Initial(), es);
  }

  /** The object is in the slot or checked out. */
  ghost predicate Has(s: System, x: Session) {
    s.m.session == Some(x) || exists k :: 0 <= k < |s.out| && s.out[k].session == x
  }

  /** The branch that finds a watchdog already running is dead: it is reached only past the
      guard that the slot and the key sender are empty. */
  lemma WatchdogNeverAlreadyRunning(es: seq<Event>)
    ensures var s := Run(Initial(), es); s.m.session.None? && s.m.keys.None? ==> s.m.watcher.None?
  {
    InitialInv();
    EveryInterleavingIsGuarded(Initial(), es);
  }

  /** A watchdog on its way to the lock belongs to the current generation exactly when it was
      not aborted, so its reset never wipes a session of a later generation. */
  lemma ResetHitsOwnGenerationIffNotAborted(es: seq<Event>, w: nat)
    requires w < |Run(Initial(), es).dogs| && Run(Initial(), es).dogs[w].phase.Fired?
    ensures var s := Run(Initial(), es);
            && (s.dogs[w].gen == s.m.gen <==> CanReset(s, w))
            && (CanReset(s, w) && s.m.session.Some? ==> s.m.session.value.gen <= s.dogs[w].gen)
  {
    InitialInv();
    EveryInterleavingIsGuarded(Initial(), es);
  }

  /** If an abort did not stop a watchdog that is already running towards the lock, its reset
      would wipe the session of a later generation. */
  lemma LateResetWouldWipeNextSession()
    ensures var s := Run(Initial(), [EInitialize(true), ETrigger(0), EFire(0, false), EStop, EInitialize(true)]);
            && 0 < |s.dogs| && s.dogs[0] == Watchdog(0, Fired, true)
            && s.m.session == Some(Session(Initialized, 1, 1, None))
            && DogReset(s, 0).m.session == None
  {}

  /** In every reachable state keys are accepted exactly when the slot holds an Active session, the
      current generation is not shutting down and a key sender is installed. They reach that
      session exactly when it is not left over. */
  lemma KeysReachSessionIffCurrent(es: seq<Event>)
    ensures var s := Run(Initial(), es);
            var x := s.m.session;
            && (UpdateKeysTarget(s).Some? <==>
                  x.Some? && x.value.stage == Active && s.m.gen !in s.triggered && s.m.keys.Some?)
            && (UpdateKeysTarget(s).Some? ==>
                  (UpdateKeysTarget(s) == Some(x.value.chan) <==> x.value.gen == s.m.gen))
  {
    InitialInv();
    EveryInterleavingIsGuarded(Initial(), es);
  }

  // ---------- What each step does to the slot, the generation and the contexts ----------

  /** The steps that reset the manager: a stop with a session in the slot, a failed launch, a
      failed start that had its contexts, and a watchdog that was not aborted. */
  predicate Resets(s: System, e: Event) {
    match e
    case EStop => s.m.session.Some?
    case ELaunchDone(k, ok) => k < |s.out| && s.out[k].Launching? && !ok
    case EStartDone(k, ok) =>
      k < |s.out| && s.out[k].Starting? && s.out[k].video.Some? && s.out[k].audio.Some? && !ok
    case EDogReset(w) => w < |s.dogs| && s.dogs[w] == Watchdog(s.dogs[w].gen, Fired, false)
    case _ => false
  }

  /** Exactly these steps end a generation, and they clear everything behind the lock. A stop also
      triggers the shutdown of the generation it ends. */
  lemma ResetsEndGenerations(s: System, e: Event)
    ensures Step(s, e).m.gen == s.m.gen + (if Resets(s, e) then 1 else 0)
    ensures Resets(s, e) ==> Step(s, e).m == Manager(None, s.m.gen + 1, None, None, None, None)
    ensures Resets(s, e) && s.m.watcher.Some? && s.m.watcher.value < |s.dogs| ==>
              |Step(s, e).dogs| == |s.dogs| && Step(s, e).dogs[s.m.watcher.value].aborted
    ensures e.EStop? && s.m.session.Some? ==> s.m.gen in Step(s, e).triggered
  {}

  /** What a step puts into the slot if it does not reset: a new session where slot and key sender
      are empty, a returning one whatever is there, and nothing where one is taken out. */
  lemma SlotAfterStep(s: System, e: Event)
    requires !Resets(s, e)
    ensures Step(s, e).m.session ==
            if e == EInitialize(true) && s.m.session.None? && s.m.keys.None?
            then Some(Session(Initialized, s.m.gen, s.nextChan, None))
            else if e.ELaunchDone? && e.k < |s.out| && s.out[e.k].Launching?
            then Some(Session(Launched, s.out[e.k].session.gen, s.out[e.k].session.chan, s.out[e.k].session.streams))
            else if && e.EStartDone? && e.k < |s.out| && s.out[e.k].Starting?
                    && s.out[e.k].video.Some? && s.out[e.k].audio.Some?
            then Some(Session(Active, s.out[e.k].session.gen, s.out[e.k].session.chan, Some(s.out[e.k].stop)))
            else if e.ELaunchTake? && s.m.session.Some? && s.m.session.value.stage == Initialized then None
            else if e.EStartTake? && s.m.session.Some? && s.m.session.value.stage == Launched then None
            else s.m.session
  {}

  /** The last ANNOUNCE made while the slot held a Launched session. */
  function LastAnnounce(es: seq<Event>): int {
    if es == [] then -1
    else
      var n := |es| - 1;
      var slot := Run(Initial(), es[..n]).m.session;
      if es[n].EAnnounce? && slot.Some? && slot.value.stage == Launched then n else LastAnnounce(es[..n])
  }

  /** The last start request or reset: earlier contexts are gone. */
  function LastClear(es: seq<Event>): int {
    if es == [] then -1
    else
      var n := |es| - 1;
      if es[n].EStartTake? || Resets(Run(Initial(), es[..n]), es[n]) then n else LastClear(es[..n])
  }

  lemma RunSnoc(es: seq<Event>)
    requires es != []
    ensures var n := |es| - 1; Run(Initial(), es) == Step(Run(Initial(), es[..n]), es[n])
  {
    var n := |es| - 1;
    RunConcat(Initial(), es[..n], [es[n]]);
    assert es == es[..n] + [es[n]];
    assert Run(Run(Initial(), es[..n]), [es[n]]) == Step(Run(Initial(), es[..n]), es[n]);
  }

  lemma ContextsAfterStep(s: System, e: Event)
    ensures Step(s, e).m.video ==
            if e.EStartTake? || Resets(s, e) then None
            else if e.EAnnounce? && s.m.session.Some? && s.m.session.value.stage == Launched then Some(e.n)
            else s.m.video
  {}

  /** After any run the stored contexts are those of the latest accepted ANNOUNCE, unless a start
      request or a reset came since. */
  lemma {:induction false} ContextsAreLatestAnnounce(es: seq<Event>)
    ensures var a := LastAnnounce(es);
            && -1 <= a < |es| && (a >= 0 ==> es[a].EAnnounce?) && -1 <= LastClear(es) < |es|
            && Run(Initial(), es).m.video == Run(Initial(), es).m.audio
            && Run(Initial(), es).m.video == if a > LastClear(es) then Some(es[a].n) else None
  {
    InitialInv();
    EveryInterleavingIsGuarded(Initial(), es);
    if es != [] {
      var n := |es| - 1;
      ContextsAreLatestAnnounce(es[..n]);
      RunSnoc(es);
      ContextsAfterStep(Run(Initial(), es[..n]), es[n]);
    }
  }

  // ---------- Stages only move forward ----------

  /** The object the session was before: the same one, or an earlier stage of it. */
  ghost predicate Continues(s: System, y: Session) {
    exists x :: Has(s, x) && Becomes(x, y)
  }

  /** A session keeps its generation and channel, its stage never goes back, and its streams,
      once started, stay under one shutdown manager. */
  predicate Becomes(x: Session, y: Session) {
    && x.chan == y.chan && x.gen == y.gen && Rank(x.stage) <= Rank(y.stage)
    && (x.streams.Some? ==> y.streams == x.streams)
  }

  lemma ReturnContinues(s: System, k: nat)
    requires Inv(s) && k < |s.out|
    ensures Continues(s, Returned(s.out[k]))
  {
    assert Has(s, s.out[k].session) && Becomes(s.out[k].session, Returned(s.out[k]));
  }

  lemma HeldBefore(s: System, k: nat, y: Session)
    requires k < |s.out| && exists j :: 0 <= j < |s.out| - 1 && Without(s.out, k)[j].session == y
    ensures Has(s, y)
  {}

  lemma ReturnNeverRewinds(s: System, k: nat, t: System, y: Session)
    requires Inv(s) && k < |s.out| && Has(t, y) && t.out == Without(s.out, k)
    requires t.m.session.None? || t.m.session == s.m.session || t.m.session == Some(Returned(s.out[k]))
    ensures Continues(s, y)
  {
    if t.m.session == Some(y) && t.m.session != s.m.session {
      ReturnContinues(s, k);
    } else if t.m.session != Some(y) {
      HeldBefore(s, k, y);
    }
    assert Has(s, y) ==> Becomes(y, y);
  }

  lemma StepNeverRewinds(s: System, e: Event, y: Session)
    requires Inv(s) && Has(Step(s, e), y) && y.chan < s.nextChan
    ensures Continues(s, y)
  {
    if Has(s, y) {
      assert Becomes(y, y);
      return;
    }
    match e
    case ELaunchDone(k, ok) =>
      ReturnNeverRewinds(s, k, Step(s, e), y);
    case EStartDone(k, ok) =>
      ReturnNeverRewinds(s, k, Step(s, e), y);
    case EAbandon(k) =>
      HeldBefore(s, k, y);
    case _ =>
  }

  lemma ChannelsOnlyGrow(s: System, e: Event)
    ensures s.nextChan <= Step(s, e).nextChan
  {}

  /** Over any run a session never comes back once gone, never changes generation or channel,
      its stage only moves Initialized, Launched, Active, and its streams never change hands. */
  lemma {:induction false} StagesOnlyMoveForward(s: System, es: seq<Event>, y: Session)
    requires Inv(s) && Has(Run(s, es), y) && y.chan < s.nextChan
    ensures Continues(s, y)
    decreases |es|
  {
    if es == [] {
      assert Becomes(y, y);
    } else {
      var t := Step(s, es[0]);
      StepKeepsInv(s, es[0]);
      ChannelsOnlyGrow(s, es[0]);
      StagesOnlyMoveForward(t, es[1..], y);
      var x :| Has(t, x) && Becomes(x, y);
      StepNeverRewinds(s, es[0], x);
      var w :| Has(s, w) && Becomes(w, x);
      assert Becomes(w, y);
    }
  }

  // ---------- Streams started for a left-over session ----------

  /** Streams are started under the generation their session was built with exactly when the
      session is current as it is taken out. */
  lemma StreamsGetOwnGenerationIffCurrent(es: seq<Event>)
    ensures var s := Run(Initial(), es);
            s.m.session.Some? && s.m.session.value.stage.Launched? ==>
              && StartTake(s).out == s.out + [Starting(s.m.session.value, s.m.video, s.m.audio, s.m.gen)]
              && (Started(StartTake(s).out[|s.out|]).streams == Some(s.m.session.value.gen) <==>
                    s.m.keys == Some(s.m.session.value.chan))
  {
    InitialInv();
    EveryInterleavingIsGuarded(Initial(), es);
  }

  // ---------- Contexts beside a session that cannot use them ----------

  /** Stored contexts rest only beside a Launched session. */
  predicate ContextsFit(s: System) {
    s.m.video.Some? ==> s.m.session.Some? && s.m.session.value.stage.Launched?
  }

  /** A starting task puts its session back while the contexts of a later ANNOUNCE are stored. */
  predicate StrandsContexts(s: System, e: Event) {
    && e.EStartDone? && e.ok && e.k < |s.out| && s.out[e.k].Starting?
    && s.out[e.k].video.Some? && s.out[e.k].audio.Some? && s.m.video.Some?
  }

  /** Exactly one kind of event leaves contexts beside a session that is not Launched. */
  lemma ContextsFitIffNotStranded(s: System, e: Event)
    requires Inv(s) && ContextsFit(s)
    ensures ContextsFit(Step(s, e)) <==> !StrandsContexts(s, e)
  {}

  ghost predicate NothingStrands(s: System, es: seq<Event>)
    decreases |es|
  {
    es == [] || (!StrandsContexts(s, es[0]) && NothingStrands(Step(s, es[0]), es[1..]))
  }

  /** So contexts rest only beside a Launched session as long as no such event happens. */
  lemma {:induction false} ContextsFitUntilStranded(s: System, es: seq<Event>)
    requires Inv(s) && ContextsFit(s) && NothingStrands(s, es)
    ensures ContextsFit(Run(s, es))
    decreases |es|
  {
    if es != [] {
      StepKeepsInv(s, es[0]);
      ContextsFitIffNotStranded(s, es[0]);
      ContextsFitUntilStranded(Step(s, es[0]), es[1..]);
    }
  }

  lemma {:induction false} RunConcat(s: System, a: seq<Event>, b: seq<Event>)
    ensures Run(s, a + b) == Run(Run(s, a), b)
    decreases |a|
  {
    if a == [] {
      assert a + b == b;
    } else {
      assert (a + b)[0] == a[0] && (a + b)[1..] == a[1..] + b;
      RunConcat(Step(s, a[0]), a[1..], b);
    }
  }

  // A session is launched, announced and being started when its watchdog resets the manager;
  // a second session is launched and announced in the meantime.
  const LAUNCH: seq<Event> := [EInitialize(true), ELaunchTake, ELaunchDone(0, true)]
  const START: seq<Event> := [EAnnounce(1), EStartTake]
  const RESET_BY_WATCHDOG: seq<Event> := [ETrigger(0), EFire(0, false), EDogReset(0)]
  const LAUNCH_AGAIN: seq<Event> := [EInitialize(true), ELaunchTake, ELaunchDone(1, true)]
  const LATE_RETURN: seq<Event> := [EAnnounce(2), EStartDone(0, true)]

  const FIRST_LAUNCHED: System :=
    System(Manager(Some(Session(Launched, 0, 0, None)), 0, Some(0), None, None, Some(0)),
           [], [Watchdog(0, Waiting, false)], {}, 1)

  const FIRST_STARTING: System :=
    FIRST_LAUNCHED.(m := FIRST_LAUNCHED.m.(session := None),
                   out := [Starting(Session(Launched, 0, 0, None), Some(1), Some(1), 0)])

  const FIRST_RESET: System :=
    FIRST_STARTING.(m := Manager(None, 1, None, None, None, None), dogs := [Watchdog(0, Done, true)], triggered := {0})

  const SECOND_LAUNCHED: System :=
    FIRST_RESET.(m := Manager(Some(Session(Launched, 1, 1, None)), 1, Some(1), None, None, Some(1)),
                dogs := FIRST_RESET.dogs + [Watchdog(1, Waiting, false)], nextChan := 2)

  lemma FirstSessionIsLaunched()
    ensures Run(Initial(), LAUNCH) == FIRST_LAUNCHED
  {
    var s := Step(Step(Initial(), LAUNCH[0]), LAUNCH[1]);
    assert s.out == [Launching(Session(Initialized, 0, 0, None))] && Without(s.out, 0) == [];
    assert Run(s, LAUNCH[2..]) == Step(s, LAUNCH[2]);
    RunTwo(Initial(), LAUNCH);
  }

  lemma FirstSessionIsStarting()
    ensures Run(FIRST_LAUNCHED, START) == FIRST_STARTING
  {
    RunTwo(FIRST_LAUNCHED, START);
  }

  lemma FirstSessionIsReset()
    ensures Run(FIRST_STARTING, RESET_BY_WATCHDOG) == FIRST_RESET
  {
    var s := Step(Step(FIRST_STARTING, RESET_BY_WATCHDOG[0]), RESET_BY_WATCHDOG[1]);
    assert s == FIRST_STARTING.(dogs := [Watchdog(0, Fired, false)], triggered := {0});
    assert Run(s, RESET_BY_WATCHDOG[2..]) == Step(s, RESET_BY_WATCHDOG[2]);
    RunTwo(FIRST_STARTING, RESET_BY_WATCHDOG);
  }

  lemma SecondSessionIsLaunched()
    ensures Run(FIRST_RESET, LAUNCH_AGAIN) == SECOND_LAUNCHED
  {
    var s := Step(Step(FIRST_RESET, LAUNCH_AGAIN[0]), LAUNCH_AGAIN[1]);
    assert s.out == FIRST_RESET.out + [Launching(Session(Initialized, 1, 1, None))];
    assert Without(s.out, 1) == FIRST_RESET.out;
    assert Run(s, LAUNCH_AGAIN[2..]) == Step(s, LAUNCH_AGAIN[2]);
    RunTwo(FIRST_RESET, LAUNCH_AGAIN);
  }

  lemma RunTwo(s: System, es: seq<Event>)
    requires |es| >= 2
    ensures Run(s, es) == Run(Step(Step(s, es[0]), es[1]), es[2..])
  {
    assert es[1..][1..] == es[2..];
  }

  /** A watchdog reset during a checkout: two sessions exist at once. */
  lemma TwoSessionsAreReachable()
    ensures Run(Initial(), LAUNCH + START + RESET_BY_WATCHDOG + LAUNCH_AGAIN) == SECOND_LAUNCHED
    ensures SECOND_LAUNCHED.m.session.Some? && |SECOND_LAUNCHED.out| == 1 && !Single(SECOND_LAUNCHED)
  {
    FirstSessionIsLaunched();
    FirstSessionIsStarting();
    FirstSessionIsReset();
    SecondSessionIsLaunched();
    RunConcat(Initial(), LAUNCH, START);
    RunConcat(Initial(), LAUNCH + START, RESET_BY_WATCHDOG);
    RunConcat(Initial(), LAUNCH + START + RESET_BY_WATCHDOG, LAUNCH_AGAIN);
  }

  /** When the first session then comes back, the contexts announced for the second rest beside
      an Active session that is left over from the first generation. */
  lemma StaleStartStrandsContexts()
    ensures var s := Run(Initial(), LAUNCH + START + RESET_BY_WATCHDOG + LAUNCH_AGAIN + LATE_RETURN);
            && s.m.session == Some(Session(Active, 0, 0, Some(0))) && s.m.gen == 1
            && s.m.video == Some(2) && !ContextsFit(s)
  {
    TwoSessionsAreReachable();
    RunConcat(Initial(), LAUNCH + START + RESET_BY_WATCHDOG + LAUNCH_AGAIN, LATE_RETURN);
    RunTwo(SECOND_LAUNCHED, LATE_RETURN);
  }

  // The watchdog resets the manager during a launch, and the session that comes back is started.
  const TAKE_OUT: seq<Event> := [EInitialize(true), ELaunchTake]
  const STALE_RETURN: seq<Event> := [ELaunchDone(0, true), EAnnounce(1)]
  const STALE_START: seq<Event> := [EStartTake, EStartDone(0, true)]

  const FIRST_LAUNCHING: System :=
    FIRST_LAUNCHED.(m := FIRST_LAUNCHED.m.(session := None), out := [Launching(Session(Initialized, 0, 0, None))])

  const RESET_LAUNCHING: System :=
    FIRST_LAUNCHING.(m := Manager(None, 1, None, None, None, None), dogs := [Watchdog(0, Done, true)], triggered := {0})

  const STALE_LAUNCHED: System :=
    RESET_LAUNCHING.(m := Manager(Some(Session(Launched, 0, 0, None)), 1, None, Some(1), Some(1), None), out := [])

  lemma LaunchIsReset()
    ensures Run(Initial(), TAKE_OUT) == FIRST_LAUNCHING && Run(FIRST_LAUNCHING, RESET_BY_WATCHDOG) == RESET_LAUNCHING
  {
    RunTwo(Initial(), TAKE_OUT);
    var s := Step(Step(FIRST_LAUNCHING, RESET_BY_WATCHDOG[0]), RESET_BY_WATCHDOG[1]);
    assert s == FIRST_LAUNCHING.(dogs := [Watchdog(0, Fired, false)], triggered := {0});
    assert Run(s, RESET_BY_WATCHDOG[2..]) == Step(s, RESET_BY_WATCHDOG[2]);
    RunTwo(FIRST_LAUNCHING, RESET_BY_WATCHDOG);
  }

  lemma StaleSessionReturns()
    ensures Run(RESET_LAUNCHING, STALE_RETURN) == STALE_LAUNCHED
  {
    assert Without(RESET_LAUNCHING.out, 0) == [];
    RunTwo(RESET_LAUNCHING, STALE_RETURN);
  }

  /** A left-over session can be started: its streams run under a generation that is not its own
      and that no watchdog watches. */
  lemma StaleLaunchStartsUnwatched()
    ensures var s := Run(Initial(), TAKE_OUT + RESET_BY_WATCHDOG + STALE_RETURN + STALE_START);
            s.m == Manager(Some(Session(Active, 0, 0, Some(1))), 1, None, None, None, None)
  {
    LaunchIsReset();
    StaleSessionReturns();
    RunConcat(Initial(), TAKE_OUT, RESET_BY_WATCHDOG);
    RunConcat(Initial(), TAKE_OUT + RESET_BY_WATCHDOG, STALE_RETURN);
    RunConcat(Initial(), TAKE_OUT + RESET_BY_WATCHDOG + STALE_RETURN, STALE_START);
    RunTwo(STALE_LAUNCHED, STALE_START);
  }

  // ---------- A failed return ----------

  /** A failed launch or start resets the manager whatever generation it is in by then. That is
      the generation of the failed task's own session exactly when that session is not left
      over, and never if a session of the current generation is in the slot. */
  lemma FailedReturnHitsOwnGenerationIffCurrent(es: seq<Event>, k: nat)
    requires k < |Run(Initial(), es).out|
    ensures var s := Run(Initial(), es);
            var x := s.out[k].session;
            var t := if s.out[k].Launching? then LaunchDone(s, k, false) else StartDone(s, k, false);
            && t.m == (if s.out[k].Starting? && s.out[k].video.None? then s.m else ResetManager(s.m))
            && (s.m.keys == Some(x.chan) <==> !(x.gen < s.m.gen))
            && (s.m.session.Some? && s.m.session.value.gen == s.m.gen ==> x.gen < s.m.gen)
  {
    InitialInv();
    EveryInterleavingIsGuarded(Initial(), es);
  }

  const FAILED_RETURN: seq<Event> := [EInitialize(true), ELaunchDone(0, false)]

  /** A launch that fails after its manager was reset wipes the session initialized since. */
  lemma FailedLaunchWipesNextSession()
    ensures var s := Run(Initial(), TAKE_OUT + RESET_BY_WATCHDOG);
            var t := Step(s, EInitialize(true));
            && t.m.session == Some(Session(Initialized, 1, 1, None)) && t.m.gen == 1
            && |t.out| == 1 && t.out[0].session.gen == 0
            && Run(Initial(), TAKE_OUT + RESET_BY_WATCHDOG + FAILED_RETURN) == Step(t, ELaunchDone(0, false))
            && Step(t, ELaunchDone(0, false)).m == Manager(None, 2, None, None, None, None)
  {
    LaunchIsReset();
    RunConcat(Initial(), TAKE_OUT, RESET_BY_WATCHDOG);
    RunConcat(Initial(), TAKE_OUT + RESET_BY_WATCHDOG, FAILED_RETURN);
    RunTwo(RESET_LAUNCHING, FAILED_RETURN);
  }

  // ---------- A single session ----------

  /** At most one session object exists; it and its streams are of the current generation, and
      contexts are stored only beside a Launched session. */
  ghost predicate Single(s: System) {
    && |s.out| + (if s.m.session.Some? then 1 else 0) <= 1
    && (forall x :: Has(s, x) ==> x.gen == s.m.gen && s.m.keys == Some(x.chan))
    && (forall x :: Has(s, x) && x.stage.Active? ==> x.streams == Some(s.m.gen))
    && (forall k :: 0 <= k < |s.out| && s.out[k].Starting? ==> s.out[k].stop == s.m.gen)
    && ContextsFit(s)
  }

  /** The event is a watchdog's reset while a task holds a session. */
  predicate ResetsDuringCheckout(s: System, e: Event) {
    e.EDogReset? && CanReset(s, e.w) && s.out != []
  }

  lemma StepKeepsSingle(s: System, e: Event)
    requires Inv(s) && Single(s) && !ResetsDuringCheckout(s, e)
    ensures Single(Step(s, e))
  {
    var t := Step(s, e);
    if s.m.session.Some? {
      assert Has(s, s.m.session.value);
    }
    if s.out != [] {
      assert Has(s, s.out[0].session);
    }
    assert |s.out| <= 1;
    match e
    case EInitialize(ok) =>
    case ELaunchTake =>
    case ELaunchDone(k, ok) =>
    case EStartTake =>
    case EStartDone(k, ok) =>
    case _ =>
  }

  /** No watchdog reset of the run falls between a task taking the session and returning. */
  ghost predicate NoResetDuringCheckout(s: System, es: seq<Event>)
    decreases |es|
  {
    es == [] || (!ResetsDuringCheckout(s, es[0]) && NoResetDuringCheckout(Step(s, es[0]), es[1..]))
  }

  lemma {:induction false} SingleSessionInQuietRuns(s: System, es: seq<Event>)
    requires Inv(s) && Single(s) && NoResetDuringCheckout(s, es)
    ensures Single(Run(s, es))
    decreases |es|
  {
    if es != [] {
      StepKeepsInv(s, es[0]);
      StepKeepsSingle(s, es[0]);
      SingleSessionInQuietRuns(Step(s, es[0]), es[1..]);
    }
  }

  /** In such runs keys reach the Active session of a generation that is not shutting down. */
  lemma KeysReachActiveInQuietRuns(es: seq<Event>)
    requires NoResetDuringCheckout(Initial(), es)
    ensures var s := Run(Initial(), es);
            s.m.session.Some? && s.m.session.value.stage == Active && s.m.gen !in s.triggered ==>
              UpdateKeysTarget(s) == Some(s.m.session.value.chan)
  {
    InitialInv();
    SingleSessionInQuietRuns(Initial(), es);
    var s := Run(Initial(), es);
    assert s.m.session.Some? ==> Has(s, s.m.session.value);
  }

  /** Conversely, every watchdog reset during a checkout can be followed by a second session:
      the manager accepts a new one while the task still holds the old. */
  lemma ResetDuringCheckoutAllowsTwoSessions(s: System, w: nat)
    requires Inv(s) && Single(s) && CanReset(s, w) && s.out != []
    ensures var t := Step(Step(s, EDogReset(w)), EInitialize(true));
            && t.m.session.Some? && t.out == s.out && !Single(t)
            && t.out[0].session.gen < t.m.gen == t.m.session.value.gen
  {}

  // ---------- An abandoned launch ----------

  /** The session is gone although its key sender and watchdog are still installed. */
  ghost predicate Orphaned(s: System) {
    s.m.session.None? && s.m.keys.Some? && s.out == []
  }

  ghost predicate NoReset(s: System, es: seq<Event>)
    decreases |es|
  {
    es == [] || ((es[0].EDogReset? ==> !CanReset(s, es[0].w)) && NoReset(Step(s, es[0]), es[1..]))
  }

  /** An orphaned manager refuses every request, `stop_session` included, until its watchdog
      resets it: the state behind the lock does not change at all. */
  lemma {:induction false} OnlyWatchdogFreesOrphan(s: System, es: seq<Event>)
    requires Inv(s) && Orphaned(s) && NoReset(s, es)
    ensures Orphaned(Run(s, es)) && Run(s, es).m == s.m
    decreases |es|
  {
    if es != [] {
      StepKeepsInv(s, es[0]);
      assert Step(s, es[0]).m == s.m;
      OnlyWatchdogFreesOrphan(Step(s, es[0]), es[1..]);
    }
  }

  /** A shutdown trigger of its generation lets the watchdog free an orphaned manager. */
  lemma ShutdownFreesOrphan(s: System)
    requires Inv(s) && Orphaned(s)
    ensures s.m.watcher.Some?
    ensures var w := s.m.watcher.value;
            var t := Step(Step(Step(s, ETrigger(s.m.gen)), EFire(w, false)), EDogReset(w));
            t.m == ResetManager(s.m) && Initialize(t, true).m.session.Some?
  {
    var w := s.m.watcher.value;
    assert w < |s.dogs| && Live(s.dogs[w]) <==> s.m.watcher == Some(w);
  }

  lemma AbandonedLaunchOrphans(s: System)
    requires Inv(s) && Single(s) && s.m.session.Some? && s.m.session.value.stage.Initialized?
    ensures var orphan := Step(Step(Step(s, ELaunchTake), EAbandon(0)), EStop);
            Inv(orphan) && Orphaned(orphan) && orphan.m.keys == s.m.keys
  {}

  lemma MissingContextOrphans(s: System)
    requires Inv(s) && Single(s) && s.m.session.Some? && s.m.session.value.stage.Launched? && s.m.video.None?
    ensures var orphan := Step(Step(s, EStartTake), EStartDone(0, true));
            Inv(orphan) && Orphaned(orphan) && orphan.m.keys == s.m.keys
  {
    StepKeepsInv(s, EStartTake);
    StepKeepsInv(Step(s, EStartTake), EStartDone(0, true));
  }

  /** Nothing is installed and no task holds a session. */
  predicate Idle(s: System) {
    s.m.session.None? && s.m.keys.None? && s.out == []
  }

  /** The run accepts no session: a request succeeds only where slot and key sender are empty. */
  ghost predicate NoneAccepted(s: System, es: seq<Event>)
    decreases |es|
  {
    es == [] ||
    (&& !(es[0] == EInitialize(true) && s.m.session.None? && s.m.keys.None?)
     && NoneAccepted(Step(s, es[0]), es[1..]))
  }

  lemma {:induction false} IdleStaysIdle(s: System, es: seq<Event>)
    requires Idle(s) && NoneAccepted(s, es)
    ensures Idle(Run(s, es))
    decreases |es|
  {
    if es != [] {
      IdleStaysIdle(Step(s, es[0]), es[1..]);
    }
  }

  /** A new session is accepted on an orphaned manager exactly when its watchdog has reset it. */
  lemma {:induction false} OrphanAcceptsIffReset(s: System, es: seq<Event>)
    requires Inv(s) && Orphaned(s) && NoneAccepted(s, es)
    ensures Initialize(Run(s, es), true).m.session.Some? <==> !NoReset(s, es)
    decreases |es|
  {
    if es != [] {
      var t := Step(s, es[0]);
      StepKeepsInv(s, es[0]);
      if es[0].EDogReset? && CanReset(s, es[0].w) {
        IdleStaysIdle(t, es[1..]);
      } else {
        assert t.m == s.m && t.out == [];
        OrphanAcceptsIffReset(t, es[1..]);
      }
    }
  }

  /** The session is lost outside the lock: a launch is abandoned by its caller's timeout, which
      then calls `stop_session`, or a start finds a context missing. */
  function LoseSession(s: System): System
    requires s.m.session.Some?
  {
    if s.m.session.value.stage.Initialized? then Step(Step(Step(s, ELaunchTake), EAbandon(0)), EStop)
    else Step(Step(s, EStartTake), EStartDone(0, true))
  }

  /** Either way the manager is orphaned, and the retry that the `stop_session` is meant to allow
      is accepted exactly when the watchdog has reset the manager in between. */
  lemma RetryAfterLostSession(s: System, between: seq<Event>)
    requires Inv(s) && Single(s) && s.m.session.Some?
    requires s.m.session.value.stage.Initialized? || (s.m.session.value.stage.Launched? && s.m.video.None?)
    requires NoneAccepted(LoseSession(s), between)
    ensures var orphan := LoseSession(s);
            && Orphaned(orphan) && orphan.m.keys == s.m.keys
            && (Initialize(Run(orphan, between), true).m.session.Some? <==> !NoReset(orphan, between))
  {
    if s.m.session.value.stage.Initialized? {
      AbandonedLaunchOrphans(s);
    } else {
      MissingContextOrphans(s);
    }
    OrphanAcceptsIffReset(LoseSession(s), between);
  }

  // ---------- The fields behind the lock, updated in place ----------

  /** `SessionManagerInner`. Each method is one critical section; the ghost system around it
      supplies the tasks that live outside the lock. */
  class Inner {
    var session: Option<Session>
    var stop: nat
    var keysTx: Option<nat>
    var videoStreamContext: Option<nat>
    var audioStreamContext: Option<nat>
    var stopWatcher: Option<nat>

    ghost function View(): Manager
      reads this
    {
      Manager(session, stop, keysTx, videoStreamContext, audioStreamContext, stopWatcher)
    }

    constructor ()
      ensures View() == Initial().m
    {
      session, stop, keysTx := None, 0, None;
      videoStreamContext, audioStreamContext, stopWatcher := None, None, None;
    }

    /** Returns the watchdog handle it aborts. */
    method ResetSession() returns (aborted: Option<nat>)
      modifies this
      ensures View() == ResetManager(old(View())) && aborted == old(stopWatcher)
    {
      aborted := stopWatcher;
      stopWatcher := None;
      session := None;
      keysTx := None;
      videoStreamContext := None;
      audioStreamContext := None;
      stop := stop + 1;
    }

    method InitializeSession(ghost s: System, ok: bool, chan: nat, task: nat) returns (accepted: bool)
      requires View() == s.m && chan == s.nextChan && task == |s.dogs|
      modifies this
      ensures View() == Initialize(s, ok).m
      ensures accepted == (ok && s.m.session.None? && s.m.keys.None?)
    {
      if session.Some? || keysTx.Some? || !ok {
        return false;
      }
      session := Some(Session(Initialized, stop, chan, None));
      if stopWatcher.None? {
        stopWatcher := Some(task);
      }
      keysTx := Some(chan);
      return true;
    }

    method TakeForLaunch(ghost s: System) returns (taken: Option<Session>)
      requires View() == s.m
      modifies this
      ensures View() == LaunchTake(s).m
      ensures LaunchTake(s).out == if taken.Some? then s.out + [Launching(taken.value)] else s.out
    {
      taken := session;
      session := None;
      if taken.Some? && !taken.value.stage.Initialized? {
        session := taken;
        taken := None;
      }
    }

    method TakeForStart(ghost s: System)
      returns (taken: Option<Session>, video: Option<nat>, audio: Option<nat>, current: nat)
      requires View() == s.m
      modifies this
      ensures View() == StartTake(s).m
      ensures StartTake(s).out == if taken.Some? then s.out + [Starting(taken.value, video, audio, current)] else s.out
    {
      current := stop;
      video, audio := videoStreamContext, audioStreamContext;
      videoStreamContext, audioStreamContext := None, None;
      taken := session;
      session := None;
      if taken.Some? && !taken.value.stage.Launched? {
        session := taken;
        taken := None;
      }
    }

    /** The second critical section of `launch_session`: the slot is overwritten whatever it
        holds by then, or everything is reset. */
    method FinishLaunch(ghost s: System, ghost k: nat, taken: Session, ok: bool)
      requires View() == s.m && k < |s.out| && s.out[k] == Launching(taken)
      modifies this
      ensures View() == LaunchDone(s, k, ok).m
      ensures Inv(s) ==> Inv(LaunchDone(s, k, ok))
    {
      if ok {
        session := Some(taken.(stage := Launched));
      } else {
        var _ := ResetSession();
      }
      if Inv(s) {
        ReturnsKeepInv(s, k, ok);
      }
    }

    /** The rest of `start_session`: with a context missing nothing behind the lock changes. */
    method FinishStart(
      ghost s: System, ghost k: nat, taken: Session, video: Option<nat>, audio: Option<nat>, current: nat, ok: bool)
      requires View() == s.m && k < |s.out| && s.out[k] == Starting(taken, video, audio, current)
      modifies this
      ensures View() == StartDone(s, k, ok).m
      ensures Inv(s) ==> Inv(StartDone(s, k, ok))
    {
      if video.Some? && audio.Some? {
        if ok {
          session := Some(taken.(stage := Active, streams := Some(current)));
        } else {
          var _ := ResetSession();
        }
      }
      if Inv(s) {
        ReturnsKeepInv(s, k, ok);
      }
    }

    method SetStreamContext(ghost s: System, n: nat) returns (ok: bool)
      requires View() == s.m
      modifies this`videoStreamContext, this`audioStreamContext
      ensures View() == Announce(s, n).m
      ensures ok == (s.m.session.Some? && !s.m.session.value.stage.Initialized?)
    {
      if session.Some? && session.value.stage.Launched? {
        videoStreamContext, audioStreamContext := Some(n), Some(n);
      }
      ok := session.Some? && !session.value.stage.Initialized?;
    }

    method StopSession(ghost s: System) returns (stopped: Option<nat>)
      requires View() == s.m
      modifies this
      ensures View() == Stop(s).m
      ensures stopped == if s.m.session.Some? then Some(s.m.gen) else None
    {
      if session.None? {
        return None;
      }
      stopped := Some(stop);
      var _ := ResetSession();
    }

    method UpdateKeys(ghost s: System, stopTriggered: bool) returns (target: Option<nat>)
      requires View() == s.m && stopTriggered == (s.m.gen in s.triggered)
      ensures target == UpdateKeysTarget(s)
    {
      if stopTriggered || !(session.Some? && session.value.stage.Active?) {
        return None;
      }
      return keysTx;
    }
  }
}
