/** The compositor-to-encoder frame relay: three pre-allocated slots with shared `consumed`
    flags, a round-robin cursor, buffer ages for partial redraws, a bounded channel, and a
    second path that lends client buffers to the encoder under stable indices.

    A state holds both parties. The compositor acts through `Tick`, one call of
    `render_and_export`; everything else is the environment (the encoder, the channel). */
module FrameRelay {
  import opened Common

  const POOL_SIZE: nat := 3
  const CHANNEL_CAPACITY: nat := 2

  /** The pixels of a picture, in scan order. */
  type Image = seq<int>

  /** Stands for the object id of a client's `wl_buffer`. */
  type BufferId = nat

  /** A slot of the pool. `last` is the render counter when the slot was last given to the
      damage tracker; `content` is the picture it holds once the GPU has done all work submitted
      for it. */
  datatype Slot = Slot(consumed: bool, last: Option<nat>, content: Image)

  /** An exported frame. A pool frame refers to a slot, so the encoder sees whatever the slot
      holds when it reads; `scene` records what was on screen when the frame was exported. */
  datatype Frame =
    | Pool(slot: nat, scene: Image)
    | Scanout(index: nat, buffer: BufferId, flag: nat)

  /** A client buffer kept alive until the flag of its frame is set. */
  datatype Held = Held(flag: nat, buffer: BufferId)

  /** `log` lists the scenes the damage tracker has stepped through. `unfinished` are the slots
      whose work the GPU may not have done yet, with what their memory shows meanwhile. `leaked` (slots taken and
      never handed over) and `issued` (which buffer each scanout index was given to) only
      record what happened: nothing reads them. */
  datatype State = State(
    slots: seq<Slot>, cursor: nat, renderCount: nat, log: seq<Image>, unfinished: map<nat, Image>,
    queue: seq<Frame>, encoder: seq<Frame>, connected: bool,
    flags: seq<bool>, held: seq<Held>, names: map<BufferId, nat>, nextIndex: nat,
    leaked: set<nat>, issued: map<nat, BufferId>)

  function Initial(): State {
    State(seq(POOL_SIZE, _ => Slot(true, None, [])), 0, 0, [], map[], [], [], true,
          [], [], map[], POOL_SIZE, {}, map[])
  }

  // ---------- The damage tracker, by its contract ----------

  /** The pixels of `b` that differ from `a`. */
  function Changed(a: Image, b: Image): set<nat> {
    set i: nat | i < |b| && (i >= |a| || a[i] != b[i])
  }

  /** The damage accumulated from step `from` of the log up to the new scene. */
  function Damage(log: seq<Image>, from: nat, scene: Image): set<nat>
    decreases |log|
  {
    if from >= |log| then {}
    else Changed(log[|log| - 1], scene) + Damage(log[..|log| - 1], from, log[|log| - 1])
  }

  /** What a render of `scene` into a buffer of the given age repaints: everything for age 0 or
      an age beyond the history, otherwise the damage of the last `age` steps. The tracker may
      always repaint more (`extra`). */
  function Region(log: seq<Image>, age: nat, scene: Image, extra: set<nat>): set<nat> {
    if age == 0 || age > |log| then Changed([], scene)
    else Damage(log, |log| - age, scene) + extra
  }

  /** Painting `scene` over `prev` inside `region` only. */
  function Repaint(prev: Image, scene: Image, region: set<nat>): Image {
    seq(|scene|, i requires 0 <= i < |scene| => if i in region || i >= |prev| then scene[i] else prev[i])
  }

  lemma {:induction false} UndamagedPixelsAgree(log: seq<Image>, from: nat, scene: Image, i: nat, d: nat)
    requires from <= d < |log| && i < |scene|
    requires i !in Damage(log, from, scene)
    ensures i < |log[d]| && log[d][i] == scene[i]
    decreases |log|
  {
    var top := log[|log| - 1];
    assert i !in Changed(top, scene);
    if d < |log| - 1 {
      UndamagedPixelsAgree(log[..|log| - 1], from, top, i, d);
    }
  }

  /** A partial redraw shows the whole scene whenever the age is not smaller than the number of
      tracker steps since the buffer was painted. */
  lemma PartialRedrawIsFullRedraw(log: seq<Image>, age: nat, scene: Image, extra: set<nat>, prev: Image, d: nat)
    requires age == 0 || age > |log| || (d < |log| && prev == log[d] && |log| - d <= age)
    ensures Repaint(prev, scene, Region(log, age, scene, extra)) == scene
  {
    var region := Region(log, age, scene, extra);
    forall i: nat | i < |scene| ensures Repaint(prev, scene, region)[i] == scene[i] {
      if i !in region {
        UndamagedPixelsAgree(log, |log| - age, scene, i, d);
      }
    }
  }

  // ---------- The compositor's steps ----------

  /** What the renderer does once the slot is taken. `WaitFailed` is a render whose fence could
      not be waited for: the frame is sent while memory may still show something else. */
  datatype Outcome =
    | ExportError
    | BindError
    | CollectError
    | Painted(extra: set<nat>)
    | WaitFailed(extra: set<nat>, partial: Image)
    | RenderError(garbage: Image, advanced: bool)

  /** One call of `render_and_export`: skipped because the screen is static, served by direct
      scanout of a client buffer, or composited into the pool. */
  datatype Call =
    | Skip
    | Direct(buffer: BufferId)
    | Composite(scene: Image, outcome: Outcome)

  /** The entries whose flag is still unset. */
  function StillHeld(held: seq<Held>, flags: seq<bool>): seq<Held> {
    if held == [] then []
    else
      var h := held[|held| - 1];
      StillHeld(held[..|held| - 1], flags) + (if IsSet(h, flags) then [] else [h])
  }

  predicate IsSet(h: Held, flags: seq<bool>) {
    h.flag < |flags| && flags[h.flag]
  }

  /** The buffers of the entries whose flag is set. */
  function Released(held: seq<Held>, flags: seq<bool>): set<BufferId> {
    if held == [] then {}
    else
      var h := held[|held| - 1];
      Released(held[..|held| - 1], flags) + (if IsSet(h, flags) then {h.buffer} else {})
  }

  /** Drops held buffers the encoder has finished with, and their names. */
  function Reclaim(s: State): State {
    s.(held := StillHeld(s.held, s.flags), names := s.names - Released(s.held, s.flags))
  }

  function Naming(s: State, b: BufferId): State {
    if b in s.names then s
    else s.(names := s.names[b := s.nextIndex], nextIndex := s.nextIndex + 1, issued := s.issued[s.nextIndex := b])
  }

  /** Sends a client buffer straight to the encoder. */
  function DirectScanout(s: State, b: BufferId): State {
    var n := Naming(s, b);
    var flag := |n.flags|;
    var lent := n.(flags := n.flags + [false], held := n.held + [Held(flag, b)]);
    if !n.connected then lent
    else if |n.queue| >= CHANNEL_CAPACITY then lent.(flags := lent.flags[flag := true])
    else lent.(queue := n.queue + [Scanout(n.names[b], b, flag)])
  }

  function Age(s: State, idx: nat): int
    requires idx < |s.slots|
  {
    match s.slots[idx].last
    case None => 0
    case Some(last) => s.renderCount - last
  }

  /** Marks the slot at the cursor in use and moves the cursor on. */
  function Take(s: State): State
    requires s.cursor < |s.slots|
  {
    s.(slots := s.slots[s.cursor := s.slots[s.cursor].(consumed := false)], cursor := (s.cursor + 1) % POOL_SIZE)
  }

  function SetConsumed(s: State, idx: nat, value: bool): State
    requires idx < |s.slots|
  {
    s.(slots := s.slots[idx := s.slots[idx].(consumed := value)])
  }

  /** The bookkeeping after `render_output`, whatever its result. */
  function Stamp(s: State, idx: nat, content: Image, log: seq<Image>): State
    requires idx < |s.slots|
  {
    s.(slots := s.slots[idx := s.slots[idx].(last := Some(s.renderCount), content := content)],
       renderCount := s.renderCount + 1, log := log)
  }

  /** A successful `render_output`. The GPU does its work in order, so the repaint goes over the
      picture submitted before, and a fence waited for finishes all of it. */
  function Paint(s: State, idx: nat, scene: Image, extra: set<nat>): State
    requires idx < |s.slots| && Age(s, idx) >= 0
  {
    Stamp(s, idx, Repaint(s.slots[idx].content, scene, Region(s.log, Age(s, idx), scene, extra)), s.log + [scene])
  }

  /** `try_send` of a pool frame. */
  function SendPool(s: State, idx: nat, scene: Image): State
    requires idx < |s.slots|
  {
    if !s.connected then s.(leaked := s.leaked + {idx})
    else if |s.queue| >= CHANNEL_CAPACITY then SetConsumed(s, idx, true)
    else s.(queue := s.queue + [Pool(idx, scene)])
  }

  function CompositeInto(s: State, idx: nat, scene: Image, outcome: Outcome): State
    requires idx < |s.slots| && Age(s, idx) >= 0
  {
    match outcome
    case ExportError => SetConsumed(s, idx, true)
    case BindError => SetConsumed(s, idx, true)
    case CollectError => s.(leaked := s.leaked + {idx})
    case Painted(extra) =>
      SendPool(Paint(s, idx, scene, extra).(unfinished := map[]), idx, scene)
    case WaitFailed(extra, partial) =>
      SendPool(Paint(s, idx, scene, extra).(unfinished := s.unfinished[idx := partial]), idx, scene)
    case RenderError(garbage, advanced) =>
      Stamp(s, idx, garbage, if advanced then s.log + [scene] else s.log).(leaked := s.leaked + {idx})
  }

  /** Well-formedness the code's types and arithmetic rely on; kept by every step. */
  ghost predicate Shape(s: State) {
    && |s.slots| == POOL_SIZE
    && s.cursor < POOL_SIZE
    && (forall i :: 0 <= i < POOL_SIZE && s.slots[i].last.Some? ==> s.slots[i].last.value < s.renderCount)
  }

  function Tick(s: State, call: Call): State
    requires Shape(s)
  {
    match call
    case Skip => s
    case Direct(b) => DirectScanout(Reclaim(s), b)
    case Composite(scene, outcome) =>
      if !s.slots[s.cursor].consumed then Reclaim(s)
      else CompositeInto(Take(Reclaim(s)), s.cursor, scene, outcome)
  }

  // ---------- The environment's steps ----------

  datatype Event =
    | Call(call: Call)
    | Receive
    | Consume(k: nat)
    | Disconnect
    | Finish

  /** The encoder has read the frame for the last time and sets its flag. */
  function Consumed(s: State, f: Frame): State {
    match f
    case Pool(slot, _) => if slot < |s.slots| then SetConsumed(s, slot, true) else s
    case Scanout(_, _, flag) => if flag < |s.flags| then s.(flags := s.flags[flag := true]) else s
  }

  function PoolSlots(frames: seq<Frame>): set<nat> {
    set k | 0 <= k < |frames| && frames[k].Pool? :: frames[k].slot
  }

  function Step(s: State, e: Event): State
    requires Shape(s)
  {
    match e
    case Call(call) => Tick(s, call)
    case Receive =>
      if s.queue == [] then s else s.(queue := s.queue[1..], encoder := s.encoder + [s.queue[0]])
    case Consume(k) =>
      if k >= |s.encoder| then s else Consumed(s.(encoder := Without(s.encoder, k)), s.encoder[k])
    case Disconnect =>
      s.(connected := false, queue := [], leaked := s.leaked + PoolSlots(s.queue))
    case Finish =>
      s.(unfinished := map[])
  }

  lemma CompositeKeepsShape(s: State, idx: nat, scene: Image, outcome: Outcome)
    requires Shape(s) && idx < POOL_SIZE && Age(s, idx) >= 0
    ensures Shape(CompositeInto(s, idx, scene, outcome))
  {}

  lemma TickKeepsShape(s: State, call: Call)
    requires Shape(s)
    ensures Shape(Tick(s, call))
  {
    if call.Composite? && s.slots[s.cursor].consumed {
      CompositeKeepsShape(Take(Reclaim(s)), s.cursor, call.scene, call.outcome);
    }
  }

  lemma StepKeepsShape(s: State, e: Event)
    requires Shape(s)
    ensures Shape(Step(s, e))
  {
    match e
    case Call(call) => TickKeepsShape(s, call);
    case Receive =>
    case Consume(k) =>
    case Disconnect =>
    case Finish =>
  }

  ghost function Run(s: State, es: seq<Event>): State
    requires Shape(s)
    decreases |es|
  {
    if es == [] then s else StepKeepsShape(s, es[0]); Run(Step(s, es[0]), es[1..])
  }

  lemma {:induction false} RunKeepsShape(s: State, es: seq<Event>)
    requires Shape(s)
    ensures Shape(Run(s, es))
    decreases |es|
  {
    if es != [] {
      StepKeepsShape(s, es[0]);
      RunKeepsShape(Step(s, es[0]), es[1..]);
    }
  }

  // ---------- Slot exclusivity and conservation, in every run ----------

  /** Frames handed over and not yet consumed, oldest first. */
  function Outstanding(s: State): seq<Frame> {
    s.encoder + s.queue
  }

  /** No slot and no scanout flag is shared by two frames. */
  ghost predicate Exclusive(frames: seq<Frame>) {
    && (forall j, k :: 0 <= j < k < |frames| && frames[j].Pool? && frames[k].Pool? ==> frames[j].slot != frames[k].slot)
    && (forall j, k :: 0 <= j < k < |frames| && frames[j].Scanout? && frames[k].Scanout? ==>
          frames[j].flag != frames[k].flag)
  }

  /** Slots in use are exactly the slots of outstanding frames and the leaked ones, each of
      which is in use for one reason only. */
  ghost predicate Conserved(s: State) {
    && Shape(s)
    && |s.queue| <= CHANNEL_CAPACITY
    && (!s.connected ==> s.queue == [])
    && Exclusive(Outstanding(s))
    && PoolSlots(Outstanding(s)) !! s.leaked
    && (forall i: nat :: i in PoolSlots(Outstanding(s)) || i in s.leaked <==> i < POOL_SIZE && !s.slots[i].consumed)
  }

  /** Indices are issued in order from above the pool, and a live name is its buffer's. */
  ghost predicate Named(s: State) {
    && s.nextIndex >= POOL_SIZE
    && (forall i: nat :: i in s.issued <==> POOL_SIZE <= i < s.nextIndex)
    && (forall b :: b in s.names ==> s.names[b] in s.issued && s.issued[s.names[b]] == b)
  }

  ghost predicate Holds(held: seq<Held>, b: BufferId) {
    exists k :: 0 <= k < |held| && held[k].buffer == b
  }

  /** Every named buffer is held, and held entries refer to real flags. */
  ghost predicate Backed(s: State) {
    && (forall b :: b in s.names ==> Holds(s.held, b))
    && (forall h :: h in s.held ==> h.flag < |s.flags|)
  }

  /** The buffer of the frame is still held under its unset flag and its index is its name. */
  ghost predicate LentFrame(s: State, f: Frame)
    requires f.Scanout?
  {
    && f.flag < |s.flags| && !s.flags[f.flag] && Held(f.flag, f.buffer) in s.held
    && f.index in s.issued && s.issued[f.index] == f.buffer
  }

  /** Every scanout index names one buffer, and every lent buffer is still held. */
  ghost predicate Lent(s: State) {
    Named(s) && Backed(s) && forall f :: f in Outstanding(s) && f.Scanout? ==> LentFrame(s, f)
  }

  lemma ExclusiveAppend(frames: seq<Frame>, f: Frame)
    requires Exclusive(frames)
    requires f.Pool? ==> f.slot !in PoolSlots(frames)
    requires f.Scanout? ==> forall g :: g in frames && g.Scanout? ==> g.flag != f.flag
    ensures Exclusive(frames + [f])
    ensures PoolSlots(frames + [f]) == PoolSlots(frames) + (if f.Pool? then {f.slot} else {})
  {
    var all := frames + [f];
    forall j | 0 <= j < |frames| && frames[j].Pool? && f.Pool? ensures frames[j].slot != f.slot {
      assert frames[j].slot in PoolSlots(frames);
    }
    forall x | x in PoolSlots(frames) ensures x in PoolSlots(all) {
      var k :| 0 <= k < |frames| && frames[k].Pool? && frames[k].slot == x;
      assert all[k].slot == x;
    }
    if f.Pool? {
      assert all[|frames|].slot == f.slot;
    }
  }

  lemma ExclusiveRemove(frames: seq<Frame>, k: nat)
    requires Exclusive(frames) && k < |frames|
    ensures Exclusive(Without(frames, k))
    ensures PoolSlots(Without(frames, k)) == PoolSlots(frames) - (if frames[k].Pool? then {frames[k].slot} else {})
    ensures frames[k].Scanout? ==> forall g :: g in Without(frames, k) && g.Scanout? ==> g.flag != frames[k].flag
  {
    var r := Without(frames, k);
    forall x | x in PoolSlots(frames) && !(frames[k].Pool? && frames[k].slot == x) ensures x in PoolSlots(r) {
      var j :| 0 <= j < |frames| && frames[j].Pool? && frames[j].slot == x;
      assert r[if j < k then j else j - 1] == frames[j];
    }
    forall g | g in r && g.Scanout? && frames[k].Scanout? ensures g.flag != frames[k].flag {
      var j :| 0 <= j < |r| && r[j] == g;
      assert frames[if j < k then j else j + 1] == g;
    }
  }

  lemma InitiallyConserved()
    ensures Conserved(Initial()) && Lent(Initial())
  {}

  lemma SendPoolConserves(s: State, idx: nat, scene: Image)
    requires Shape(s) && |s.queue| <= CHANNEL_CAPACITY && (!s.connected ==> s.queue == [])
    requires Exclusive(Outstanding(s)) && PoolSlots(Outstanding(s)) !! s.leaked
    requires idx < POOL_SIZE && !s.slots[idx].consumed
    requires idx !in PoolSlots(Outstanding(s)) && idx !in s.leaked
    requires forall i: nat :: i in PoolSlots(Outstanding(s)) || i in s.leaked || i == idx <==>
             i < POOL_SIZE && !s.slots[i].consumed
    ensures Conserved(SendPool(s, idx, scene))
  {
    var t := SendPool(s, idx, scene);
    if s.connected && |s.queue| < CHANNEL_CAPACITY {
      assert Outstanding(t) == Outstanding(s) + [Pool(idx, scene)];
      ExclusiveAppend(Outstanding(s), Pool(idx, scene));
    } else {
      assert Outstanding(t) == Outstanding(s);
    }
  }

  /** Slot exclusivity: a slot about to be rendered into belongs to no frame that is queued or
      held by the encoder, and conservation survives the render whatever its outcome. */
  lemma CompositeConserves(s: State, scene: Image, outcome: Outcome)
    requires Conserved(s) && s.slots[s.cursor].consumed
    ensures s.cursor !in PoolSlots(Outstanding(s)) && s.cursor !in s.leaked
    ensures Conserved(Tick(s, Composite(scene, outcome)))
  {
    var idx := s.cursor;
    var u := Take(Reclaim(s));
    assert Outstanding(u) == Outstanding(s);
    CompositeKeepsShape(u, idx, scene, outcome);
    var t := CompositeInto(u, idx, scene, outcome);
    match outcome
    case Painted(extra) =>
      var v := Paint(u, idx, scene, extra).(unfinished := map[]);
      assert Outstanding(v) == Outstanding(s);
      SendPoolConserves(v, idx, scene);
    case WaitFailed(extra, partial) =>
      var v := Paint(u, idx, scene, extra).(unfinished := u.unfinished[idx := partial]);
      assert Outstanding(v) == Outstanding(s);
      SendPoolConserves(v, idx, scene);
    case _ =>
      assert Outstanding(t) == Outstanding(s);
  }

  lemma DirectConserves(s: State, b: BufferId)
    requires Conserved(s) && Lent(s)
    ensures Conserved(DirectScanout(s, b))
  {
    var t := DirectScanout(s, b);
    var n := Naming(s, b);
    if s.connected && |s.queue| < CHANNEL_CAPACITY {
      var f := Scanout(n.names[b], b, |s.flags|);
      assert Outstanding(t) == Outstanding(s) + [f];
      ExclusiveAppend(Outstanding(s), f);
    } else {
      assert Outstanding(t) == Outstanding(s);
    }
  }

  lemma PoolSlotsConcat(a: seq<Frame>, b: seq<Frame>)
    ensures PoolSlots(a + b) == PoolSlots(a) + PoolSlots(b)
    ensures Exclusive(a + b) ==> Exclusive(a) && PoolSlots(a) !! PoolSlots(b)
  {
    var all := a + b;
    assert forall k :: 0 <= k < |a| ==> all[k] == a[k];
    assert forall k :: 0 <= k < |b| ==> all[|a| + k] == b[k];
    forall x | x in PoolSlots(b) ensures x in PoolSlots(all) {
      var k :| 0 <= k < |b| && b[k].Pool? && b[k].slot == x;
      assert all[|a| + k].slot == x;
    }
    forall x | x in PoolSlots(a) ensures x in PoolSlots(all) && (Exclusive(all) ==> x !in PoolSlots(b)) {
      var k :| 0 <= k < |a| && a[k].Pool? && a[k].slot == x;
      assert all[k].slot == x;
    }
  }

  lemma ConsumeKeepsRest(s: State, k: nat)
    requires Shape(s) && k < |s.encoder|
    ensures var t := Step(s, Consume(k));
            && t.encoder == Without(s.encoder, k) && t.queue == s.queue && t.connected == s.connected
            && t.leaked == s.leaked && t.cursor == s.cursor && t.issued == s.issued
            && t.renderCount == s.renderCount && |t.slots| == |s.slots|
            && (forall i: nat :: i < POOL_SIZE && s.encoder[k].Pool? && s.encoder[k].slot == i ==>
                  t.slots[i] == s.slots[i].(consumed := true))
            && (forall i: nat :: i < POOL_SIZE && !(s.encoder[k].Pool? && s.encoder[k].slot == i) ==>
                  t.slots[i] == s.slots[i])
  {}

  /** A consumed frame leaves the list of outstanding ones and frees its slot. */
  lemma ConsumeFreesSlot(s: State, k: nat)
    requires Conserved(s) && k < |s.encoder|
    ensures var t := Step(s, Consume(k));
            && Outstanding(t) == Without(Outstanding(s), k) && Outstanding(s)[k] == s.encoder[k]
            && t.leaked == s.leaked && t.queue == s.queue && t.connected == s.connected && Shape(t)
            && forall i: nat :: i < POOL_SIZE ==>
                 (t.slots[i].consumed <==> s.slots[i].consumed || (s.encoder[k].Pool? && s.encoder[k].slot == i))
  {
    WithoutConcat(s.encoder, s.queue, k);
    ConsumeKeepsRest(s, k);
    assert Outstanding(Step(s, Consume(k))) == Without(s.encoder, k) + s.queue;
  }

  lemma ConsumeConserves(s: State, k: nat)
    requires Conserved(s) && k < |s.encoder|
    ensures Conserved(Step(s, Consume(k)))
  {
    ConsumeFreesSlot(s, k);
    ExclusiveRemove(Outstanding(s), k);
    if s.encoder[k].Pool? {
      assert s.encoder[k].slot in PoolSlots(Outstanding(s));
    }
  }

  lemma DisconnectConserves(s: State)
    requires Conserved(s)
    ensures Conserved(Step(s, Disconnect))
  {
    PoolSlotsConcat(s.encoder, s.queue);
    assert Outstanding(Step(s, Disconnect)) == s.encoder;
  }

  lemma {:induction false} ReclaimSplitsHeld(held: seq<Held>, flags: seq<bool>)
    ensures forall h :: h in StillHeld(held, flags) <==> h in held && !IsSet(h, flags)
    ensures forall b :: b in Released(held, flags) <==> exists h :: h in held && IsSet(h, flags) && h.buffer == b
  {
    if held != [] {
      var n := |held| - 1;
      ReclaimSplitsHeld(held[..n], flags);
      assert held == held[..n] + [held[n]];
    }
  }

  /** Reclaiming one more entry drops it and its name if its flag is set and keeps it otherwise. */
  lemma ReclaimAppend(held: seq<Held>, h: Held, flags: seq<bool>)
    ensures StillHeld(held + [h], flags) == StillHeld(held, flags) + (if IsSet(h, flags) then [] else [h])
    ensures Released(held + [h], flags) == Released(held, flags) + (if IsSet(h, flags) then {h.buffer} else {})
  {
    assert (held + [h])[..|held|] == held;
  }

  lemma ReclaimKeepsLent(s: State)
    requires Lent(s)
    ensures Lent(Reclaim(s)) && Outstanding(Reclaim(s)) == Outstanding(s)
  {
    var t := Reclaim(s);
    ReclaimSplitsHeld(s.held, s.flags);
    forall b | b in t.names ensures Holds(t.held, b) {
      assert Holds(s.held, b);
      var k :| 0 <= k < |s.held| && s.held[k].buffer == b;
      assert s.held[k] in t.held;
    }
    forall f | f in Outstanding(t) && f.Scanout? ensures LentFrame(t, f) {
      assert LentFrame(s, f);
    }
  }

  lemma DirectKeepsNames(s: State, b: BufferId)
    requires Named(s)
    ensures var t := DirectScanout(s, b);
            && Named(t) && b in t.names && t.names.Keys == s.names.Keys + {b}
            && (forall i :: i in s.issued ==> i in t.issued && t.issued[i] == s.issued[i])
  {
    var n := Naming(s, b);
    var t := DirectScanout(s, b);
    assert t.names == n.names && t.issued == n.issued && t.nextIndex == n.nextIndex;
  }

  lemma DirectKeepsBacked(s: State, b: BufferId)
    requires Named(s) && Backed(s)
    ensures Backed(DirectScanout(s, b))
  {
    var t := DirectScanout(s, b);
    DirectKeepsNames(s, b);
    assert t.held == s.held + [Held(|s.flags|, b)] && |t.flags| == |s.flags| + 1;
    assert t.held[|s.held|].buffer == b;
    forall x | x in t.names && x != b ensures Holds(t.held, x) {
      assert Holds(s.held, x);
      var k :| 0 <= k < |s.held| && s.held[k].buffer == x;
      assert t.held[k].buffer == x;
    }
  }

  lemma DirectKeepsLentFrame(s: State, b: BufferId, f: Frame)
    requires Named(s) && f.Scanout? && LentFrame(s, f)
    ensures LentFrame(DirectScanout(s, b), f)
  {
    DirectKeepsNames(s, b);
    assert DirectScanout(s, b).held == s.held + [Held(|s.flags|, b)];
  }

  lemma DirectKeepsLent(s: State, b: BufferId)
    requires Lent(s)
    ensures Lent(DirectScanout(s, b))
  {
    var t := DirectScanout(s, b);
    DirectKeepsNames(s, b);
    DirectKeepsBacked(s, b);
    forall f | f in Outstanding(t) && f.Scanout? ensures LentFrame(t, f) {
      if f in Outstanding(s) {
        DirectKeepsLentFrame(s, b, f);
      } else {
        assert f == Scanout(t.names[b], b, |s.flags|);
        assert t.held[|s.held|] == Held(|s.flags|, b);
      }
    }
  }

  lemma PoolKeepsLent(s: State, scene: Image, outcome: Outcome)
    requires Shape(s) && Lent(s)
    ensures Lent(Tick(s, Composite(scene, outcome)))
  {
    ReclaimKeepsLent(s);
    if s.slots[s.cursor].consumed {
      CompositeLendsNothing(Take(Reclaim(s)), s.cursor, scene, outcome);
    }
    var t, u := Tick(s, Composite(scene, outcome)), Reclaim(s);
    forall f | f in Outstanding(t) && f.Scanout? ensures LentFrame(t, f) {
      assert LentFrame(u, f);
    }
  }

  lemma CompositeLendsNothing(s: State, idx: nat, scene: Image, outcome: Outcome)
    requires idx < |s.slots| && Age(s, idx) >= 0
    ensures var t := CompositeInto(s, idx, scene, outcome);
            && t.held == s.held && t.flags == s.flags && t.names == s.names && t.issued == s.issued
                 && t.nextIndex == s.nextIndex
            && (t.encoder == s.encoder) && (t.queue == s.queue || t.queue == s.queue + [Pool(idx, scene)])
  {}

  /** Consuming a frame sets its flag and changes nothing else of what is lent. */
  lemma ConsumeSetsOneFlag(s: State, k: nat)
    requires Shape(s) && k < |s.encoder|
    ensures var t := Step(s, Consume(k));
            && t.held == s.held && t.names == s.names && t.issued == s.issued && t.nextIndex == s.nextIndex
            && |t.flags| == |s.flags|
            && forall i :: 0 <= i < |s.flags| ==>
                 (t.flags[i] <==> s.flags[i] || (s.encoder[k].Scanout? && s.encoder[k].flag == i))
  {}

  lemma ConsumeKeepsLent(s: State, k: nat)
    requires Conserved(s) && Lent(s) && k < |s.encoder|
    ensures Lent(Step(s, Consume(k)))
  {
    var t := Step(s, Consume(k));
    ConsumeFreesSlot(s, k);
    ConsumeSetsOneFlag(s, k);
    ExclusiveRemove(Outstanding(s), k);
    forall f | f in Outstanding(t) && f.Scanout? ensures LentFrame(t, f) {
      assert LentFrame(s, f);
    }
  }

  ghost predicate Sound(s: State) {
    Conserved(s) && Lent(s)
  }

  lemma StepKeepsSound(s: State, e: Event)
    requires Sound(s)
    ensures Sound(Step(s, e))
  {
    match e
    case Call(Skip) =>
    case Call(Direct(b)) =>
      ReclaimKeepsLent(s);
      DirectConserves(Reclaim(s), b);
      DirectKeepsLent(Reclaim(s), b);
    case Call(Composite(scene, outcome)) =>
      PoolKeepsLent(s, scene, outcome);
      if s.slots[s.cursor].consumed {
        CompositeConserves(s, scene, outcome);
      } else {
        ReclaimKeepsLent(s);
      }
    case Receive =>
      ReceiveKeepsSound(s);
    case Consume(k) =>
      if k < |s.encoder| {
        ConsumeConserves(s, k);
        ConsumeKeepsLent(s, k);
      }
    case Disconnect =>
      DisconnectConserves(s);
      SubsetKeepsLent(s, Step(s, e));
    case Finish =>
      assert Outstanding(Step(s, e)) == Outstanding(s);
      SubsetKeepsLent(s, Step(s, e));
  }

  lemma SubsetKeepsLent(s: State, t: State)
    requires Lent(s)
    requires t.held == s.held && t.flags == s.flags && t.names == s.names && t.issued == s.issued
             && t.nextIndex == s.nextIndex
    requires forall f :: f in Outstanding(t) ==> f in Outstanding(s)
    ensures Lent(t)
  {}

  lemma ReceiveKeepsSound(s: State)
    requires Sound(s)
    ensures Sound(Step(s, Receive)) && Outstanding(Step(s, Receive)) == Outstanding(s)
  {
    assert Outstanding(Step(s, Receive)) == Outstanding(s);
    SubsetKeepsLent(s, Step(s, Receive));
  }

  /** Slot exclusivity and conservation, and lending, after every run of both parties. */
  lemma {:induction false} EveryRunIsSound(s: State, es: seq<Event>)
    requires Sound(s)
    ensures Sound(Run(s, es))
    decreases |es|
  {
    if es != [] {
      StepKeepsSound(s, es[0]);
      EveryRunIsSound(Step(s, es[0]), es[1..]);
    }
  }

  /** Without leaks, an idle relay can always render: nothing outstanding frees the cursor. */
  lemma IdleCursorIsFree(es: seq<Event>)
    ensures var s := Run(Initial(), es);
            Shape(s) && (Outstanding(s) == [] && s.leaked == {} ==> s.slots[s.cursor].consumed)
  {
    InitiallyConserved();
    EveryRunIsSound(Initial(), es);
  }

  // ---------- Partial redraw equals full redraw ----------

  /** What the memory of a slot shows now. */
  function Seen(s: State, i: nat): Image
    requires i < |s.slots|
  {
    if i in s.unfinished then s.unfinished[i] else s.slots[i].content
  }

  /** Each frame the encoder has or will get shows the scene it was exported for. */
  ghost predicate Faithful(s: State) {
    && Shape(s)
    && forall f :: f in Outstanding(s) && f.Pool? ==> f.slot < POOL_SIZE && Seen(s, f.slot) == f.scene
  }

  /** Each of them does so once the GPU has done its work. */
  ghost predicate Promised(s: State) {
    && Shape(s)
    && forall f :: f in Outstanding(s) && f.Pool? ==> f.slot < POOL_SIZE && s.slots[f.slot].content == f.scene
  }

  /** The slot holds a scene the tracker has stepped through at most `age` steps ago. */
  ghost predicate AgeCovers(s: State, i: nat)
    requires Shape(s) && i < POOL_SIZE
  {
    s.slots[i].last.Some? ==>
      exists d :: 0 <= d < |s.log| && s.slots[i].content == s.log[d]
        && |s.log| - d <= s.renderCount - s.slots[i].last.value
  }

  ghost predicate AgesCover(s: State) {
    Shape(s) && forall i: nat :: i < POOL_SIZE && i !in s.leaked ==> AgeCovers(s, i)
  }

  ghost predicate Showing(s: State) {
    Sound(s) && Promised(s) && AgesCover(s)
  }

  /** A successful render of the slot at the cursor makes it show the scene, wherever in the
      tracker's history its old content came from. */
  lemma PaintShowsScene(s: State, scene: Image, extra: set<nat>)
    requires Showing(s) && s.slots[s.cursor].consumed
    ensures var u := Take(Reclaim(s));
            Repaint(u.slots[s.cursor].content, scene, Region(u.log, Age(u, s.cursor), scene, extra)) == scene
  {
    var i := s.cursor;
    CompositeConserves(s, scene, Painted(extra));
    assert AgeCovers(s, i);
    var u := Take(Reclaim(s));
    var old' := u.slots[i].content;
    if s.slots[i].last.Some? {
      var d :| 0 <= d < |s.log| && old' == s.log[d] && |s.log| - d <= s.renderCount - s.slots[i].last.value;
      PartialRedrawIsFullRedraw(u.log, Age(u, i), scene, extra, old', d);
    } else {
      PartialRedrawIsFullRedraw(u.log, 0, scene, extra, old', 0);
    }
  }

  predicate Paints(outcome: Outcome) {
    outcome.Painted? || outcome.WaitFailed?
  }

  /** What a render into the pool changes: the slot at the cursor shows the scene. */
  lemma PaintChangesOneSlot(s: State, scene: Image, outcome: Outcome)
    requires Showing(s) && s.slots[s.cursor].consumed && Paints(outcome)
    ensures var t := Tick(s, Composite(scene, outcome));
            && Shape(t) && t.log == s.log + [scene] && t.renderCount == s.renderCount + 1 && s.leaked <= t.leaked
            && t.slots[s.cursor].content == scene && t.slots[s.cursor].last == Some(s.renderCount)
            && (forall i: nat :: i < POOL_SIZE && i != s.cursor ==> t.slots[i] == s.slots[i])
            && (forall f :: f in Outstanding(t) ==> f in Outstanding(s) || f == Pool(s.cursor, scene))
  {
    PaintShowsScene(s, scene, outcome.extra);
    TickKeepsShape(s, Composite(scene, outcome));
  }

  lemma PaintKeepsAges(s: State, scene: Image, outcome: Outcome)
    requires Showing(s) && s.slots[s.cursor].consumed && Paints(outcome)
    ensures AgesCover(Tick(s, Composite(scene, outcome)))
  {
    var t := Tick(s, Composite(scene, outcome));
    PaintChangesOneSlot(s, scene, outcome);
    forall i: nat | i < POOL_SIZE && i !in t.leaked ensures AgeCovers(t, i) {
      if i == s.cursor {
        assert t.log[|s.log|] == scene;
      } else {
        assert AgeCovers(s, i);
        if s.slots[i].last.Some? {
          var d :| 0 <= d < |s.log| && s.slots[i].content == s.log[d]
                && |s.log| - d <= s.renderCount - s.slots[i].last.value;
          assert t.log[d] == s.log[d];
        }
      }
    }
  }

  lemma PaintKeepsShowing(s: State, scene: Image, outcome: Outcome)
    requires Showing(s) && s.slots[s.cursor].consumed && Paints(outcome)
    ensures Showing(Tick(s, Composite(scene, outcome)))
  {
    var t := Tick(s, Composite(scene, outcome));
    CompositeConserves(s, scene, outcome);
    PoolKeepsLent(s, scene, outcome);
    PaintChangesOneSlot(s, scene, outcome);
    PaintKeepsAges(s, scene, outcome);
    forall f | f in Outstanding(t) && f.Pool? ensures f.slot < POOL_SIZE && t.slots[f.slot].content == f.scene {
      if f in Outstanding(s) {
        var k :| 0 <= k < |Outstanding(s)| && Outstanding(s)[k] == f;
        assert f.slot in PoolSlots(Outstanding(s));
      }
    }
  }

  lemma RenderErrorKeepsShowing(s: State, scene: Image, garbage: Image, advanced: bool)
    requires Showing(s) && s.slots[s.cursor].consumed
    ensures Showing(Tick(s, Composite(scene, RenderError(garbage, advanced))))
  {
    var t := Tick(s, Composite(scene, RenderError(garbage, advanced)));
    CompositeConserves(s, scene, RenderError(garbage, advanced));
    PoolKeepsLent(s, scene, RenderError(garbage, advanced));
    assert Outstanding(t) == Outstanding(s);
    forall f | f in Outstanding(t) && f.Pool? ensures t.slots[f.slot].content == f.scene {
      var k :| 0 <= k < |Outstanding(s)| && Outstanding(s)[k] == f;
      assert f.slot in PoolSlots(Outstanding(s));
    }
    forall i: nat | i < POOL_SIZE && i !in t.leaked ensures AgeCovers(t, i) {
      assert AgeCovers(s, i);
      if s.slots[i].last.Some? {
        var d :| 0 <= d < |s.log| && s.slots[i].content == s.log[d]
            && |s.log| - d <= s.renderCount - s.slots[i].last.value;
        assert t.log[d] == s.log[d];
      }
    }
  }

  /** From `s` to `t` nothing was painted: contents, ages and history are the same, leaks are
      kept, and no pool frame was added. */
  ghost predicate Quiet(s: State, t: State) {
    && |s.slots| == |t.slots| == POOL_SIZE
    && t.log == s.log && t.renderCount == s.renderCount && s.leaked <= t.leaked
    && (forall i :: 0 <= i < POOL_SIZE ==>
          t.slots[i].content == s.slots[i].content && t.slots[i].last == s.slots[i].last)
    && (forall f :: f in Outstanding(t) && f.Pool? ==> f in Outstanding(s))
  }

  lemma QuietKeepsShowing(s: State, t: State)
    requires Showing(s) && Sound(t) && Quiet(s, t)
    ensures Showing(t)
  {}

  /** The event starts a render into the pool. */
  predicate StartsRender(s: State, e: Event)
    requires Shape(s)
  {
    e.Call? && e.call.Composite? && s.slots[s.cursor].consumed
  }

  /** The event is a render whose fence could not be waited for. */
  predicate FailsToWait(e: Event) {
    e.Call? && e.call.Composite? && e.call.outcome.WaitFailed?
  }

  lemma DirectIsQuiet(s: State, b: BufferId)
    requires Shape(s)
    ensures Quiet(s, DirectScanout(Reclaim(s), b))
  {}

  lemma UnpaintedIsQuiet(s: State, scene: Image, outcome: Outcome)
    requires Shape(s)
             && (outcome.ExportError? || outcome.BindError? || outcome.CollectError? || !s.slots[s.cursor].consumed)
    ensures Quiet(s, Tick(s, Composite(scene, outcome)))
  {}

  lemma ConsumeIsQuiet(s: State, k: nat)
    requires Shape(s) && k < |s.encoder|
    ensures Quiet(s, Step(s, Consume(k)))
  {}

  lemma EnvironmentIsQuiet(s: State, e: Event)
    requires Sound(s) && !e.Call?
    ensures Quiet(s, Step(s, e))
  {
    match e
    case Receive =>
      ReceiveKeepsSound(s);
    case Consume(k) =>
      if k < |s.encoder| {
        ConsumeIsQuiet(s, k);
      }
    case Disconnect =>
    case Finish =>
  }

  lemma StepKeepsShowing(s: State, e: Event)
    requires Showing(s)
    ensures Showing(Step(s, e))
  {
    StepKeepsSound(s, e);
    if StartsRender(s, e) && Paints(e.call.outcome) {
      PaintKeepsShowing(s, e.call.scene, e.call.outcome);
    } else if StartsRender(s, e) && e.call.outcome.RenderError? {
      RenderErrorKeepsShowing(s, e.call.scene, e.call.outcome.garbage, e.call.outcome.advanced);
    } else {
      match e {
        case Call(Skip) =>
        case Call(Direct(b)) => DirectIsQuiet(s, b);
        case Call(Composite(scene, outcome)) => UnpaintedIsQuiet(s, scene, outcome);
        case _ => EnvironmentIsQuiet(s, e);
      }
      QuietKeepsShowing(s, Step(s, e));
    }
  }

  /** In every run, every frame the encoder has or will get shows exactly the scene it was
      exported for once the GPU has done its work, although slots are only partially repainted
      and rendering may fail, be skipped or be bypassed. A frame can show something else before
      that only if its slot is unfinished. */
  lemma {:induction false} EveryFrameWillShowItsScene(s: State, es: seq<Event>)
    requires Showing(s)
    ensures Showing(Run(s, es)) && Faithful(Step(Run(s, es), Finish))
    ensures forall f :: f in Outstanding(Run(s, es)) && f.Pool? && f.slot !in Run(s, es).unfinished ==>
              Seen(Run(s, es), f.slot) == f.scene
    decreases |es|
  {
    if es == [] {
      StepKeepsShowing(s, Finish);
    } else {
      StepKeepsShowing(s, es[0]);
      EveryFrameWillShowItsScene(Step(s, es[0]), es[1..]);
    }
  }

  lemma WaitsLeaveNothingUnfinished(s: State, e: Event)
    requires Shape(s) && s.unfinished == map[] && !FailsToWait(e)
    ensures Step(s, e).unfinished == map[]
  {
    match e
    case Call(Direct(b)) =>
      assert Naming(Reclaim(s), b).unfinished == map[];
    case Call(Composite(scene, outcome)) =>
      assert Take(Reclaim(s)).unfinished == map[];
    case _ =>
  }

  /** In every run in which every fence is waited for, every frame shows exactly its scene from
      the moment it is sent until the encoder releases it. */
  lemma {:induction false} EveryFrameShowsItsScene(s: State, es: seq<Event>)
    requires Showing(s) && s.unfinished == map[] && forall e :: e in es ==> !FailsToWait(e)
    ensures Faithful(Run(s, es)) && Run(s, es).unfinished == map[]
    decreases |es|
  {
    if es != [] {
      StepKeepsShowing(s, es[0]);
      WaitsLeaveNothingUnfinished(s, es[0]);
      EveryFrameShowsItsScene(Step(s, es[0]), es[1..]);
    }
  }

  lemma InitiallyShowing()
    ensures Showing(Initial()) && Initial().unfinished == map[]
  {}

  /** Exactly when an accepted render is faithful for every scene: when its fence was waited
      for. Otherwise the frame is sent all the same. */
  lemma FaithfulIffWaitSucceeded(s: State, outcome: Outcome)
    requires Showing(s) && s.slots[s.cursor].consumed && s.connected && |s.queue| < CHANNEL_CAPACITY
    requires Paints(outcome)
    ensures (forall scene :: Faithful(Tick(s, Composite(scene, outcome)))) <==> outcome.Painted?
  {
    if outcome.Painted? {
      forall scene ensures Faithful(Tick(s, Composite(scene, outcome))) {
        PaintKeepsShowing(s, scene, outcome);
      }
    } else {
      var seen := outcome.partial;
      var scene := if seen == [] then [0] else seen[0 := seen[0] + 1];
      var t := Tick(s, Composite(scene, outcome));
      var f := Pool(s.cursor, scene);
      assert t.queue[|s.queue|] == f;
      assert f in Outstanding(t);
      assert Seen(t, s.cursor) == seen != scene;
      assert !Faithful(t);
    }
  }

  /** The very first render can already go wrong that way. */
  lemma UnfinishedFrameIsReachable(scene: Image, partial: Image)
    requires partial != scene
    ensures var s := Run(Initial(), [Call(Composite(scene, WaitFailed({}, partial)))]);
            Shape(s) && s.queue == [Pool(0, scene)] && Seen(s, 0) == partial && !Faithful(s)
  {
    var e := Call(Composite(scene, WaitFailed({}, partial)));
    var s := Step(Initial(), e);
    StepKeepsShape(Initial(), e);
    assert Run(Initial(), [e]) == s;
    assert Outstanding(s)[0] == Pool(0, scene);
  }

  // ---------- What each call does, field by field ----------

  /** A finished picture is queued, with its slot in use, exactly when the channel is connected
      and has room. A full channel frees the slot again; a disconnected one leaves it in use. */
  lemma PaintedFrameIsSentIffRoom(s: State, scene: Image, outcome: Outcome)
    requires Shape(s) && s.slots[s.cursor].consumed && Paints(outcome)
    ensures var t := Step(s, Call(Composite(scene, outcome)));
            && |t.slots| == POOL_SIZE && t.encoder == s.encoder && t.connected == s.connected
            && t.cursor == (s.cursor + 1) % POOL_SIZE
            && t.queue == s.queue + (if s.connected && |s.queue| < 2 then [Pool(s.cursor, scene)] else [])
            && (t.slots[s.cursor].consumed <==> s.connected && |s.queue| >= 2)
            && (forall i: nat :: i < POOL_SIZE && i != s.cursor ==> t.slots[i] == s.slots[i])
  {}

  /** A render that paints nothing sends nothing. It frees its slot when the export or the bind
      fails and loses it otherwise; without a free slot nothing is even started. */
  lemma UnpaintedRenderSendsNothing(s: State, scene: Image, outcome: Outcome)
    requires Shape(s) && (!s.slots[s.cursor].consumed || !Paints(outcome))
    ensures var t := Step(s, Call(Composite(scene, outcome)));
            && |t.slots| == POOL_SIZE && t.encoder == s.encoder && t.connected == s.connected && t.queue == s.queue
            && (!s.slots[s.cursor].consumed ==> t.slots == s.slots && t.cursor == s.cursor)
            && (s.slots[s.cursor].consumed ==>
                  && t.cursor == (s.cursor + 1) % POOL_SIZE
                  && (t.slots[s.cursor].consumed <==> outcome.ExportError? || outcome.BindError?))
            && (forall i: nat :: i < POOL_SIZE && i != s.cursor ==> t.slots[i] == s.slots[i])
  {}

  /** The buffer has an index and no frame of it was consumed. */
  ghost predicate KeepsIndex(s: State, b: BufferId) {
    b in s.names && forall h :: h in s.held && h.buffer == b && h.flag < |s.flags| ==> !s.flags[h.flag]
  }

  /** A client buffer is lent under a new flag: queued under its own index, or else the next one,
      exactly when the channel is connected and has room, and given back at once when full. */
  lemma DirectFrameIsSentIffRoom(s: State, b: BufferId)
    requires Shape(s)
    ensures var t := Step(s, Call(Direct(b)));
            var index := if KeepsIndex(s, b) then s.names[b] else s.nextIndex;
            && t.slots == s.slots && t.cursor == s.cursor && t.encoder == s.encoder && t.connected == s.connected
            && t.queue == s.queue + (if s.connected && |s.queue| < 2 then [Scanout(index, b, |s.flags|)] else [])
            && t.flags == s.flags + [s.connected && |s.queue| >= 2]
            && Held(|s.flags|, b) in t.held && b in t.names && t.names[b] == index
  {
    ReclaimSplitsHeld(s.held, s.flags);
    var r := Reclaim(s);
    assert b in r.names <==> KeepsIndex(s, b);
    var n := Naming(r, b);
    var t := DirectScanout(r, b);
    assert t.held[|r.held|] == Held(|s.flags|, b);
    assert n.queue == s.queue && n.flags == s.flags && n.connected == s.connected;
  }

  // ---------- What is sent arrives, in order ----------

  /** The frame a step sends: a finished picture or a client buffer, if the channel has room. */
  ghost function SentBy(s: State, e: Event): seq<Frame>
    requires Shape(s)
  {
    if !e.Call? || !s.connected || |s.queue| >= 2 then []
    else
      match e.call
      case Skip => []
      case Direct(b) => [Scanout(if KeepsIndex(s, b) then s.names[b] else s.nextIndex, b, |s.flags|)]
      case Composite(scene, outcome) =>
        if s.slots[s.cursor].consumed && Paints(outcome) then [Pool(s.cursor, scene)] else []
  }

  ghost function ReceivedBy(s: State, e: Event): seq<Frame> {
    if e.Receive? && s.queue != [] then [s.queue[0]] else []
  }

  ghost function DroppedBy(s: State, e: Event): seq<Frame> {
    if e.Disconnect? then s.queue else []
  }

  lemma QueueStep(s: State, e: Event)
    requires Sound(s)
    ensures s.queue + SentBy(s, e) == ReceivedBy(s, e) + DroppedBy(s, e) + Step(s, e).queue
    ensures !s.connected ==> !Step(s, e).connected
  {
    match e
    case Call(Skip) =>
    case Call(Direct(b)) =>
      DirectFrameIsSentIffRoom(s, b);
    case Call(Composite(scene, outcome)) =>
      if s.slots[s.cursor].consumed && Paints(outcome) {
        PaintedFrameIsSentIffRoom(s, scene, outcome);
      } else {
        UnpaintedRenderSendsNothing(s, scene, outcome);
      }
    case Receive =>
    case Consume(k) =>
      if k < |s.encoder| {
        ConsumeFreesSlot(s, k);
      }
    case _ =>
  }

  /** The frames sent, received and dropped over a run, in order. */
  datatype Traffic = Traffic(sent: seq<Frame>, received: seq<Frame>, dropped: seq<Frame>)

  ghost function TrafficOf(s: State, es: seq<Event>): Traffic
    requires Sound(s)
    decreases |es|
  {
    if es == [] then Traffic([], [], [])
    else
      StepKeepsSound(s, es[0]);
      var rest := TrafficOf(Step(s, es[0]), es[1..]);
      Traffic(SentBy(s, es[0]) + rest.sent, ReceivedBy(s, es[0]) + rest.received, DroppedBy(s, es[0]) + rest.dropped)
  }

  lemma {:induction false} DisconnectedIsSilent(s: State, es: seq<Event>)
    requires Sound(s) && !s.connected
    ensures TrafficOf(s, es) == Traffic([], [], [])
    decreases |es|
  {
    if es != [] {
      StepKeepsSound(s, es[0]);
      QueueStep(s, es[0]);
      DisconnectedIsSilent(Step(s, es[0]), es[1..]);
    }
  }

  /** Over every run the encoder receives exactly the frames that were sent, in the order they
      were sent; the rest are still queued, or were dropped when it disconnected. */
  lemma {:induction false} FramesArriveInOrder(s: State, es: seq<Event>)
    requires Sound(s)
    ensures var f := TrafficOf(s, es);
            s.queue + f.sent == f.received + f.dropped + Run(s, es).queue
    decreases |es|
  {
    if es != [] {
      var t := Step(s, es[0]);
      StepKeepsSound(s, es[0]);
      QueueStep(s, es[0]);
      FramesArriveInOrder(t, es[1..]);
      if es[0].Disconnect? {
        DisconnectedIsSilent(t, es[1..]);
      }
      JoinTraffic(s, t, es[0], TrafficOf(t, es[1..]), Run(t, es[1..]).queue);
    }
  }

  lemma JoinTraffic(s: State, t: State, e: Event, rest: Traffic, left: seq<Frame>)
    requires Shape(s) && s.queue + SentBy(s, e) == ReceivedBy(s, e) + DroppedBy(s, e) + t.queue
    requires t.queue + rest.sent == rest.received + rest.dropped + left
    requires DroppedBy(s, e) != [] ==> rest.received == []
    ensures s.queue + (SentBy(s, e) + rest.sent) ==
            (ReceivedBy(s, e) + rest.received) + (DroppedBy(s, e) + rest.dropped) + left
  {
    var r, d := ReceivedBy(s, e), DroppedBy(s, e);
    calc {
      s.queue + (SentBy(s, e) + rest.sent);
      (s.queue + SentBy(s, e)) + rest.sent;
      (r + d) + (t.queue + rest.sent);
      (r + d) + (rest.received + rest.dropped + left);
      (r + rest.received) + (d + rest.dropped) + left;
    }
  }

  // ---------- Ages ----------

  predicate Draws(outcome: Outcome) {
    Paints(outcome) || outcome.RenderError?
  }

  lemma DrawingStamps(s: State, idx: nat, scene: Image, outcome: Outcome)
    requires Shape(s) && idx < POOL_SIZE && Age(s, idx) >= 0
    ensures var t := CompositeInto(s, idx, scene, outcome);
            && |t.slots| == POOL_SIZE && t.renderCount == s.renderCount + (if Draws(outcome) then 1 else 0)
            && (forall i: nat :: i < POOL_SIZE ==>
                  t.slots[i].last == if Draws(outcome) && i == idx then Some(s.renderCount) else s.slots[i].last)
  {}

  /** The age of a slot is the number of `render_output` calls since the one that last drew into
      it: that call makes it 1, each later one adds 1, and nothing else changes it. */
  lemma AgeCountsRenders(s: State, e: Event, i: nat)
    requires Sound(s) && i < POOL_SIZE
    ensures Shape(Step(s, e))
    ensures Age(Step(s, e), i) ==
            if !(StartsRender(s, e) && Draws(e.call.outcome)) then Age(s, i)
            else if i == s.cursor then 1
            else if s.slots[i].last.None? then 0
            else Age(s, i) + 1
  {
    StepKeepsShape(s, e);
    match e
    case Call(Skip) =>
    case Call(Direct(b)) =>
      DirectIsQuiet(s, b);
    case Call(Composite(scene, outcome)) =>
      if s.slots[s.cursor].consumed {
        var u := Take(Reclaim(s));
        DrawingStamps(u, s.cursor, scene, outcome);
        assert u.slots[i].last == s.slots[i].last && u.renderCount == s.renderCount;
      }
    case _ =>
      EnvironmentIsQuiet(s, e);
  }

  // ---------- A leaked slot stops the pool ----------

  ghost function Starts(s: State, es: seq<Event>): nat
    requires Shape(s)
    decreases |es|
  {
    if es == [] then 0
    else
      StepKeepsShape(s, es[0]);
      (if StartsRender(s, es[0]) then 1 else 0) + Starts(Step(s, es[0]), es[1..])
  }

  /** How many slots the cursor passes before it stands on a leaked one. */
  function ToLeak(s: State): nat {
    if s.cursor in s.leaked then 0
    else if (s.cursor + 1) % POOL_SIZE in s.leaked then 1
    else 2
  }

  lemma CompositeProgress(s: State, idx: nat, scene: Image, outcome: Outcome)
    requires idx < |s.slots| && Age(s, idx) >= 0
    ensures var t := CompositeInto(s, idx, scene, outcome);
            t.cursor == s.cursor && s.leaked <= t.leaked && t.issued == s.issued
  {}

  lemma DirectProgress(s: State, b: BufferId)
    requires Lent(s)
    ensures var t := DirectScanout(s, b);
            && t.cursor == s.cursor && t.leaked == s.leaked
            && forall i :: i in s.issued ==> i in t.issued && t.issued[i] == s.issued[i]
  {}

  /** Only a started render moves the cursor; no step forgets a leak or an issued index. */
  lemma StepProgress(s: State, e: Event)
    requires Shape(s) && Lent(s)
    ensures Step(s, e).cursor == if StartsRender(s, e) then (s.cursor + 1) % POOL_SIZE else s.cursor
    ensures s.leaked <= Step(s, e).leaked
    ensures forall i :: i in s.issued ==> i in Step(s, e).issued && Step(s, e).issued[i] == s.issued[i]
  {
    match e
    case Call(Direct(b)) =>
      ReclaimKeepsLent(s);
      DirectProgress(Reclaim(s), b);
    case Call(Composite(scene, outcome)) =>
      if s.slots[s.cursor].consumed {
        CompositeProgress(Take(Reclaim(s)), s.cursor, scene, outcome);
      }
    case Consume(k) =>
      if k < |s.encoder| {
        ConsumeKeepsRest(s, k);
      }
    case _ =>
  }

  lemma AroundThePool(c: nat, i: nat)
    requires c < POOL_SIZE && i < POOL_SIZE
    ensures i == c || i == (c + 1) % POOL_SIZE || i == ((c + 1) % POOL_SIZE + 1) % POOL_SIZE
  {}

  lemma StepApproachesLeak(s: State, e: Event)
    requires Sound(s) && s.leaked != {}
    ensures s.leaked <= Step(s, e).leaked
    ensures ToLeak(Step(s, e)) + (if StartsRender(s, e) then 1 else 0) <= ToLeak(s)
  {
    StepProgress(s, e);
    var i :| i in s.leaked;
    assert i < POOL_SIZE && (StartsRender(s, e) ==> s.cursor !in s.leaked);
    AroundThePool(s.cursor, i);
  }

  /** Once a render is abandoned with its slot taken, the pool can serve at most two more
      frames: the cursor stops at the leaked slot for ever. */
  lemma {:induction false} LeakWedgesPool(s: State, es: seq<Event>)
    requires Sound(s) && s.leaked != {}
    ensures Starts(s, es) <= ToLeak(s) <= 2
    decreases |es|
  {
    if es != [] {
      StepApproachesLeak(s, es[0]);
      StepKeepsSound(s, es[0]);
      LeakWedgesPool(Step(s, es[0]), es[1..]);
    }
  }

  /** One failed render, then two that give their slots back. */
  function FailOnce(scene: Image, garbage: Image): seq<Event> {
    var drop := Call(Composite(scene, BindError));
    [Call(Composite(scene, RenderError(garbage, false))), drop, drop]
  }

  lemma FailureReachesLeak(scene: Image, garbage: Image)
    ensures var s := Run(Initial(), FailOnce(scene, garbage));
            s.leaked == {0} && s.cursor == 0 && s.connected && s.encoder == [] && s.queue == []
  {
    var fail, drop := Call(Composite(scene, RenderError(garbage, false))), Call(Composite(scene, BindError));
    var s1 := Step(Initial(), fail);
    assert s1.leaked == {0} && s1.cursor == 1 && s1.slots[1].consumed && s1.slots[2].consumed;
    var s2 := Step(s1, drop);
    assert s2.leaked == {0} && s2.cursor == 2 && s2.slots[2].consumed;
    assert FailOnce(scene, garbage)[1..] == [drop, drop] && [drop, drop][1..] == [drop] && [drop][1..] == [];
    assert Run(s1, [drop, drop]) == Run(s2, [drop]) == Step(s2, drop);
  }

  /** So the wedge is reachable: nothing is outstanding and yet no render can ever start again. */
  lemma OneFailureWedgesPool(scene: Image, garbage: Image)
    ensures var s := Run(Initial(), FailOnce(scene, garbage));
            && Sound(s) && s.leaked == {0} && Outstanding(s) == [] && s.connected
            && forall es :: Starts(s, es) == 0
  {
    var s := Run(Initial(), FailOnce(scene, garbage));
    FailureReachesLeak(scene, garbage);
    InitiallyConserved();
    EveryRunIsSound(Initial(), FailOnce(scene, garbage));
    forall es ensures Starts(s, es) == 0 {
      LeakWedgesPool(s, es);
    }
  }

  // ---------- Scanout indices ----------

  lemma {:induction false} IndicesNameOneBufferForEver(s: State, es: seq<Event>)
    requires Sound(s)
    ensures forall i :: i in s.issued ==> i in Run(s, es).issued && Run(s, es).issued[i] == s.issued[i]
    ensures forall f :: f in Outstanding(Run(s, es)) && f.Scanout? ==>
              f.index >= 3 && f.index in Run(s, es).issued && Run(s, es).issued[f.index] == f.buffer
    decreases |es|
  {
    EveryRunIsSound(s, es);
    if es != [] {
      StepKeepsSound(s, es[0]);
      StepProgress(s, es[0]);
      IndicesNameOneBufferForEver(Step(s, es[0]), es[1..]);
    }
  }

  /** The index of a buffer survives reclaiming exactly when none of its frames has been
      consumed: a buffer lent twice loses its index while its second frame is still out. */
  lemma NameSurvivesIffNoFrameConsumed(s: State, b: BufferId)
    requires Sound(s) && b in s.names
    ensures b in Reclaim(s).names <==>
              forall h :: h in s.held && h.buffer == b ==> !s.flags[h.flag]
  {
    ReclaimSplitsHeld(s.held, s.flags);
    assert forall h :: h in s.held ==> (IsSet(h, s.flags) <==> s.flags[h.flag]);
  }

  lemma {:induction false} RunConcat(s: State, a: seq<Event>, b: seq<Event>)
    requires Shape(s)
    ensures Shape(Run(s, a)) && Run(s, a + b) == Run(Run(s, a), b)
    decreases |a|
  {
    if a == [] {
      assert a + b == b;
    } else {
      assert (a + b)[0] == a[0] && (a + b)[1..] == a[1..] + b;
      StepKeepsShape(s, a[0]);
      RunConcat(Step(s, a[0]), a[1..], b);
    }
  }

  lemma RunTwo(s: State, d: Event, e: Event)
    requires Shape(s)
    ensures Shape(Step(s, d)) && Run(s, [d, e]) == Step(Step(s, d), e)
  {
    StepKeepsShape(s, d);
    StepKeepsShape(Step(s, d), e);
    assert Run(Step(s, d), [e]) == Step(Step(s, d), e);
    assert [d, e][1..] == [e];
  }

  /** A buffer is lent and its frame received. */
  function LentOnce(b: BufferId): State {
    Initial().(encoder := [Scanout(POOL_SIZE, b, 0)], flags := [false], held := [Held(0, b)],
               names := map[b := POOL_SIZE], nextIndex := POOL_SIZE + 1, issued := map[POOL_SIZE := b])
  }

  /** It is lent again, and its first frame consumed. */
  function LentTwice(b: BufferId): State {
    LentOnce(b).(encoder := [], queue := [Scanout(POOL_SIZE, b, 1)], flags := [true, false],
                 held := [Held(0, b), Held(1, b)])
  }

  lemma LendOnce(b: BufferId)
    ensures Run(Initial(), [Call(Direct(b)), Receive]) == LentOnce(b)
  {
    RunTwo(Initial(), Call(Direct(b)), Receive);
    assert Reclaim(Initial()) == Initial();
  }

  lemma LendTwice(b: BufferId)
    ensures Run(LentOnce(b), [Call(Direct(b)), Consume(0)]) == LentTwice(b)
  {
    var s := LentOnce(b);
    RunTwo(s, Call(Direct(b)), Consume(0));
    ReclaimAppend([], Held(0, b), s.flags);
    assert Reclaim(s) == s;
  }

  lemma RelendingChangesIndex(b: BufferId)
    ensures Outstanding(Step(LentTwice(b), Call(Direct(b)))) == [Scanout(POOL_SIZE, b, 1), Scanout(POOL_SIZE + 1, b, 2)]
  {
    var s := LentTwice(b);
    assert s.held == [] + [Held(0, b)] + [Held(1, b)];
    ReclaimAppend([], Held(0, b), s.flags);
    ReclaimAppend([] + [Held(0, b)], Held(1, b), s.flags);
    assert Reclaim(s).names == map[];
  }

  /** So the index is not stable: two frames of one buffer can be outstanding under different
      indices. */
  lemma OneBufferUnderTwoIndices(b: BufferId)
    ensures var s := Run(Initial(), [Call(Direct(b)), Receive] + [Call(Direct(b)), Consume(0)] + [Call(Direct(b))]);
            Outstanding(s) == [Scanout(POOL_SIZE, b, 1), Scanout(POOL_SIZE + 1, b, 2)]
  {
    var es1, es2, last := [Call(Direct(b)), Receive], [Call(Direct(b)), Consume(0)], [Call(Direct(b))];
    LendOnce(b);
    LendTwice(b);
    RunConcat(Initial(), es1, es2);
    RunConcat(Initial(), es1 + es2, last);
    RelendingChangesIndex(b);
    assert Run(LentTwice(b), last) == Step(LentTwice(b), last[0]);
  }
}
