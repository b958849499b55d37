/** Pen input: a stream of pen events turned into calls on tablet tool handles. The whole call
    trace is judged by an automaton that knows nothing of the event handling. */
module PenInput {
  import opened Common

  const HOVER: bv8 := 0
  const DOWN: bv8 := 1
  const UP: bv8 := 2
  const MOVE: bv8 := 3
  const CANCEL: bv8 := 4
  const BUTTON_ONLY: bv8 := 5
  const HOVER_LEAVE: bv8 := 6
  const CANCEL_ALL: bv8 := 7

  /** Button masks of the wire format with their evdev codes. */
  const BUTTONS: seq<(bv8, nat)> := [(1, 0x14B), (2, 0x14C), (4, 0x149)]

  /** A pen event, with what the compositor finds out while handling it: whether its tablet is
      registered and whether a surface is under the pen. */
  datatype Event = Event(kind: bv8, tool: bv8, buttons: bv8, tilted: bool, tablet: bool, focus: bool)

  datatype Call =
    | ProximityIn(tool: bv8)
    | ProximityOut(tool: bv8)
    | Distance(tool: bv8)
    | Pressure(tool: bv8)
    | Tilt(tool: bv8)
    | Motion(tool: bv8)
    | Button(tool: bv8, code: nat, pressed: bool)
    | TipDown(tool: bv8)
    | TipUp(tool: bv8)

  /** `tools` are the tool handles made so far; handles are never removed. */
  datatype Pen = Pen(active: Option<bv8>, buttons: bv8, tools: set<bv8>)

  // ---------- Event handling ----------

  /** The call for the `i`-th button, if it differs. */
  function SyncOne(tool: bv8, before: bv8, after: bv8, i: nat): seq<Call>
    requires i < |BUTTONS|
  {
    var (mask, code) := BUTTONS[i];
    if before & mask != after & mask then [Button(tool, code, after & mask != 0)] else []
  }

  function SyncFrom(tool: bv8, before: bv8, after: bv8, n: nat): seq<Call>
    requires n <= |BUTTONS|
  {
    if n == 0 then [] else SyncFrom(tool, before, after, n - 1) + SyncOne(tool, before, after, n - 1)
  }

  /** `sync_pen_buttons`: one call for each button that differs. */
  function Sync(tool: bv8, before: bv8, after: bv8): seq<Call> {
    SyncFrom(tool, before, after, |BUTTONS|)
  }

  /** `release_pen`. */
  function Release(p: Pen): (Pen, seq<Call>) {
    var calls :=
      if p.active.Some? && p.active.value in p.tools
      then [TipUp(p.active.value)] + Sync(p.active.value, p.buttons, 0) + [ProximityOut(p.active.value)]
      else [];
    (p.(active := None, buttons := 0), calls)
  }

  function TipCalls(e: Event): seq<Call> {
    if e.kind == DOWN || e.kind == MOVE then [TipDown(e.tool)]
    else if e.kind == UP then [TipUp(e.tool)]
    else []
  }

  /** Distance for a hovering pen and pressure otherwise, tilt if known, then the motion. */
  function AxisCalls(e: Event): seq<Call> {
    [if e.kind == HOVER then Distance(e.tool) else Pressure(e.tool)]
      + (if e.tilted then [Tilt(e.tool)] else [])
      + [Motion(e.tool)]
  }

  /** `process_pen_input` past the early returns: the pen is, or comes, in proximity. */
  function Touch(p: Pen, e: Event): (Pen, seq<Call>) {
    if p.active.None? && !e.focus then (p, [])
    else
      var enter := if p.active.None? then [ProximityIn(e.tool)] else [];
      (p.(active := Some(e.tool), buttons := e.buttons),
       enter + AxisCalls(e) + Sync(e.tool, p.buttons, e.buttons) + TipCalls(e))
  }

  /** A different tool first closes the active one; the event's tool handle is made. */
  function Switch(p: Pen, e: Event): (Pen, seq<Call>) {
    var (q, closing) := if p.active.Some? && p.active.value != e.tool then Release(p) else (p, []);
    (q.(tools := q.tools + {e.tool}), closing)
  }

  predicate Leaves(e: Event) {
    e.kind == CANCEL || e.kind == HOVER_LEAVE || e.kind == CANCEL_ALL
  }

  function Process(p: Pen, e: Event): (Pen, seq<Call>) {
    if Leaves(e) then Release(p)
    else if e.kind == BUTTON_ONLY then
      if p.active.None? then (p, [])
      else (p.(buttons := e.buttons, tools := p.tools + {p.active.value}), Sync(p.active.value, p.buttons, e.buttons))
    else
      var (r, closing) := Switch(p, e);
      if !e.tablet then (r, closing) else (Touch(r, e).0, closing + Touch(r, e).1)
  }

  /** The state and the whole trace after a sequence of events. */
  function Run(p: Pen, es: seq<Event>): (Pen, seq<Call>)
    decreases |es|
  {
    if es == [] then (p, [])
    else
      var (q, calls) := Process(p, es[0]);
      var (t, rest) := Run(q, es[1..]);
      (t, calls + rest)
  }

  // ---------- The judge ----------

  /** What an observer of the calls knows: the tool in proximity and its pressed buttons. */
  datatype Watch = Watch(tool: Option<bv8>, down: set<nat>)

  /** Proximity brackets do not nest or overlap, every call names the tool in proximity,
      presses and releases of a button alternate, and a bracket closes with no button down. */
  function Accept(w: Watch, call: Call): Option<Watch> {
    match call
    case ProximityIn(t) => if w.tool.None? then Some(Watch(Some(t), {})) else None
    case ProximityOut(t) => if w.tool == Some(t) && w.down == {} then Some(Watch(None, {})) else None
    case Button(t, code, true) =>
      if w.tool == Some(t) && code !in w.down then Some(w.(down := w.down + {code})) else None
    case Button(t, code, false) =>
      if w.tool == Some(t) && code in w.down then Some(w.(down := w.down - {code})) else None
    case _ => if w.tool == Some(call.tool) then Some(w) else None
  }

  function AcceptAll(w: Watch, calls: seq<Call>): Option<Watch>
    decreases |calls|
  {
    if calls == [] then Some(w)
    else
      var next := Accept(w, calls[0]);
      if next.None? then None else AcceptAll(next.value, calls[1..])
  }

  lemma {:induction false} AcceptConcat(w: Watch, a: seq<Call>, b: seq<Call>)
    ensures AcceptAll(w, a + b) == if AcceptAll(w, a).None? then None else AcceptAll(AcceptAll(w, a).value, b)
    decreases |a|
  {
    if a == [] {
      assert a + b == b;
    } else {
      assert (a + b)[0] == a[0] && (a + b)[1..] == a[1..] + b;
      if Accept(w, a[0]).Some? {
        AcceptConcat(Accept(w, a[0]).value, a[1..], b);
      }
    }
  }

  /** The code of the `i`-th button if it is set in the mask. */
  function Held(buttons: bv8, i: nat): set<nat>
    requires i < |BUTTONS|
  {
    if buttons & BUTTONS[i].0 != 0 then {BUTTONS[i].1} else {}
  }

  /** What is down half-way through a synchronisation: the first `n` buttons as in `after`, the
      others as in `before`. */
  function Mixed(before: bv8, after: bv8, n: nat): set<nat> {
    Held(if n > 0 then after else before, 0) + Held(if n > 1 then after else before, 1)
      + Held(if n > 2 then after else before, 2)
  }

  /** The codes of the pressed buttons of a mask. */
  function Pressed(buttons: bv8): set<nat> {
    Held(buttons, 0) + Held(buttons, 1) + Held(buttons, 2)
  }

  lemma MixedOneMore(before: bv8, after: bv8, n: nat)
    requires n < |BUTTONS|
    ensures var code := BUTTONS[n].1;
            && (code in Mixed(before, after, n) <==> before & BUTTONS[n].0 != 0)
            && Mixed(before, after, n + 1) == Mixed(before, after, n) - {code} + Held(after, n)
  {}

  lemma MaskIsOneBit(before: bv8, after: bv8, mask: bv8)
    requires mask == 1 || mask == 2 || mask == 4
    ensures before & mask != after & mask <==> ((before & mask != 0) != (after & mask != 0))
  {}

  lemma SyncOneAccepted(tool: bv8, before: bv8, after: bv8, i: nat)
    requires i < |BUTTONS|
    ensures AcceptAll(Watch(Some(tool), Mixed(before, after, i)), SyncOne(tool, before, after, i)) ==
            Some(Watch(Some(tool), Mixed(before, after, i + 1)))
  {
    var (mask, code) := BUTTONS[i];
    var w := Watch(Some(tool), Mixed(before, after, i));
    MixedOneMore(before, after, i);
    MaskIsOneBit(before, after, mask);
    if before & mask != after & mask {
      AcceptOne(w, Button(tool, code, after & mask != 0));
      assert Mixed(before, after, i + 1) == if after & mask != 0 then w.down + {code} else w.down - {code};
    } else {
      assert Mixed(before, after, i + 1) == w.down;
    }
  }

  lemma AcceptOne(w: Watch, call: Call)
    ensures AcceptAll(w, [call]) == Accept(w, call)
  {}

  lemma {:induction false} SyncAccepted(tool: bv8, before: bv8, after: bv8, n: nat)
    requires n <= |BUTTONS|
    ensures AcceptAll(Watch(Some(tool), Pressed(before)), SyncFrom(tool, before, after, n)) ==
            Some(Watch(Some(tool), Mixed(before, after, n)))
    decreases n
  {
    if n == 0 {
      assert Mixed(before, after, 0) == Pressed(before);
    } else {
      SyncAccepted(tool, before, after, n - 1);
      SyncOneAccepted(tool, before, after, n - 1);
      AcceptConcat(Watch(Some(tool), Pressed(before)), SyncFrom(tool, before, after, n - 1),
          SyncOne(tool, before, after, n - 1));
    }
  }

  // ---------- Every trace is accepted ----------

  /** The handler's state is what an observer of the trace would conclude. */
  ghost predicate Knows(p: Pen, w: Watch) {
    && w == Watch(p.active, Pressed(p.buttons))
    && (p.active.None? ==> p.buttons == 0)
    && (p.active.Some? ==> p.active.value in p.tools)
  }

  lemma NothingPressed()
    ensures Pressed(0) == {}
  {}

  /** Closing: the bracket ends with every button released. */
  lemma ReleaseAccepted(p: Pen, w: Watch)
    requires Knows(p, w)
    ensures AcceptAll(w, Release(p).1) == Some(Watch(None, {})) && Knows(Release(p).0, Watch(None, {}))
  {
    NothingPressed();
    if p.active.Some? {
      var t := p.active.value;
      var middle := Sync(t, p.buttons, 0);
      SyncAccepted(t, p.buttons, 0, |BUTTONS|);
      assert Mixed(p.buttons, 0, |BUTTONS|) == {};
      AcceptConcat(w, [TipUp(t)] + middle, [ProximityOut(t)]);
      AcceptConcat(w, [TipUp(t)], middle);
      AcceptOne(w, TipUp(t));
      AcceptOne(Watch(Some(t), {}), ProximityOut(t));
    }
  }

  lemma SyncSetsPressed(tool: bv8, before: bv8, after: bv8)
    ensures AcceptAll(Watch(Some(tool), Pressed(before)), Sync(tool, before, after)) ==
            Some(Watch(Some(tool), Pressed(after)))
  {
    SyncAccepted(tool, before, after, |BUTTONS|);
    assert Mixed(before, after, |BUTTONS|) == Pressed(after);
  }

  lemma AxesAccepted(e: Event, w: Watch)
    requires w.tool == Some(e.tool)
    ensures AcceptAll(w, AxisCalls(e)) == Some(w)
  {
    var first := if e.kind == HOVER then Distance(e.tool) else Pressure(e.tool);
    var tilt := if e.tilted then [Tilt(e.tool)] else [];
    AcceptOne(w, first);
    AcceptOne(w, Tilt(e.tool));
    AcceptOne(w, Motion(e.tool));
    AcceptConcat(w, [first], tilt);
    AcceptConcat(w, [first] + tilt, [Motion(e.tool)]);
  }

  lemma TouchAccepted(p: Pen, e: Event, w: Watch)
    requires Knows(p, w) && e.tool in p.tools && (p.active.Some? ==> p.active.value == e.tool)
    ensures AcceptAll(w, Touch(p, e).1).Some? && Knows(Touch(p, e).0, AcceptAll(w, Touch(p, e).1).value)
  {
    NothingPressed();
    if p.active.Some? || e.focus {
      var enter := if p.active.None? then [ProximityIn(e.tool)] else [];
      var axes := AxisCalls(e);
      var sync := Sync(e.tool, p.buttons, e.buttons);
      var inside := Watch(Some(e.tool), Pressed(p.buttons));
      var after := Watch(Some(e.tool), Pressed(e.buttons));
      AcceptOne(w, ProximityIn(e.tool));
      assert AcceptAll(w, enter) == Some(inside);
      AxesAccepted(e, inside);
      SyncSetsPressed(e.tool, p.buttons, e.buttons);
      AcceptOne(after, TipDown(e.tool));
      AcceptOne(after, TipUp(e.tool));
      AcceptConcat(w, enter, axes);
      AcceptConcat(w, enter + axes, sync);
      AcceptConcat(w, enter + axes + sync, TipCalls(e));
    }
  }

  lemma ProcessAccepted(p: Pen, e: Event, w: Watch)
    requires Knows(p, w)
    ensures AcceptAll(w, Process(p, e).1).Some? && Knows(Process(p, e).0, AcceptAll(w, Process(p, e).1).value)
    ensures Leaves(e) ==> Process(p, e).0.active.None? && AcceptAll(w, Process(p, e).1) == Some(Watch(None, {}))
  {
    if Leaves(e) {
      ReleaseAccepted(p, w);
    } else if e.kind == BUTTON_ONLY {
      if p.active.Some? {
        SyncSetsPressed(p.active.value, p.buttons, e.buttons);
      }
    } else {
      var (r, closing) := Switch(p, e);
      var v := if p.active.Some? && p.active.value != e.tool then Watch(None, {}) else w;
      ReleaseAccepted(p, w);
      assert AcceptAll(w, closing) == Some(v) && Knows(r, v);
      if e.tablet {
        TouchAccepted(r, e, v);
        AcceptConcat(w, closing, Touch(r, e).1);
      }
    }
  }

  /** Over every sequence of pen events the calls form non-overlapping proximity brackets, one
      tool at a time, with alternating presses and releases inside and nothing left pressed at
      the end of a bracket; the handler's state always matches the trace. */
  lemma {:induction false} TraceIsWellFormed(p: Pen, es: seq<Event>, w: Watch)
    requires Knows(p, w)
    ensures AcceptAll(w, Run(p, es).1).Some? && Knows(Run(p, es).0, AcceptAll(w, Run(p, es).1).value)
    decreases |es|
  {
    if es != [] {
      var (q, calls) := Process(p, es[0]);
      ProcessAccepted(p, es[0], w);
      var v := AcceptAll(w, calls).value;
      TraceIsWellFormed(q, es[1..], v);
      AcceptConcat(w, calls, Run(q, es[1..]).1);
    }
  }

  lemma InitiallyKnown()
    ensures Knows(Pen(None, 0, {}), Watch(None, {}))
  {}

  // ---------- The state and the trace, read off the events ----------

  const INITIALLY: Pen := Pen(None, 0, {})

  /** An event that positions a pen: neither a leave nor buttons only. */
  predicate Positions(e: Event) {
    !(e.kind == 4 || e.kind == 5 || e.kind == 6 || e.kind == 7)
  }

  /** The event ends the bracket of tool `t`: a cancel, a leave, or another tool. */
  predicate Ends(e: Event, t: bv8) {
    e.kind == 4 || e.kind == 6 || e.kind == 7 || (Positions(e) && e.tool != t)
  }

  /** Tool `t` is in proximity: at some point it was positioned over a surface, on a registered
      tablet, and no event has ended its bracket since. */
  ghost predicate Near(es: seq<Event>, t: bv8) {
    exists i :: 0 <= i < |es| && Enters(es, t, i)
  }

  ghost predicate Enters(es: seq<Event>, t: bv8, i: nat)
    requires i < |es|
  {
    && Positions(es[i]) && es[i].tool == t && es[i].tablet && es[i].focus
    && forall j :: i < j < |es| ==> !Ends(es[j], t)
  }

  /** The event at `k` positions a pen that is, or thereby comes, in proximity. */
  ghost predicate Handled(es: seq<Event>, k: nat)
    requires k < |es|
  {
    Positions(es[k]) && es[k].tablet && Near(es[..k + 1], es[k].tool)
  }

  lemma RunSnoc(es: seq<Event>)
    requires es != []
    ensures var n := |es| - 1;
            var (p, calls) := Run(INITIALLY, es[..n]);
            Run(INITIALLY, es) == (Process(p, es[n]).0, calls + Process(p, es[n]).1)
  {
    RunAppend(INITIALLY, es[..|es| - 1], es[|es| - 1]);
    assert es == es[..|es| - 1] + [es[|es| - 1]];
  }

  lemma {:induction false} RunAppend(p: Pen, es: seq<Event>, e: Event)
    ensures var (q, calls) := Run(p, es);
            Run(p, es + [e]) == (Process(q, e).0, calls + Process(q, e).1)
    decreases |es|
  {
    if es == [] {
      assert es + [e] == [e] && [e][1..] == [];
      assert Process(p, e).1 + [] == [] + Process(p, e).1;
    } else {
      assert (es + [e])[0] == es[0] && (es + [e])[1..] == es[1..] + [e];
      RunAppend(Process(p, es[0]).0, es[1..], e);
      var (next, first) := Process(p, es[0]);
      var (q, rest) := Run(next, es[1..]);
      assert first + (rest + Process(q, e).1) == first + rest + Process(q, e).1;
    }
  }

  /** One more event: the pen enters, or stays as long as the event does not end its bracket. */
  lemma NearStep(es: seq<Event>, e: Event, t: bv8)
    ensures Near(es + [e], t) <==>
            (Near(es, t) && !Ends(e, t)) || (Positions(e) && e.tool == t && e.tablet && e.focus)
  {
    var more := es + [e];
    if Near(es, t) && !Ends(e, t) {
      var i :| 0 <= i < |es| && Enters(es, t, i);
      assert Enters(more, t, i);
    }
    if Positions(e) && e.tool == t && e.tablet && e.focus {
      assert Enters(more, t, |es|);
    }
    if Near(more, t) {
      var i :| 0 <= i < |more| && Enters(more, t, i);
      if i < |es| {
        assert more[|es|] == e;
        assert forall j :: i < j < |es| ==> more[j] == es[j];
        assert Enters(es, t, i);
      }
    }
  }

  /** After any run the active tool is the one in proximity according to the events. */
  lemma {:induction false} ActiveIffNear(es: seq<Event>, t: bv8)
    ensures Run(INITIALLY, es).0.active == Some(t) <==> Near(es, t)
  {
    if es != [] {
      var n := |es| - 1;
      RunSnoc(es);
      assert es == es[..n] + [es[n]];
      NearStep(es[..n], es[n], t);
      ActiveIffNear(es[..n], t);
      if Run(INITIALLY, es[..n]).0.active.Some? {
        ActiveIffNear(es[..n], Run(INITIALLY, es[..n]).0.active.value);
      }
    }
  }

  /** The last event that can change the buttons of a pen in proximity. */
  function LastInput(es: seq<Event>): int {
    if es == [] then -1
    else
      var n := |es| - 1;
      if es[n].kind == 5 || (Positions(es[n]) && es[n].tablet) then n else LastInput(es[..n])
  }

  /** A pen in proximity has the buttons of the last such event; a pen outside has none. */
  lemma {:induction false} ButtonsAreLatest(es: seq<Event>)
    ensures var p := Run(INITIALLY, es).0;
            && -1 <= LastInput(es) < |es|
            && (p.active.None? ==> p.buttons == 0)
            && (p.active.Some? ==> LastInput(es) >= 0 && p.buttons == es[LastInput(es)].buttons)
  {
    if es != [] {
      RunSnoc(es);
      ButtonsAreLatest(es[..|es| - 1]);
    }
  }

  /** What an observer of the calls sees pressed: nothing outside a bracket, and inside it the
      buttons of the last such event, by their evdev codes. */
  lemma PressedIsWhatEventsSay(es: seq<Event>)
    ensures var w := AcceptAll(Watch(None, {}), Run(INITIALLY, es).1);
            && w.Some? && (w.value.tool.None? ==> w.value.down == {})
            && (w.value.tool.Some? ==>
                  && -1 < LastInput(es) < |es|
                  && var b := es[LastInput(es)].buttons;
                     && (0x14B in w.value.down <==> b & 1 != 0)
                     && (0x14C in w.value.down <==> b & 2 != 0)
                     && (0x149 in w.value.down <==> b & 4 != 0)
                     && w.value.down <= {0x14B, 0x14C, 0x149})
  {
    InitiallyKnown();
    NothingPressed();
    TraceIsWellFormed(INITIALLY, es, Watch(None, {}));
    ButtonsAreLatest(es);
  }

  // ---------- The tip ----------

  /** Where the calls leave the tip of the tool in proximity. */
  function TipAfter(down: bool, calls: seq<Call>): bool
    decreases |calls|
  {
    if calls == [] then down else TipAfter(TipOf(down, calls[0]), calls[1..])
  }

  function TipOf(down: bool, call: Call): bool {
    match call
    case TipDown(_) => true
    case TipUp(_) => false
    case ProximityIn(_) => false
    case ProximityOut(_) => false
    case _ => down
  }

  lemma {:induction false} TipConcat(down: bool, a: seq<Call>, b: seq<Call>)
    ensures TipAfter(down, a + b) == TipAfter(TipAfter(down, a), b)
    decreases |a|
  {
    if a == [] {
      assert a + b == b;
    } else {
      assert (a + b)[0] == a[0] && (a + b)[1..] == a[1..] + b;
      TipConcat(TipOf(down, a[0]), a[1..], b);
    }
  }

  /** The event puts the tip of tool `t` down, or lifts it. */
  predicate Lowers(e: Event, t: bv8) {
    (e.kind == 1 || e.kind == 3) && e.tool == t && e.tablet
  }

  predicate Lifts(e: Event, t: bv8) {
    e.kind == 2 && e.tool == t && e.tablet
  }

  /** The tip of `t` is down: it was put down inside the current bracket and not lifted since. */
  ghost predicate Touching(es: seq<Event>, t: bv8) {
    exists k :: 0 <= k < |es| && TouchedAt(es, t, k)
  }

  ghost predicate TouchedAt(es: seq<Event>, t: bv8, k: nat)
    requires k < |es|
  {
    && Lowers(es[k], t) && Handled(es, k)
    && forall j :: k < j < |es| ==> !Ends(es[j], t) && !Lifts(es[j], t)
  }

  lemma StillTouching(es: seq<Event>, e: Event, t: bv8, k: nat)
    requires k < |es|
    ensures TouchedAt(es + [e], t, k) <==> TouchedAt(es, t, k) && !Ends(e, t) && !Lifts(e, t)
  {
    var more := es + [e];
    assert more[..k + 1] == es[..k + 1] && more[|es|] == e;
    assert forall j :: 0 <= j < |es| ==> more[j] == es[j];
  }

  lemma TouchingStep(es: seq<Event>, e: Event, t: bv8)
    ensures Touching(es + [e], t) <==>
            || (Touching(es, t) && !Ends(e, t) && !Lifts(e, t))
            || (Lowers(e, t) && Near(es + [e], t))
  {
    var more := es + [e];
    assert more[..|es| + 1] == more && more[|es|] == e;
    if Touching(es, t) && !Ends(e, t) && !Lifts(e, t) {
      var k :| 0 <= k < |es| && TouchedAt(es, t, k);
      StillTouching(es, e, t, k);
    }
    if Lowers(e, t) && Near(more, t) {
      assert TouchedAt(more, t, |es|);
    }
    if Touching(more, t) {
      var k :| 0 <= k < |more| && TouchedAt(more, t, k);
      if k < |es| {
        StillTouching(es, e, t, k);
      }
    }
  }

  lemma {:induction false} SyncKeepsTip(down: bool, tool: bv8, before: bv8, after: bv8, n: nat)
    requires n <= |BUTTONS|
    ensures TipAfter(down, SyncFrom(tool, before, after, n)) == down
    decreases n
  {
    if n > 0 {
      SyncKeepsTip(down, tool, before, after, n - 1);
      TipConcat(down, SyncFrom(tool, before, after, n - 1), SyncOne(tool, before, after, n - 1));
    }
  }

  lemma ReleaseLiftsTip(p: Pen, down: bool)
    requires p.active.Some? ==> p.active.value in p.tools
    ensures TipAfter(down, Release(p).1) == (down && p.active.None?)
  {
    if p.active.Some? {
      var t := p.active.value;
      var middle := Sync(t, p.buttons, 0);
      TipConcat(down, [TipUp(t)] + middle, [ProximityOut(t)]);
      assert [ProximityOut(t)][1..] == [];
    }
  }

  /** A positioned pen: coming into proximity lifts the tip, then a down or move puts it down, an up
      lifts it, and anything else leaves it. */
  lemma TouchSetsTip(p: Pen, e: Event, down: bool)
    requires (p.active.Some? || e.focus) && Positions(e)
    ensures TipAfter(down, Touch(p, e).1) ==
            if e.kind == 1 || e.kind == 3 then true else if e.kind == 2 then false else down && p.active.Some?
  {
    var enter := if p.active.None? then [ProximityIn(e.tool)] else [];
    var sync := Sync(e.tool, p.buttons, e.buttons);
    TipConcat(down, enter + AxisCalls(e) + sync, TipCalls(e));
    TipConcat(down, enter + AxisCalls(e), sync);
    TipConcat(down, enter, AxisCalls(e));
    SyncKeepsTip(TipAfter(down, enter + AxisCalls(e)), e.tool, p.buttons, e.buttons, |BUTTONS|);
    AxesKeepTip(TipAfter(down, enter), e);
    assert enter != [] ==> enter[1..] == [];
    assert TipCalls(e) != [] ==> TipCalls(e)[1..] == [];
  }

  lemma AxesKeepTip(down: bool, e: Event)
    ensures TipAfter(down, AxisCalls(e)) == down
  {
    var first := [if e.kind == HOVER then Distance(e.tool) else Pressure(e.tool)];
    var tilt := if e.tilted then [Tilt(e.tool)] else [];
    TipConcat(down, first + tilt, [Motion(e.tool)]);
    TipConcat(down, first, tilt);
    assert first[1..] == [] && [Motion(e.tool)][1..] == [] && (tilt != [] ==> tilt[1..] == []);
  }

  /** Where an event leaves the tip, given the active tool before. */
  function TipSays(active: Option<bv8>, e: Event, down: bool): bool {
    if e.kind == 4 || e.kind == 6 || e.kind == 7 then false
    else if e.kind == 5 then down
    else
      var stays := active == Some(e.tool);
      if !e.tablet || !(stays || e.focus) then down && stays
      else if e.kind == 1 || e.kind == 3 then true
      else if e.kind == 2 then false
      else down && stays
  }

  lemma ProcessSetsTip(p: Pen, e: Event, down: bool)
    requires p.active.Some? ==> p.active.value in p.tools
    requires p.active.None? ==> !down
    ensures TipAfter(down, Process(p, e).1) == TipSays(p.active, e, down)
  {
    ReleaseLiftsTip(p, down);
    if e.kind == 5 {
      if p.active.Some? {
        SyncKeepsTip(down, p.active.value, p.buttons, e.buttons, |BUTTONS|);
      }
    } else if Positions(e) {
      var (r, closing) := Switch(p, e);
      var after := TipAfter(down, closing);
      assert after == (down && p.active == Some(e.tool));
      if e.tablet {
        TipConcat(down, closing, Touch(r, e).1);
        if r.active.Some? || e.focus {
          TouchSetsTip(r, e, after);
        }
      }
    }
  }

  lemma TipStepAgrees(es: seq<Event>, e: Event, active: Option<bv8>, down: bool, t: bv8)
    requires active == Some(t) <==> Near(es, t)
    requires active == Some(t) ==> (down <==> Touching(es, t))
    requires active.None? ==> !down
    requires Near(es + [e], t)
    ensures TipSays(active, e, down) <==> Touching(es + [e], t)
  {
    TouchingStep(es, e, t);
    NearStep(es, e, t);
    TouchingIsNear(es, t);
  }

  /** The tip over a whole run: down exactly when the events say so, and up outside a bracket. */
  lemma {:induction false} TipIsWhatEventsSay(es: seq<Event>)
    ensures var (p, calls) := Run(INITIALLY, es);
            && (p.active.None? ==> !TipAfter(false, calls))
            && (p.active.Some? ==> (TipAfter(false, calls) <==> Touching(es, p.active.value)))
  {
    if es != [] {
      var n := |es| - 1;
      var (q, before) := Run(INITIALLY, es[..n]);
      TipIsWhatEventsSay(es[..n]);
      RunSnoc(es);
      TipConcat(false, before, Process(q, es[n]).1);
      ActiveHasHandle(es[..n]);
      ProcessSetsTip(q, es[n], TipAfter(false, before));
      var p := Run(INITIALLY, es).0;
      assert es == es[..n] + [es[n]];
      if p.active.Some? {
        var t := p.active.value;
        ActiveIffNear(es, t);
        ActiveIffNear(es[..n], t);
        TipStepAgrees(es[..n], es[n], q.active, TipAfter(false, before), t);
      }
    }
  }

  lemma ActiveHasHandle(es: seq<Event>)
    ensures var p := Run(INITIALLY, es).0; p.active.Some? ==> p.active.value in p.tools
  {
    InitiallyKnown();
    TraceIsWellFormed(INITIALLY, es, Watch(None, {}));
  }

  lemma TouchingIsNear(es: seq<Event>, t: bv8)
    ensures Touching(es, t) ==> Near(es, t)
  {
    if Touching(es, t) {
      var k :| 0 <= k < |es| && TouchedAt(es, t, k);
      var i :| 0 <= i < k + 1 && Enters(es[..k + 1], t, i);
      assert forall j :: 0 <= j <= k ==> es[..k + 1][j] == es[j];
      assert Enters(es, t, i);
    }
  }

  // ---------- Axes and motion ----------

  /** How many calls of a kind, on tool `t`, a trace has. */
  function Count(calls: seq<Call>, c: Call): nat
    decreases |calls|
  {
    if calls == [] then 0 else (if calls[0] == c then 1 else 0) + Count(calls[1..], c)
  }

  lemma {:induction false} CountConcat(a: seq<Call>, b: seq<Call>, c: Call)
    ensures Count(a + b, c) == Count(a, c) + Count(b, c)
    decreases |a|
  {
    if a == [] {
      assert a + b == b;
    } else {
      assert (a + b)[0] == a[0] && (a + b)[1..] == a[1..] + b;
      CountConcat(a[1..], b, c);
    }
  }

  predicate IsAxis(c: Call) {
    c.Distance? || c.Pressure? || c.Tilt? || c.Motion?
  }

  lemma {:induction false} SyncHasNoAxes(tool: bv8, before: bv8, after: bv8, n: nat, c: Call)
    requires n <= |BUTTONS| && IsAxis(c)
    ensures Count(SyncFrom(tool, before, after, n), c) == 0
    decreases n
  {
    if n > 0 {
      SyncHasNoAxes(tool, before, after, n - 1, c);
      CountConcat(SyncFrom(tool, before, after, n - 1), SyncOne(tool, before, after, n - 1), c);
    }
  }

  lemma ReleaseHasNoAxes(p: Pen, c: Call)
    requires IsAxis(c)
    ensures Count(Release(p).1, c) == 0
  {
    if p.active.Some? && p.active.value in p.tools {
      var t := p.active.value;
      var middle := Sync(t, p.buttons, 0);
      CountConcat([TipUp(t)] + middle, [ProximityOut(t)], c);
      CountConcat([TipUp(t)], middle, c);
      SyncHasNoAxes(t, p.buttons, 0, |BUTTONS|, c);
    }
  }

  /** The axis calls an event asks for: distance when hovering, pressure otherwise, tilt if known,
      and one motion. */
  predicate Wants(e: Event, c: Call) {
    || (c == Distance(e.tool) && e.kind == 0)
    || (c == Pressure(e.tool) && e.kind != 0)
    || (c == Tilt(e.tool) && e.tilted)
    || c == Motion(e.tool)
  }

  lemma AxisCallsAreWanted(e: Event, c: Call)
    requires IsAxis(c)
    ensures Count(AxisCalls(e), c) == if Wants(e, c) then 1 else 0
  {
    var first := [if e.kind == HOVER then Distance(e.tool) else Pressure(e.tool)];
    var tilt := if e.tilted then [Tilt(e.tool)] else [];
    CountConcat(first + tilt, [Motion(e.tool)], c);
    CountConcat(first, tilt, c);
    assert first[1..] == [] && [Motion(e.tool)][1..] == [] && (tilt != [] ==> tilt[1..] == []);
  }

  lemma TouchCountsAxes(p: Pen, e: Event, c: Call)
    requires IsAxis(c)
    ensures Count(Touch(p, e).1, c) == if (p.active.Some? || e.focus) && Wants(e, c) then 1 else 0
  {
    if p.active.Some? || e.focus {
      var enter := if p.active.None? then [ProximityIn(e.tool)] else [];
      var sync := Sync(e.tool, p.buttons, e.buttons);
      CountConcat(enter + AxisCalls(e) + sync, TipCalls(e), c);
      CountConcat(enter + AxisCalls(e), sync, c);
      CountConcat(enter, AxisCalls(e), c);
      SyncHasNoAxes(e.tool, p.buttons, e.buttons, |BUTTONS|, c);
      AxisCallsAreWanted(e, c);
      assert enter != [] ==> enter[1..] == [];
      assert TipCalls(e) != [] ==> TipCalls(e)[1..] == [];
    }
  }

  lemma ProcessCountsAxes(p: Pen, e: Event, c: Call)
    requires IsAxis(c)
    ensures Count(Process(p, e).1, c) ==
            if Positions(e) && e.tablet && (p.active == Some(e.tool) || e.focus) && Wants(e, c) then 1 else 0
  {
    ReleaseHasNoAxes(p, c);
    if e.kind == 5 {
      if p.active.Some? {
        SyncHasNoAxes(p.active.value, p.buttons, e.buttons, |BUTTONS|, c);
      }
    } else if Positions(e) {
      var (r, closing) := Switch(p, e);
      if e.tablet {
        CountConcat(closing, Touch(r, e).1, c);
        TouchCountsAxes(r, e, c);
      }
    }
  }

  /** How many handled events ask for the call. */
  ghost function Wanted(es: seq<Event>, c: Call): nat {
    if es == [] then 0
    else
      var n := |es| - 1;
      Wanted(es[..n], c) + (if Handled(es, n) && Wants(es[n], c) then 1 else 0)
  }

  /** Over every run each axis and motion call is made exactly as often as handled events ask for
      it: one distance per hover, one pressure per other event, one motion each, for its own tool. */
  lemma {:induction false} AxesAreWhatEventsAsk(es: seq<Event>, c: Call)
    requires IsAxis(c)
    ensures Count(Run(INITIALLY, es).1, c) == Wanted(es, c)
  {
    if es != [] {
      var n := |es| - 1;
      var (q, before) := Run(INITIALLY, es[..n]);
      AxesAreWhatEventsAsk(es[..n], c);
      RunSnoc(es);
      CountConcat(before, Process(q, es[n]).1, c);
      ProcessCountsAxes(q, es[n], c);
      assert es == es[..n] + [es[n]] && es[..n + 1] == es;
      NearStep(es[..n], es[n], es[n].tool);
      ActiveIffNear(es[..n], es[n].tool);
    }
  }

  // ---------- The compositor's pen fields, updated in place ----------

  class PenState {
    var activePenToolKind: Option<bv8>
    var penButtons: bv8
    var tools: set<bv8>
    /** The calls made on tool handles so far. */
    var trace: seq<Call>

    ghost function View(): Pen
      reads this
    {
      Pen(activePenToolKind, penButtons, tools)
    }

    constructor ()
      ensures View() == Pen(None, 0, {}) && trace == []
    {
      activePenToolKind, penButtons, tools, trace := None, 0, {}, [];
    }

    method SyncPenButtons(tool: bv8, before: bv8, after: bv8)
      modifies this`trace
      ensures trace == old(trace) + Sync(tool, before, after)
    {
      var i := 0;
      while i < |BUTTONS|
        invariant 0 <= i <= |BUTTONS|
        invariant trace == old(trace) + SyncFrom(tool, before, after, i)
      {
        ghost var done := SyncFrom(tool, before, after, i);
        var call := SyncOne(tool, before, after, i);
        trace := trace + call;
        assert trace == old(trace) + (done + call);
        i := i + 1;
      }
    }

    method ReleasePen()
      modifies this
      ensures View() == Release(old(View())).0 && trace == old(trace) + Release(old(View())).1
    {
      if activePenToolKind.None? {
        penButtons := 0;
        return;
      }
      var tool := activePenToolKind.value;
      activePenToolKind := None;
      if tool in tools {
        trace := trace + [TipUp(tool)];
        SyncPenButtons(tool, penButtons, 0);
        trace := trace + [ProximityOut(tool)];
        assert trace == old(trace) + ([TipUp(tool)] + Sync(tool, old(penButtons), 0) + [ProximityOut(tool)]);
      }
      penButtons := 0;
    }

    method ProcessPenInput(e: Event)
      modifies this
      ensures View() == Process(old(View()), e).0 && trace == old(trace) + Process(old(View()), e).1
    {
      if Leaves(e) {
        ReleasePen();
        return;
      }
      if e.kind == BUTTON_ONLY {
        if activePenToolKind.Some? {
          tools := tools + {activePenToolKind.value};
          SyncPenButtons(activePenToolKind.value, penButtons, e.buttons);
          penButtons := e.buttons;
        }
        return;
      }
      SwitchTool(e);
      if e.tablet {
        TouchPen(e);
      }
    }

    method SwitchTool(e: Event)
      modifies this
      ensures View() == Switch(old(View()), e).0 && trace == old(trace) + Switch(old(View()), e).1
    {
      if activePenToolKind.Some? && activePenToolKind.value != e.tool {
        ReleasePen();
      }
      tools := tools + {e.tool};
    }

    method MoveTool(e: Event)
      modifies this`trace
      ensures trace == old(trace) + AxisCalls(e)
    {
      if e.kind == HOVER {
        trace := trace + [Distance(e.tool)];
      } else {
        trace := trace + [Pressure(e.tool)];
      }
      if e.tilted {
        trace := trace + [Tilt(e.tool)];
      }
      trace := trace + [Motion(e.tool)];
    }

    method TouchPen(e: Event)
      requires activePenToolKind.None? || activePenToolKind.value == e.tool
      modifies this
      ensures View() == Touch(old(View()), e).0 && trace == old(trace) + Touch(old(View()), e).1
    {
      ghost var enter: seq<Call> := [];
      if activePenToolKind.None? {
        if !e.focus {
          return;
        }
        trace := trace + [ProximityIn(e.tool)];
        enter := [ProximityIn(e.tool)];
        activePenToolKind := Some(e.tool);
      }
      ghost var entered := trace;
      MoveTool(e);
      SyncPenButtons(e.tool, penButtons, e.buttons);
      penButtons := e.buttons;
      trace := trace + TipCalls(e);
      assert entered == old(trace) + enter;
      assert trace == entered + AxisCalls(e) + Sync(e.tool, old(penButtons), e.buttons) + TipCalls(e);
      RegroupTrace(old(trace), enter, AxisCalls(e), Sync(e.tool, old(penButtons), e.buttons), TipCalls(e));
    }
  }

  lemma RegroupTrace(before: seq<Call>, a: seq<Call>, b: seq<Call>, c: seq<Call>, d: seq<Call>)
    ensures before + a + b + c + d == before + (a + b + c + d)
  {}
}
