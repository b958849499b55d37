/** Window focus bookkeeping: the transient-children index kept beside the window metadata, and
    the two bounded walks over transient-for links, which may form cycles. */
module WindowFocus {
  import opened Common

  /** The identity of a `Window` value; every map request makes a new one. */
  type Window = nat
  /** An X11 window id. */
  type XId = nat

  /** The metadata fields the index and the walks read. */
  datatype Metadata = Metadata(
    x11: Option<XId>, transientFor: Option<XId>,
    maybeADropdown: bool, overrideRedirect: bool, width: int, height: int)
  {
    predicate IsUseless() { width == 1 && height == 1 }
    predicate IsDropdown() { maybeADropdown || (overrideRedirect && !IsUseless()) }
  }

  datatype State = State(
    metadata: map<Window, Metadata>, children: map<XId, seq<Window>>,
    overrideWindow: Option<Window>, nextWindow: Window)

  function Initial(): State {
    State(map[], map[], None, 0)
  }

  // ---------- Index maintenance ----------

  /** `Vec::retain(|w| w != x)`. */
  function Retain(list: seq<Window>, x: Window): seq<Window> {
    if list == [] then []
    else Retain(list[..|list| - 1], x) + (if list[|list| - 1] == x then [] else [list[|list| - 1]])
  }

  function Detach(children: map<XId, seq<Window>>, parent: Option<XId>, w: Window): map<XId, seq<Window>> {
    if parent.Some? && parent.value in children then
      var rest := Retain(children[parent.value], w);
      if rest == [] then children - {parent.value} else children[parent.value := rest]
    else children
  }

  function Attach(children: map<XId, seq<Window>>, parent: Option<XId>, w: Window): map<XId, seq<Window>> {
    match parent
    case None => children
    case Some(p) => children[p := (if p in children then children[p] else []) + [w]]
  }

  /** A new window is mapped (managed, override-redirect or native). */
  function Map(s: State, m: Metadata): State {
    s.(metadata := s.metadata[s.nextWindow := m], children := Attach(s.children, m.transientFor, s.nextWindow),
       nextWindow := s.nextWindow + 1)
  }

  /** The transient-for property of a tracked window changes. */
  function ChangeParent(s: State, w: Window, parent: Option<XId>, maybeADropdown: bool): State {
    if w !in s.metadata then s
    else
      var m := s.metadata[w];
      s.(metadata := s.metadata[w := m.(transientFor := parent, maybeADropdown := maybeADropdown)],
         children := Attach(Detach(s.children, m.transientFor, w), parent, w))
  }

  /** `unregister_window`, on unmap and destroy. */
  function Unregister(s: State, w: Window): State {
    if w !in s.metadata then s
    else s.(metadata := s.metadata - {w}, children := Detach(s.children, s.metadata[w].transientFor, w))
  }

  function ClearDropdowns(s: State): State {
    match s.overrideWindow
    case None => s
    case Some(w) => Unregister(s, w).(overrideWindow := None)
  }

  datatype Event =
    | EMap(m: Metadata)
    | EChangeParent(w: Window, parent: Option<XId>, maybeADropdown: bool)
    | EUnmap(w: Window)
    | EDestroy(w: Window)
    | ENotifyDropdown(w: Window)
    | EClearDropdowns

  function Step(s: State, e: Event): State {
    match e
    case EMap(m) => Map(s, m)
    case EChangeParent(w, parent, maybe) => ChangeParent(s, w, parent, maybe)
    case EUnmap(w) =>
      var t := Unregister(s, w);
      if t.overrideWindow == Some(w) then ClearDropdowns(t) else t
    case EDestroy(w) => Unregister(s, w)
    case ENotifyDropdown(w) => s.(overrideWindow := Some(w))
    case EClearDropdowns => ClearDropdowns(s)
  }

  function Run(s: State, es: seq<Event>): State
    decreases |es|
  {
    if es == [] then s else Run(Step(s, es[0]), es[1..])
  }

  /** How often a window is listed under a parent. */
  function Listed(s: State, p: XId, w: Window): nat {
    if p in s.children then multiset(s.children[p])[w] else 0
  }

  ghost predicate NoneEmpty(children: map<XId, seq<Window>>) {
    forall p :: p in children ==> children[p] != []
  }

  /** The index and the metadata agree: a window is listed under `p` exactly once if its
      metadata records parent `p`, not at all otherwise, and no empty list is kept. */
  ghost predicate Agree(s: State) {
    && (forall w :: w in s.metadata ==> w < s.nextWindow)
    && NoneEmpty(s.children)
    && (forall p: XId, w: Window ::
          Listed(s, p, w) == if w in s.metadata && s.metadata[w].transientFor == Some(p) then 1 else 0)
  }

  lemma {:induction false} RetainRemovesAll(list: seq<Window>, x: Window)
    ensures multiset(Retain(list, x)) == multiset(list)[x := 0]
  {
    if list != [] {
      var n := |list| - 1;
      RetainRemovesAll(list[..n], x);
      assert list == list[..n] + [list[n]];
      assert multiset(list) == multiset(list[..n]) + multiset{list[n]};
      assert list[n] != x ==> multiset(Retain(list, x)) == multiset(Retain(list[..n], x)) + multiset{list[n]};
    }
  }

  lemma DetachUnlists(s: State, parent: Option<XId>, w: Window)
    ensures var t := s.(children := Detach(s.children, parent, w));
            && (forall q: XId, v: Window ::
                  Listed(t, q, v) == if v == w && parent == Some(q) then 0 else Listed(s, q, v))
            && (NoneEmpty(s.children) ==> NoneEmpty(t.children))
  {
    if parent.Some? && parent.value in s.children {
      var list := s.children[parent.value];
      RetainRemovesAll(list, w);
      if Retain(list, w) == [] {
        assert multiset(list)[w := 0] == multiset{};
        assert forall v :: v != w ==> multiset(list)[v] == multiset(list)[w := 0][v];
      }
    }
  }

  lemma AttachLists(s: State, parent: Option<XId>, w: Window)
    ensures var t := s.(children := Attach(s.children, parent, w));
            && (forall q: XId, v: Window ::
                  Listed(t, q, v) == Listed(s, q, v) + if v == w && parent == Some(q) then 1 else 0)
            && (NoneEmpty(s.children) ==> NoneEmpty(t.children))
  {}

  lemma UnregisterKeepsAgree(s: State, w: Window)
    requires Agree(s)
    ensures Agree(Unregister(s, w))
  {
    if w in s.metadata {
      var t := Unregister(s, w);
      var u := s.(children := t.children);
      DetachUnlists(s, s.metadata[w].transientFor, w);
      assert forall q: XId, v: Window :: Listed(t, q, v) == Listed(u, q, v);
    }
  }

  lemma MapKeepsAgree(s: State, m: Metadata)
    requires Agree(s)
    ensures Agree(Map(s, m))
  {
    var t := Map(s, m);
    var u := s.(children := t.children);
    AttachLists(s, m.transientFor, s.nextWindow);
    assert forall q: XId, v: Window :: Listed(t, q, v) == Listed(u, q, v);
  }

  lemma ChangeParentKeepsAgree(s: State, w: Window, parent: Option<XId>, maybe: bool)
    requires Agree(s) && w in s.metadata
    ensures Agree(ChangeParent(s, w, parent, maybe))
  {
    var t := ChangeParent(s, w, parent, maybe);
    var d := s.(children := Detach(s.children, s.metadata[w].transientFor, w));
    DetachUnlists(s, s.metadata[w].transientFor, w);
    AttachLists(d, parent, w);
    var u := d.(children := t.children);
    assert forall q: XId, v: Window :: Listed(t, q, v) == Listed(u, q, v);
    forall q: XId, v: Window
      ensures Listed(t, q, v) == if v in t.metadata && t.metadata[v].transientFor == Some(q) then 1 else 0
    {
      assert Listed(s, q, v) == if v in s.metadata && s.metadata[v].transientFor == Some(q) then 1 else 0;
    }
  }

  lemma StepKeepsAgree(s: State, e: Event)
    requires Agree(s)
    ensures Agree(Step(s, e))
  {
    match e
    case EMap(m) => MapKeepsAgree(s, m);
    case EChangeParent(w, parent, maybe) =>
      if w in s.metadata {
        ChangeParentKeepsAgree(s, w, parent, maybe);
      }
    case EUnmap(w) =>
      UnregisterKeepsAgree(s, w);
      UnregisterKeepsAgree(Unregister(s, w), w);
      SameIndexSameAgree(Unregister(Unregister(s, w), w), Step(s, e));
      SameIndexSameAgree(Unregister(s, w), Step(s, e));
    case EDestroy(w) => UnregisterKeepsAgree(s, w);
    case ENotifyDropdown(w) => SameIndexSameAgree(s, Step(s, e));
    case EClearDropdowns =>
      if s.overrideWindow.Some? {
        UnregisterKeepsAgree(s, s.overrideWindow.value);
        SameIndexSameAgree(Unregister(s, s.overrideWindow.value), Step(s, e));
      }
  }

  lemma SameIndexSameAgree(s: State, t: State)
    requires Agree(s)
    ensures s.metadata == t.metadata && s.children == t.children && s.nextWindow == t.nextWindow ==> Agree(t)
  {
    if s.metadata == t.metadata && s.children == t.children && s.nextWindow == t.nextWindow {
      assert forall q: XId, v: Window :: Listed(t, q, v) == Listed(s, q, v);
    }
  }

  /** Index agreement after any sequence of maps, parent changes, unmaps and dismissals. */
  lemma {:induction false} IndexAlwaysAgrees(s: State, es: seq<Event>)
    requires Agree(s)
    ensures Agree(Run(s, es))
    decreases |es|
  {
    if es != [] {
      StepKeepsAgree(s, es[0]);
      IndexAlwaysAgrees(Step(s, es[0]), es[1..]);
    }
  }

  // ---------- Reading the metadata off the events ----------

  /** Every map request makes the next window. */
  function Maps(es: seq<Event>): nat {
    if es == [] then 0 else Maps(es[..|es| - 1]) + (if es[|es| - 1].EMap? then 1 else 0)
  }

  /** The request that mapped the window. */
  function MappedAt(es: seq<Event>, w: Window): int {
    if es == [] then -1
    else
      var n := |es| - 1;
      if es[n].EMap? && Maps(es[..n]) == w then n else MappedAt(es[..n], w)
  }

  /** The override window: the last one notified, unless it was unmapped or dropdowns were cleared
      since. */
  function LoggedOverride(es: seq<Event>): Option<Window> {
    if es == [] then None
    else
      var before := LoggedOverride(es[..|es| - 1]);
      match es[|es| - 1]
      case ENotifyDropdown(w) => Some(w)
      case EClearDropdowns => None
      case EUnmap(w) => if before == Some(w) then None else before
      case _ => before
  }

  /** The last unmap or destruction of the window, or clearing of it as override window. */
  function RemovedAt(es: seq<Event>, w: Window): int {
    if es == [] then -1
    else
      var n := |es| - 1;
      if || es[n] == EUnmap(w) || es[n] == EDestroy(w)
         || (es[n].EClearDropdowns? && LoggedOverride(es[..n]) == Some(w))
      then n else RemovedAt(es[..n], w)
  }

  function ReparentedAt(es: seq<Event>, w: Window): int {
    if es == [] then -1
    else
      var n := |es| - 1;
      if es[n].EChangeParent? && es[n].w == w then n else ReparentedAt(es[..n], w)
  }

  lemma {:induction false} MomentsAreInTheLog(es: seq<Event>, w: Window)
    ensures var m, r, c := MappedAt(es, w), RemovedAt(es, w), ReparentedAt(es, w);
            && -1 <= m < |es| && (m >= 0 ==> es[m].EMap?) && -1 <= r < |es|
            && -1 <= c < |es| && (c >= 0 ==> es[c].EChangeParent?)
    ensures MappedAt(es, w) >= 0 ==> w < Maps(es)
  {
    if es != [] {
      MomentsAreInTheLog(es[..|es| - 1], w);
    }
  }

  /** A window is tracked once mapped until it is removed. Its parent and dropdown hint are those
      of its last change since, or of its map. */
  function LoggedWindow(es: seq<Event>, w: Window): Option<Metadata> {
    MomentsAreInTheLog(es, w);
    var m, r, c := MappedAt(es, w), RemovedAt(es, w), ReparentedAt(es, w);
    if m < 0 || r > m then None
    else if c > m then Some(es[m].m.(transientFor := es[c].parent, maybeADropdown := es[c].maybeADropdown))
    else Some(es[m].m)
  }

  function Lookup(s: State, w: Window): Option<Metadata> {
    if w in s.metadata then Some(s.metadata[w]) else None
  }

  lemma RunSnoc(es: seq<Event>)
    requires es != []
    ensures var n := |es| - 1; Run(Initial(), es) == Step(Run(Initial(), es[..n]), es[n])
  {
    RunAppend(Initial(), es[..|es| - 1], es[|es| - 1]);
    assert es == es[..|es| - 1] + [es[|es| - 1]];
  }

  lemma {:induction false} RunAppend(s: State, es: seq<Event>, e: Event)
    ensures Run(s, es + [e]) == Step(Run(s, es), e)
    decreases |es|
  {
    if es != [] {
      assert (es + [e])[0] == es[0] && (es + [e])[1..] == es[1..] + [e];
      RunAppend(Step(s, es[0]), es[1..], e);
    }
  }

  lemma {:induction false} OverrideRefinesLog(es: seq<Event>)
    ensures Run(Initial(), es).overrideWindow == LoggedOverride(es) && Run(Initial(), es).nextWindow == Maps(es)
  {
    if es != [] {
      RunSnoc(es);
      OverrideRefinesLog(es[..|es| - 1]);
    }
  }

  /** What one more event does to the logged metadata. */
  lemma LoggedWindowStep(es: seq<Event>, w: Window)
    requires es != []
    ensures var n := |es| - 1;
            var e, before := es[n], LoggedWindow(es[..n], w);
            LoggedWindow(es, w) ==
            if e.EMap? && Maps(es[..n]) == w then Some(e.m)
            else if || e == EUnmap(w) || e == EDestroy(w)
                    || (e.EClearDropdowns? && LoggedOverride(es[..n]) == Some(w)) then None
            else if e.EChangeParent? && e.w == w && before.Some?
            then Some(before.value.(transientFor := e.parent, maybeADropdown := e.maybeADropdown))
            else before
  {
    MomentsAreInTheLog(es[..|es| - 1], w);
  }

  /** After any run the metadata of a window is what the events say: it is tracked exactly when it
      was mapped and not removed since. */
  lemma {:induction false} MetadataRefinesLog(es: seq<Event>, w: Window)
    ensures Lookup(Run(Initial(), es), w) == LoggedWindow(es, w)
  {
    if es != [] {
      RunSnoc(es);
      MetadataRefinesLog(es[..|es| - 1], w);
      OverrideRefinesLog(es[..|es| - 1]);
      LoggedWindowStep(es, w);
    }
  }

  /** So a window is listed under a parent exactly when the events say that it is its parent. */
  lemma IndexRefinesLog(es: seq<Event>, p: XId, w: Window)
    ensures var s := Run(Initial(), es);
            (p in s.children && w in s.children[p]) <==>
            LoggedWindow(es, w).Some? && LoggedWindow(es, w).value.transientFor == Some(p)
  {
    IndexAlwaysAgrees(Initial(), es);
    ListedWindowsAreTracked(Run(Initial(), es), p, w);
    MetadataRefinesLog(es, w);
  }

  lemma ListedWindowsAreTracked(s: State, p: XId, w: Window)
    requires Agree(s)
    ensures (p in s.children && w in s.children[p]) <==> (w in s.metadata && s.metadata[w].transientFor == Some(p))
  {
    assert Listed(s, p, w) == if w in s.metadata && s.metadata[w].transientFor == Some(p) then 1 else 0;
  }

  // ---------- Walking up: is a window transient for the focused one? ----------

  /** The recorded parent of some tracked window with this X11 id. */
  ghost function Parent(metadata: map<Window, Metadata>, id: XId): Option<XId> {
    if exists w :: w in metadata && metadata[w].x11 == Some(id)
    then var w :| w in metadata && metadata[w].x11 == Some(id); metadata[w].transientFor
    else None
  }

  /** The `k`-th ancestor along transient-for links. */
  ghost function Up(metadata: map<Window, Metadata>, id: XId, k: nat): Option<XId> {
    if k == 0 then Some(id)
    else if Up(metadata, id, k - 1).None? then None
    else Parent(metadata, Up(metadata, id, k - 1).value)
  }

  ghost predicate UniqueIds(metadata: map<Window, Metadata>) {
    forall v, w :: v in metadata && w in metadata && metadata[v].x11.Some? ==>
      metadata[v].x11 == metadata[w].x11 ==> v == w
  }

  /** Some tracked window with id `a` is transient for `b`. */
  ghost predicate Links(metadata: map<Window, Metadata>, a: XId, b: XId) {
    exists w :: w in metadata && metadata[w].x11 == Some(a) && metadata[w].transientFor == Some(b)
  }

  /** `target` is reached from `id` over `k` transient-for links. */
  ghost predicate Climbs(metadata: map<Window, Metadata>, id: XId, target: XId, k: nat)
    decreases k
  {
    if k == 0 then id == target
    else exists p :: Climbs(metadata, id, p, k - 1) && Links(metadata, p, target)
  }

  /** Once the walk meets a visited id it only ever sees visited ids again. */
  lemma {:induction false} WalkIsPeriodic(metadata: map<Window, Metadata>, id: XId, j: nat, i: nat, k: nat)
    requires j <= i && Up(metadata, id, i + 1) == Up(metadata, id, j)
    ensures exists m: nat :: m <= i && Up(metadata, id, k) == Up(metadata, id, m)
    decreases k
  {
    if k <= i {
      assert Up(metadata, id, k) == Up(metadata, id, k);
    } else {
      WalkIsPeriodic(metadata, id, j, i, k - 1);
      var m: nat :| m <= i && Up(metadata, id, k - 1) == Up(metadata, id, m);
      assert Up(metadata, id, k) == Up(metadata, id, m + 1);
      if m == i {
        assert Up(metadata, id, k) == Up(metadata, id, j);
      }
    }
  }

  lemma {:induction false} AncestorsEnd(metadata: map<Window, Metadata>, id: XId, i: nat, k: nat)
    requires Up(metadata, id, i) == None && i <= k
    ensures Up(metadata, id, k) == None
    decreases k
  {
    if i < k {
      AncestorsEnd(metadata, id, i, k - 1);
    }
  }

  // ---------- Walking down: promoting a transient child ----------

  const MAX_LEVELS: nat := 10

  /** The id a trail of walked windows has reached. */
  function Reached(metadata: map<Window, Metadata>, start: XId, trail: seq<Window>): XId {
    if trail == [] then start
    else
      var w := trail[|trail| - 1];
      if w in metadata && metadata[w].x11.Some? then metadata[w].x11.value else start
  }

  /** The ids visited along a trail. */
  function Visited(metadata: map<Window, Metadata>, start: XId, trail: seq<Window>): set<XId> {
    if trail == [] then {start}
    else Visited(metadata, start, trail[..|trail| - 1]) + {Reached(metadata, start, trail)}
  }

  /** A tracked transient child of `id` whose own id was not visited. */
  predicate Candidate(metadata: map<Window, Metadata>, id: XId, visited: set<XId>, w: Window) {
    && w in metadata && metadata[w].transientFor == Some(id)
    && (metadata[w].x11.Some? ==> metadata[w].x11.value !in visited)
  }

  /** `best` heads the candidates of the list once they are sorted, stably, with non-dropdowns
      first: only dropdowns come before it in the list, and none if it is one itself. */
  ghost predicate HeadOf(metadata: map<Window, Metadata>, id: XId, visited: set<XId>, list: seq<Window>, best: Window) {
    exists i :: 0 <= i < |list| && list[i] == best && Candidate(metadata, id, visited, best) &&
      forall j :: 0 <= j < i && Candidate(metadata, id, visited, list[j]) ==>
        metadata[list[j]].IsDropdown() && !metadata[best].IsDropdown()
  }

  /** Every walked window is the first dropdown child of the previous one, taken only because no
      unvisited non-dropdown child was tracked at that level. */
  ghost predicate Trail(
    metadata: map<Window, Metadata>, children: map<XId, seq<Window>>, start: XId, trail: seq<Window>)
  {
    trail == [] ||
    (var before := trail[..|trail| - 1];
     var w := trail[|trail| - 1];
     && Trail(metadata, children, start, before)
     && Reached(metadata, start, before) in children
     && HeadOf(metadata, Reached(metadata, start, before), Visited(metadata, start, before),
          children[Reached(metadata, start, before)], w)
     && metadata[w].x11.Some? && metadata[w].IsDropdown()
     && forall v :: Candidate(metadata, Reached(metadata, start, before), Visited(metadata, start, before), v) ==>
          metadata[v].IsDropdown())
  }

  /** No unvisited child at this level, or only dropdowns and one of them has no X11 id. */
  ghost predicate DeadEnd(metadata: map<Window, Metadata>, id: XId, visited: set<XId>) {
    || (forall v :: !Candidate(metadata, id, visited, v))
    || (&& (forall v :: Candidate(metadata, id, visited, v) ==> metadata[v].IsDropdown())
        && exists u :: Candidate(metadata, id, visited, u) && metadata[u].x11.None?)
  }

  lemma {:induction false} TrailVisitsNewIds(
    metadata: map<Window, Metadata>, children: map<XId, seq<Window>>, start: XId, trail: seq<Window>)
    requires Trail(metadata, children, start, trail)
    ensures |Visited(metadata, start, trail)| == |trail| + 1
    ensures Reached(metadata, start, trail) in Visited(metadata, start, trail)
  {
    if trail != [] {
      TrailVisitsNewIds(metadata, children, start, trail[..|trail| - 1]);
    }
  }

  /** The compositor's window metadata and transient index, updated in place. */
  class FocusIndex {
    var windowMetadata: map<Window, Metadata>
    var transientChildren: map<XId, seq<Window>>
    var overrideWindow: Option<Window>
    var focusedX11Window: Option<XId>
    /** The next window identity. */
    var nextWindow: Window

    ghost function View(): State
      reads this
    {
      State(windowMetadata, transientChildren, overrideWindow, nextWindow)
    }

    constructor ()
      ensures View() == Initial() && focusedX11Window == None && Agree(View())
    {
      windowMetadata, transientChildren, overrideWindow, nextWindow := map[], map[], None, 0;
      focusedX11Window := None;
    }

    method MapWindow(m: Metadata) returns (w: Window)
      modifies this`windowMetadata, this`transientChildren, this`nextWindow
      ensures View() == Map(old(View()), m) && w == old(nextWindow)
    {
      w := nextWindow;
      nextWindow := nextWindow + 1;
      windowMetadata := windowMetadata[w := m];
      if m.transientFor.Some? {
        PushChild(m.transientFor.value, w);
      }
    }

    method PushChild(p: XId, w: Window)
      modifies this`transientChildren
      ensures transientChildren == Attach(old(transientChildren), Some(p), w)
    {
      var list := if p in transientChildren then transientChildren[p] else [];
      transientChildren := transientChildren[p := list + [w]];
    }

    method RemoveChild(p: XId, w: Window)
      modifies this`transientChildren
      ensures transientChildren == Detach(old(transientChildren), Some(p), w)
    {
      if p in transientChildren {
        var list := transientChildren[p];
        var kept: seq<Window> := [];
        var i := 0;
        while i < |list|
          invariant 0 <= i <= |list|
          invariant kept == Retain(list[..i], w)
        {
          assert list[..i + 1][..i] == list[..i];
          if list[i] != w {
            kept := kept + [list[i]];
          }
          i := i + 1;
        }
        assert list[..i] == list;
        if kept == [] {
          transientChildren := transientChildren - {p};
        } else {
          transientChildren := transientChildren[p := kept];
        }
      }
    }

    method TransientForChanged(w: Window, parent: Option<XId>, maybeADropdown: bool)
      modifies this`windowMetadata, this`transientChildren
      ensures View() == ChangeParent(old(View()), w, parent, maybeADropdown)
    {
      if w in windowMetadata {
        var m := windowMetadata[w];
        windowMetadata := windowMetadata[w := m.(transientFor := parent, maybeADropdown := maybeADropdown)];
        if m.transientFor.Some? {
          RemoveChild(m.transientFor.value, w);
        }
        if parent.Some? {
          PushChild(parent.value, w);
        }
      }
    }

    method UnregisterWindow(w: Window)
      modifies this`windowMetadata, this`transientChildren
      ensures View() == Unregister(old(View()), w)
    {
      if w in windowMetadata && windowMetadata[w].transientFor.Some? {
        RemoveChild(windowMetadata[w].transientFor.value, w);
      }
      windowMetadata := windowMetadata - {w};
      assert w !in old(windowMetadata) ==> windowMetadata == old(windowMetadata);
    }

    method ClearDropdownWindows()
      modifies this`windowMetadata, this`transientChildren, this`overrideWindow
      ensures View() == ClearDropdowns(old(View()))
    {
      if overrideWindow.Some? {
        var w := overrideWindow.value;
        overrideWindow := None;
        UnregisterWindow(w);
      }
    }

    /** The head of the children list once non-dropdowns are sorted first. */
    method BestChild(id: XId, visited: set<XId>) returns (best: Option<Window>)
      requires Agree(View())
      ensures best.None? <==> forall v :: !Candidate(windowMetadata, id, visited, v)
      ensures best.Some? ==> Candidate(windowMetadata, id, visited, best.value)
      ensures best.Some? && windowMetadata[best.value].IsDropdown() ==>
                forall v :: Candidate(windowMetadata, id, visited, v) ==> windowMetadata[v].IsDropdown()
      ensures best.Some? ==>
              id in transientChildren && HeadOf(windowMetadata, id, visited, transientChildren[id], best.value)
    {
      best := None;
      var list := if id in transientChildren then transientChildren[id] else [];
      ghost var at := 0;
      var i := 0;
      while i < |list|
        invariant 0 <= i <= |list|
        invariant best.Some? ==> at < i && list[at] == best.value
        invariant best.Some? ==> forall j :: 0 <= j < at && Candidate(windowMetadata, id, visited, list[j]) ==>
                    windowMetadata[list[j]].IsDropdown() && !windowMetadata[best.value].IsDropdown()
        invariant best.Some? ==> Candidate(windowMetadata, id, visited, best.value)
        invariant forall j :: 0 <= j < i && Candidate(windowMetadata, id, visited, list[j]) ==>
                    best.Some? && (windowMetadata[best.value].IsDropdown() ==> windowMetadata[list[j]].IsDropdown())
      {
        var v := list[i];
        if Candidate(windowMetadata, id, visited, v) {
          if best.None? || (windowMetadata[best.value].IsDropdown() && !windowMetadata[v].IsDropdown()) {
            best, at := Some(v), i;
          }
        }
        i := i + 1;
      }
      forall v | Candidate(windowMetadata, id, visited, v)
        ensures best.Some? && (windowMetadata[best.value].IsDropdown() ==> windowMetadata[v].IsDropdown())
      {
        ListedWindowsAreTracked(View(), id, v);
      }
    }

    /** Returns a non-dropdown transient child at the end of a trail of at most nine dropdowns,
        or the argument when the trail ends without one or reaches its tenth level. */
    method PromoteTransientChild(window: Window, x11: Option<XId>) returns (r: Window, ghost trail: seq<Window>)
      requires Agree(View())
      ensures x11.None? ==> r == window
      ensures x11.Some? ==> Trail(windowMetadata, transientChildren, x11.value, trail) && |trail| <= 10
      ensures x11.Some? ==>
                var id := Reached(windowMetadata, x11.value, trail);
                var visited := Visited(windowMetadata, x11.value, trail);
                || (&& |trail| < 10 && id in transientChildren
                    && HeadOf(windowMetadata, id, visited, transientChildren[id], r) && !windowMetadata[r].IsDropdown())
                || (r == window && (|trail| == 10 || DeadEnd(windowMetadata, id, visited)))
      ensures x11.Some? && r != window ==>
                && r in windowMetadata && !windowMetadata[r].maybeADropdown
                && (windowMetadata[r].overrideRedirect ==> windowMetadata[r].width == windowMetadata[r].height == 1)
      ensures forall w :: w in trail ==>
                && w in windowMetadata
                && (!windowMetadata[w].maybeADropdown ==>
                      windowMetadata[w].overrideRedirect && !(windowMetadata[w].width == windowMetadata[w].height == 1))
    {
      r, trail := window, [];
      if x11.None? {
        return;
      }
      var current := x11.value;
      var visited := {current};
      var level := 0;
      while level < MAX_LEVELS
        invariant 0 <= level <= MAX_LEVELS && level == |trail| && r == window
        invariant Trail(windowMetadata, transientChildren, x11.value, trail)
        invariant current == Reached(windowMetadata, x11.value, trail)
        invariant visited == Visited(windowMetadata, x11.value, trail)
        invariant forall w :: w in trail ==> w in windowMetadata && windowMetadata[w].IsDropdown()
      {
        var best := BestChild(current, visited);
        if best.None? {
          return;
        }
        if !windowMetadata[best.value].IsDropdown() {
          r := best.value;
          return;
        }
        if windowMetadata[best.value].x11.None? {
          return;
        }
        ghost var longer := trail + [best.value];
        assert longer[..|longer| - 1] == trail;
        trail := longer;
        current := windowMetadata[best.value].x11.value;
        visited := visited + {current};
        level := level + 1;
      }
    }

    /** Says yes only along a real chain of at most ten transient-for links. When X11 ids are
        unique it says yes exactly when there is one: the visited set cuts cycles without
        changing the answer. */
    method IsTransientOfFocused(id: XId) returns (r: bool)
      ensures r ==>
                focusedX11Window.Some? &&
                exists k :: 0 <= k <= 10 && Climbs(windowMetadata, id, focusedX11Window.value, k)
      ensures UniqueIds(windowMetadata) ==>
                (r <==> focusedX11Window.Some? &&
                        exists k :: 0 <= k <= 10 && Up(windowMetadata, id, k) == focusedX11Window)
    {
      if focusedX11Window.None? {
        return false;
      }
      var focused := focusedX11Window.value;
      assert Up(windowMetadata, id, 0) == Some(id) && Climbs(windowMetadata, id, id, 0);
      if id == focused {
        return true;
      }
      ghost var unique := UniqueIds(windowMetadata);
      var current, visited := id, {id};
      var i := 0;
      while i < MAX_LEVELS
        invariant 0 <= i <= MAX_LEVELS
        invariant Climbs(windowMetadata, id, current, i)
        invariant unique ==> Searched(windowMetadata, id, focused, current, visited, i)
      {
        var parent := FindParent(current);
        if parent.Some? {
          ClimbOneMore(windowMetadata, id, current, parent.value, i);
        }
        if unique {
          SearchOneMore(windowMetadata, id, focused, current, visited, i);
        }
        if parent == Some(focused) {
          return true;
        }
        if parent.None? || parent.value in visited {
          return false;
        }
        current := parent.value;
        visited := visited + {current};
        i := i + 1;
      }
      return false;
    }

    /** Looks through the metadata map, in any order, for a window with this id. */
    method FindParent(id: XId) returns (parent: Option<XId>)
      ensures parent.Some? ==> Links(windowMetadata, id, parent.value)
      ensures UniqueIds(windowMetadata) ==> parent == Parent(windowMetadata, id)
    {
      var pending := windowMetadata.Keys;
      while pending != {}
        invariant pending <= windowMetadata.Keys
        invariant forall w :: w in windowMetadata && windowMetadata[w].x11 == Some(id) ==> w in pending
        decreases |pending|
      {
        var w :| w in pending;
        if windowMetadata[w].x11 == Some(id) {
          return windowMetadata[w].transientFor;
        }
        pending := pending - {w};
      }
      return None;
    }
  }

  lemma ClimbOneMore(metadata: map<Window, Metadata>, id: XId, p: XId, target: XId, k: nat)
    requires Climbs(metadata, id, p, k) && Links(metadata, p, target)
    ensures Climbs(metadata, id, target, k + 1)
  {}

  /** The first `i` ancestors were looked at and none is the focused window. */
  ghost predicate Searched(
    metadata: map<Window, Metadata>, id: XId, focused: XId, current: XId, visited: set<XId>, i: nat)
  {
    && Up(metadata, id, i) == Some(current)
    && (forall k :: 0 <= k <= i ==> Up(metadata, id, k) != Some(focused))
    && (forall x :: x in visited ==> exists k :: 0 <= k <= i && Up(metadata, id, k) == Some(x))
  }

  /** One more link: either the search goes on, or it has found the focused window, or it may
      stop because no later ancestor is the focused window. */
  lemma SearchOneMore(metadata: map<Window, Metadata>, id: XId, focused: XId, current: XId, visited: set<XId>, i: nat)
    requires Searched(metadata, id, focused, current, visited, i)
    ensures var parent := Parent(metadata, current);
            && Up(metadata, id, i + 1) == parent
            && (parent.Some? && parent.value != focused ==>
                  Searched(metadata, id, focused, parent.value, visited + {parent.value}, i + 1))
            && (parent != Some(focused) && (parent.None? || parent.value in visited) ==>
                  forall k :: 0 <= k ==> Up(metadata, id, k) != Some(focused))
  {
    var parent := Parent(metadata, current);
    assert Up(metadata, id, i + 1) == parent;
    if parent != Some(focused) && (parent.None? || parent.value in visited) {
      forall k | 0 <= k ensures Up(metadata, id, k) != Some(focused) {
        if k > i {
          if parent.None? {
            AncestorsEnd(metadata, id, i + 1, k);
          } else {
            var j :| 0 <= j <= i && Up(metadata, id, j) == Some(parent.value);
            WalkIsPeriodic(metadata, id, j, i, k);
          }
        }
      }
    }
    if parent.Some? {
      forall x | x in visited + {parent.value} ensures exists k :: 0 <= k <= i + 1 && Up(metadata, id, k) == Some(x) {
        if x in visited {
          var k :| 0 <= k <= i && Up(metadata, id, k) == Some(x);
        }
      }
    }
  }
}
