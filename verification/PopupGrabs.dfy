/** Popup grabs: the stack of grabbing popups (the `xdg_popup.grab` request of the xdg-shell
    protocol), dismissal of a branch, and the bounded history of action serials that
    authorises a grab. The grab itself is a stack: ungrabbing the topmost pops it, ungrabbing
    all empties it, and an empty stack is an ended grab. */
module PopupGrabs {
  import opened Common

  type Client = nat
  datatype Surface = Toplevel(id: nat) | Popup(id: nat)

  /** What a popup was made with; `stamp` orders popups by age, parents first. */
  datatype Made = Made(parent: Surface, client: Client, stamp: nat)

  /** A user action delivered to a client. */
  datatype Delivery = Delivery(serial: nat, client: Client)

  const CAPACITY: nat := 64

  /** `tracked` are the popups in the popup tree, `unmapped` those whose parent role data a
      null-buffer commit has cleared. `stack` lists the grabbing popups, bottom first. */
  datatype State = State(
    made: map<nat, Made>, tracked: set<nat>, unmapped: set<nat>, nextStamp: nat,
    focused: Option<nat>, stack: seq<nat>, root: nat, ring: seq<Delivery>)

  function Initial(): State {
    State(map[], {}, {}, 0, None, [], 0, [])
  }

  /** Every popup was made for a toplevel or an older popup. */
  ghost predicate Rooted(made: map<nat, Made>) {
    forall p :: p in made && made[p].parent.Popup? ==>
      made[p].parent.id in made && made[made[p].parent.id].stamp < made[p].stamp
  }

  ghost function Height(made: map<nat, Made>, c: Surface): nat {
    if c.Popup? && c.id in made then made[c.id].stamp + 1 else 0
  }

  // ---------- Tree walks ----------

  /** The parent role data of a tracked popup. */
  function RoleParent(s: State, p: nat): Option<Surface> {
    if p in s.made && p !in s.unmapped then Some(s.made[p].parent) else None
  }

  /** `find_popup_root_surface`. */
  function RootOf(s: State, c: Surface): Option<nat>
    requires Rooted(s.made)
    decreases Height(s.made, c)
  {
    match c
    case Toplevel(t) => Some(t)
    case Popup(p) => if RoleParent(s, p).None? then None else RootOf(s, RoleParent(s, p).value)
  }

  /** The loop of `current_grab_descends_from`. */
  function Climbs(s: State, c: Surface, target: nat): bool
    requires Rooted(s.made)
    decreases Height(s.made, c)
  {
    if c == Popup(target) then true
    else if c.Toplevel? || c.id !in s.tracked || RoleParent(s, c.id).None? then false
    else Climbs(s, RoleParent(s, c.id).value, target)
  }

  /** `c` is `a` or was made below it. */
  predicate Below(made: map<nat, Made>, c: Surface, a: Surface)
    requires Rooted(made)
    decreases Height(made, c)
  {
    c == a || (c.Popup? && c.id in made && Below(made, made[c.id].parent, a))
  }

  /** `PopupManager::dismiss_popup`: removes the popup's whole subtree from the popup tree. */
  function Dismiss(s: State, a: Surface): State
    requires Rooted(s.made)
  {
    s.(tracked := set q | q in s.tracked && !Below(s.made, Popup(q), a))
  }

  // ---------- Steps ----------

  /** The loop that pops the grab until the target is popped; returns what is left. */
  function PopThrough(stack: seq<nat>, target: nat): seq<nat> {
    if stack == [] then []
    else if stack[|stack| - 1] == target then stack[..|stack| - 1]
    else PopThrough(stack[..|stack| - 1], target)
  }

  function DismissBranch(s: State, a: nat): State
    requires Rooted(s.made)
  {
    var popped :=
      if s.stack != [] && Climbs(s, Popup(s.stack[|s.stack| - 1]), a) then s.(stack := PopThrough(s.stack, a)) else s;
    Dismiss(popped, Popup(a))
  }

  /** One turn of `refresh_popups`: an unmapped popup is dismissed. */
  function Turn(s: State, p: nat): State
    requires Rooted(s.made)
  {
    if p in s.unmapped then DismissBranch(s, p) else s
  }

  /** The part of `refresh_popups` that dismisses unmapped popups. The popup manager lists them
      front to back; the loop takes the list from its end, so that parents come first. */
  ghost function Refresh(s: State, listing: seq<nat>): State
    requires Rooted(s.made)
    decreases |listing|
  {
    if listing == [] then s
    else
      var n := |listing| - 1;
      Refresh(Turn(s, listing[n]), listing[..n])
  }

  predicate Authorised(s: State, p: nat, serial: nat) {
    p in s.made && Delivery(serial, s.made[p].client) in s.ring
  }

  /** `grab_popup`. `seatOk` stands for the checks on the seat and its other grabs, `accepted`
      for the popup manager's own check. */
  function Grab(s: State, p: nat, serial: nat, seatOk: bool, accepted: bool): State
    requires Rooted(s.made)
  {
    if p !in s.made || RootOf(s, Popup(p)).None? || p !in s.tracked then s
    else if !seatOk || !Authorised(s, p, serial) || s.focused != RootOf(s, Popup(p)) then Dismiss(s, Popup(p))
    else
      var parent := s.made[p].parent;
      if parent.Popup? && parent.id !in s.tracked then Dismiss(s, Popup(p))
      else if (s.stack != [] && Popup(s.stack[|s.stack| - 1]) != parent) || (parent.Popup? && s.stack == []) then s
      else if !accepted then s
      else s.(stack := s.stack + [p], root := RootOf(s, Popup(p)).value)
  }

  /** `dismiss_popups_for_window`: ends the window's grab and dismisses its popups; without a
      window it ends any grab. */
  function DismissWindow(s: State, w: Option<nat>): State
    requires Rooted(s.made)
  {
    var u := s.(stack := if w.None? || s.root == w.value then [] else s.stack);
    if w.None? then u else Dismiss(u, Toplevel(w.value))
  }

  /** `apply_focus` with a changed focus: revokes all serials and the old window's popups. */
  function ChangeFocus(s: State, f: Option<nat>): State
    requires Rooted(s.made)
  {
    DismissWindow(s.(ring := [], focused := f), s.focused)
  }

  /** `InputSerials::record`. */
  function Record(ring: seq<Delivery>, d: Delivery): seq<Delivery> {
    (if |ring| == CAPACITY then ring[1..] else ring) + [d]
  }

  datatype Event =
    | ETrack(p: nat, parent: Surface, client: Client)
    | EUnmap(p: nat)
    | ERecord(d: Delivery)
    | EGrab(p: nat, serial: nat, seatOk: bool, accepted: bool)
    | EFocus(f: Option<nat>)
    | EDismissWindow(w: nat)
    | ERefresh(listing: seq<nat>)

  function Track(s: State, p: nat, parent: Surface, client: Client): State {
    if p in s.made || (parent.Popup? && parent.id !in s.made) then s
    else
      s.(made := s.made[p := Made(parent, client, s.nextStamp)], nextStamp := s.nextStamp + 1,
         tracked := if parent.Toplevel? || parent.id in s.tracked then s.tracked + {p} else s.tracked)
  }

  ghost function Step(s: State, e: Event): State
    requires Rooted(s.made)
  {
    match e
    case ETrack(p, parent, client) => Track(s, p, parent, client)
    case EUnmap(p) => s.(unmapped := s.unmapped + {p})
    case ERecord(d) => s.(ring := Record(s.ring, d))
    case EGrab(p, serial, seatOk, accepted) => Grab(s, p, serial, seatOk, accepted)
    case EFocus(f) => ChangeFocus(s, f)
    case EDismissWindow(w) => DismissWindow(s, Some(w))
    case ERefresh(listing) => Refresh(s, listing)
  }

  // ---------- The chain ----------

  /** The grabbing popups are a parent chain whose bottom was made for the root. */
  ghost predicate Chain(made: map<nat, Made>, root: nat, stack: seq<nat>) {
    && (forall i :: 0 <= i < |stack| ==> stack[i] in made)
    && (stack != [] ==> made[stack[0]].parent == Toplevel(root))
    && (forall i :: 0 < i < |stack| ==> IsStacked(made, stack, i))
  }

  /** The popup was made for the one under it in the stack. */
  predicate IsStacked(made: map<nat, Made>, stack: seq<nat>, i: nat) {
    0 < i < |stack| && stack[i] in made && made[stack[i]].parent == Popup(stack[i - 1])
  }

  lemma ChainPrefix(made: map<nat, Made>, root: nat, stack: seq<nat>, k: nat)
    requires Chain(made, root, stack) && k <= |stack|
    ensures Chain(made, root, stack[..k])
  {
    forall i | 0 < i < k ensures IsStacked(made, stack[..k], i) {
      assert IsStacked(made, stack, i);
    }
  }

  lemma ChainAppend(made: map<nat, Made>, root: nat, stack: seq<nat>, p: nat)
    requires Chain(made, root, stack) && p in made
    requires made[p].parent == if stack == [] then Toplevel(root) else Popup(stack[|stack| - 1])
    ensures Chain(made, root, stack + [p])
  {
    forall i | 0 < i < |stack| ensures IsStacked(made, stack + [p], i) {
      assert IsStacked(made, stack, i);
    }
  }

  lemma ChainGrows(made: map<nat, Made>, more: map<nat, Made>, root: nat, stack: seq<nat>)
    requires Chain(made, root, stack) && forall p :: p in made ==> p in more && more[p] == made[p]
    ensures Chain(more, root, stack)
  {
    forall i | 0 < i < |stack| ensures IsStacked(more, stack, i) {
      assert IsStacked(made, stack, i);
    }
  }

  /** A popup in the tree has its parent in the tree. */
  predicate HasParentIn(made: map<nat, Made>, tracked: set<nat>, p: nat) {
    p in tracked && p in made && made[p].parent.Popup? ==> made[p].parent.id in tracked
  }

  ghost predicate Inv(s: State) {
    && Rooted(s.made)
    && (forall p :: p in s.made ==> s.made[p].stamp < s.nextStamp)
    && s.tracked <= s.made.Keys
    && (forall p :: HasParentIn(s.made, s.tracked, p))
    && Chain(s.made, s.root, s.stack)
    && (s.stack != [] ==> s.focused == Some(s.root))
    && |s.ring| <= CAPACITY
  }

  lemma {:induction false} PopThroughIsPrefix(stack: seq<nat>, target: nat)
    ensures |PopThrough(stack, target)| <= |stack| && PopThrough(stack, target) == stack[..|PopThrough(stack, target)|]
  {
    if stack != [] && stack[|stack| - 1] != target {
      var n := |stack| - 1;
      PopThroughIsPrefix(stack[..n], target);
      var m := |PopThrough(stack[..n], target)|;
      assert stack[..n][..m] == stack[..m];
    }
  }

  lemma DismissKeepsInv(s: State, a: Surface)
    requires Inv(s)
    ensures Inv(Dismiss(s, a))
  {
    var t := Dismiss(s, a);
    forall p ensures HasParentIn(t.made, t.tracked, p) {
      assert HasParentIn(s.made, s.tracked, p);
      assert p in s.made && s.made[p].parent.Popup? ==> s.made[p].parent == Popup(s.made[p].parent.id);
    }
  }

  lemma DismissBranchKeepsInv(s: State, a: nat)
    requires Inv(s)
    ensures Inv(DismissBranch(s, a)) && DismissBranch(s, a).tracked <= s.tracked
  {
    PopThroughIsPrefix(s.stack, a);
    var k := |PopThrough(s.stack, a)|;
    var popped := s.(stack := s.stack[..k]);
    ChainPrefix(s.made, s.root, s.stack, k);
    assert Inv(popped);
    DismissKeepsInv(popped, Popup(a));
    DismissKeepsInv(s, Popup(a));
  }

  /** A refresh keeps the chain and only ever shrinks the popup tree. */
  lemma {:induction false} RefreshKeepsInv(s: State, listing: seq<nat>)
    requires Inv(s)
    ensures Inv(Refresh(s, listing)) && Refresh(s, listing).tracked <= s.tracked
    ensures Refresh(s, listing).ring == s.ring && Refresh(s, listing).unmapped == s.unmapped
    ensures Refresh(s, listing).root == s.root && Refresh(s, listing).made == s.made
    decreases |listing|
  {
    if listing != [] {
      var n := |listing| - 1;
      DismissBranchKeepsInv(s, listing[n]);
      RefreshKeepsInv(Turn(s, listing[n]), listing[..n]);
    }
  }

  /** The root of a popup whose ancestors are all mapped is the chain's root once its parent is
      the top of the chain. */
  lemma {:induction false} RootOfChain(s: State, i: nat)
    requires Inv(s) && i < |s.stack| && RootOf(s, Popup(s.stack[i])).Some?
    ensures RootOf(s, Popup(s.stack[i])) == Some(s.root)
    decreases i
  {
    if i > 0 {
      assert IsStacked(s.made, s.stack, i);
      assert RoleParent(s, s.stack[i]) == Some(Popup(s.stack[i - 1]));
      RootOfChain(s, i - 1);
    } else {
      assert RoleParent(s, s.stack[i]) == Some(Toplevel(s.root));
      assert RootOf(s, Toplevel(s.root)) == Some(s.root);
    }
  }

  lemma GrabKeepsInv(s: State, p: nat, serial: nat, seatOk: bool, accepted: bool)
    requires Inv(s)
    ensures Inv(Grab(s, p, serial, seatOk, accepted))
  {
    var t := Grab(s, p, serial, seatOk, accepted);
    DismissKeepsInv(s, Popup(p));
    if |t.stack| > |s.stack| {
      var parent := s.made[p].parent;
      assert RoleParent(s, p) == Some(parent);
      if s.stack == [] {
        assert parent.Toplevel?;
        assert RootOf(s, parent) == Some(parent.id);
      } else {
        RootOfChain(s, |s.stack| - 1);
      }
      assert t.root == s.root || s.stack == [];
      ChainAppend(s.made, t.root, s.stack, p);
    }
  }

  lemma StepKeepsInv(s: State, e: Event)
    requires Inv(s)
    ensures Inv(Step(s, e))
  {
    match e
    case EGrab(p, serial, seatOk, accepted) => GrabKeepsInv(s, p, serial, seatOk, accepted);
    case ERefresh(listing) => RefreshKeepsInv(s, listing);
    case EFocus(f) =>
      if s.focused.Some? {
        DismissKeepsInv(ChangeFocus(s, f).(tracked := s.tracked), Toplevel(s.focused.value));
      }
    case ETrack(p, parent, client) =>
      var t := Track(s, p, parent, client);
      ChainGrows(s.made, t.made, s.root, s.stack);
      forall q ensures HasParentIn(t.made, t.tracked, q) {
        assert HasParentIn(s.made, s.tracked, q);
      }
    case EDismissWindow(w) =>
      DismissKeepsInv(Step(s, e).(tracked := s.tracked), Toplevel(w));
    case _ =>
  }

  ghost function Run(s: State, es: seq<Event>): State
    requires Inv(s)
    decreases |es|
  {
    if es == [] then s else StepKeepsInv(s, es[0]); Run(Step(s, es[0]), es[1..])
  }

  /** In every run the grabbing popups form a parent chain from the focused toplevel. */
  lemma {:induction false} GrabsAlwaysChain(s: State, es: seq<Event>)
    requires Inv(s)
    ensures Inv(Run(s, es))
    decreases |es|
  {
    if es != [] {
      StepKeepsInv(s, es[0]);
      GrabsAlwaysChain(Step(s, es[0]), es[1..]);
    }
  }

  // ---------- Dismissing exactly a branch ----------

  predicate Linked(s: State, p: nat) {
    p in s.tracked && p !in s.unmapped
  }

  ghost predicate AllLinked(s: State, j: nat, i: nat)
    requires i < |s.stack|
  {
    forall k :: j < k <= i ==> Linked(s, s.stack[k])
  }

  /** `a` is the `j`-th grabbing popup and every popup above it is still linked to its parent. */
  ghost predicate Cuts(s: State, a: nat, j: nat) {
    j < |s.stack| && s.stack[j] == a && AllLinked(s, j, |s.stack| - 1)
  }

  /** The index at which the walk down from the `i`-th grabbing popup meets `a`. */
  function FoundAt(s: State, i: nat, a: nat): Option<nat>
    requires i < |s.stack|
  {
    if s.stack[i] == a then Some(i)
    else if !Linked(s, s.stack[i]) || i == 0 then None
    else FoundAt(s, i - 1, a)
  }

  lemma {:induction false} ClimbsInChain(s: State, i: nat, a: nat)
    requires Inv(s) && i < |s.stack|
    ensures Climbs(s, Popup(s.stack[i]), a) <==> FoundAt(s, i, a).Some?
    decreases i
  {
    if s.stack[i] != a && Linked(s, s.stack[i]) {
      if i == 0 {
        assert RoleParent(s, s.stack[i]) == Some(Toplevel(s.root));
      } else {
        assert IsStacked(s.made, s.stack, i);
        assert RoleParent(s, s.stack[i]) == Some(Popup(s.stack[i - 1]));
        ClimbsInChain(s, i - 1, a);
      }
    }
  }

  lemma {:induction false} FoundMeansLinked(s: State, i: nat, a: nat)
    requires i < |s.stack| && FoundAt(s, i, a).Some?
    ensures var j := FoundAt(s, i, a).value; j <= i && s.stack[j] == a && AllLinked(s, j, i)
    decreases i
  {
    if s.stack[i] != a {
      FoundMeansLinked(s, i - 1, a);
    }
  }

  lemma {:induction false} LinkedIsFound(s: State, i: nat, a: nat, j: nat)
    requires j <= i < |s.stack| && s.stack[j] == a && AllLinked(s, j, i)
    requires forall k :: j < k <= i ==> s.stack[k] != a
    ensures FoundAt(s, i, a) == Some(j)
    decreases i
  {
    if j < i {
      LinkedIsFound(s, i - 1, a, j);
    }
  }

  lemma {:induction false} ChainGetsYounger(s: State, j: nat, k: nat)
    requires Inv(s) && j < k < |s.stack|
    ensures s.made[s.stack[j]].stamp < s.made[s.stack[k]].stamp && s.stack[j] != s.stack[k]
    decreases k
  {
    assert IsStacked(s.made, s.stack, k);
    if j < k - 1 {
      ChainGetsYounger(s, j, k - 1);
    }
  }

  lemma {:induction false} PopThroughStopsAtTarget(stack: seq<nat>, j: nat)
    requires j < |stack| && forall k :: j < k < |stack| ==> stack[k] != stack[j]
    ensures PopThrough(stack, stack[j]) == stack[..j]
  {
    var n := |stack| - 1;
    if j < n {
      PopThroughStopsAtTarget(stack[..n], j);
      assert stack[..n][..j] == stack[..j];
    }
  }

  /** Dismissing a popup removes exactly the part of the chain from it to the top when every
      popup above it is still linked. */
  lemma DismissCutsBranch(s: State, a: nat, j: nat)
    requires Inv(s) && Cuts(s, a, j)
    ensures DismissBranch(s, a).stack == s.stack[..j]
  {
    var top := |s.stack| - 1;
    forall k | j < k <= top ensures s.stack[k] != a {
      ChainGetsYounger(s, j, k);
    }
    LinkedIsFound(s, top, a, j);
    ClimbsInChain(s, top, a);
    PopThroughStopsAtTarget(s.stack, j);
  }

  /** Otherwise, and in particular for a popup outside the chain, the grab is untouched. */
  lemma DismissSparesGrab(s: State, a: nat)
    requires Inv(s) && forall j: nat :: !Cuts(s, a, j)
    ensures DismissBranch(s, a).stack == s.stack
  {
    if s.stack != [] {
      var top := |s.stack| - 1;
      ClimbsInChain(s, top, a);
      if FoundAt(s, top, a).Some? {
        FoundMeansLinked(s, top, a);
        assert Cuts(s, a, FoundAt(s, top, a).value);
      }
    }
  }

  /** The ancestors of a grabbing popup are the popups under it in the chain, and the root. */
  lemma {:induction false} AncestorsAreTheChain(s: State, j: nat, a: Surface)
    requires Inv(s) && j < |s.stack|
    ensures Below(s.made, Popup(s.stack[j]), a) <==>
            a == Toplevel(s.root) || exists i :: 0 <= i <= j && a == Popup(s.stack[i])
    decreases j
  {
    if j > 0 {
      assert IsStacked(s.made, s.stack, j);
      AncestorsAreTheChain(s, j - 1, a);
    }
  }

  ghost predicate StackTracked(s: State) {
    forall i :: 0 <= i < |s.stack| ==> s.stack[i] in s.tracked
  }

  /** Dismissing something outside the chain, or the popup just cut off it, leaves the rest of
      the chain in the tree. */
  lemma DismissSparesChain(s: State, a: nat, n: nat)
    requires Inv(s) && StackTracked(s) && n <= |s.stack|
    requires forall i :: 0 <= i < n ==> s.stack[i] != a
    ensures forall i :: 0 <= i < n ==> s.stack[i] in Dismiss(s, Popup(a)).tracked
  {
    forall i | 0 <= i < n ensures s.stack[i] in Dismiss(s, Popup(a)).tracked {
      AncestorsAreTheChain(s, i, Popup(a));
    }
  }

  // ---------- Refreshing ----------

  /** No popup is listed after one it was made below, and none twice: the order of
      `PopupManager::popups_for_surface`. */
  ghost predicate FrontToBack(made: map<nat, Made>, listing: seq<nat>)
    requires Rooted(made)
  {
    forall x, y :: 0 <= x < y < |listing| ==> InFront(made, listing, x, y)
  }

  predicate InFront(made: map<nat, Made>, listing: seq<nat>, x: nat, y: nat)
    requires Rooted(made) && x < y < |listing|
  {
    !Below(made, Popup(listing[y]), Popup(listing[x]))
  }

  lemma FrontToBackPrefix(made: map<nat, Made>, listing: seq<nat>, n: nat)
    requires Rooted(made) && FrontToBack(made, listing) && n <= |listing|
    ensures FrontToBack(made, listing[..n])
  {
    forall x, y | 0 <= x < y < n ensures InFront(made, listing[..n], x, y) {
      assert InFront(made, listing, x, y);
    }
  }

  /** Nothing before the last popup of the list is an ancestor of it, or the popup itself. */
  lemma LastHasNoAncestorBefore(made: map<nat, Made>, listing: seq<nat>, p: nat)
    requires Rooted(made) && FrontToBack(made, listing) && listing != []
    requires Below(made, Popup(listing[|listing| - 1]), Popup(p))
    ensures p !in listing[..|listing| - 1]
  {
    var n := |listing| - 1;
    forall x | 0 <= x < n ensures listing[x] != p {
      assert InFront(made, listing, x, n);
    }
  }

  /** What a refresh is given: popups of the tree, front to back, all grabbing ones among them. */
  ghost predicate Lists(s: State, listing: seq<nat>)
    requires Rooted(s.made)
  {
    && FrontToBack(s.made, listing)
    && (forall p :: p in listing ==> p in s.tracked)
    && (forall i :: 0 <= i < |s.stack| && s.stack[i] in s.tracked ==> s.stack[i] in listing)
  }

  /** `m` is the index of the lowest unmapped grabbing popup, or their number if all are mapped. */
  ghost predicate LowestUnmapped(stack: seq<nat>, unmapped: set<nat>, m: nat) {
    && m <= |stack|
    && (forall i :: 0 <= i < m ==> stack[i] !in unmapped)
    && (m < |stack| ==> stack[m] in unmapped)
  }

  ghost predicate AtMostOneUnmapped(stack: seq<nat>, unmapped: set<nat>) {
    forall i, j :: 0 <= i < j < |stack| ==> stack[i] !in unmapped || stack[j] !in unmapped
  }

  /** As long as no unmapped grabbing popup is listed, a refresh leaves the grab alone. */
  lemma {:induction false} RefreshSparesGrab(s: State, listing: seq<nat>)
    requires Inv(s) && forall i :: 0 <= i < |s.stack| && s.stack[i] in s.unmapped ==> s.stack[i] !in listing
    ensures Refresh(s, listing).stack == s.stack
    ensures StackTracked(s) ==> StackTracked(Refresh(s, listing))
    decreases |listing|
  {
    if listing != [] {
      var n := |listing| - 1;
      var t := Turn(s, listing[n]);
      if listing[n] in s.unmapped {
        DismissSparesGrab(s, listing[n]);
        DismissBranchKeepsInv(s, listing[n]);
        if StackTracked(s) {
          DismissSparesChain(s, listing[n], |s.stack|);
        }
      }
      RefreshSparesGrab(t, listing[..n]);
    }
  }

  /** The topmost grabbing popup has left the popup tree. */
  ghost predicate CutOff(s: State) {
    s.stack != [] && s.stack[|s.stack| - 1] !in s.tracked
  }

  /** From a cut-off grab no popup but the topmost can be dismissed. */
  lemma CutOffDismiss(s: State, a: nat)
    requires Inv(s) && CutOff(s)
    ensures DismissBranch(s, a).stack ==
            if a == s.stack[|s.stack| - 1] then s.stack[..|s.stack| - 1] else s.stack
  {}

  lemma {:induction false} CutOffRefresh(s: State, listing: seq<nat>)
    requires Inv(s) && CutOff(s) && FrontToBack(s.made, listing)
    ensures var top := s.stack[|s.stack| - 1];
            Refresh(s, listing).stack ==
            if top in listing && top in s.unmapped then s.stack[..|s.stack| - 1] else s.stack
    decreases |listing|
  {
    if listing != [] {
      var n := |listing| - 1;
      var a, top, rest := listing[n], s.stack[|s.stack| - 1], listing[..n];
      var t := Turn(s, a);
      assert listing == rest + [a];
      DismissBranchKeepsInv(s, a);
      CutOffDismiss(s, a);
      if a == top && a in s.unmapped {
        NoAncestorBefore(s, listing);
        RefreshSparesGrab(t, rest);
      } else {
        FrontToBackPrefix(s.made, listing, n);
        CutOffRefresh(t, rest);
      }
    }
  }

  /** Once the topmost grabbing popup is the last of the list, no other grabbing popup is left. */
  lemma NoAncestorBefore(s: State, listing: seq<nat>)
    requires Inv(s) && s.stack != [] && listing != [] && FrontToBack(s.made, listing)
    requires listing[|listing| - 1] == s.stack[|s.stack| - 1]
    ensures forall i :: 0 <= i < |s.stack| ==> s.stack[i] !in listing[..|listing| - 1]
  {
    forall i | 0 <= i < |s.stack| ensures s.stack[i] !in listing[..|listing| - 1] {
      AncestorsAreTheChain(s, |s.stack| - 1, Popup(s.stack[i]));
      LastHasNoAncestorBefore(s.made, listing, s.stack[i]);
    }
  }

  /** Every unmapped grabbing popup is still to come. */
  ghost predicate ListsUnmapped(stack: seq<nat>, unmapped: set<nat>, listing: seq<nat>) {
    forall i :: 0 <= i < |stack| && stack[i] in unmapped ==> stack[i] in listing
  }

  /** The first unmapped grabbing popup a refresh meets is the lowest one. */
  lemma FirstMetIsLowest(s: State, listing: seq<nat>, j: nat)
    requires Inv(s) && listing != [] && FrontToBack(s.made, listing)
    requires ListsUnmapped(s.stack, s.unmapped, listing)
    requires j < |s.stack| && s.stack[j] == listing[|listing| - 1]
    ensures forall i :: 0 <= i < j ==> s.stack[i] !in s.unmapped
  {
    var n := |listing| - 1;
    assert listing == listing[..n] + [listing[n]];
    forall i | 0 <= i < j ensures s.stack[i] !in s.unmapped {
      AncestorsAreTheChain(s, j, Popup(s.stack[i]));
      ChainGetsYounger(s, i, j);
      LastHasNoAncestorBefore(s.made, listing, s.stack[i]);
    }
  }

  /** What a refresh leaves of a grab whose lowest unmapped popup is at `m`. */
  ghost function Left(stack: seq<nat>, unmapped: set<nat>, m: nat): seq<nat>
    requires m <= |stack|
  {
    if AtMostOneUnmapped(stack, unmapped) then stack[..m]
    else if stack != [] && stack[|stack| - 1] in unmapped then stack[..|stack| - 1]
    else stack
  }

  /** The turn that dismisses the only unmapped grabbing popup, and all later turns. */
  lemma RefreshCutsAtLowest(s: State, listing: seq<nat>, m: nat)
    requires Inv(s) && StackTracked(s) && LowestUnmapped(s.stack, s.unmapped, m) && m < |s.stack|
             && AtMostOneUnmapped(s.stack, s.unmapped)
    requires listing != [] && listing[|listing| - 1] == s.stack[m]
    ensures Refresh(s, listing).stack == s.stack[..m] && StackTracked(Refresh(s, listing))
  {
    var a, rest := s.stack[m], listing[..|listing| - 1];
    var t := DismissBranch(s, a);
    DismissBranchKeepsInv(s, a);
    DismissCutsBranch(s, a, m);
    forall i | 0 <= i < m ensures s.stack[i] != a {
      ChainGetsYounger(s, i, m);
    }
    DismissSparesChain(s, a, m);
    assert forall i :: 0 <= i < m ==> t.stack[i] == s.stack[i];
    RefreshSparesGrab(t, rest);
  }

  /** The turn that dismisses the lowest of several. */
  lemma TearingTurn(s: State, listing: seq<nat>, m: nat)
    requires Inv(s) && LowestUnmapped(s.stack, s.unmapped, m) && !AtMostOneUnmapped(s.stack, s.unmapped)
    requires m < |s.stack| && listing != [] && listing[|listing| - 1] == s.stack[m]
    ensures var t := Turn(s, listing[|listing| - 1]);
            && Inv(t) && CutOff(t) && t.stack == s.stack && t.made == s.made && t.unmapped == s.unmapped
            && (t.stack[|t.stack| - 1] in listing[..|listing| - 1] <==> s.stack[|s.stack| - 1] in listing)
  {
    LowestIsNotCut(s, m);
    DismissBranchKeepsInv(s, s.stack[m]);
    assert listing == listing[..|listing| - 1] + [s.stack[m]];
  }

  /** That turn and all later ones. */
  lemma RefreshTearsAtLowest(s: State, listing: seq<nat>, m: nat)
    requires Inv(s) && LowestUnmapped(s.stack, s.unmapped, m) && !AtMostOneUnmapped(s.stack, s.unmapped)
    requires m < |s.stack| && listing != [] && listing[|listing| - 1] == s.stack[m] && FrontToBack(s.made, listing)
    requires s.stack[|s.stack| - 1] in s.unmapped ==> s.stack[|s.stack| - 1] in listing
    ensures Refresh(s, listing).stack == Left(s.stack, s.unmapped, m)
  {
    var n, top := |listing| - 1, s.stack[|s.stack| - 1];
    var t := Turn(s, listing[n]);
    TearingTurn(s, listing, m);
    FrontToBackPrefix(s.made, listing, n);
    CutOffRefresh(t, listing[..n]);
    assert Refresh(t, listing[..n]).stack == if top in s.unmapped then s.stack[..|s.stack| - 1] else s.stack;
    assert Refresh(s, listing) == Refresh(t, listing[..n]);
  }

  lemma LowestLeavesTree(s: State, listing: seq<nat>, m: nat)
    requires Inv(s) && LowestUnmapped(s.stack, s.unmapped, m) && !AtMostOneUnmapped(s.stack, s.unmapped)
    requires m < |s.stack| && listing != [] && listing[|listing| - 1] == s.stack[m]
    ensures s.stack[m] !in Refresh(s, listing).tracked
  {
    var n := |listing| - 1;
    LowestIsNotCut(s, m);
    DismissBranchKeepsInv(s, listing[n]);
    RefreshKeepsInv(DismissBranch(s, listing[n]), listing[..n]);
  }

  /** Below another unmapped popup nothing is popped, but the branch leaves the popup tree. */
  lemma LowestIsNotCut(s: State, m: nat)
    requires Inv(s) && LowestUnmapped(s.stack, s.unmapped, m) && !AtMostOneUnmapped(s.stack, s.unmapped)
    ensures m < |s.stack| - 1 && s.stack[m] != s.stack[|s.stack| - 1]
    ensures var t := DismissBranch(s, s.stack[m]);
            t.stack == s.stack && s.stack[m] !in t.tracked && CutOff(t)
  {
    var a, top := s.stack[m], |s.stack| - 1;
    ChainGetsYounger(s, m, top);
    forall j: nat ensures !Cuts(s, a, j) {
      if Cuts(s, a, j) && j != m {
        ChainGetsYounger(s, if j < m then j else m, if j < m then m else j);
      }
    }
    DismissSparesGrab(s, a);
    AncestorsAreTheChain(s, top, Popup(a));
    AncestorsAreTheChain(s, m, Popup(a));
  }

  lemma RefreshAtLowest(s: State, listing: seq<nat>, m: nat)
    requires Inv(s) && StackTracked(s) && LowestUnmapped(s.stack, s.unmapped, m) && m < |s.stack|
             && ListsUnmapped(s.stack, s.unmapped, listing)
    requires listing != [] && FrontToBack(s.made, listing) && listing[|listing| - 1] == s.stack[m]
    ensures Refresh(s, listing).stack == Left(s.stack, s.unmapped, m)
    ensures StackTracked(Refresh(s, listing)) <==> AtMostOneUnmapped(s.stack, s.unmapped)
  {
    if AtMostOneUnmapped(s.stack, s.unmapped) {
      RefreshCutsAtLowest(s, listing, m);
    } else {
      RefreshTearsAtLowest(s, listing, m);
      LowestLeavesTree(s, listing, m);
      LowestIsNotCut(s, m);
      assert Refresh(s, listing).stack[m] == s.stack[m];
    }
  }

  /** A turn for a popup that does not grab, or is mapped. */
  lemma TurnOutside(s: State, listing: seq<nat>)
    requires Inv(s) && StackTracked(s) && listing != [] && ListsUnmapped(s.stack, s.unmapped, listing)
    requires listing[|listing| - 1] !in s.unmapped || listing[|listing| - 1] !in s.stack
    ensures var t := Turn(s, listing[|listing| - 1]);
            && Inv(t) && StackTracked(t) && t.stack == s.stack
            && ListsUnmapped(t.stack, t.unmapped, listing[..|listing| - 1])
  {
    var a := listing[|listing| - 1];
    assert listing == listing[..|listing| - 1] + [a];
    if a in s.unmapped {
      DismissSparesGrab(s, a);
      DismissBranchKeepsInv(s, a);
      DismissSparesChain(s, a, |s.stack|);
    }
  }

  /** A refresh of a grab whose popups are all in the tree, exactly. */
  lemma {:induction false} RefreshExactly(s: State, listing: seq<nat>, m: nat)
    requires Inv(s) && StackTracked(s) && FrontToBack(s.made, listing) && LowestUnmapped(s.stack, s.unmapped, m)
    requires ListsUnmapped(s.stack, s.unmapped, listing)
    ensures Refresh(s, listing).stack == Left(s.stack, s.unmapped, m)
    ensures StackTracked(Refresh(s, listing)) <==> AtMostOneUnmapped(s.stack, s.unmapped)
    decreases |listing|
  {
    if m == |s.stack| {
      RefreshSparesGrab(s, listing);
    } else {
      assert s.stack[m] in listing;
      var n := |listing| - 1;
      var a := listing[n];
      if a !in s.unmapped || a !in s.stack {
        TurnOutside(s, listing);
        FrontToBackPrefix(s.made, listing, n);
        RefreshExactly(Turn(s, a), listing[..n], m);
      } else {
        var j :| 0 <= j < |s.stack| && s.stack[j] == a;
        FirstMetIsLowest(s, listing, j);
        RefreshAtLowest(s, listing, m);
      }
    }
  }

  /** After a refresh the grab is exactly the part of the chain below its lowest unmapped popup
      if and only if at most one grabbing popup was unmapped. Otherwise the whole grab stays, or
      all of it but the topmost popup if that one was unmapped. */
  lemma RefreshKeepsMappedPartIffOneUnmapped(s: State, listing: seq<nat>, m: nat)
    requires Inv(s) && StackTracked(s) && Lists(s, listing) && LowestUnmapped(s.stack, s.unmapped, m)
    ensures Refresh(s, listing).stack == s.stack[..m] <==> AtMostOneUnmapped(s.stack, s.unmapped)
    ensures !AtMostOneUnmapped(s.stack, s.unmapped) ==>
              Refresh(s, listing).stack ==
              if s.stack[|s.stack| - 1] in s.unmapped then s.stack[..|s.stack| - 1] else s.stack
  {
    RefreshExactly(s, listing, m);
    if !AtMostOneUnmapped(s.stack, s.unmapped) {
      LowestIsNotCut(s, m);
    }
  }

  // ---------- Grabs that stay in the tree, and grabs that are stuck ----------

  /** A refresh is given a proper list. */
  ghost predicate Proper(s: State, e: Event)
    requires Rooted(s.made)
  {
    e.ERefresh? ==> Lists(s, e.listing)
  }

  /** A refresh with two unmapped grabbing popups, or a refused second request of a popup that
      grabs already. */
  ghost predicate Tears(s: State, e: Event)
    requires Rooted(s.made)
  {
    || (e.ERefresh? && !AtMostOneUnmapped(s.stack, s.unmapped))
    || (e.EGrab? && e.p in s.stack && RootOf(s, Popup(e.p)).Some? && !(e.seatOk && Authorised(s, e.p, e.serial)))
  }

  /** The tree is closed under parents, so a grab is in it as a whole or its topmost popup is not. */
  lemma {:induction false} TopTellsAll(s: State, i: nat)
    requires Inv(s) && i < |s.stack| && s.stack[|s.stack| - 1] in s.tracked
    ensures s.stack[i] in s.tracked
    decreases |s.stack| - i
  {
    if i < |s.stack| - 1 {
      TopTellsAll(s, i + 1);
      assert HasParentIn(s.made, s.tracked, s.stack[i + 1]);
      assert IsStacked(s.made, s.stack, i + 1);
    }
  }

  lemma TrackedOrCutOff(s: State)
    requires Inv(s)
    ensures StackTracked(s) <==> !CutOff(s)
  {
    if s.stack != [] && !CutOff(s) {
      forall i | 0 <= i < |s.stack| ensures s.stack[i] in s.tracked {
        TopTellsAll(s, i);
      }
    }
  }

  lemma GrabTearsIffRefusedAgain(s: State, e: Event)
    requires Inv(s) && StackTracked(s) && e.EGrab?
    ensures StackTracked(Step(s, e)) <==> !Tears(s, e)
  {
    var t := Step(s, e);
    if e.p in s.stack {
      var j :| 0 <= j < |s.stack| && s.stack[j] == e.p;
      AncestorsAreTheChain(s, j, Popup(e.p));
      assert HasParentIn(s.made, s.tracked, e.p);
      if RootOf(s, Popup(e.p)).Some? {
        RootOfChain(s, j);
      }
    } else {
      DismissSparesChain(s, e.p, |s.stack|);
    }
  }

  lemma DismissWindowKeepsTracked(s: State, w: Option<nat>)
    requires Inv(s) && StackTracked(s)
    ensures StackTracked(DismissWindow(s, w))
  {
    var t := DismissWindow(s, w);
    forall i | 0 <= i < |t.stack| ensures t.stack[i] in t.tracked {
      AncestorsAreTheChain(s, i, Toplevel(w.value));
    }
  }

  /** Exactly two kinds of events tear a grab out of the popup tree. */
  lemma TrackedIffNotTorn(s: State, e: Event)
    requires Inv(s) && StackTracked(s) && Proper(s, e)
    ensures StackTracked(Step(s, e)) <==> !Tears(s, e)
  {
    match e
    case EGrab(p, serial, seatOk, accepted) =>
      GrabTearsIffRefusedAgain(s, e);
    case ERefresh(listing) =>
      var m := FindLowest(s);
      RefreshExactly(s, listing, m);
    case EFocus(f) =>
    case EDismissWindow(w) =>
      DismissWindowKeepsTracked(s, Some(w));
    case _ =>
  }

  lemma FindLowest(s: State) returns (m: nat)
    ensures LowestUnmapped(s.stack, s.unmapped, m)
  {
    m := 0;
    while m < |s.stack| && s.stack[m] !in s.unmapped
      invariant m <= |s.stack| && forall i :: 0 <= i < m ==> s.stack[i] !in s.unmapped
    {
      m := m + 1;
    }
  }

  /** No event of the run tears the grab. */
  ghost predicate Untorn(s: State, es: seq<Event>)
    requires Inv(s)
    decreases |es|
  {
    es == [] ||
    (Proper(s, es[0]) && !Tears(s, es[0]) && (StepKeepsInv(s, es[0]); Untorn(Step(s, es[0]), es[1..])))
  }

  /** As long as nothing tears it, every grabbing popup stays in the popup tree. */
  lemma {:induction false} UntornGrabsStayTracked(s: State, es: seq<Event>)
    requires Inv(s) && StackTracked(s) && Untorn(s, es)
    ensures StackTracked(Run(s, es))
    decreases |es|
  {
    if es != [] {
      StepKeepsInv(s, es[0]);
      TrackedIffNotTorn(s, es[0]);
      UntornGrabsStayTracked(Step(s, es[0]), es[1..]);
    }
  }

  /** No event of the run moves the focus or dismisses the window of the grab. */
  ghost predicate WindowStays(s: State, es: seq<Event>)
    requires Inv(s)
    decreases |es|
  {
    es == [] ||
    (&& Proper(s, es[0]) && !es[0].EFocus? && es[0] != EDismissWindow(s.root)
     && (StepKeepsInv(s, es[0]); WindowStays(Step(s, es[0]), es[1..])))
  }

  lemma CutOffStepStays(s: State, e: Event)
    requires Inv(s) && CutOff(s) && Proper(s, e) && !e.EFocus? && e != EDismissWindow(s.root)
    ensures CutOff(Step(s, e)) && Step(s, e).stack == s.stack && Step(s, e).root == s.root
  {
    match e
    case ERefresh(listing) =>
      CutOffRefresh(s, listing);
      RefreshKeepsInv(s, listing);
    case _ =>
  }

  /** A torn grab is stuck: no unmapping, refresh or further grab changes it until the focus
      moves or its window goes. */
  lemma {:induction false} TornGrabIsStuck(s: State, es: seq<Event>)
    requires Inv(s) && CutOff(s) && WindowStays(s, es)
    ensures Run(s, es).stack == s.stack && CutOff(Run(s, es))
    decreases |es|
  {
    if es != [] {
      StepKeepsInv(s, es[0]);
      CutOffStepStays(s, es[0]);
      TornGrabIsStuck(Step(s, es[0]), es[1..]);
    }
  }

  lemma {:induction false} RunConcat(s: State, a: seq<Event>, b: seq<Event>)
    requires Inv(s)
    ensures Inv(Run(s, a)) && Run(s, a + b) == Run(Run(s, a), b)
    decreases |a|
  {
    if a == [] {
      assert a + b == b;
    } else {
      assert (a + b)[0] == a[0] && (a + b)[1..] == a[1..] + b;
      StepKeepsInv(s, a[0]);
      RunConcat(Step(s, a[0]), a[1..], b);
    }
  }

  lemma RunTwo(s: State, d: Event, e: Event)
    requires Inv(s)
    ensures Inv(Step(s, d)) && Run(s, [d, e]) == Step(Step(s, d), e)
  {
    StepKeepsInv(s, d);
    StepKeepsInv(Step(s, d), e);
    assert Run(Step(s, d), [e]) == Step(Step(s, d), e);
    assert [d, e][1..] == [e];
  }

  // A window with a menu and a submenu, both grabbing, which are then both unmapped.
  const OPEN_MENU: seq<Event> := [EFocus(Some(0)), ETrack(1, Toplevel(0), 9)]
  const OPEN_SUBMENU: seq<Event> := [ETrack(2, Popup(1), 9), ERecord(Delivery(5, 9))]
  const GRAB_BOTH: seq<Event> := [EGrab(1, 5, true, true), EGrab(2, 5, true, true)]
  const UNMAP_BOTH: seq<Event> := [EUnmap(1), EUnmap(2)]

  const MENU_OPEN: State :=
    State(map[1 := Made(Toplevel(0), 9, 0)], {1}, {}, 1, Some(0), [], 0, [])

  const SUBMENU_OPEN: State :=
    MENU_OPEN.(made := MENU_OPEN.made[2 := Made(Popup(1), 9, 1)], tracked := {1, 2}, nextStamp := 2,
              ring := [Delivery(5, 9)])

  const BOTH_UNMAPPED: State := SUBMENU_OPEN.(stack := [1, 2], unmapped := {1, 2})

  lemma MenuOpens()
    ensures Run(Initial(), OPEN_MENU) == MENU_OPEN && Inv(MENU_OPEN)
  {
    InitialInv();
    RunTwo(Initial(), OPEN_MENU[0], OPEN_MENU[1]);
    GrabsAlwaysChain(Initial(), OPEN_MENU);
  }

  lemma SubmenuOpens()
    requires Inv(MENU_OPEN)
    ensures Run(MENU_OPEN, OPEN_SUBMENU) == SUBMENU_OPEN
  {
    RunTwo(MENU_OPEN, OPEN_SUBMENU[0], OPEN_SUBMENU[1]);
  }

  lemma MenusGrab()
    requires Inv(SUBMENU_OPEN)
    ensures Run(SUBMENU_OPEN, GRAB_BOTH) == SUBMENU_OPEN.(stack := [1, 2])
  {
    var s := SUBMENU_OPEN;
    assert RootOf(s, Toplevel(0)) == Some(0) && RootOf(s, Popup(1)) == Some(0) && RootOf(s, Popup(2)) == Some(0);
    RunTwo(s, GRAB_BOTH[0], GRAB_BOTH[1]);
    var t := s.(stack := [1]);
    assert Step(s, GRAB_BOTH[0]) == t;
    assert RootOf(t, Toplevel(0)) == Some(0) && RootOf(t, Popup(1)) == Some(0) && RootOf(t, Popup(2)) == Some(0);
  }

  lemma BothGrab()
    ensures Run(Initial(), OPEN_MENU + OPEN_SUBMENU + GRAB_BOTH) == SUBMENU_OPEN.(stack := [1, 2])
    ensures Inv(SUBMENU_OPEN.(stack := [1, 2]))
  {
    InitialInv();
    MenuOpens();
    SubmenuOpens();
    RunConcat(Initial(), OPEN_MENU, OPEN_SUBMENU);
    RunConcat(Initial(), OPEN_MENU + OPEN_SUBMENU, GRAB_BOTH);
    MenusGrab();
    GrabsAlwaysChain(Initial(), OPEN_MENU + OPEN_SUBMENU + GRAB_BOTH);
  }

  lemma BothUnmap()
    requires Inv(SUBMENU_OPEN.(stack := [1, 2]))
    ensures Run(SUBMENU_OPEN.(stack := [1, 2]), UNMAP_BOTH) == BOTH_UNMAPPED
  {
    RunTwo(SUBMENU_OPEN.(stack := [1, 2]), UNMAP_BOTH[0], UNMAP_BOTH[1]);
  }

  lemma BothUnmappedIsReachable()
    ensures Run(Initial(), OPEN_MENU + OPEN_SUBMENU + GRAB_BOTH + UNMAP_BOTH) == BOTH_UNMAPPED && Inv(BOTH_UNMAPPED)
  {
    InitialInv();
    BothGrab();
    BothUnmap();
    RunConcat(Initial(), OPEN_MENU + OPEN_SUBMENU + GRAB_BOTH, UNMAP_BOTH);
  }

  /** The menu is in the chain of that state, and yet its dismissal does not cut it. */
  lemma UnmappedMenuIsNotCut()
    ensures Inv(BOTH_UNMAPPED) && !AtMostOneUnmapped(BOTH_UNMAPPED.stack, BOTH_UNMAPPED.unmapped)
    ensures 1 in BOTH_UNMAPPED.stack && 1 in BOTH_UNMAPPED.unmapped && DismissBranch(BOTH_UNMAPPED, 1).stack == [1, 2]
  {
    BothUnmappedIsReachable();
    assert BOTH_UNMAPPED.stack[0] == 1 && BOTH_UNMAPPED.stack[1] == 2;
    LowestIsNotCut(BOTH_UNMAPPED, 0);
  }

  lemma SubmenuIsListedFirst()
    requires Inv(BOTH_UNMAPPED)
    ensures Lists(BOTH_UNMAPPED, [2, 1])
  {
    var s, listing := BOTH_UNMAPPED, [2, 1];
    assert !Below(s.made, Popup(1), Popup(2));
    assert InFront(s.made, listing, 0, 1);
    assert listing[0] == 2 && listing[1] == 1;
  }

  /** A refresh of that state leaves the unmapped menu grabbing outside the popup tree, and it
      stays so as long as the window and its focus do. */
  lemma UnmappedMenuKeepsGrab()
    ensures Inv(BOTH_UNMAPPED) && Proper(BOTH_UNMAPPED, ERefresh([2, 1]))
    ensures var s := Step(BOTH_UNMAPPED, ERefresh([2, 1]));
            && Inv(s) && s.stack == [1] && 1 in s.unmapped && CutOff(s)
            && forall es :: WindowStays(s, es) ==> Run(s, es).stack == [1]
  {
    UnmappedMenuIsNotCut();
    SubmenuIsListedFirst();
    MenuIsLeft();
    var t := Refresh(BOTH_UNMAPPED, [2, 1]);
    forall es | WindowStays(t, es) ensures Run(t, es).stack == [1] {
      TornGrabIsStuck(t, es);
    }
  }

  lemma MenuIsLeft()
    requires Inv(BOTH_UNMAPPED) && Lists(BOTH_UNMAPPED, [2, 1])
    requires !AtMostOneUnmapped(BOTH_UNMAPPED.stack, BOTH_UNMAPPED.unmapped)
    ensures var s := Refresh(BOTH_UNMAPPED, [2, 1]);
            Inv(s) && s.stack == [1] && s.unmapped == {1, 2} && CutOff(s)
  {
    RefreshExactly(BOTH_UNMAPPED, [2, 1], 0);
    RefreshKeepsInv(BOTH_UNMAPPED, [2, 1]);
    TrackedOrCutOff(Refresh(BOTH_UNMAPPED, [2, 1]));
  }

  /** A grabbing menu that asks again with a serial never delivered is torn as well. */
  lemma SecondRequestTears()
    ensures var s := Run(Initial(), OPEN_MENU + OPEN_SUBMENU + GRAB_BOTH);
            && Inv(s) && StackTracked(s) && s.stack == [1, 2]
            && CutOff(Step(s, EGrab(1, 6, true, true)))
  {
    var s, again := SUBMENU_OPEN.(stack := [1, 2]), EGrab(1, 6, true, true);
    BothGrab();
    assert RootOf(s, Toplevel(0)) == Some(0) && RootOf(s, Popup(1)) == Some(0);
    assert s.stack[0] == 1 && Tears(s, again);
    TrackedIffNotTorn(s, again);
    StepKeepsInv(s, again);
    TrackedOrCutOff(Step(s, again));
  }

  // ---------- Popups as their clients made them ----------

  /** A new popup is recorded as requested if its parent is known, and enters the popup tree exactly
      when its parent is a toplevel or in the tree. No other event records a popup or changes one. */
  lemma OnlyTrackingMakesPopups(s: State, e: Event, p: nat)
    requires Inv(s)
    ensures var t := Step(s, e);
            var makes := && e.ETrack? && e.p == p && p !in s.made && (e.parent.Popup? ==> e.parent.id in s.made);
            && (p in t.made <==> p in s.made || makes)
            && (p in s.made ==> t.made[p] == s.made[p])
            && (makes ==> t.made[p].parent == e.parent && t.made[p].client == e.client)
            && (makes ==> (p in t.tracked <==> e.parent.Toplevel? || e.parent.id in s.tracked))
            && (!makes ==> p in t.tracked ==> p in s.tracked)
  {
    match e
    case ERefresh(listing) => RefreshKeepsInv(s, listing);
    case _ =>
  }

  /** So every popup has the parent and client of the request that made it. */
  lemma {:induction false} PopupsAreAsMade(s: State, es: seq<Event>, p: nat)
    requires Inv(s) && p !in s.made && p in Run(s, es).made
    ensures exists k :: 0 <= k < |es| && es[k] == ETrack(p, Run(s, es).made[p].parent, Run(s, es).made[p].client)
    decreases |es|
  {
    var t := Step(s, es[0]);
    StepKeepsInv(s, es[0]);
    OnlyTrackingMakesPopups(s, es[0], p);
    if p in t.made {
      MadeForGood(t, es[1..], p);
      assert es[0] == ETrack(p, t.made[p].parent, t.made[p].client);
    } else {
      PopupsAreAsMade(t, es[1..], p);
      var k :| 0 <= k < |es[1..]| &&
               es[1..][k] == ETrack(p, Run(t, es[1..]).made[p].parent, Run(t, es[1..]).made[p].client);
      assert es[k + 1] == es[1..][k];
    }
  }

  lemma {:induction false} MadeForGood(s: State, es: seq<Event>, p: nat)
    requires Inv(s) && p in s.made
    ensures p in Run(s, es).made && Run(s, es).made[p] == s.made[p]
    decreases |es|
  {
    if es != [] {
      StepKeepsInv(s, es[0]);
      OnlyTrackingMakesPopups(s, es[0], p);
      MadeForGood(Step(s, es[0]), es[1..], p);
    }
  }

  // ---------- The popup tree, by ancestry ----------

  /** The `k`-th ancestor of a surface along the parents popups were made with. */
  function AncestorOf(made: map<nat, Made>, c: Surface, k: nat): Option<Surface> {
    if k == 0 then Some(c)
    else
      var below := AncestorOf(made, c, k - 1);
      if below.Some? && below.value.Popup? && below.value.id in made then Some(made[below.value.id].parent) else None
  }

  lemma {:induction false} AncestorOfParent(made: map<nat, Made>, p: nat, k: nat)
    requires p in made
    ensures AncestorOf(made, Popup(p), k + 1) == AncestorOf(made, made[p].parent, k)
    decreases k
  {
    if k > 0 {
      AncestorOfParent(made, p, k - 1);
    } else {
      assert AncestorOf(made, Popup(p), 0) == Some(Popup(p));
    }
  }

  lemma {:induction false} AncestorsEnd(made: map<nat, Made>, c: Surface, k: nat)
    requires c.Toplevel? || c.id !in made
    ensures k > 0 ==> AncestorOf(made, c, k) == None
    decreases k
  {
    if k > 1 {
      AncestorsEnd(made, c, k - 1);
    }
  }

  ghost predicate HasAncestor(made: map<nat, Made>, c: Surface, a: Surface) {
    exists k: nat :: AncestorOf(made, c, k) == Some(a)
  }

  /** The recursive subtree test is ancestry. */
  lemma {:induction false} BelowIffAncestor(made: map<nat, Made>, c: Surface, a: Surface)
    requires Rooted(made)
    ensures Below(made, c, a) <==> HasAncestor(made, c, a)
    decreases Height(made, c)
  {
    assert AncestorOf(made, c, 0) == Some(c);
    if c != a {
      if c.Popup? && c.id in made {
        var parent := made[c.id].parent;
        BelowIffAncestor(made, parent, a);
        if HasAncestor(made, parent, a) {
          var k: nat :| AncestorOf(made, parent, k) == Some(a);
          AncestorOfParent(made, c.id, k);
          assert AncestorOf(made, c, k + 1) == Some(a);
        }
        if HasAncestor(made, c, a) {
          var k: nat :| AncestorOf(made, c, k) == Some(a);
          AncestorOfParent(made, c.id, k - 1);
        }
      } else if HasAncestor(made, c, a) {
        var k: nat :| AncestorOf(made, c, k) == Some(a);
        AncestorsEnd(made, c, k);
      }
    }
  }

  /** Dismissing a popup takes it and its descendants, and nothing else, out of the popup tree. */
  lemma DismissRemovesDescendants(s: State, a: nat, p: nat)
    requires Rooted(s.made)
    ensures p in DismissBranch(s, a).tracked <==> p in s.tracked && !HasAncestor(s.made, Popup(p), Popup(a))
  {
    BelowIffAncestor(s.made, Popup(p), Popup(a));
  }

  /** Dismissing a window takes exactly its popups out of the tree and ends exactly its own grab; a
      focus change does that to the old window and revokes all serials. */
  lemma WindowPopupsLeaveTree(s: State, w: nat, f: Option<nat>, p: nat)
    requires Inv(s)
    ensures var t := Step(s, EDismissWindow(w));
            && (p in t.tracked <==> p in s.tracked && !HasAncestor(s.made, Popup(p), Toplevel(w)))
            && t.stack == (if s.root == w then [] else s.stack) && t.ring == s.ring && t.focused == s.focused
    ensures var t := Step(s, EFocus(f));
            && (p in t.tracked <==>
                  p in s.tracked && (s.focused.None? || !HasAncestor(s.made, Popup(p), Toplevel(s.focused.value))))
            && t.stack == [] && t.ring == [] && t.focused == f
  {
    BelowIffAncestor(s.made, Popup(p), Toplevel(w));
    if s.focused.Some? {
      BelowIffAncestor(s.made, Popup(p), Toplevel(s.focused.value));
    }
  }

  /** All ancestors before the `k`-th are mapped popups. */
  ghost predicate MappedUpTo(s: State, p: nat, k: nat) {
    forall j: nat {:trigger AncestorOf(s.made, Popup(p), j)} :: j < k ==>
      var c := AncestorOf(s.made, Popup(p), j);
      c.Some? && c.value.Popup? && c.value.id in s.made && c.value.id !in s.unmapped
  }

  /** The root of a popup is the toplevel that ends its ancestry, if all popups on the way are
      mapped. */
  lemma RootIffMappedAncestry(s: State, p: nat, t: nat)
    requires Rooted(s.made)
    ensures RootOf(s, Popup(p)) == Some(t) <==>
            exists k: nat :: AncestorOf(s.made, Popup(p), k) == Some(Toplevel(t)) && MappedUpTo(s, p, k)
  {
    if RootOf(s, Popup(p)) == Some(t) {
      var k := RootHasAncestry(s, p, t);
    }
    if exists k: nat :: AncestorOf(s.made, Popup(p), k) == Some(Toplevel(t)) && MappedUpTo(s, p, k) {
      var k: nat :| AncestorOf(s.made, Popup(p), k) == Some(Toplevel(t)) && MappedUpTo(s, p, k);
      AncestryHasRoot(s, p, t, k);
    }
  }

  lemma {:induction false} RootHasAncestry(s: State, p: nat, t: nat) returns (k: nat)
    requires Rooted(s.made) && RootOf(s, Popup(p)) == Some(t)
    ensures AncestorOf(s.made, Popup(p), k) == Some(Toplevel(t)) && MappedUpTo(s, p, k)
    decreases Height(s.made, Popup(p))
  {
    var parent := s.made[p].parent;
    assert RoleParent(s, p) == Some(parent);
    assert AncestorOf(s.made, Popup(p), 0) == Some(Popup(p));
    if parent.Toplevel? {
      k := 1;
    } else {
      var up := RootHasAncestry(s, parent.id, t);
      k := up + 1;
      AncestorOfParent(s.made, p, up);
      forall j: nat | 0 < j < k ensures AncestorOf(s.made, Popup(p), j) == AncestorOf(s.made, parent, j - 1) {
        AncestorOfParent(s.made, p, j - 1);
      }
    }
  }

  lemma {:induction false} AncestryHasRoot(s: State, p: nat, t: nat, k: nat)
    requires Rooted(s.made) && AncestorOf(s.made, Popup(p), k) == Some(Toplevel(t)) && MappedUpTo(s, p, k)
    ensures RootOf(s, Popup(p)) == Some(t)
    decreases k
  {
    assert AncestorOf(s.made, Popup(p), 0) == Some(Popup(p));
    var parent := s.made[p].parent;
    assert RoleParent(s, p) == Some(parent);
    AncestorOfParent(s.made, p, k - 1);
    if parent.Toplevel? {
      AncestorsEnd(s.made, parent, k - 1);
    } else {
      forall j: nat | j < k - 1 ensures AncestorOf(s.made, parent, j) == AncestorOf(s.made, Popup(p), j + 1) {
        AncestorOfParent(s.made, p, j);
      }
      AncestryHasRoot(s, parent.id, t, k - 1);
    }
  }

  // ---------- Authorisation ----------

  /** The deliveries recorded since the focus last changed, read off the events alone. */
  function Deliveries(seen: seq<Delivery>, es: seq<Event>): seq<Delivery>
    decreases |es|
  {
    if es == [] then seen
    else
      var now := match es[0] case ERecord(d) => seen + [d] case EFocus(_) => [] case _ => seen;
      Deliveries(now, es[1..])
  }

  function Latest(seen: seq<Delivery>): seq<Delivery> {
    if |seen| <= 64 then seen else seen[|seen| - 64..]
  }

  lemma RecordKeepsLatest(seen: seq<Delivery>, d: Delivery)
    ensures Record(Latest(seen), d) == Latest(seen + [d])
  {}

  /** The ring is always the last 64 deliveries since the focus last changed. */
  lemma {:induction false} RingIsLatestDeliveries(s: State, seen: seq<Delivery>, es: seq<Event>)
    requires Inv(s) && s.ring == Latest(seen)
    ensures Run(s, es).ring == Latest(Deliveries(seen, es))
    decreases |es|
  {
    if es != [] {
      var t := Step(s, es[0]);
      StepKeepsInv(s, es[0]);
      match es[0]
      case ERecord(d) =>
        RecordKeepsLatest(seen, d);
        RingIsLatestDeliveries(t, seen + [d], es[1..]);
      case EFocus(_) =>
        RingIsLatestDeliveries(t, [], es[1..]);
      case ERefresh(listing) =>
        RefreshKeepsInv(s, listing);
        RingIsLatestDeliveries(t, seen, es[1..]);
      case _ =>
        RingIsLatestDeliveries(t, seen, es[1..]);
    }
  }

  lemma InitialInv()
    ensures Inv(Initial()) && StackTracked(Initial())
  {}

  /** The request passes the checks that decide between dismissal and the grab itself. */
  ghost predicate Permitted(s: State, p: nat, serial: nat, seatOk: bool)
    requires Rooted(s.made) && p in s.made
  {
    && seatOk && Delivery(serial, s.made[p].client) in s.ring && s.focused == RootOf(s, Popup(p))
    && (s.made[p].parent.Popup? ==> s.made[p].parent.id in s.tracked)
  }

  /** A popup of the tree with a root is dismissed, with its descendants, exactly when its request
      is not permitted, and grabs exactly when it is permitted, was made for the top of the grab or,
      without a grab, for a toplevel, and the popup manager agrees. Any other request changes
      nothing. */
  lemma GrabExactly(s: State, p: nat, serial: nat, seatOk: bool, accepted: bool)
    requires Inv(s)
    ensures var t := Step(s, EGrab(p, serial, seatOk, accepted));
            var asks := p in s.made && p in s.tracked && RootOf(s, Popup(p)).Some?;
            var permitted := asks && Permitted(s, p, serial, seatOk);
            var fits := asks && if s.stack == [] then s.made[p].parent.Toplevel?
                                else s.made[p].parent == Popup(s.stack[|s.stack| - 1]);
            && t.stack == s.stack + (if permitted && fits && accepted then [p] else [])
            && (forall q :: q in t.tracked <==>
                  q in s.tracked && !(asks && !permitted && HasAncestor(s.made, Popup(q), Popup(p))))
            && t.ring == s.ring && t.focused == s.focused && t.made == s.made && t.unmapped == s.unmapped
  {
    forall q ensures Below(s.made, Popup(q), Popup(p)) <==> HasAncestor(s.made, Popup(q), Popup(p)) {
      BelowIffAncestor(s.made, Popup(q), Popup(p));
    }
  }

  /** After any run a grab is granted exactly to a popup in the tree of the focused window, made for
      the top of the grab, with a serial delivered to its own client among the last 64 deliveries
      since the focus changed, if seat and popup manager agree. */
  lemma GrabNeedsRecentDelivery(es: seq<Event>, p: nat, serial: nat, seatOk: bool, accepted: bool)
    ensures var s := Run(Initial(), es);
            && Inv(s)
            && (Step(s, EGrab(p, serial, seatOk, accepted)).stack == s.stack + [p] <==>
                  && p in s.made && Delivery(serial, s.made[p].client) in Latest(Deliveries([], es))
                  && p in s.tracked && s.focused.Some? && RootOf(s, Popup(p)) == s.focused
                  && (s.made[p].parent.Popup? ==> s.made[p].parent.id in s.tracked)
                  && (if s.stack == [] then s.made[p].parent.Toplevel?
                      else s.made[p].parent == Popup(s.stack[|s.stack| - 1]))
                  && seatOk && accepted)
  {
    GrabsAlwaysChain(Initial(), es);
    RingIsLatestDeliveries(Initial(), [], es);
    GrabExactly(Run(Initial(), es), p, serial, seatOk, accepted);
  }

  // ---------- The compositor's popup state, updated in place ----------

  /** `InputSerials`: the bounded history of delivered actions. */
  class InputSerials {
    var entries: seq<Delivery>

    constructor ()
      ensures entries == []
    {
      entries := [];
    }

    method RecordSerial(serial: nat, client: Client)
      requires |entries| <= CAPACITY
      modifies this
      ensures entries == Record(old(entries), Delivery(serial, client)) && |entries| <= CAPACITY
    {
      if |entries| == CAPACITY {
        entries := entries[1..];
      }
      entries := entries + [Delivery(serial, client)];
    }

    method Contains(serial: nat, client: Client) returns (r: bool)
      ensures r <==> Delivery(serial, client) in entries
    {
      var i := 0;
      while i < |entries|
        invariant 0 <= i <= |entries|
        invariant Delivery(serial, client) !in entries[..i]
      {
        if entries[i].serial == serial && entries[i].client == client {
          return true;
        }
        assert entries[..i + 1] == entries[..i] + [entries[i]];
        i := i + 1;
      }
      assert entries[..i] == entries;
      return false;
    }

    method Clear()
      modifies this
      ensures entries == []
    {
      entries := [];
    }
  }

  class PopupState {
    var made: map<nat, Made>
    var tracked: set<nat>
    var unmapped: set<nat>
    var nextStamp: nat
    var focused: Option<nat>
    var grabs: seq<nat>
    var grabRoot: nat
    const inputSerials: InputSerials

    ghost function View(): State
      reads this, inputSerials
    {
      State(made, tracked, unmapped, nextStamp, focused, grabs, grabRoot, inputSerials.entries)
    }

    constructor ()
      ensures View() == Initial() && fresh(inputSerials)
    {
      made, tracked, unmapped, nextStamp, focused := map[], {}, {}, 0, None;
      grabs, grabRoot := [], 0;
      inputSerials := new InputSerials();
    }

    /** Walks down from the topmost grab; terminates because parents are older. */
    method CurrentGrabDescendsFrom(ancestor: nat) returns (r: bool)
      requires Rooted(made)
      ensures r <==> grabs != [] && Climbs(View(), Popup(grabs[|grabs| - 1]), ancestor)
    {
      if grabs == [] {
        return false;
      }
      var current := Popup(grabs[|grabs| - 1]);
      while current != Popup(ancestor)
        invariant Climbs(View(), current, ancestor) <==> Climbs(View(), Popup(grabs[|grabs| - 1]), ancestor)
        decreases Height(made, current)
      {
        if current.Toplevel? || current.id !in tracked || current.id !in made || current.id in unmapped {
          return false;
        }
        assert RoleParent(View(), current.id) == Some(made[current.id].parent);
        current := made[current.id].parent;
      }
      return true;
    }

    method DismissPopupBranch(popup: nat)
      requires Rooted(made)
      modifies this`grabs, this`tracked
      ensures View() == DismissBranch(old(View()), popup)
    {
      var descends := CurrentGrabDescendsFrom(popup);
      if descends {
        var reached := false;
        while grabs != [] && !reached
          invariant tracked == old(tracked)
          invariant (if reached then grabs else PopThrough(grabs, popup)) == PopThrough(old(grabs), popup)
          decreases |grabs|
        {
          reached := grabs[|grabs| - 1] == popup;
          grabs := grabs[..|grabs| - 1];
        }
      }
      tracked := Dismiss(State(made, tracked, unmapped, nextStamp, focused, grabs, grabRoot, []), Popup(popup)).tracked;
    }

    /** The dismissal part of `refresh_popups`, over the popups as the manager lists them. */
    method RefreshPopups(listing: seq<nat>)
      requires Rooted(made)
      modifies this`grabs, this`tracked
      ensures View() == Refresh(old(View()), listing)
    {
      assert listing[..|listing|] == listing;
      for i := |listing| downto 0
        invariant Refresh(View(), listing[..i]) == Refresh(old(View()), listing)
      {
        assert listing[..i + 1][..i] == listing[..i];
        if listing[i] in unmapped {
          DismissPopupBranch(listing[i]);
        }
      }
    }

    method GrabPopup(popup: nat, serial: nat, seatOk: bool, accepted: bool)
      requires Rooted(made)
      modifies this`grabs, this`grabRoot, this`tracked
      ensures View() == Grab(old(View()), popup, serial, seatOk, accepted)
    {
      var s := State(made, tracked, unmapped, nextStamp, focused, grabs, grabRoot, inputSerials.entries);
      if popup !in made || popup !in tracked {
        return;
      }
      var root := RootOf(s, Popup(popup));
      if root.None? {
        return;
      }
      var delivered := inputSerials.Contains(serial, made[popup].client);
      if !seatOk || !delivered || focused != root {
        tracked := Dismiss(s, Popup(popup)).tracked;
        return;
      }
      var parent := made[popup].parent;
      if parent.Popup? && parent.id !in tracked {
        tracked := Dismiss(s, Popup(popup)).tracked;
        return;
      }
      if (grabs != [] && Popup(grabs[|grabs| - 1]) != parent) || (parent.Popup? && grabs == []) || !accepted {
        return;
      }
      grabs := grabs + [popup];
      grabRoot := root.value;
    }

    method DismissPopupsForWindow(window: Option<nat>)
      requires Rooted(made)
      modifies this`grabs, this`tracked
      ensures View() == DismissWindow(old(View()), window)
    {
      if window.None? || grabRoot == window.value {
        grabs := [];
      }
      if window.Some? {
        var s := State(made, tracked, unmapped, nextStamp, focused, grabs, grabRoot, []);
        tracked := Dismiss(s, Toplevel(window.value)).tracked;
      }
    }

    method FocusChanged(f: Option<nat>)
      requires Rooted(made)
      modifies this`focused, this`grabs, this`tracked, inputSerials
      ensures View() == ChangeFocus(old(View()), f)
    {
      inputSerials.Clear();
      var before := focused;
      focused := f;
      DismissPopupsForWindow(before);
    }
  }
}
