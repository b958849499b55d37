/** Colour management: per-surface colour declarations from the colour-management protocol
    (pending until committed) and from the swapchain protocol (effective at once), and the
    colour space a frame is tagged with. The state is compared with its request log. */
module ColorState {
  import opened Common

  type Surface = nat

  datatype TransferFunction = Gamma22 | St2084Pq | LinearScrgb
  datatype Primaries = Srgb | Bt2020
  datatype FrameColorSpace = FrameSrgb | FrameBt2020Pq | FrameScrgbLinear

  datatype Space = Space(transfer: TransferFunction, primaries: Primaries)

  /** Mastering metadata in raw protocol units. */
  datatype Mastering = Mastering(maxCll: nat, maxFall: nat, whiteX: nat, whiteY: nat, rest: seq<nat>)
  {
    predicate IsPlausible() { maxCll != 0 && maxFall != 0 && (whiteX != 0 || whiteY != 0) }
  }

  /** An image description: a colour space, with mastering metadata or without. */
  datatype Description = Description(space: Space, metadata: Option<Mastering>)

  datatype SwapchainColor = SwapchainColor(space: Option<Space>, metadata: Option<Mastering>)

  function ToFrameColorSpace(s: Space): FrameColorSpace {
    if s == Space(St2084Pq, Bt2020) then FrameBt2020Pq
    else if s == Space(LinearScrgb, Srgb) then FrameScrgbLinear
    else FrameSrgb
  }

  function ToImageDescription(c: SwapchainColor): Option<Description> {
    if c.space.None? then None else Some(Description(c.space.value, c.metadata))
  }

  datatype State = State(
    pending: map<Surface, Option<Description>>, current: map<Surface, Description>,
    swapchain: map<Surface, SwapchainColor>, overrideSurface: Option<Surface>)

  function Initial(): State {
    State(map[], map[], map[], None)
  }

  const VK_SRGB_NONLINEAR: nat := 0
  const VK_EXTENDED_SRGB_LINEAR: nat := 1000104002
  const VK_HDR10_ST2084: nat := 1000104008
  const VK_EXTENDED_SRGB_NONLINEAR: nat := 1000104014

  /** The HDR space a swapchain colour space stands for. */
  function HdrSpace(vk: nat): Option<Space> {
    if vk == VK_HDR10_ST2084 then Some(Space(St2084Pq, Bt2020))
    else if vk == VK_EXTENDED_SRGB_LINEAR || vk == VK_EXTENDED_SRGB_NONLINEAR then Some(Space(LinearScrgb, Srgb))
    else None
  }

  datatype Request =
    | Declare(s: Surface, desc: Option<Description>)
    | Commit(s: Surface)
    | Feedback(s: Surface, vk: nat)
    | Metadata(s: Surface, m: Mastering)
    | CreateSwapchain(s: Surface)
    | Override(s: Surface)
    | DropOverride
    | Destroy(s: Surface)

  function Entry(st: State, s: Surface): SwapchainColor {
    if s in st.swapchain then st.swapchain[s] else SwapchainColor(None, None)
  }

  function ApplyCommit(st: State, s: Surface): State {
    if s !in st.pending then st
    else
      var p := st.pending[s];
      st.(pending := st.pending - {s}, current := if p.Some? then st.current[s := p.value] else st.current - {s})
  }

  function ApplyFeedback(st: State, s: Surface, vk: nat): State {
    if HdrSpace(vk).Some? then st.(swapchain := st.swapchain[s := Entry(st, s).(space := HdrSpace(vk))])
    else if vk == VK_SRGB_NONLINEAR then st.(swapchain := st.swapchain - {s})
    else st
  }

  function ApplyMetadata(st: State, s: Surface, m: Mastering): State {
    if m.IsPlausible() then st.(swapchain := st.swapchain[s := Entry(st, s).(metadata := Some(m))]) else st
  }

  /** A new override surface evicts the swapchain state of the one it replaces. */
  function ApplyOverride(st: State, s: Surface): State {
    var evicted := if st.overrideSurface.Some? && st.overrideSurface.value != s then {st.overrideSurface.value} else {};
    st.(swapchain := st.swapchain - evicted, overrideSurface := Some(s))
  }

  function Step(st: State, r: Request): State {
    match r
    case Declare(s, desc) => st.(pending := st.pending[s := desc])
    case Commit(s) => ApplyCommit(st, s)
    case Feedback(s, vk) => ApplyFeedback(st, s, vk)
    case Metadata(s, m) => ApplyMetadata(st, s, m)
    case CreateSwapchain(s) => st.(swapchain := st.swapchain - {s})
    case Override(s) => ApplyOverride(st, s)
    case DropOverride => st.(overrideSurface := None)
    case Destroy(s) => st.(pending := st.pending - {s}, current := st.current - {s}, swapchain := st.swapchain - {s})
  }

  function Run(log: seq<Request>): State {
    if log == [] then Initial() else Step(Run(log[..|log| - 1]), log[|log| - 1])
  }

  // ---------- Reading the log ----------

  /** The override surface: that of the last override request not dropped since. */
  function LoggedOverride(log: seq<Request>): Option<Surface> {
    if log == [] then None
    else
      match log[|log| - 1]
      case Override(s) => Some(s)
      case DropOverride => None
      case _ => LoggedOverride(log[..|log| - 1])
  }

  /** The request ends the surface's current swapchain colours: sRGB feedback, a new swapchain,
      replacement as override surface, or destruction. */
  predicate Evicts(before: seq<Request>, r: Request, s: Surface) {
    || (r.Feedback? && r.s == s && r.vk == VK_SRGB_NONLINEAR)
    || (r.CreateSwapchain? && r.s == s)
    || (r.Override? && r.s != s && LoggedOverride(before) == Some(s))
    || (r.Destroy? && r.s == s)
  }

  function LastEviction(log: seq<Request>, s: Surface): int {
    if log == [] then -1
    else
      var n := |log| - 1;
      if Evicts(log[..n], log[n], s) then n else LastEviction(log[..n], s)
  }

  /** HDR10, or extended sRGB, linear or not. */
  predicate IsHdr(vk: nat) {
    vk == 1000104008 || vk == 1000104002 || vk == 1000104014
  }

  /** The last HDR feedback on the surface. */
  function LastHdrFeedback(log: seq<Request>, s: Surface): int {
    if log == [] then -1
    else
      var n := |log| - 1;
      if log[n].Feedback? && log[n].s == s && IsHdr(log[n].vk) then n else LastHdrFeedback(log[..n], s)
  }

  function LastMetadata(log: seq<Request>, s: Surface): int {
    if log == [] then -1
    else
      var n := |log| - 1;
      if && log[n].Metadata? && log[n].s == s
         && log[n].m.maxCll != 0 && log[n].m.maxFall != 0 && !(log[n].m.whiteX == log[n].m.whiteY == 0)
      then n else LastMetadata(log[..n], s)
  }

  function LastDeclaration(log: seq<Request>, s: Surface): int {
    if log == [] then -1
    else
      var n := |log| - 1;
      if log[n].Declare? && log[n].s == s then n else LastDeclaration(log[..n], s)
  }

  /** The last commit or destruction of the surface: earlier declarations are spent. */
  function LastSpent(log: seq<Request>, s: Surface): int {
    if log == [] then -1
    else
      var n := |log| - 1;
      if (log[n].Commit? || log[n].Destroy?) && log[n].s == s then n else LastSpent(log[..n], s)
  }

  /** The last request that settles the committed description: a commit with a declaration to
      apply, or destruction. */
  function LastSettled(log: seq<Request>, s: Surface): int {
    if log == [] then -1
    else
      var n := |log| - 1;
      if || (log[n].Commit? && log[n].s == s && LastDeclaration(log[..n], s) > LastSpent(log[..n], s))
         || (log[n].Destroy? && log[n].s == s)
      then n else LastSettled(log[..n], s)
  }

  lemma {:induction false} LastsAreInTheLog(log: seq<Request>, s: Surface)
    ensures -1 <= LastEviction(log, s) < |log| && -1 <= LastSpent(log, s) < |log|
    ensures var k := LastHdrFeedback(log, s);
            -1 <= k < |log| && (k >= 0 ==> log[k].Feedback? && HdrSpace(log[k].vk).Some?)
    ensures var k := LastMetadata(log, s); -1 <= k < |log| && (k >= 0 ==> log[k].Metadata?)
    ensures var k := LastDeclaration(log, s); -1 <= k < |log| && (k >= 0 ==> log[k].Declare?)
    ensures var k := LastSettled(log, s);
            -1 <= k < |log|
              && (k >= 0 ==>
                    log[k].Destroy? || (log[k].Commit? && LastDeclaration(log[..k], s) > LastSpent(log[..k], s)))
  {
    if log != [] {
      var n := |log| - 1;
      LastsAreInTheLog(log[..n], s);
      var k := LastSettled(log[..n], s);
      if k >= 0 {
        assert log[..n][..k] == log[..k];
      }
    }
  }

  /** The HDR space the swapchain declared last, unless it was evicted since. */
  function LoggedSpace(log: seq<Request>, s: Surface): Option<Space> {
    LastsAreInTheLog(log, s);
    var k := LastHdrFeedback(log, s);
    if k > LastEviction(log, s) then HdrSpace(log[k].vk) else None
  }

  function LoggedMetadata(log: seq<Request>, s: Surface): Option<Mastering> {
    LastsAreInTheLog(log, s);
    var k := LastMetadata(log, s);
    if k > LastEviction(log, s) then Some(log[k].m) else None
  }

  function LoggedPending(log: seq<Request>, s: Surface): Option<Option<Description>> {
    LastsAreInTheLog(log, s);
    var k := LastDeclaration(log, s);
    if k > LastSpent(log, s) then Some(log[k].desc) else None
  }

  /** The description that was last committed, if the surface was not destroyed since. */
  function LoggedDescription(log: seq<Request>, s: Surface): Option<Description> {
    LastsAreInTheLog(log, s);
    var k := LastSettled(log, s);
    if k < 0 || log[k].Destroy? then None
    else
      LastsAreInTheLog(log[..k], s);
      log[..k][LastDeclaration(log[..k], s)].desc
  }

  // ---------- The state refines its log ----------

  function Lookup(m: map<Surface, Description>, s: Surface): Option<Description> {
    if s in m then Some(m[s]) else None
  }

  lemma {:induction false} OverrideRefinesLog(log: seq<Request>)
    ensures Run(log).overrideSurface == LoggedOverride(log)
  {
    if log != [] {
      OverrideRefinesLog(log[..|log| - 1]);
    }
  }

  /** What one more request does to the logged swapchain colours. */
  lemma LoggedColorsStep(log: seq<Request>, s: Surface)
    requires log != []
    ensures var n := |log| - 1;
            var r := log[n];
            var hdr, evicts := r.Feedback? && r.s == s && HdrSpace(r.vk).Some?, Evicts(log[..n], r, s);
            var meta := r.Metadata? && r.s == s && r.m.IsPlausible();
            && LoggedSpace(log, s) ==
                 (if hdr then HdrSpace(r.vk) else if evicts then None else LoggedSpace(log[..n], s))
            && LoggedMetadata(log, s) ==
                 (if meta then Some(r.m) else if evicts then None else LoggedMetadata(log[..n], s))
  {
    LastsAreInTheLog(log[..|log| - 1], s);
  }

  lemma {:induction false} SwapchainRefinesLog(log: seq<Request>, s: Surface)
    ensures Entry(Run(log), s) == SwapchainColor(LoggedSpace(log, s), LoggedMetadata(log, s))
  {
    if log != [] {
      SwapchainRefinesLog(log[..|log| - 1], s);
      OverrideRefinesLog(log[..|log| - 1]);
      LoggedColorsStep(log, s);
    }
  }

  /** What one more request does to the logged declaration and description. */
  lemma LoggedDeclarationStep(log: seq<Request>, s: Surface)
    requires log != []
    ensures var n := |log| - 1;
            var r := log[n];
            LoggedPending(log, s) ==
              if r.Declare? && r.s == s then Some(r.desc)
              else if (r.Commit? || r.Destroy?) && r.s == s then None
              else LoggedPending(log[..n], s)
  {
    LastsAreInTheLog(log[..|log| - 1], s);
  }

  lemma LoggedDescriptionStep(log: seq<Request>, s: Surface)
    requires log != []
    ensures var n := |log| - 1;
            var r := log[n];
            LoggedDescription(log, s) ==
              if r.Destroy? && r.s == s then None
              else if r.Commit? && r.s == s && LoggedPending(log[..n], s).Some? then LoggedPending(log[..n], s).value
              else LoggedDescription(log[..n], s)
  {
    var n := |log| - 1;
    LastsAreInTheLog(log[..n], s);
    var k := LastSettled(log[..n], s);
    if k >= 0 {
      assert log[..n][..k] == log[..k];
    }
  }

  lemma {:induction false} PendingRefinesLog(log: seq<Request>, s: Surface)
    ensures (if s in Run(log).pending then Some(Run(log).pending[s]) else None) == LoggedPending(log, s)
  {
    if log != [] {
      PendingRefinesLog(log[..|log| - 1], s);
      LoggedDeclarationStep(log, s);
    }
  }

  lemma {:induction false} CurrentRefinesLog(log: seq<Request>, s: Surface)
    ensures Lookup(Run(log).current, s) == LoggedDescription(log, s)
  {
    if log != [] {
      CurrentRefinesLog(log[..|log| - 1], s);
      PendingRefinesLog(log[..|log| - 1], s);
      LoggedDescriptionStep(log, s);
    }
  }

  // ---------- The frame's colour space ----------

  /** Some surface, by either protocol, has a description with this frame colour space. */
  ghost predicate Shows(st: State, c: FrameColorSpace) {
    || (exists s :: s in st.swapchain && Describes(ToImageDescription(st.swapchain[s]), c))
    || (exists s :: s in st.current && ToFrameColorSpace(st.current[s].space) == c)
  }

  predicate Describes(d: Option<Description>, c: FrameColorSpace) {
    d.Some? && ToFrameColorSpace(d.value.space) == c
  }

  ghost function FrameSpace(st: State): FrameColorSpace {
    if Shows(st, FrameBt2020Pq) then FrameBt2020Pq
    else if Shows(st, FrameScrgbLinear) then FrameScrgbLinear
    else FrameSrgb
  }

  /** Some surface's logged space or description has this frame colour space. */
  ghost predicate LogShows(log: seq<Request>, c: FrameColorSpace) {
    exists s: Surface ::
      || (LoggedSpace(log, s).Some? && ToFrameColorSpace(LoggedSpace(log, s).value) == c)
      || (LoggedDescription(log, s).Some? && ToFrameColorSpace(LoggedDescription(log, s).value.space) == c)
  }

  lemma ShowsRefinesLog(log: seq<Request>, c: FrameColorSpace)
    ensures Shows(Run(log), c) <==> LogShows(log, c)
  {
    var st := Run(log);
    if Shows(st, c) {
      var s :| (s in st.swapchain && Describes(ToImageDescription(st.swapchain[s]), c))
            || (s in st.current && ToFrameColorSpace(st.current[s].space) == c);
      SwapchainRefinesLog(log, s);
      CurrentRefinesLog(log, s);
    }
    if LogShows(log, c) {
      var s: Surface :|
        || (LoggedSpace(log, s).Some? && ToFrameColorSpace(LoggedSpace(log, s).value) == c)
        || (LoggedDescription(log, s).Some? && ToFrameColorSpace(LoggedDescription(log, s).value.space) == c);
      SwapchainRefinesLog(log, s);
      CurrentRefinesLog(log, s);
    }
  }

  /** After any run the frame is BT.2020 PQ if any surface's logged colours are, else scRGB if
      any are, else sRGB. */
  lemma FrameSpaceRefinesLog(log: seq<Request>)
    ensures FrameSpace(Run(log)) ==
            if LogShows(log, FrameBt2020Pq) then FrameBt2020Pq
            else if LogShows(log, FrameScrgbLinear) then FrameScrgbLinear
            else FrameSrgb
  {
    ShowsRefinesLog(log, FrameBt2020Pq);
    ShowsRefinesLog(log, FrameScrgbLinear);
  }

  /** The last swapchain colour space of the surface that counts, by its Vulkan number. */
  ghost predicate Declared(log: seq<Request>, s: Surface, vk: nat) {
    LastsAreInTheLog(log, s);
    var k := LastHdrFeedback(log, s);
    k > LastEviction(log, s) && log[k].vk == vk
  }

  /** The same in the protocols' own numbers. The frame is BT.2020 PQ exactly when some surface last
      declared HDR10, or committed PQ with BT.2020 primaries; failing that it is linear scRGB
      exactly when some surface last declared an extended sRGB space, or committed linear scRGB with
      sRGB primaries; and sRGB otherwise. */
  lemma FrameSpaceByNumbers(log: seq<Request>)
    ensures FrameSpace(Run(log)) == FrameBt2020Pq <==>
            exists s: Surface ::
              || Declared(log, s, 1000104008)
              || (LoggedDescription(log, s).Some? &&
                  LoggedDescription(log, s).value.space == Space(St2084Pq, Bt2020))
    ensures FrameSpace(Run(log)) != FrameSrgb <==>
            exists s: Surface ::
              || Declared(log, s, 1000104008) || Declared(log, s, 1000104002) || Declared(log, s, 1000104014)
              || (LoggedDescription(log, s).Some? &&
                  LoggedDescription(log, s).value.space in {Space(St2084Pq, Bt2020), Space(LinearScrgb, Srgb)})
  {
    FrameSpaceRefinesLog(log);
    forall s: Surface ensures LoggedSpace(log, s) ==
              if Declared(log, s, 1000104008) then Some(Space(St2084Pq, Bt2020))
              else if Declared(log, s, 1000104002) || Declared(log, s, 1000104014) then Some(Space(LinearScrgb, Srgb))
              else None {
      LastsAreInTheLog(log, s);
    }
  }

  /** The description the swapchain protocol gives a surface: its last HDR space with its last
      plausible metadata, and none without a space. */
  lemma SwapchainDescriptionRefinesLog(log: seq<Request>, s: Surface)
    ensures ToImageDescription(Entry(Run(log), s)) ==
            if LoggedSpace(log, s).None? then None
            else Some(Description(LoggedSpace(log, s).value, LoggedMetadata(log, s)))
  {
    SwapchainRefinesLog(log, s);
  }

  /** Metadata never changes the colour space of a frame. */
  lemma MetadataNeverChangesFrameSpace(st: State, s: Surface, m: Mastering)
    ensures FrameSpace(Step(st, Metadata(s, m))) == FrameSpace(st)
  {
    var t := Step(st, Metadata(s, m));
    forall c ensures Shows(t, c) <==> Shows(st, c) {
      assert forall x :: x in st.swapchain ==> x in t.swapchain && t.swapchain[x].space == st.swapchain[x].space;
      assert forall x :: x in t.swapchain && t.swapchain[x].space.Some? ==>
          x in st.swapchain && st.swapchain[x].space == t.swapchain[x].space;
    }
  }

  /** Metadata and feedback may arrive in either order, exactly unless the feedback takes the
      same surface back to sRGB, which discards the metadata that came first. */
  lemma MetadataCommutesIffNotReset(st: State, s: Surface, m: Mastering, t: Surface, vk: nat)
    requires m.IsPlausible()
    ensures Step(Step(st, Metadata(s, m)), Feedback(t, vk)) == Step(Step(st, Feedback(t, vk)), Metadata(s, m))
            <==> !(s == t && vk == VK_SRGB_NONLINEAR)
  {
    var a := Step(Step(st, Metadata(s, m)), Feedback(t, vk));
    var b := Step(Step(st, Feedback(t, vk)), Metadata(s, m));
    if s == t && vk == VK_SRGB_NONLINEAR {
      assert s !in a.swapchain && s in b.swapchain;
    } else if s != t {
      DistinctEntriesCommute(st, s, m, t, vk);
    }
  }

  lemma DistinctEntriesCommute(st: State, s: Surface, m: Mastering, t: Surface, vk: nat)
    requires m.IsPlausible() && s != t
    ensures ApplyFeedback(ApplyMetadata(st, s, m), t, vk) == ApplyMetadata(ApplyFeedback(st, t, vk), s, m)
  {
    assert ApplyFeedback(ApplyMetadata(st, s, m), t, vk).swapchain ==
        ApplyMetadata(ApplyFeedback(st, t, vk), s, m).swapchain;
  }

  // ---------- The colour-management state, updated in place ----------

  class ColorManagement {
    var pending: map<Surface, Option<Description>>
    var current: map<Surface, Description>
    var gamescopeCurrent: map<Surface, SwapchainColor>
    var overrideSurface: Option<Surface>

    ghost function View(): State
      reads this
    {
      State(pending, current, gamescopeCurrent, overrideSurface)
    }

    constructor ()
      ensures View() == Initial()
    {
      pending, current, gamescopeCurrent, overrideSurface := map[], map[], map[], None;
    }

    method SetPending(s: Surface, desc: Option<Description>)
      modifies this`pending
      ensures View() == Step(old(View()), Declare(s, desc))
    {
      pending := pending[s := desc];
    }

    method CommitSurface(s: Surface)
      modifies this`pending, this`current
      ensures View() == Step(old(View()), Commit(s))
    {
      if s in pending {
        var p := pending[s];
        pending := pending - {s};
        if p.Some? {
          current := current[s := p.value];
        } else {
          current := current - {s};
        }
      }
    }

    method SwapchainFeedback(s: Surface, vk: nat)
      modifies this`gamescopeCurrent
      ensures View() == Step(old(View()), Feedback(s, vk))
    {
      if vk == VK_HDR10_ST2084 {
        SetGamescopeColorspace(s, Space(St2084Pq, Bt2020));
      } else if vk == VK_EXTENDED_SRGB_LINEAR || vk == VK_EXTENDED_SRGB_NONLINEAR {
        SetGamescopeColorspace(s, Space(LinearScrgb, Srgb));
      } else if vk == VK_SRGB_NONLINEAR {
        ClearGamescopeCurrent(s);
      }
    }

    method SetGamescopeColorspace(s: Surface, space: Space)
      modifies this`gamescopeCurrent
      ensures gamescopeCurrent == old(gamescopeCurrent)[s := Entry(old(View()), s).(space := Some(space))]
    {
      var entry := if s in gamescopeCurrent then gamescopeCurrent[s] else SwapchainColor(None, None);
      gamescopeCurrent := gamescopeCurrent[s := entry.(space := Some(space))];
    }

    method SetGamescopeHdrMetadata(s: Surface, m: Mastering)
      modifies this`gamescopeCurrent
      ensures View() == Step(old(View()), Metadata(s, m))
    {
      if m.IsPlausible() {
        var entry := if s in gamescopeCurrent then gamescopeCurrent[s] else SwapchainColor(None, None);
        gamescopeCurrent := gamescopeCurrent[s := entry.(metadata := Some(m))];
      }
    }

    method ClearGamescopeCurrent(s: Surface)
      modifies this`gamescopeCurrent
      ensures View() == Step(old(View()), CreateSwapchain(s))
    {
      gamescopeCurrent := gamescopeCurrent - {s};
    }

    method OverrideWindowSurface(s: Surface)
      modifies this`gamescopeCurrent, this`overrideSurface
      ensures View() == Step(old(View()), Override(s))
    {
      if overrideSurface.Some? && overrideSurface.value != s {
        gamescopeCurrent := gamescopeCurrent - {overrideSurface.value};
      }
      overrideSurface := Some(s);
      assert gamescopeCurrent - {} == gamescopeCurrent;
    }

    method SurfaceDestroyed(s: Surface)
      modifies this`pending, this`current, this`gamescopeCurrent
      ensures View() == Step(old(View()), Destroy(s))
    {
      pending, current, gamescopeCurrent := pending - {s}, current - {s}, gamescopeCurrent - {s};
    }

    /** The first value whose colour space passes the test, in any iteration order. */
    method FindSpace(wanted: FrameColorSpace -> bool) returns (r: Option<FrameColorSpace>)
      ensures r.Some? ==> wanted(r.value) && Shows(View(), r.value)
      ensures r.None? ==> forall c :: Shows(View(), c) ==> !wanted(c)
    {
      var left := gamescopeCurrent.Keys;
      while left != {}
        invariant left <= gamescopeCurrent.Keys
        invariant forall s, c :: s in gamescopeCurrent && s !in left && wanted(c) ==>
                    !Describes(ToImageDescription(gamescopeCurrent[s]), c)
        decreases |left|
      {
        var s :| s in left;
        var desc := ToImageDescription(gamescopeCurrent[s]);
        if desc.Some? && wanted(ToFrameColorSpace(desc.value.space)) {
          return Some(ToFrameColorSpace(desc.value.space));
        }
        left := left - {s};
      }
      var rest := current.Keys;
      while rest != {}
        invariant rest <= current.Keys
        invariant forall s :: s in current && s !in rest ==> !wanted(ToFrameColorSpace(current[s].space))
        decreases |rest|
      {
        var s :| s in rest;
        if wanted(ToFrameColorSpace(current[s].space)) {
          return Some(ToFrameColorSpace(current[s].space));
        }
        rest := rest - {s};
      }
      return None;
    }

    /** `frame_color_space`: two passes over unordered maps, with one possible answer. */
    method GetFrameColorSpace() returns (r: FrameColorSpace)
      ensures r == FrameSpace(View())
    {
      var pq := FindSpace(c => c == FrameBt2020Pq);
      if pq.Some? {
        return FrameBt2020Pq;
      }
      var hdr := FindSpace(c => c != FrameSrgb);
      return if hdr.Some? then hdr.value else FrameSrgb;
    }
  }
}
