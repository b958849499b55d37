/** The compositor's half of the frame relay as the object that updates its pool, cursor,
    counters, held list and index map in place. Each method is tied to the step function of
    module `FrameRelay` that the run properties are proved about. */
module CompositorRelay {
  import opened Common
  import opened FrameRelay

  class Compositor {
    var pool: array<Slot>
    var nextBufferIndex: nat
    var renderCount: nat
    var heldScanoutBuffers: seq<Held>
    var scanoutBufferMap: map<BufferId, nat>
    var scanoutNextIndex: nat
    /** The sending end of the bounded channel. */
    var queue: seq<Frame>
    var connected: bool
    /** The flags shared with the encoder, one per scanout frame. */
    var flags: seq<bool>
    /** The scenes the damage tracker was given. */
    var trackerLog: seq<Image>
    /** What the memory of slots shows whose work the GPU may not have done. */
    var unfinished: map<nat, Image>

    ghost var encoder: seq<Frame>
    ghost var leaked: set<nat>
    ghost var issued: map<nat, BufferId>

    ghost function View(): (s: State)
      reads this, pool
    {
      State(pool[..], nextBufferIndex, renderCount, trackerLog, unfinished, queue, encoder, connected,
            flags, heldScanoutBuffers, scanoutBufferMap, scanoutNextIndex, leaked, issued)
    }

    ghost predicate Valid()
      reads this, pool
    {
      pool.Length == POOL_SIZE && Shape(View())
    }

    constructor ()
      ensures Valid() && fresh(pool) && View() == Initial()
    {
      pool := new Slot[POOL_SIZE](_ => Slot(true, None, []));
      nextBufferIndex, renderCount, trackerLog := 0, 0, [];
      heldScanoutBuffers, scanoutBufferMap, scanoutNextIndex := [], map[], POOL_SIZE;
      queue, connected, flags, unfinished := [], true, [], map[];
      encoder, leaked, issued := [], {}, map[];
      new;
      assert pool[..] == Initial().slots;
    }

    method ReleaseScanoutBuffers()
      requires Valid()
      modifies this`heldScanoutBuffers, this`scanoutBufferMap
      ensures Valid() && View() == Reclaim(old(View()))
    {
      var kept: seq<Held> := [];
      var names := scanoutBufferMap;
      var i := 0;
      while i < |heldScanoutBuffers|
        invariant 0 <= i <= |heldScanoutBuffers|
        invariant heldScanoutBuffers == old(heldScanoutBuffers) && scanoutBufferMap == old(scanoutBufferMap)
        invariant kept == StillHeld(heldScanoutBuffers[..i], flags)
        invariant names == scanoutBufferMap - Released(heldScanoutBuffers[..i], flags)
      {
        var h := heldScanoutBuffers[i];
        assert heldScanoutBuffers[..i + 1] == heldScanoutBuffers[..i] + [h];
        ReclaimAppend(heldScanoutBuffers[..i], h, flags);
        if IsSet(h, flags) {
          names := names - {h.buffer};
        } else {
          kept := kept + [h];
        }
        i := i + 1;
      }
      assert heldScanoutBuffers[..i] == heldScanoutBuffers;
      heldScanoutBuffers, scanoutBufferMap := kept, names;
    }

    method TryDirectScanout(b: BufferId)
      requires Valid()
      modifies this`scanoutBufferMap, this`scanoutNextIndex, this`issued, this`flags, this`heldScanoutBuffers,
               this`queue
      ensures Valid() && View() == DirectScanout(old(View()), b)
    {
      if b !in scanoutBufferMap {
        scanoutBufferMap := scanoutBufferMap[b := scanoutNextIndex];
        issued := issued[scanoutNextIndex := b];
        scanoutNextIndex := scanoutNextIndex + 1;
      }
      var index := scanoutBufferMap[b];
      var flag := |flags|;
      flags := flags + [false];
      heldScanoutBuffers := heldScanoutBuffers + [Held(flag, b)];
      if connected {
        if |queue| >= CHANNEL_CAPACITY {
          flags := flags[flag := true];
        } else {
          queue := queue + [Scanout(index, b, flag)];
        }
      }
    }

    method SendPoolFrame(idx: nat, scene: Image)
      requires Valid() && idx < POOL_SIZE
      modifies this`queue, this`leaked, pool
      ensures Valid() && View() == SendPool(old(View()), idx, scene)
    {
      if !connected {
        leaked := leaked + {idx};
      } else if |queue| >= CHANNEL_CAPACITY {
        pool[idx] := pool[idx].(consumed := true);
      } else {
        queue := queue + [Pool(idx, scene)];
      }
    }

    /** The bookkeeping after `render_output`. */
    method StampSlot(idx: nat, content: Image, advanced: bool, scene: Image)
      requires Valid() && idx < POOL_SIZE
      modifies this`renderCount, this`trackerLog, pool
      ensures Valid()
      ensures View() ==
              Stamp(old(View()), idx, content, if advanced then old(trackerLog) + [scene] else old(trackerLog))
    {
      pool[idx] := pool[idx].(last := Some(renderCount), content := content);
      renderCount := renderCount + 1;
      if advanced {
        trackerLog := trackerLog + [scene];
      }
    }

    /** A successful `render_output` with the age of the slot. */
    method PaintSlot(idx: nat, scene: Image, extra: set<nat>)
      requires Valid() && idx < POOL_SIZE
      modifies this`renderCount, this`trackerLog, pool
      ensures Valid() && View() == Paint(old(View()), idx, scene, extra)
    {
      var age := if pool[idx].last.None? then 0 else renderCount - pool[idx].last.value;
      var picture := Repaint(pool[idx].content, scene, Region(trackerLog, age, scene, extra));
      StampSlot(idx, picture, true, scene);
    }

    method RenderInto(idx: nat, scene: Image, outcome: Outcome)
      requires Valid() && idx < POOL_SIZE
      modifies this`queue, this`leaked, this`renderCount, this`trackerLog, this`unfinished, pool
      ensures Valid() && View() == CompositeInto(old(View()), idx, scene, outcome)
    {
      match outcome
      case ExportError =>
        pool[idx] := pool[idx].(consumed := true);
      case BindError =>
        pool[idx] := pool[idx].(consumed := true);
      case CollectError =>
        leaked := leaked + {idx};
      case Painted(extra) =>
        PaintSlot(idx, scene, extra);
        unfinished := map[];
        SendPoolFrame(idx, scene);
      case WaitFailed(extra, partial) =>
        PaintSlot(idx, scene, extra);
        unfinished := unfinished[idx := partial];
        SendPoolFrame(idx, scene);
      case RenderError(garbage, advanced) =>
        StampSlot(idx, garbage, advanced, scene);
        leaked := leaked + {idx};
    }

    method RenderAndExport(call: Call)
      requires Valid()
      modifies this, pool
      ensures Valid() && pool == old(pool) && View() == Tick(old(View()), call)
    {
      if call.Skip? {
        return;
      }
      ReleaseScanoutBuffers();
      if call.Direct? {
        TryDirectScanout(call.buffer);
        return;
      }
      var idx := nextBufferIndex;
      if !pool[idx].consumed {
        return;
      }
      pool[idx] := pool[idx].(consumed := false);
      nextBufferIndex := (idx + 1) % POOL_SIZE;
      assert View() == Take(Reclaim(old(View())));
      RenderInto(idx, call.scene, call.outcome);
    }
  }
}
