/** The DMA segment chaining shared by both firmware mains: an arm step issues the first
    read of a window, and each completion interrupt (pdm_pcm_isr_handler) counts one segment
    and either chains the next read or raises the ready flag.  The two mains differ only in
    FRAME_SIZE, so the frame size is a parameter here. */
module WindowAssembler {
  import opened Hal

  /** NUM_DMA_TRANSFERS: segments per window. */
  const SEGMENTS: nat := 16

  /** The capture globals of a firmware main (dma_transfer_count, current_audio_offset,
      pdm_pcm_flag), the log of read requests issued so far, and `pending`: how many issued
      requests have not yet delivered their completion interrupt.  `pending` is state of
      the PDM/PCM peripheral, not a firmware variable. */
  datatype Window = Window(count: nat, offset: nat, ready: bool, requests: seq<Read>, pending: nat)

  /** Arm: offset and counter back to 0, first read of `frame` samples at offset 0.
      The ready flag is not touched. */
  function Arm(w: Window, frame: nat): Window
  {
    Window(0, 0, w.ready, w.requests + [Read(0, frame)], w.pending + 1)
  }

  /** pdm_pcm_isr_handler: the 32-bit counter is incremented; at SEGMENTS or more the ready
      flag is raised, otherwise the next read is issued at count * frame. */
  function Complete(w: Window, frame: nat): Window
  {
    var count := (w.count + 1) % U32_MOD;
    var pending := if w.pending == 0 then 0 else w.pending - 1;
    if count >= SEGMENTS then
      w.(count := count, ready := true, pending := pending)
    else
      w.(count := count, offset := count * frame,
         requests := w.requests + [Read(count * frame, frame)], pending := pending + 1)
  }

  /** k completion interrupts in a row. */
  function Completions(w: Window, frame: nat, k: nat): Window
  {
    if k == 0 then w else Complete(Completions(w, frame, k - 1), frame)
  }

  /** The first n segments of a window: request i covers [i * frame, (i + 1) * frame). */
  function Tiles(n: nat, frame: nat): (t: seq<Read>)
    ensures |t| == n
  {
    if n == 0 then [] else Tiles(n - 1, frame) + [Read((n - 1) * frame, frame)]
  }

  /** One completion: the counter goes up by exactly one (short of 32-bit wrap-around);
      at SEGMENTS or more it raises the flag and issues nothing, otherwise it issues
      exactly one read of `frame` samples at count * frame. */
  lemma CompleteDispatch(w: Window, frame: nat)
    requires w.count + 1 < U32_MOD
    ensures Complete(w, frame).count == w.count + 1
    ensures w.count + 1 >= SEGMENTS ==>
              Complete(w, frame).ready && Complete(w, frame).requests == w.requests
    ensures w.count + 1 < SEGMENTS ==>
              Complete(w, frame).ready == w.ready &&
              Complete(w, frame).offset == (w.count + 1) * frame &&
              Complete(w, frame).requests == w.requests + [Read((w.count + 1) * frame, frame)]
  {
  }

  /** Completions never lower the ready flag and never drop a logged request. */
  lemma CompleteMonotone(w: Window, frame: nat)
    ensures w.ready ==> Complete(w, frame).ready
    ensures w.requests <= Complete(w, frame).requests
  {
  }

  /** After an arm and k < SEGMENTS completions the counter is k, the last read was at
      k * frame, this cycle has not touched the ready flag, the cycle's requests are the
      first k + 1 tiles, and one read is still outstanding beyond those pending before. */
  lemma {:induction false} Filling(w: Window, frame: nat, k: nat)
    requires k < SEGMENTS
    ensures Completions(Arm(w, frame), frame, k) ==
            Window(k, k * frame, w.ready, w.requests + Tiles(k + 1, frame), w.pending + 1)
  {
    if k > 0 {
      Filling(w, frame, k - 1);
      var v := Completions(Arm(w, frame), frame, k - 1);
      var x := Read(k * frame, frame);
      assert v.count + 1 == k;
      ChainStep(v, frame);
      assert Tiles(k + 1, frame) == Tiles(k, frame) + [x];
      assert (w.requests + Tiles(k, frame)) + [x] == w.requests + Tiles(k + 1, frame);
    }
  }

  /** A completion short of SEGMENTS with a read outstanding chains exactly one read at the
      new count and keeps one read outstanding. */
  lemma ChainStep(v: Window, frame: nat)
    requires v.count + 1 < SEGMENTS && v.pending > 0
    ensures Complete(v, frame) ==
            v.(count := v.count + 1, offset := (v.count + 1) * frame,
               requests := v.requests + [Read((v.count + 1) * frame, frame)])
  {
    assert (v.count + 1) % U32_MOD == v.count + 1;
  }

  /** The SEGMENTS-th completion after an arm raises the ready flag; by then the cycle issued
      exactly the SEGMENTS tiles and nothing of its own is outstanding. */
  lemma Filled(w: Window, frame: nat)
    ensures Completions(Arm(w, frame), frame, SEGMENTS) ==
            Window(SEGMENTS, (SEGMENTS - 1) * frame, true, w.requests + Tiles(SEGMENTS, frame),
                   w.pending)
  {
    Filling(w, frame, SEGMENTS - 1);
  }

  /** Completions that arrive once the counter has reached SEGMENTS (possible only when
      more than one read was outstanding) raise the flag, or keep it raised, whether or not
      the main loop has lowered it meanwhile, and issue nothing. */
  lemma {:induction false} CompletionsAfterFull(w: Window, frame: nat, j: nat)
    requires w.count >= SEGMENTS
    requires w.count + j < U32_MOD
    ensures j > 0 || w.ready ==> Completions(w, frame, j).ready
    ensures Completions(w, frame, j).count == w.count + j
    ensures Completions(w, frame, j).requests == w.requests
  {
    if j > 0 {
      CompletionsAfterFull(w, frame, j - 1);
      var v := Completions(w, frame, j - 1);
      assert (v.count + 1) % U32_MOD == v.count + 1;
    }
  }

  /** Request i of the tiling starts at i * frame and has length frame. */
  lemma {:induction false} TileAt(n: nat, frame: nat, i: nat)
    requires i < n
    ensures Tiles(n, frame)[i] == Read(i * frame, frame)
  {
    if i < n - 1 {
      TileAt(n - 1, frame, i);
    }
  }

  /** The tiles are contiguous: the first starts at 0, each starts where the previous one
      ends, and the last ends at n * frame. */
  lemma Contiguous(n: nat, frame: nat)
    requires n > 0
    ensures Tiles(n, frame)[0].offset == 0
    ensures forall i :: 0 <= i < n - 1 ==>
              Tiles(n, frame)[i].offset + Tiles(n, frame)[i].length == Tiles(n, frame)[i + 1].offset
    ensures Tiles(n, frame)[n - 1].offset + Tiles(n, frame)[n - 1].length == n * frame
  {
    TileAt(n, frame, 0);
    TileAt(n, frame, n - 1);
    forall i | 0 <= i < n - 1
      ensures Tiles(n, frame)[i].offset + Tiles(n, frame)[i].length == Tiles(n, frame)[i + 1].offset
    {
      TileAt(n, frame, i);
      TileAt(n, frame, i + 1);
    }
  }

  lemma MulMonotone(a: nat, b: nat, c: nat)
    requires a <= b
    ensures a * c <= b * c
  {
  }

  /** Tile j covers exactly the samples [j * frame, (j + 1) * frame). */
  lemma CoversTile(n: nat, frame: nat, j: nat, x: int)
    requires j < n
    ensures Covers(Tiles(n, frame)[j], x) <==> j * frame <= x < (j + 1) * frame
  {
    TileAt(n, frame, j);
  }

  /** The tiles partition [0, n * frame): some tile writes sample x ... */
  lemma {:induction false} Covered(n: nat, frame: nat, x: nat)
    requires x < n * frame
    ensures exists j :: 0 <= j < n && Covers(Tiles(n, frame)[j], x)
  {
    if x < (n - 1) * frame {
      Covered(n - 1, frame, x);
      var j :| 0 <= j < n - 1 && Covers(Tiles(n - 1, frame)[j], x);
      assert Tiles(n, frame)[j] == Tiles(n - 1, frame)[j];
    } else {
      CoversTile(n, frame, n - 1, x);
    }
  }

  /** ... and no two tiles write the same sample. */
  lemma Disjoint(n: nat, frame: nat, j: nat, k: nat, x: int)
    requires j < n && k < n
    requires Covers(Tiles(n, frame)[j], x) && Covers(Tiles(n, frame)[k], x)
    ensures j == k
  {
    CoversTile(n, frame, j, x);
    CoversTile(n, frame, k, x);
    if j < k {
      MulMonotone(j + 1, k, frame);
    } else if k < j {
      MulMonotone(k + 1, j, frame);
    }
  }

  /** A cycle of n requests stays inside a buffer of `total` samples exactly when
      n * frame <= total. */
  lemma InBounds(n: nat, frame: nat, total: nat)
    requires n > 0
    ensures AllInBounds(Tiles(n, frame), total) <==> n * frame <= total
  {
    if n * frame <= total {
      forall i | 0 <= i < n
        ensures Tiles(n, frame)[i].offset + Tiles(n, frame)[i].length <= total
      {
        TileAt(n, frame, i);
        MulMonotone(i + 1, n, frame);
      }
    }
    if AllInBounds(Tiles(n, frame), total) {
      TileAt(n, frame, n - 1);
    }
  }

  /** Every logged request is one of the SEGMENTS tiles of a window. */
  predicate TileRequests(requests: seq<Read>, frame: nat)
  {
    forall k :: 0 <= k < |requests| ==> requests[k] in Tiles(SEGMENTS, frame)
  }

  /** Arming logs tile 0, so it keeps every logged request a tile. */
  lemma ArmKeepsTiles(w: Window, frame: nat)
    requires TileRequests(w.requests, frame)
    ensures TileRequests(Arm(w, frame).requests, frame)
  {
    TileAt(SEGMENTS, frame, 0);
    assert Arm(w, frame).requests[|w.requests|] == Tiles(SEGMENTS, frame)[0];
  }

  /** A completion logs a read only while the 32-bit counter stays below SEGMENTS, and that
      read is the tile at the counter, so every logged request stays a tile. */
  lemma CompleteKeepsTiles(w: Window, frame: nat)
    requires TileRequests(w.requests, frame)
    ensures TileRequests(Complete(w, frame).requests, frame)
  {
    var count := (w.count + 1) % U32_MOD;
    if count < SEGMENTS {
      TileAt(SEGMENTS, frame, count);
      assert Complete(w, frame).requests[|w.requests|] == Tiles(SEGMENTS, frame)[count];
    }
  }

  /** Requests that are all tiles fit into a buffer of SEGMENTS * frame samples or more. */
  lemma TilesInBounds(requests: seq<Read>, frame: nat, total: nat)
    requires TileRequests(requests, frame) && SEGMENTS * frame <= total
    ensures AllInBounds(requests, total)
  {
    InBounds(SEGMENTS, frame, total);
    forall k | 0 <= k < |requests|
      ensures requests[k].offset + requests[k].length <= total
    {
      var t := Tiles(SEGMENTS, frame);
      var j :| 0 <= j < |t| && t[j] == requests[k];
    }
  }
}
