/** The capture backend of the recording thread, replaced by a script, and
    what the thread's drain/wait loop collects from that script.

    The thread alternates two steps. It drains: it asks the capture client
    for the size of the next packet and, while that answer is a success and
    positive, takes the packet, appends its frames to the buffer and asks
    again. Then it waits for either the shutdown or the wake-up event and
    goes round again only on a wake-up. A `Pass` scripts one such round: the
    packets ready for the drain, how the last size query ended (a size of 0
    or a failed call), and what the wait returned. */
module Capture {
  import opened Bytes

  /** A packet as GetBuffer hands it out: its frame count and the bytes of
      the buffer it points at. */
  datatype Packet = Packet(frames: Dword, buffer: seq<Byte>)

  /** How the size query that ends a drain answered. */
  datatype DrainEnd = NoMorePackets | QueryFailed

  /** The answer to one GetNextPacketSize call. */
  datatype PacketSize = Size(frames: Dword) | SizeFailed

  /** WaitForMultipleObjects on {shutdown, wake-up}: the first event, the
      second, or anything else (a failed or abandoned wait). */
  datatype WaitResult = Shutdown | WakeUp | OtherWait

  /** One round of the capture loop: the drain, then the wait. */
  datatype Pass = Pass(ready: seq<Packet>, end: DrainEnd, wait: WaitResult)

  /** A packet the backend can announce with a positive size, whose buffer
      holds its frames and whose byte count fits the LONG it is computed in. */
  predicate WellFormedPacket(p: Packet, blockAlign: nat) {
    && p.frames > 0
    && p.frames * blockAlign <= |p.buffer|
    && p.frames * blockAlign < 0x8000_0000
  }

  predicate WellFormedDrain(pass: Pass, blockAlign: nat) {
    forall j :: 0 <= j < |pass.ready| ==> WellFormedPacket(pass.ready[j], blockAlign)
  }

  predicate WellFormedScript(script: seq<Pass>, blockAlign: nat) {
    forall i, j :: 0 <= i < |script| && 0 <= j < |script[i].ready| ==>
      WellFormedPacket(script[i].ready[j], blockAlign)
  }

  /** Some wait in the script ends the loop; without one the thread would
      wait forever. */
  predicate Ends(script: seq<Pass>) {
    exists i :: 0 <= i < |script| && script[i].wait != WakeUp
  }

  /** The answer of the `j`-th size query of a drain: the size of the `j`-th
      ready packet, then 0 or a failure. */
  function NextPacketSize(pass: Pass, j: nat): (r: PacketSize)
    ensures j < |pass.ready| ==> r == Size(pass.ready[j].frames)
    ensures j >= |pass.ready| ==> r.SizeFailed? || r.frames == 0
  {
    if j < |pass.ready| then Size(pass.ready[j].frames)
    else if pass.end == NoMorePackets then Size(0)
    else SizeFailed
  }

  /** The bytes the thread copies out of a packet: `frames * blockAlign`
      bytes from the start of its buffer. */
  function PacketBytes(p: Packet, blockAlign: nat): (r: seq<Byte>)
    requires p.frames * blockAlign <= |p.buffer|
    ensures |r| == p.frames * blockAlign
    ensures r <= p.buffer
  {
    p.buffer[..p.frames * blockAlign]
  }

  predicate PacketsFit(ps: seq<Packet>, blockAlign: nat) {
    forall j :: 0 <= j < |ps| ==> ps[j].frames * blockAlign <= |ps[j].buffer|
  }

  /** The bytes a drain of the packets `ps` appends, in arrival order. */
  function DrainBytes(ps: seq<Packet>, blockAlign: nat): seq<Byte>
    requires PacketsFit(ps, blockAlign)
  {
    if ps == [] then []
    else DrainBytes(ps[..|ps| - 1], blockAlign) + PacketBytes(ps[|ps| - 1], blockAlign)
  }

  /** The frames a drain of the packets `ps` counts. */
  function DrainFrames(ps: seq<Packet>): nat {
    if ps == [] then 0 else DrainFrames(ps[..|ps| - 1]) + ps[|ps| - 1].frames
  }

  predicate PassesFit(passes: seq<Pass>, blockAlign: nat) {
    forall i :: 0 <= i < |passes| ==> PacketsFit(passes[i].ready, blockAlign)
  }

  /** The bytes the drains of `passes` append, pass after pass. */
  function PassesBytes(passes: seq<Pass>, blockAlign: nat): seq<Byte>
    requires PassesFit(passes, blockAlign)
  {
    if passes == [] then []
    else PassesBytes(passes[..|passes| - 1], blockAlign)
           + DrainBytes(passes[|passes| - 1].ready, blockAlign)
  }

  function PassesFrames(passes: seq<Pass>): nat {
    if passes == [] then 0
    else PassesFrames(passes[..|passes| - 1]) + DrainFrames(passes[|passes| - 1].ready)
  }

  /** The index of the pass whose wait ends the loop: the first wait that is
      not a wake-up. */
  function FirstStop(script: seq<Pass>): (k: nat)
    requires Ends(script)
    ensures k < |script| && script[k].wait != WakeUp
    ensures forall i :: 0 <= i < k ==> script[i].wait == WakeUp
  {
    if script[0].wait != WakeUp then 0
    else
      var i :| 0 <= i < |script| && script[i].wait != WakeUp;
      assert script[1..][i - 1] == script[i];
      1 + FirstStop(script[1..])
  }

  /** The passes the thread actually runs: up to and including the first
      that does not end in a wake-up. */
  function Executed(script: seq<Pass>): (r: seq<Pass>)
    requires Ends(script)
    ensures r <= script && r != []
  {
    script[..FirstStop(script) + 1]
  }

  lemma WellFormedFits(script: seq<Pass>, blockAlign: nat, n: nat)
    requires WellFormedScript(script, blockAlign) && n <= |script|
    ensures PassesFit(script[..n], blockAlign)
  {
    forall i | 0 <= i < n ensures PacketsFit(script[..n][i].ready, blockAlign) {
      assert script[..n][i] == script[i];
      forall j | 0 <= j < |script[i].ready|
        ensures script[i].ready[j].frames * blockAlign <= |script[i].ready[j].buffer|
      {
        assert WellFormedPacket(script[i].ready[j], blockAlign);
      }
    }
  }

  /** Everything a capture run over `script` collects, in capture order. */
  function CapturedBytes(script: seq<Pass>, blockAlign: nat): seq<Byte>
    requires Ends(script) && WellFormedScript(script, blockAlign)
  {
    WellFormedFits(script, blockAlign, FirstStop(script) + 1);
    PassesBytes(Executed(script), blockAlign)
  }

  /** The frame count a capture run over `script` ends with. */
  function CapturedFrames(script: seq<Pass>): nat
    requires Ends(script)
  {
    PassesFrames(Executed(script))
  }

  lemma MulDistributes(a: nat, b: nat, c: nat)
    ensures (a + b) * c == a * c + b * c
  {
  }

  /** A drain appends exactly `blockAlign` bytes per frame. */
  lemma {:induction false} DrainSize(ps: seq<Packet>, blockAlign: nat)
    requires PacketsFit(ps, blockAlign)
    ensures |DrainBytes(ps, blockAlign)| == DrainFrames(ps) * blockAlign
  {
    if ps != [] {
      var init := ps[..|ps| - 1];
      assert PacketsFit(init, blockAlign) by {
        forall j | 0 <= j < |init| ensures init[j].frames * blockAlign <= |init[j].buffer| {
          assert init[j] == ps[j];
        }
      }
      DrainSize(init, blockAlign);
      MulDistributes(DrainFrames(init), ps[|ps| - 1].frames, blockAlign);
    }
  }

  lemma PassesFitInit(passes: seq<Pass>, blockAlign: nat, n: nat)
    requires PassesFit(passes, blockAlign) && n <= |passes|
    ensures PassesFit(passes[..n], blockAlign)
  {
    forall i | 0 <= i < n ensures PacketsFit(passes[..n][i].ready, blockAlign) {
      assert passes[..n][i] == passes[i];
    }
  }

  /** Over any number of passes the byte count is the frame count times
      `blockAlign`: the buffer always holds whole frames. */
  lemma {:induction false} PassesSize(passes: seq<Pass>, blockAlign: nat)
    requires PassesFit(passes, blockAlign)
    ensures |PassesBytes(passes, blockAlign)| == PassesFrames(passes) * blockAlign
  {
    if passes != [] {
      var init := passes[..|passes| - 1];
      PassesFitInit(passes, blockAlign, |passes| - 1);
      PassesSize(init, blockAlign);
      DrainSize(passes[|passes| - 1].ready, blockAlign);
      MulDistributes(PassesFrames(init), DrainFrames(passes[|passes| - 1].ready), blockAlign);
    }
  }

  /** The captured buffer holds exactly `blockAlign` bytes per captured frame. */
  lemma CapturedSize(script: seq<Pass>, blockAlign: nat)
    requires Ends(script) && WellFormedScript(script, blockAlign)
    ensures |CapturedBytes(script, blockAlign)| == CapturedFrames(script) * blockAlign
  {
    WellFormedFits(script, blockAlign, FirstStop(script) + 1);
    PassesSize(Executed(script), blockAlign);
  }

  /** Later passes only ever add bytes at the end: the bytes of the first
      `n` passes are a prefix of the bytes of all of them. */
  lemma {:induction false} PassesBytesPrefix(passes: seq<Pass>, blockAlign: nat, n: nat)
    requires PassesFit(passes, blockAlign) && n <= |passes|
    ensures PassesFit(passes[..n], blockAlign)
    ensures PassesBytes(passes[..n], blockAlign) <= PassesBytes(passes, blockAlign)
  {
    PassesFitInit(passes, blockAlign, n);
    if n < |passes| {
      var init := passes[..|passes| - 1];
      PassesFitInit(passes, blockAlign, |passes| - 1);
      assert init[..n] == passes[..n];
      PassesBytesPrefix(init, blockAlign, n);
    } else {
      assert passes[..n] == passes;
    }
  }

  /** Once a wait returns anything but a wake-up, nothing scripted after it
      is drained: the run over `script + later` collects the same bytes and
      frames as the run over `script`. */
  lemma StopIsFinal(script: seq<Pass>, later: seq<Pass>, blockAlign: nat)
    requires Ends(script) && WellFormedScript(script + later, blockAlign)
    ensures Ends(script + later) && WellFormedScript(script, blockAlign)
    ensures CapturedBytes(script + later, blockAlign) == CapturedBytes(script, blockAlign)
    ensures CapturedFrames(script + later) == CapturedFrames(script)
  {
    var k := FirstStop(script);
    var all := script + later;
    assert all[k] == script[k];
    assert WellFormedScript(script, blockAlign) by {
      forall i, j | 0 <= i < |script| && 0 <= j < |script[i].ready|
        ensures WellFormedPacket(script[i].ready[j], blockAlign)
      {
        assert all[i] == script[i];
      }
    }
    assert forall i :: 0 <= i < k ==> all[i] == script[i];
    assert FirstStop(all) == k;
    assert Executed(all) == Executed(script);
  }

  /** Three wake-ups' worth of packets: 10 and 7 frames before the first
      wait, 7 before the second, 3 before the third, which returns shutdown;
      a packet of 5 frames scripted after the shutdown is never drained. */
  function ExampleScript(b10: seq<Byte>, b7: seq<Byte>, b7b: seq<Byte>, b3: seq<Byte>, b5: seq<Byte>)
    : seq<Pass>
  {
    [ Pass([Packet(10, b10), Packet(7, b7)], NoMorePackets, WakeUp),
      Pass([Packet(7, b7b)], QueryFailed, WakeUp),
      Pass([Packet(3, b3)], NoMorePackets, Shutdown),
      Pass([Packet(5, b5)], NoMorePackets, WakeUp) ]
  }

  /** A drain of one packet, and of one more after some others. */
  lemma DrainAppend(ps: seq<Packet>, p: Packet, blockAlign: nat)
    requires PacketsFit(ps + [p], blockAlign)
    ensures PacketsFit(ps, blockAlign)
    ensures DrainFrames(ps + [p]) == DrainFrames(ps) + p.frames
    ensures DrainBytes(ps + [p], blockAlign) == DrainBytes(ps, blockAlign) + PacketBytes(p, blockAlign)
  {
    assert (ps + [p])[..|ps|] == ps;
    assert forall j :: 0 <= j < |ps| ==> ps[j] == (ps + [p])[j];
  }

  lemma ExampleWellFormed(blockAlign: nat, b10: seq<Byte>, b7: seq<Byte>, b7b: seq<Byte>,
                          b3: seq<Byte>, b5: seq<Byte>)
    requires 0 < blockAlign <= 0x100_0000
    requires |b10| == 10 * blockAlign && |b7| == 7 * blockAlign && |b7b| == 7 * blockAlign
    requires |b3| == 3 * blockAlign && |b5| == 5 * blockAlign
    ensures var script := ExampleScript(b10, b7, b7b, b3, b5);
      Ends(script) && FirstStop(script) == 2 && WellFormedScript(script, blockAlign)
  {
    var script := ExampleScript(b10, b7, b7b, b3, b5);
    assert script[2].wait != WakeUp;
    assert FirstStop(script) == 2 by {
      assert script[1..][1..][0] == script[2];
    }
    forall i, j | 0 <= i < |script| && 0 <= j < |script[i].ready|
      ensures WellFormedPacket(script[i].ready[j], blockAlign)
    {
      var p := script[i].ready[j];
      assert p.frames <= 10 && |p.buffer| == p.frames * blockAlign;
    }
  }

  lemma PassesAppend(passes: seq<Pass>, p: Pass, blockAlign: nat)
    requires PassesFit(passes + [p], blockAlign)
    ensures PassesFit(passes, blockAlign) && PacketsFit(p.ready, blockAlign)
    ensures PassesFrames(passes + [p]) == PassesFrames(passes) + DrainFrames(p.ready)
    ensures PassesBytes(passes + [p], blockAlign)
         == PassesBytes(passes, blockAlign) + DrainBytes(p.ready, blockAlign)
  {
    assert (passes + [p])[..|passes|] == passes;
    assert forall i :: 0 <= i < |passes| ==> passes[i] == (passes + [p])[i];
    assert (passes + [p])[|passes|] == p;
  }

  /** Three passes drain one after the other. */
  lemma ThreePasses(s0: Pass, s1: Pass, s2: Pass, blockAlign: nat)
    requires PacketsFit(s0.ready, blockAlign) && PacketsFit(s1.ready, blockAlign)
    requires PacketsFit(s2.ready, blockAlign)
    ensures PassesFit([s0, s1, s2], blockAlign)
    ensures PassesFrames([s0, s1, s2])
         == DrainFrames(s0.ready) + DrainFrames(s1.ready) + DrainFrames(s2.ready)
    ensures PassesBytes([s0, s1, s2], blockAlign)
         == DrainBytes(s0.ready, blockAlign) + DrainBytes(s1.ready, blockAlign)
            + DrainBytes(s2.ready, blockAlign)
  {
    assert PassesFit([s0, s1, s2], blockAlign);
    assert [s0] + [s1] == [s0, s1] && [s0, s1] + [s2] == [s0, s1, s2] && [] + [s0] == [s0];
    PassesAppend([s0, s1], s2, blockAlign);
    PassesAppend([s0], s1, blockAlign);
    PassesAppend([], s0, blockAlign);
  }

  /** The drain of the example's first pass: 10 frames, then 7. */
  lemma TwoPackets(p: Packet, q: Packet, blockAlign: nat)
    requires p.frames * blockAlign <= |p.buffer| && q.frames * blockAlign <= |q.buffer|
    ensures PacketsFit([p, q], blockAlign)
    ensures DrainFrames([p, q]) == p.frames + q.frames
    ensures DrainBytes([p, q], blockAlign) == PacketBytes(p, blockAlign) + PacketBytes(q, blockAlign)
  {
    assert [p] + [q] == [p, q] && [] + [p] == [p];
    assert PacketsFit([p, q], blockAlign);
    DrainAppend([p], q, blockAlign);
    DrainAppend([], p, blockAlign);
  }

  lemma OnePacket(p: Packet, blockAlign: nat)
    requires p.frames * blockAlign <= |p.buffer|
    ensures PacketsFit([p], blockAlign)
    ensures DrainFrames([p]) == p.frames
    ensures DrainBytes([p], blockAlign) == PacketBytes(p, blockAlign)
  {
    assert [p][..0] == [];
  }

  /** The example run counts 10 + 7 + 7 + 3 = 27 frames and keeps the
      packets' bytes in capture order; the pass after the shutdown is not
      drained. */
  lemma ExampleCapture(blockAlign: nat, b10: seq<Byte>, b7: seq<Byte>, b7b: seq<Byte>,
                       b3: seq<Byte>, b5: seq<Byte>)
    requires 0 < blockAlign <= 0x100_0000
    requires |b10| == 10 * blockAlign && |b7| == 7 * blockAlign && |b7b| == 7 * blockAlign
    requires |b3| == 3 * blockAlign && |b5| == 5 * blockAlign
    ensures var script := ExampleScript(b10, b7, b7b, b3, b5);
      && Ends(script) && WellFormedScript(script, blockAlign)
      && CapturedFrames(script) == 27
      && CapturedBytes(script, blockAlign) == b10 + b7 + b7b + b3
  {
    var script := ExampleScript(b10, b7, b7b, b3, b5);
    ExampleWellFormed(blockAlign, b10, b7, b7b, b3, b5);
    assert Executed(script) == [script[0], script[1], script[2]];
    var p10, p7, p7b, p3 := Packet(10, b10), Packet(7, b7), Packet(7, b7b), Packet(3, b3);
    assert PacketBytes(p10, blockAlign) == b10 && PacketBytes(p7, blockAlign) == b7;
    assert PacketBytes(p7b, blockAlign) == b7b && PacketBytes(p3, blockAlign) == b3;
    TwoPackets(p10, p7, blockAlign);
    OnePacket(p7b, blockAlign);
    OnePacket(p3, blockAlign);
    ThreePasses(script[0], script[1], script[2], blockAlign);
  }

  // ---- Stream flags and the loopback fallback -----------------------------

  const AUDCLNT_STREAMFLAGS_LOOPBACK: bv32 := 0x0002_0000
  const AUDCLNT_STREAMFLAGS_EVENTCALLBACK: bv32 := 0x0004_0000
  const AUDCLNT_STREAMFLAGS_NOPERSIST: bv32 := 0x0008_0000
  const AUDCLNT_STREAMFLAGS_AUTOCONVERTPCM: bv32 := 0x8000_0000

  /** HRESULT AUDCLNT_E_WRONG_ENDPOINT_TYPE. */
  const AUDCLNT_E_WRONG_ENDPOINT_TYPE: bv32 := 0x8889_0003

  /** SUCCEEDED(hr): the severity bit is clear. */
  predicate Succeeded(hr: bv32) {
    hr & 0x8000_0000 == 0
  }

  /** The flags of the first Initialize call: event-driven, not persisted,
      converting to the requested PCM format, in loopback mode. */
  const CaptureStreamFlags: bv32 :=
    AUDCLNT_STREAMFLAGS_EVENTCALLBACK | AUDCLNT_STREAMFLAGS_NOPERSIST
      | AUDCLNT_STREAMFLAGS_AUTOCONVERTPCM | AUDCLNT_STREAMFLAGS_LOOPBACK

  /** The Initialize calls the thread makes, given how the audio client
      answers each set of flags: the flags of each call, in order, and the
      result the thread goes on with. */
  datatype InitAttempt = InitAttempt(calls: seq<bv32>, hr: bv32)

  function InitializeClient(initialize: bv32 -> bv32): (r: InitAttempt)
    ensures 1 <= |r.calls| <= 2 && r.calls[0] == CaptureStreamFlags
    ensures |r.calls| == 2 <==> initialize(CaptureStreamFlags) == AUDCLNT_E_WRONG_ENDPOINT_TYPE
    ensures |r.calls| == 2 ==>
      && r.calls[1] & AUDCLNT_STREAMFLAGS_LOOPBACK == 0
      && r.calls[1] | AUDCLNT_STREAMFLAGS_LOOPBACK == r.calls[0]
    ensures r.hr == initialize(r.calls[|r.calls| - 1])
  {
    var first := initialize(CaptureStreamFlags);
    if Succeeded(first) || first != AUDCLNT_E_WRONG_ENDPOINT_TYPE then
      InitAttempt([CaptureStreamFlags], first)
    else
      var retry := CaptureStreamFlags & !AUDCLNT_STREAMFLAGS_LOOPBACK;
      InitAttempt([CaptureStreamFlags, retry], initialize(retry))
  }

  /** An endpoint that refuses loopback mode with the mismatch error and
      accepts the same flags without it still ends up initialised. */
  lemma FallbackRecovers(initialize: bv32 -> bv32)
    requires initialize(CaptureStreamFlags) == AUDCLNT_E_WRONG_ENDPOINT_TYPE
    requires Succeeded(initialize(CaptureStreamFlags & !AUDCLNT_STREAMFLAGS_LOOPBACK))
    ensures var r := InitializeClient(initialize);
      |r.calls| == 2 && Succeeded(r.hr)
  {
  }
}
