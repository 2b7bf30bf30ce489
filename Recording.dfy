/** The recorder object: its wave format, the in-memory sample buffer and
    the frame counter that the capture thread fills, and the save to
    "sound.wav" at the end of a run.

    The operating system is replaced by inputs: the capture client by a
    script of passes (module Capture), the outcome of opening the output
    file by a boolean. The disk is the log `saves` of every save attempt:
    the bytes written, or None when the file could not be opened. */
module Recording {
  import opened Bytes
  import opened WaveFormat
  import opened Riff
  import opened Capture

  /** The name SaveToFile writes to. */
  const SoundFileName: string := "sound.wav"

  /** The format a fresh recorder holds: PCM, mono, 22050 Hz, 8 bits. */
  const DefaultFormat: WaveFormatEx := WaveFormatEx(WAVE_FORMAT_PCM, 1, 22050, 22050, 1, 8, 0)

  class Recorder {
    /** m_wfx */
    var wfx: WaveFormatEx
    /** m_wave_data */
    var waveData: seq<Byte>
    /** m_nFrames */
    var nFrames: nat
    /** One entry per save to SoundFileName, oldest first. */
    var saves: seq<Option<seq<Byte>>>

    /** What every recorder keeps: a PCM format without extension bytes
        whose derived fields agree with channels, rate and depth. */
    ghost predicate Valid()
      reads this
    {
      wfx.wFormatTag == WAVE_FORMAT_PCM && wfx.cbSize == 0 && Consistent(wfx)
    }

    /** Recording::Recording: zero frames, the zeroed format made PCM with no
        extension bytes, then SetInfo(1, 22050, 8). */
    constructor ()
      ensures Valid()
      ensures wfx == DefaultFormat
      ensures waveData == [] && nFrames == 0 && saves == []
    {
      nFrames := 0;
      waveData := [];
      saves := [];
      wfx := ZeroFormat;
      new;
      wfx := wfx.(wFormatTag := WAVE_FORMAT_PCM);
      wfx := wfx.(cbSize := 0);
      SetInfo(1, 22050, 8);
    }

    /** Recording::SetInfo: sets channels, rate and depth, and derives the
        block size and byte rate from them; nothing else changes. */
    method SetInfo(nChannels: Word, nSamplesPerSec: Dword, wBitsPerSample: Word)
      requires InfoFits(nChannels, nSamplesPerSec, wBitsPerSample)
      modifies this`wfx
      ensures wfx == old(wfx).(nChannels := nChannels, nSamplesPerSec := nSamplesPerSec,
                               wBitsPerSample := wBitsPerSample,
                               nBlockAlign := BlockAlign(nChannels, wBitsPerSample),
                               nAvgBytesPerSec := nSamplesPerSec * BlockAlign(nChannels, wBitsPerSample))
      ensures Consistent(wfx)
      ensures old(wfx.wFormatTag == WAVE_FORMAT_PCM && wfx.cbSize == 0) ==> Valid()
    {
      wfx := wfx.(nChannels := nChannels);
      wfx := wfx.(nSamplesPerSec := nSamplesPerSec);
      wfx := wfx.(wBitsPerSample := wBitsPerSample);
      wfx := wfx.(nBlockAlign := wfx.wBitsPerSample * wfx.nChannels / 8);
      wfx := wfx.(nAvgBytesPerSec := wfx.nSamplesPerSec * wfx.nBlockAlign);
    }

    /** One step of the drain: copies `frames * blockAlign` bytes of the
        packet to the end of the buffer and counts its frames. */
    method AppendPacket(p: Packet, blockAlign: nat)
      requires p.frames * blockAlign <= |p.buffer|
      modifies this`waveData, this`nFrames
      ensures waveData == old(waveData) + PacketBytes(p, blockAlign)
      ensures old(waveData) <= waveData
      ensures |waveData| == |old(waveData)| + p.frames * blockAlign
      ensures nFrames == old(nFrames) + p.frames
    {
      var cbToWrite := p.frames * blockAlign;
      waveData := waveData + p.buffer[..cbToWrite];
      nFrames := nFrames + p.frames;
    }

    /** The inner loop of the thread: while the size query succeeds with a
        positive size, takes the next packet and appends it. All packets
        ready for the pass are appended, in arrival order. */
    method Drain(pass: Pass, nBlockAlign: nat)
      requires WellFormedDrain(pass, nBlockAlign)
      modifies this`waveData, this`nFrames
      ensures PacketsFit(pass.ready, nBlockAlign)
      ensures waveData == old(waveData) + DrainBytes(pass.ready, nBlockAlign)
      ensures nFrames == old(nFrames) + DrainFrames(pass.ready)
    {
      var j := 0;
      var size := NextPacketSize(pass, j);
      while size.Size? && size.frames > 0
        invariant j <= |pass.ready|
        invariant size == NextPacketSize(pass, j)
        invariant PacketsFit(pass.ready[..j], nBlockAlign)
        invariant waveData == old(waveData) + DrainBytes(pass.ready[..j], nBlockAlign)
        invariant nFrames == old(nFrames) + DrainFrames(pass.ready[..j])
        decreases |pass.ready| - j
      {
        assert pass.ready[..j + 1][..j] == pass.ready[..j];
        assert WellFormedPacket(pass.ready[j], nBlockAlign);
        AppendPacket(pass.ready[j], nBlockAlign);
        j := j + 1;
        size := NextPacketSize(pass, j);
      }
      assert pass.ready[..j] == pass.ready;
    }

    /** Recording::ThreadProc with the backend replaced by `script`: empties
        the buffer and the counter, drains and waits pass by pass until a
        wait returns anything but a wake-up, then saves once. */
    method ThreadProc(script: seq<Pass>, canOpen: bool)
      requires Ends(script) && WellFormedScript(script, wfx.nBlockAlign)
      requires |CapturedBytes(script, wfx.nBlockAlign)| <= MaxDataSize
      modifies this`waveData, this`nFrames, this`saves
      ensures wfx == old(wfx)
      ensures waveData == CapturedBytes(script, wfx.nBlockAlign)
      ensures nFrames == CapturedFrames(script)
      ensures |waveData| == nFrames * wfx.nBlockAlign
      ensures saves == old(saves) + [if canOpen then Some(SerializeWave(wfx, waveData)) else None]
    {
      waveData := [];
      var nBlockAlign: nat := wfx.nBlockAlign;
      nFrames := 0;

      ghost var stop := FirstStop(script);
      var keepRecording := true;
      var nPasses := 0;
      while keepRecording
        invariant saves == old(saves)
        invariant nPasses <= stop + 1
        invariant keepRecording <==> nPasses <= stop
        invariant PassesFit(script[..nPasses], nBlockAlign)
        invariant waveData == PassesBytes(script[..nPasses], nBlockAlign)
        invariant nFrames == PassesFrames(script[..nPasses])
        invariant |waveData| == nFrames * nBlockAlign
        decreases stop + 1 - nPasses
      {
        var pass := script[nPasses];
        ghost var done := script[..nPasses];
        assert script[..nPasses + 1] == done + [pass];
        assert WellFormedDrain(pass, nBlockAlign);
        Drain(pass, nBlockAlign);

        match pass.wait {
          case Shutdown => keepRecording := false;
          case WakeUp =>
          case OtherWait => keepRecording := false;
        }
        nPasses := nPasses + 1;
        assert PassesFit(script[..nPasses], nBlockAlign) by {
          WellFormedFits(script, nBlockAlign, nPasses);
        }
        PassesSize(script[..nPasses], nBlockAlign);
      }
      assert script[..nPasses] == Executed(script);
      SaveToFile(canOpen);
    }

    /** Recording::SaveToFile: writes the format and the whole buffer to
        SoundFileName; the outcome of the open decides whether a file is
        written, and either way the call is one save attempt. */
    method SaveToFile(canOpen: bool)
      requires |waveData| <= MaxDataSize
      modifies this`saves
      ensures saves == old(saves) + [if canOpen then Some(SerializeWave(wfx, waveData)) else None]
    {
      var ok, file := SavePcmWaveFile(canOpen, wfx, waveData);
      saves := saves + [if ok then Some(file) else None];
    }
  }

  /** A fresh recorder (mono, 8 bits: one byte per frame) whose thread is
      woken three times with packets of 10 and 7, then 7, then 3 frames, and
      then shut down, ends with 27 frames, the packets' bytes in capture
      order, and one save of exactly those bytes. */
  method RecordExample(b10: seq<Byte>, b7: seq<Byte>, b7b: seq<Byte>, b3: seq<Byte>,
                       b5: seq<Byte>, canOpen: bool)
    returns (frames: nat, data: seq<Byte>, saved: seq<Option<seq<Byte>>>)
    requires |b10| == 10 && |b7| == 7 && |b7b| == 7 && |b3| == 3 && |b5| == 5
    ensures frames == 27 && data == b10 + b7 + b7b + b3
    ensures saved == [if canOpen then Some(SerializeWave(DefaultFormat, data)) else None]
  {
    var rec := new Recorder();
    ExampleCapture(1, b10, b7, b7b, b3, b5);
    rec.ThreadProc(ExampleScript(b10, b7, b7b, b3, b5), canOpen);
    frames, data, saved := rec.nFrames, rec.waveData, rec.saves;
  }
}
