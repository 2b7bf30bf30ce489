# Loopback recorder: a Dafny model of the recording engine

The recorder captures the audio an endpoint plays ("loopback" capture) and
writes it to `sound.wav` as a PCM wave file. This project models its engine,
the `Recording` class of `Recording.cpp`:

- the wave format the recorder holds (`WAVEFORMATEX`): the PCM default that
  the constructor sets, and `SetInfo`, which sets channels, rate and depth
  and derives the block size and byte rate from them;
- the capture thread `ThreadProc`: it empties the sample buffer and the frame
  counter, then alternately drains every ready packet into the buffer and
  waits for the shutdown or wake-up event, going round again only on a
  wake-up, and at the end saves the buffer once;
- the loopback fallback: if the endpoint rejects loopback mode with
  `AUDCLNT_E_WRONG_ENDPOINT_TYPE`, Initialize is retried once with the
  loopback flag cleared;
- `save_pcm_wave_file`: a RIFF file of form type `WAVE` holding a `fmt `
  chunk with the 16-byte `PCMWAVEFORMAT` image of the format and a `data`
  chunk with the samples verbatim; chunk headers are a FOURCC and a 32-bit
  little-endian size, odd payloads are padded to even length.

The operating system is replaced by inputs. The capture client is a script:
a sequence of passes, each listing the packets ready for one drain (frame
count and buffer), how the last size query of the drain answered (0 or a
failure) and what the following wait returned (shutdown, wake-up or anything
else). Whether the output file can be opened is a boolean. The disk is the
recorder's log `saves` of save attempts: the bytes of the file written, or
`None` when the open failed.

Files and modules:

- `Bytes.dfy` (`Bytes`): BYTE/WORD/DWORD, little-endian images, FOURCCs.
- `WaveFormat.dfy` (`WaveFormat`): `WAVEFORMATEX`, block size and byte
  rate, the 16-byte `fmt ` payload and its reader.
- `Riff.dfy` (`Riff`): chunks, the wave file writer and a reader for it, and
  `SavePcmWaveFile`, which writes the file step by step as the source does:
  each chunk header first gets a provisional size, which is corrected when
  the chunk is closed.
- `Capture.dfy` (`Capture`): the scripted backend, what a capture run
  collects (`CapturedBytes`, `CapturedFrames`) and the lemmas about it; the
  stream flags and the loopback fallback.
- `Recording.dfy` (`Recording`): the `Recorder` class with fields `wfx`,
  `waveData` and `nFrames` (`m_wfx`, `m_wave_data`, `m_nFrames`) and the
  save log.

Notes on the behaviour modelled, which follows the code:

- A failed `GetNextPacketSize` is not fatal to the session. It ends the
  drain like a size of 0, and the thread goes on to wait.
- Only the buffer-in-memory variant exists. The whole file is written once,
  after capture ends. There is no `fact` chunk, no streaming writer and no
  header-patch pass.
- The `fmt ` chunk is always `sizeof(PCMWAVEFORMAT)` = 16 bytes. `cbSize`
  is never written, so a reader gets it back as 0.
- Any wait result other than the wake-up event ends the loop. That includes
  a failed wait, not only shutdown.

## Model

| member | source | states |
|---|---|---|
| `Recording.Recorder.constructor` | Recording.cpp:37-51 | A new recorder has format PCM, 1 channel, 22050 Hz, 8 bits, block size 1, 22050 bytes/s and cbSize 0. Its buffer is empty and its frame count is 0. |
| `Recording.Recorder.SetInfo` | Recording.cpp:53-60 | Sets channels, rate and depth. Block size becomes bits*channels/8 and byte rate becomes rate*block size. No other field changes, so a PCM format with cbSize 0 stays one, and the derived fields stay consistent. |
| `Recording.Recorder.AppendPacket` | Recording.cpp:204-215 | One drained packet appends exactly frames*blockAlign bytes from its buffer at the end of the buffer. Earlier bytes are unchanged and the frame count grows by the packet's frames. |
| `Recording.Recorder.Drain` | Recording.cpp:199-218 | The drain loop takes packets while the size query succeeds with a positive size. It appends every packet ready for the pass, in arrival order. |
| `Recording.Recorder.ThreadProc` | Recording.cpp:123-237 | The run starts from an empty buffer and 0 frames. At the end the buffer holds the bytes of every packet drained up to the first non-wake-up wait, in order. The frame count is their total frames, and bytes = frames*blockAlign. The format is unchanged and exactly one save of the final buffer follows. |
| `Recording.Recorder.SaveToFile` | Recording.cpp:239-244 | Adds exactly one save attempt to the log. It is the wave file of the current format and buffer when the file opens, and nothing otherwise. |
| `Recording.RecordExample` | Recording.cpp:197-234 | A fresh recorder is woken with packets of 10 and 7 frames, then 7, then 3, and then shut down. It ends with 27 frames, the four packets' bytes in that order, and one save of them. A packet scripted after the shutdown is never drained. |
| `Capture.PacketBytes` | Recording.cpp:207-210 | The bytes copied from a packet are the first frames*blockAlign bytes of its buffer. |
| `Capture.FirstStop` | Recording.cpp:220-231 | The pass that ends the loop is the first whose wait is not a wake-up. Every earlier wait was a wake-up. |
| `Capture.DrainSize` | Recording.cpp:200-218 | A drain appends exactly blockAlign bytes per frame it counts. |
| `Capture.PassesSize` | Recording.cpp:197-232 | After any number of passes, the buffer length equals the frame count times blockAlign. |
| `Capture.CapturedSize` | Recording.cpp:207-213 | The bytes a capture run collects number exactly its frame count times blockAlign. |
| `Capture.PassesBytesPrefix` | Recording.cpp:197-232 | The bytes of the first n passes are a prefix of the bytes of all passes. Later passes only append. |
| `Capture.StopIsFinal` | Recording.cpp:220-231 | Once a wait returns shutdown or any other non-wake-up result, nothing scripted after it is drained. Bytes and frames equal those of the run cut at that pass. |
| `Capture.ExampleCapture` | Recording.cpp:197-232 | For any block size, wake-ups carrying 10 and 7 frames, then 7, then 3 (then shutdown) yield 27 frames. The bytes are the packets' bytes in that order, and a later pass is ignored. |
| `Capture.InitializeClient` | Recording.cpp:149-170 | The first Initialize uses event-callback, no-persist, auto-convert-PCM and loopback. A second call is made exactly when the first answers `AUDCLNT_E_WRONG_ENDPOINT_TYPE`. Its flags differ from the first only in the cleared loopback bit. The thread continues with the last call's result. |
| `Capture.FallbackRecovers` | Recording.cpp:164-170 | An endpoint that rejects loopback with the mismatch error and accepts the flags without it ends up initialised after two calls. |
| `WaveFormat.DecodeEncodePcmFormat` | Recording.cpp:21-24 | Reading the 16-byte fmt payload back gives every WAVEFORMATEX field except cbSize. cbSize is not written and reads as 0. |
| `Riff.ParseEncodeChunks` | Recording.cpp:19-31 | A list of chunks, each written as id, 32-bit size, payload and pad byte, parses back to the same chunks. |
| `Riff.ParseEncodeRiff` | Recording.cpp:18-31 | A RIFF file built from a form type and chunks parses back to that form type and those chunks. |
| `Riff.AscendChunkEncodes` | Recording.cpp:21-31 | Closing a chunk whose header had any provisional size leaves exactly the encoded chunk behind: the size of what follows the header, and a pad byte if that size is odd. |
| `Riff.ParseSerializeWave` | Recording.cpp:5-35 | Round trip: the written wave file parses back to the recorder's format (cbSize 0) and exactly the data bytes. |
| `Riff.SerializeWaveLayout` | Recording.cpp:14-34 | The file is laid out as "RIFF", size = file length - 8, "WAVE", "fmt ", 16, the 16-byte format, "data", the data length, the data verbatim, and a pad byte if that length is odd. |
| `Riff.SavePcmWaveFile` | Recording.cpp:5-35 | The result is FALSE exactly when the file cannot be opened, and then nothing is written. Otherwise the chunk-by-chunk writes with corrected sizes produce exactly the wave file of the format and the data. |

## Left out

- Recording.Recorder.SetInfo: requires that the block size fits its WORD field and the byte rate fits its DWORD field. The source truncates silently when they do not.
- Recording.Recorder.ThreadProc: requires that the buffer fits in a wave file (`Riff.MaxDataSize`) and that each packet's byte count fits the LONG `cbToWrite`. The frame count is an unbounded `nat`; the source's `UINT32` would wrap.
- Recording.Recorder.ThreadProc: requires that some wait in the script ends the loop. A run that is only ever woken up does not terminate and is not modelled.
- Recording.Recorder.ThreadProc: the device activation, `GetDevicePeriod`, `SetEventHandle`, `GetService`, `AvSetMmThreadCharacteristics` and `Start` calls are foreign calls into the audio system. Their `assert(SUCCEEDED(hr))` checks are left out too. The loopback fallback is modelled apart, by `Capture.InitializeClient`.
- `GetBuffer`/`ReleaseBuffer`: the packets come from the script. The buffer flags are ignored, as the source ignores them. The unused `bFirstPacket` flag is not modelled.
- The silent `PlaySound` loop is a foreign call with no effect on the recorded data.
- Threads and synchronisation are left out: `Start`, `Stop`, `ThreadFunction`, the events, `WaitForMultipleObjects` (its result is scripted), the critical section and the destructor. `ThreadProc` is treated as a sequential procedure.
- `SetDevice` stores an opaque device pointer; no device is modelled.
- The mmio library is modelled only by the bytes it leaves in the file. `mmioCreateChunk` writes the uninitialised `cksize`; the model writes 0, and the closing ascend overwrites it either way.
- `win/win.cpp` and `console.cpp` are dialog and command-line drivers, and they are not part of this model. The members they call that the class does not define (`StartHearing`, `StopHearing`, `SetRecording`, `OpenFile`, `m_nValue`, `m_nMax`) have no behaviour to model.
- No `fact` chunk, streaming writer, header patch or session state machine appears in the code, so none is modelled.
