# swyh-rs streaming engine, modelled in Dafny

swyh-rs captures the machine's audio output and streams it over HTTP to
UPnP/DLNA renderers. This project models the sequential decision and
bookkeeping logic of `src/main.rs`, one piece at a time, with threads and
libraries abstracted away:

- **Request handling** (`run_server`). One request at a time. The model
  derives the host part of the remote address, routes on the exact URL
  `/stream/swyh.wav`, and dispatches on GET, HEAD or POST. It chooses the
  Content-Type (the WAVE type, or the RFC 2586 `audio/L16` type with the
  capture rate) and the transfer policy: a fixed length with a larger chunking
  threshold, or chunked after 8192 bytes (section 4.1 of RFC 7230). A GET
  registers its connection in the client registry, reports `Started`, streams
  the body, then removes the entry and reports `Ended`.
- **Client registry** (`CLIENTS`). A map from remote socket address to the
  client's stream. It supports insert, remove and a write to every entry.
- **Feedback handling** (the GUI loop's event drain). Started/Ended events
  drive the renderer buttons. An `Ended` is ignored while the registry still
  serves that host. Otherwise the button goes off, or, with auto-resume, the
  renderer is told to play again.
- **RMS monitor** (`run_rms_monitor`). Sums of squares of even and odd batch
  positions are kept in 64-bit integers, with one shared sample count. Integer
  mean squares are published every tenth of a second of samples.
- **Discovery updater** (`run_ssdp_updater`). A discovered renderer is
  forwarded only the first time its address is seen: the renderer forwarded
  for an address is the first one discovered with it, in discovery order.
- **Capture callback** (`wave_reader`). A reused scratch buffer is refilled
  with the converted samples. It is written to every registered stream and,
  when RMS monitoring is on, sent to the monitor.

Files: `common.dfy` (shared types), `decimal.dfy` (decimal rendering of the
sample rate), `addresses.dfy` (host part of an address), `registry.dfy`,
`server.dfy`, `feedback.dfy`, `rms.dfy`, `ssdp.dfy`, `capture.dfy`.

Where the program's description and its code differ, the model follows the code:

- The server sends `Ended` after every GET, unconditionally
  (src/main.rs:832-837). Suppressing it while another connection from the same
  host is registered happens in the feedback handler (src/main.rs:593-597),
  against the registry as it stands when the event is handled.
  `Feedback.ReconnectSuppressesEnded` states that case.
- The RMS monitor divides each channel's sum by the count of samples of both
  channels (src/main.rs:1010-1012). A constant amplitude `a` on both channels
  over a window of even length therefore publishes `a*a/2`, not `a*a`, and the
  displayed RMS is `a/√2`. `RmsMonitor.ConstantAmplitudeHalvesLevel` proves
  this of the model. With an odd window length (11025 Hz stereo gives 2205)
  one channel sums one more square than the other, so the two readings differ
  slightly; `RmsMonitor.FirstReading` covers that case.
- A method other than GET, HEAD or POST on the stream URL gets no response
  from the handler (src/main.rs:764-866 have no final `else`).
- A second GET whose remote address equals a registered key replaces that
  entry, and either connection's removal removes the key (src/main.rs:788, 824).
- The host part of an IPv6 client's address `[addr]:port` is cut at the first
  ':' and is therefore always `[` (src/main.rs:717-721;
  `Addresses.RemoteIpOfIpv6Loopback`). The check for a host that is still
  streaming (src/main.rs:593-596) thus treats all IPv6 clients as one host.

## Model

| member | source | states |
|---|---|---|
| `Addresses.Find` | src/main.rs:719 | the index returned holds the first ':' of the string; None exactly when there is no ':' |
| `Addresses.RemoteIp` | src/main.rs:717-721 | the remote ip is a prefix of the remote address, contains no ':', and is followed in the address by ':' when it is shorter |
| `Addresses.RemoteIpOfHostAndPort` | src/main.rs:717-721 | for any host without ':' and any port, the remote ip of `host:port` is the host |
| `Addresses.RemoteIpOfIpv6Loopback` | src/main.rs:717-721 | for the bracketed IPv6 address `[::1]:5901` the truncation yields `[` |
| `Decimal.ToDecimal` | src/main.rs:758 | the sample rate is printed as a non-empty string of digits without a leading zero |
| `Decimal.ParseToDecimal` | src/main.rs:758 | reading the printed rate back gives the rate |
| `StreamingServer.ContentTypeAnnouncesRate` | src/main.rs:755-759 | the Content-Type is `audio/vnd.wave;codec=1` iff the wave flag is set; otherwise it is an `audio/L16;rate=…;channels=2` type whose rate reads back as the capture rate |
| `StreamingServer.TransferPolicy` | src/main.rs:771-777 | the stream has a fixed length iff chunking is disabled; that length (usize::MAX-1) is below the chunking threshold (usize::MAX); otherwise there is no length and the threshold is 8192 |
| `StreamingServer.ResponseFor` | src/main.rs:729-866 | no answer iff the URL is the stream URL and the method is not GET/HEAD/POST; status 404 iff the URL differs; every answer has Connection, Server and icy-name; 404 and POST carry exactly those three headers; GET and HEAD carry Connection, Content-Type, TransferMode, Server, icy-name with the computed Content-Type and `TransferMode.DLNA.ORG: Streaming`; only a GET on the stream URL has a body, with the transfer policy of the configuration |
| `StreamingServer.HeadAnnouncesGetHeaders` | src/main.rs:808-847 | a HEAD on the stream URL carries exactly the headers of the GET |
| `StreamingServer.NewStream` | src/main.rs:779-785 | the entry a GET registers serves the host part of the connection's address, carries the configured framing flag and the capture rate, and has nothing written to it yet |
| `StreamingServer.Server.HandleRequest` | src/main.rs:715-866 | the response is `ResponseFor`; only a GET on the stream URL changes the registry or the feedback channel; such a GET leaves the registry without its key and otherwise unchanged, appends exactly Started then Ended for its host to the feedback and emission records, keeping the earlier ones, Started while its entry is registered and Ended after its removal, whatever the outcome of the response; a failed response is logged |
| `StreamingServer.Server.ServeStream` | src/main.rs:764-839 | insert, Started, response, remove, Ended, with the registry recorded at each event |
| `StreamingServer.Server.Register` | src/main.rs:779-798 | the connection's `NewStream` entry is stored under its address, then Started is sent for its host with that registry recorded |
| `StreamingServer.Server.Unregister` | src/main.rs:822-837 | the connection's key is removed and every other entry kept, then Ended is sent for its host with that registry recorded |
| `StreamingServer.Server.LogOutcome` | src/main.rs:816-821 | a failed response adds its remote address to the termination log and changes nothing else |
| `StreamingServer.Server.Send` | src/main.rs:793-798 | one event is appended to the feedback channel |
| `ClientRegistry.StillStreamingByKey` | src/main.rs:593-596 | in a registry whose entries serve their key's host, a host is still streaming iff some key has that host part |
| `ClientRegistry.WrittenToAll` | src/main.rs:981-983 | writing to all entries keeps the set of keys and each entry's host, framing and rate, and appends the batch to each stream |
| `ClientRegistry.Clients.constructor` | src/main.rs:111 | the registry starts empty |
| `ClientRegistry.Clients.Insert` | src/main.rs:786-790 | the entry is stored under its key, replacing any previous one; returns the number of clients |
| `ClientRegistry.Clients.Remove` | src/main.rs:822-826 | the key is absent afterwards and every other entry is unchanged; returns the number of clients left |
| `ClientRegistry.Clients.WriteAll` | src/main.rs:981-983 | every registered stream, and no other, gets the batch appended after what it already holds; keys, hosts, framing and rates are unchanged |
| `Feedback.FindRenderer` | src/main.rs:599-601 | the renderer found is the first one with that address; None iff there is none |
| `Feedback.OnFeedback` | src/main.rs:583-611 | no button appears or disappears and only the event's host can change; events for a host without a button are ignored; Started turns the button on; Ended while the host is still registered changes nothing; otherwise after Ended the button stays on iff it was on and auto-resume is set; a play request is issued iff the button was on, the host's last stream ended, auto-resume is set and a renderer has that address, and it goes to the first such renderer |
| `Feedback.DrainKeepsButtons` | src/main.rs:582-612 | handling any sequence of events keeps the set of buttons |
| `Feedback.DrainKeepsStreamingHostOn` | src/main.rs:590-608 | while a host is registered, no sequence of events switches its button off |
| `Feedback.DrainPlaysOnlyOnEnded` | src/main.rs:597-604 | every play request issued while draining answers an Ended event for that renderer's address; earlier requests are kept |
| `Feedback.ReconnectSuppressesEnded` | src/main.rs:591-597 | after a GET's key is removed, its Ended changes nothing when another key of the same host is still registered |
| `Feedback.LastConnectionEndedActs` | src/main.rs:597-607 | when the removed key was the host's last, a switched-on button stays on iff auto-resume is set |
| `Feedback.AutoResumePlaysAgain` | src/main.rs:598-604 | when every button belongs to a renderer, auto-resume after the last stream of a switched-on host plays that host's renderer again |
| `Feedback.ControlPanel.constructor` | src/main.rs:508-510 | no buttons, no renderers, no play requests |
| `Feedback.ControlPanel.AddRenderer` | src/main.rs:615-650 | a new renderer is appended and gets a button that is off; every button still belongs to a renderer |
| `Feedback.ControlPanel.HandleFeedback` | src/main.rs:583-611 | the buttons and play requests become those of `OnFeedback` |
| `Feedback.ControlPanel.DrainFeedback` | src/main.rs:582-612 | the pending events are handled in the order they were sent |
| `RmsMonitor.SamplesPerUpdate` | src/main.rs:996 | the window length (u32 product divided by 10) is at most u32::MAX/10 |
| `RmsMonitor.SamplesPerUpdateAt44100Stereo` | src/main.rs:996 | at 44100 Hz stereo a reading is due every 8820 samples |
| `RmsMonitor.Square` | src/main.rs:1004 | a sample's square is at most 2^30 |
| `RmsMonitor.Accumulate` | src/main.rs:1002-1019 | one sample keeps the window invariant (count below the period, sums non-negative and at most count × 2^30, so the i64 sums cannot overflow); a reading is published iff the count reaches the window length, and then the window is reset and both published mean squares lie in [0, 2^30]; the value itself is stated by `AccumulateReading` |
| `RmsMonitor.Feed` | src/main.rs:1001-1020 | after any number of samples the window invariant holds |
| `RmsMonitor.FeedCounts` | src/main.rs:1001-1020 | the samples in the window plus one period per reading equal the samples consumed |
| `RmsMonitor.FeedInRange` | src/main.rs:1001-1020 | every reading published over any number of samples has both mean squares in [0, 2^30] |
| `RmsMonitor.AccumulateReading` | src/main.rs:1008-1012 | the sample that completes the window publishes each channel's sum, including that sample's square, divided by the window length |
| `RmsMonitor.FirstReading` | src/main.rs:1001-1013 | from a fresh window, the first reading is exactly the sum of squares at even positions and that at odd positions, each divided by the window length, and nothing else is published |
| `RmsMonitor.ConsumeBatch` | src/main.rs:1001-1020 | the loop over a batch computes `Feed` over the whole batch, keeps the invariant and publishes readings in range |
| `RmsMonitor.FeedAll` | src/main.rs:997-1021 | from a fresh window, the samples in the window plus one period per reading equal the total number of samples received |
| `RmsMonitor.RunRmsMonitor` | src/main.rs:989-1022 | the readings are those of `FeedAll` over the received batches, each in range |
| `RmsMonitor.SumsByParity` | src/main.rs:1003-1007 | until a reading is due, the left sum is the sum of squares at even batch positions and the right sum that at odd positions |
| `RmsMonitor.ConstantSquares` | src/main.rs:1003-1007 | over 2j samples of constant amplitude a, each parity's sum of squares is j·a² |
| `RmsMonitor.ConstantAmplitudeHalvesLevel` | src/main.rs:1008-1013 | a full window of even length with constant amplitude a publishes the mean square a*a/2 on both channels |
| `SsdpUpdater.ScanGrows` | src/main.rs:884-895 | the renderer map keeps every entry it had and gains exactly the addresses discovered |
| `SsdpUpdater.ScanForwardsNewOnce` | src/main.rs:884-895 | only renderers with addresses not already known are forwarded, no address twice, each stored as forwarded, and every newly known address was forwarded |
| `SsdpUpdater.ScanIsFirstSightings` | src/main.rs:884-893 | a round forwards exactly `FirstSightings`: each renderer whose address was neither known nor seen earlier in the round, in discovery order |
| `SsdpUpdater.FirstSightingsConcat` | src/main.rs:879-895 | the first sightings of two runs of discoveries are those of the first run followed by those of the second whose addresses the first did not already contain |
| `SsdpUpdater.InAllFound` | src/main.rs:883-886 | every renderer discovered in some round is among those found over the rounds, and so is its address |
| `SsdpUpdater.DiscoveryRound` | src/main.rs:883-895 | one round computes `Scan` over the discovered renderers; a failed discovery counts as none |
| `SsdpUpdater.RunSsdpUpdater` | src/main.rs:879-899 | over any sequence of rounds, what is forwarded is exactly `FirstSightings` of all rounds' discoveries in order (a failed round counts as none): no address twice, every discovered address, only discovered renderers, and for each address the first renderer discovered with it |
| `AudioCapture.Converted` | src/main.rs:980 | the converted buffer has the input's length and holds each sample's conversion in order |
| `AudioCapture.CaptureSource.WaveReader` | src/main.rs:971-987 | the scratch buffer's old contents are discarded and it holds exactly the converted batch; every registered stream receives that buffer; it goes to the RMS channel iff monitoring is on; the start-up message has been logged |

## Left out

- The GUI: window and widget construction, callbacks and their recursion guards (src/main.rs:125-580, 613-666). A renderer's button is only an on/off flag in a map.
- Threads, the 8-worker pool, `RwLock`, `Once`, crossbeam channels, `yield_now` and `app::awake`. Every operation runs sequentially, and channels are sequences of what was sent.
- Writing the HTTP response and chunked encoding, done by tiny_http. Only the chosen headers, length and threshold are modelled.
- What tiny_http sends for a request the handler drops unanswered (a method other than GET, HEAD or POST on the stream URL) is not modelled: `ResponseFor` only says that the handler itself answers nothing.
- The stream behind a registry entry (pre-roll silence, WAV header, queue) and the second stream object that is the response body. An entry holds its host, framing flag, sample rate and the batches written to it. The model does not track the body bytes.
- The sample conversion `to_i16`. It is a function parameter of `CaptureSource`.
- Audio device set-up (`capture_output_audio`, `capture_err_fn`) and its failure paths.
- Discovery itself (`discover`), `Renderer::play` and `stop_play`, and configuration persistence. A round of discovery is given as its result. A play call is recorded as the renderer it was made on; its arguments are not recorded.
- Floating point: the RMS square root, the discovery interval and the sleep between rounds.
- The hand-written `PartialEq` of `StreamingState`, which would recurse forever; nothing in this code compares states.
- Log messages and the log channel, except the record of responses that failed (`terminated`). The client counts returned by `Insert` and `Remove` are only logged by the program.
- Panics from `unwrap` on a channel whose receiver is gone.
- `Feedback.ControlPanel.DrainFeedback`: it reads the registry and the auto-resume flag once per drain. The program re-reads them for every event, and another thread may change the registry in between.
- `Feedback.ControlPanel.AddRenderer`: the auto-reconnect of the last used renderer (src/main.rs:652-655) is not modelled.
- Integer widths: `usize` is taken as 64 bits. The u32 product `sample_rate * channels` wraps (as in a release build) instead of panicking.
