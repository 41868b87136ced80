/** Types shared by every part of the streaming engine: machine integer ranges,
    the audio device snapshot, the configuration flags read per request, the
    connection feedback events and the renderer descriptors. */
module Common {

  datatype Option<T> = None | Some(value: T)

  /** Rust's fixed-width integers, as ranges of the unbounded `int`. */
  type int16 = x: int | -0x8000 <= x < 0x8000
  type uint16 = x: int | 0 <= x < 0x1_0000
  type uint32 = x: int | 0 <= x < 0x1_0000_0000
  type int64 = x: int | -0x8000_0000_0000_0000 <= x < 0x8000_0000_0000_0000

  /** usize on a 64-bit target. */
  const USIZE_MAX: nat := 0xFFFF_FFFF_FFFF_FFFF

  /** The sample kind the audio device delivers. */
  datatype SampleFormat = F32 | I16 | U16

  /** Snapshot of the capture device taken once at start-up. */
  datatype WavData = WavData(sampleFormat: SampleFormat, sampleRate: uint32, channels: uint16)

  /** The configuration flags the core reads (each read takes a fresh snapshot). */
  datatype Configuration = Configuration(useWaveFormat: bool, disableChunked: bool, monitorRms: bool)

  /** Lifecycle of one streaming connection, as reported by the server. */
  datatype StreamingState = Started | Ended

  /** A lifecycle event for the host (address without port) of a connection. */
  datatype StreamerFeedback = StreamerFeedback(remoteIp: string, streamingState: StreamingState)

  /** A media renderer found by discovery; `remoteAddr` is the renderer's host address. */
  datatype Renderer = Renderer(remoteAddr: string, devName: string, devModel: string)
}
