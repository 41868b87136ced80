/** The capture callback (`wave_reader`): each buffer the audio device delivers
    is converted into a reused scratch buffer of 16-bit samples, written to
    every registered client stream and, when RMS monitoring is on, sent to the
    monitor's channel. The per-sample conversion of the device's sample kind is
    a parameter of the model. */
module AudioCapture {
  import opened Common
  import opened ClientRegistry

  /** Each sample converted, in order. */
  function Converted<T>(samples: seq<T>, toI16: T -> int16): (r: seq<int16>)
    ensures |r| == |samples|
    ensures forall i :: 0 <= i < |samples| ==> r[i] == toI16(samples[i])
  {
    seq(|samples|, i requires 0 <= i < |samples| => toI16(samples[i]))
  }

  class CaptureSource<T> {
    /** The conversion of one device sample to 16-bit PCM. */
    const toI16: T -> int16
    /** The reused buffer of converted samples. */
    var scratch: seq<int16>
    /** The batches sent to the RMS monitor, in order. */
    var rmsChannel: seq<seq<int16>>
    /** Whether the one-time "now receiving samples" message has been logged. */
    var announced: bool

    constructor (toI16: T -> int16)
      ensures this.toI16 == toI16 && scratch == [] && rmsChannel == [] && !announced
    {
      this.toI16 := toI16;
      scratch := [];
      rmsChannel := [];
      announced := false;
    }

    /** Handles one buffer from the device. */
    method WaveReader(samples: seq<T>, registry: Clients, conf: Configuration)
      requires registry.Valid()
      modifies this, registry
      ensures registry.Valid()
      ensures announced
      ensures scratch == Converted(samples, toI16)
      ensures registry.clients == WrittenToAll(old(registry.clients), scratch)
      ensures rmsChannel == old(rmsChannel) + if conf.monitorRms then [scratch] else []
    {
      if !announced {
        announced := true;
      }
      scratch := [];
      scratch := scratch + Converted(samples, toI16);
      registry.WriteAll(scratch);
      if conf.monitorRms {
        rmsChannel := rmsChannel + [scratch];
      }
    }
  }
}
