/** `setTempo`: the update of the time-info record the host hands to the plugin. */
module Timing {

  /** `kVstTransportPlaying` (bit 1 of the flags). */
  const TransportPlaying: bv32 := 0x2
  /** `kVstTempoValid` (bit 10 of the flags). */
  const TempoValid: bv32 := 0x400

  /** The fields of `VstTimeInfo` this model keeps; the position in samples stands for
      every field `setTempo` does not write. */
  datatype TimeInfo = TimeInfo(samplePos: real, sampleRate: real, tempo: real, flags: bv32)

  /** The record after `setTempo(tempo)` on a handle whose sample rate is `sampleRate`. */
  function WithTempo(info: TimeInfo, sampleRate: nat, tempo: real): (r: TimeInfo)
    ensures r.tempo == tempo
    ensures r.sampleRate == sampleRate as real
    ensures r.flags & TransportPlaying == TransportPlaying
    ensures r.flags & TempoValid == TempoValid
    ensures r.flags & !(TransportPlaying | TempoValid) == info.flags & !(TransportPlaying | TempoValid)
    ensures r.samplePos == info.samplePos
  {
    var withRate := info.(sampleRate := sampleRate as real);
    var playing := withRate.(flags := withRate.flags | TransportPlaying);
    var withTempo := playing.(tempo := tempo);
    withTempo.(flags := withTempo.flags | TempoValid)
  }

  /** Setting the same tempo twice is the same as setting it once. */
  lemma WithTempoIdempotent(info: TimeInfo, sampleRate: nat, tempo: real)
    ensures WithTempo(WithTempo(info, sampleRate, tempo), sampleRate, tempo) == WithTempo(info, sampleRate, tempo)
  {
  }

  /** Only the tempo of a later call survives. */
  lemma LaterTempoWins(info: TimeInfo, sampleRate: nat, first: real, second: real)
    ensures WithTempo(WithTempo(info, sampleRate, first), sampleRate, second) == WithTempo(info, sampleRate, second)
  {
    var f := info.flags;
    assert ((((f | TransportPlaying) | TempoValid) | TransportPlaying) | TempoValid)
        == ((f | TransportPlaying) | TempoValid);
  }
}
