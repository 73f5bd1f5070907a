/** `setSpeakers`: fills a speaker-arrangement record for a channel count, as sent to
    the plugin with the speaker-arrangement opcode. */
module Speakers {

  /** The most channels an arrangement describes (the length of `speakers[]`). */
  const MaxChannels: nat := 8

  /** Length of a speaker's name field (`kVstMaxNameLen`). */
  const SpeakerNameLen: nat := 64

  /** The arrangement types of the fixed table, named after the SDK's constants. */
  datatype ArrangementType =
    | ArrEmpty | ArrMono | ArrStereo | Arr30Music | Arr40Music
    | Arr50 | Arr60Music | Arr70Music | Arr80Music

  /** The `types` table: entry n is the arrangement for n channels. */
  const ArrangementTypes: seq<ArrangementType> :=
    [ArrEmpty, ArrMono, ArrStereo, Arr30Music, Arr40Music, Arr50, Arr60Music, Arr70Music, Arr80Music]

  /** The speaker count each arrangement type names. */
  function ChannelCount(t: ArrangementType): nat
  {
    match t
    case ArrEmpty => 0
    case ArrMono => 1
    case ArrStereo => 2
    case Arr30Music => 3
    case Arr40Music => 4
    case Arr50 => 5
    case Arr60Music => 6
    case Arr70Music => 7
    case Arr80Music => 8
  }

  /** A speaker's type: the SDK's undefined marker, or the raw code the bytes hold
      (zero after the `memset`). */
  datatype SpeakerType = SpeakerUndefined | RawSpeakerType(code: int)

  datatype SpeakerProperties = SpeakerProperties(
    azimuth: real, elevation: real, radius: real, reserved: real,
    name: seq<char>, kind: SpeakerType)

  /** A speaker record after the `memset`: every byte zero. */
  const ZeroedSpeaker: SpeakerProperties :=
    SpeakerProperties(0.0, 0.0, 0.0, 0.0, seq(SpeakerNameLen, _ => '\0'), RawSpeakerType(0))

  /** A speaker the loop filled: zero coordinates, an empty name, undefined type. */
  const UndefinedSpeaker: SpeakerProperties := ZeroedSpeaker.(kind := SpeakerUndefined)

  /** A speaker-arrangement record as a value. */
  datatype Arrangement = Arrangement(kind: ArrangementType, numChannels: int, speakers: seq<SpeakerProperties>)

  /** `min(max(channels, 0), 8)`. */
  function ClampChannels(channels: int): (n: nat)
    ensures n <= MaxChannels
    ensures 0 <= channels <= MaxChannels ==> n == channels
    ensures channels < 0 ==> n == 0
    ensures channels > MaxChannels ==> n == MaxChannels
  {
    if channels < 0 then 0 else if channels > MaxChannels then MaxChannels else channels
  }

  /** The record `setSpeakers` leaves for a channel count. */
  function ArrangementFor(channels: int): Arrangement
  {
    var n := ClampChannels(channels);
    Arrangement(ArrangementTypes[n], n,
                seq(MaxChannels, i => if i < n then UndefinedSpeaker else ZeroedSpeaker))
  }

  /** The arrangement type sent always names as many speakers as the clamped count,
      and the record describes exactly those speakers. */
  lemma ArrangementForNamesItsChannels(channels: int)
    ensures ArrangementFor(channels).numChannels == ClampChannels(channels)
    ensures ChannelCount(ArrangementFor(channels).kind) == ClampChannels(channels)
    ensures forall i :: 0 <= i < |ArrangementFor(channels).speakers| ==>
      (ArrangementFor(channels).speakers[i].kind == SpeakerUndefined <==> i < ClampChannels(channels))
  {
  }

  /** `struct VstSpeakerArrangement`; the speakers array is fixed at eight records. */
  class SpeakerArrangement {
    var kind: ArrangementType
    var numChannels: int
    const speakers: array<SpeakerProperties>

    ghost predicate Valid()
      reads this
    {
      speakers.Length == MaxChannels
    }

    /** An uninitialised record on the stack: its contents are arbitrary. */
    constructor ()
      ensures Valid() && fresh(speakers)
    {
      speakers := new SpeakerProperties[MaxChannels];
    }

    function Value(): Arrangement
      reads this, speakers
    {
      Arrangement(kind, numChannels, speakers[..])
    }
  }

  method SetSpeakers(dst: SpeakerArrangement, channels: int)
    requires dst.Valid()
    modifies dst, dst.speakers
    ensures dst.Valid()
    ensures dst.numChannels == ClampChannels(channels)
    ensures dst.kind == ArrangementTypes[dst.numChannels]
    ensures forall i :: 0 <= i < dst.numChannels ==> dst.speakers[i] == UndefinedSpeaker
    ensures forall i :: dst.numChannels <= i < MaxChannels ==> dst.speakers[i] == ZeroedSpeaker
    ensures dst.Value() == ArrangementFor(channels)
  {
    // memset: every byte of the record becomes zero; the type field is overwritten below
    dst.numChannels := 0;
    for i := 0 to MaxChannels
      invariant forall k :: 0 <= k < i ==> dst.speakers[k] == ZeroedSpeaker
    {
      dst.speakers[i] := ZeroedSpeaker;
    }
    dst.numChannels := ClampChannels(channels);
    dst.kind := ArrangementTypes[dst.numChannels];
    for i := 0 to dst.numChannels
      invariant dst.numChannels == ClampChannels(channels)
      invariant dst.kind == ArrangementTypes[dst.numChannels]
      invariant forall k :: 0 <= k < i ==> dst.speakers[k] == UndefinedSpeaker
      invariant forall k :: i <= k < MaxChannels ==> dst.speakers[k] == ZeroedSpeaker
    {
      var s := dst.speakers[i];
      dst.speakers[i] := s.(azimuth := 0.0, elevation := 0.0, radius := 0.0, reserved := 0.0,
                            name := s.name[0 := '\0'], kind := SpeakerUndefined);
      assert s.name[0 := '\0'] == ZeroedSpeaker.name;
    }
    assert dst.speakers[..] == ArrangementFor(channels).speakers;
  }
}
