/**
 * The voice gallery: five voices, one of them selected (the first to begin
 * with), each card with a preview button that reads a sample aloud, at most
 * one at a time.  The preview button stops its click from reaching the
 * card, so previewing never changes the selection, and selecting never
 * touches playback.
 *
 * Speech itself is not modelled: the utterance's `end` and `error` events
 * are calls.
 */
module VoiceSelector {
  import opened Wrappers
  import OneAtATime

  datatype Voice = Voice(id: nat, name: string)

  const Voices: seq<Voice> := [
    Voice(0, "Sophia"), Voice(1, "Marcus"), Voice(2, "Elena"), Voice(3, "David"), Voice(4, "Aria")]

  /** Each voice's id is its position in the list. */
  lemma IdsArePositions()
    ensures |Voices| == 5
    ensures forall i :: 0 <= i < |Voices| ==> Voices[i].id == i
  {
  }

  /** `voices.find(v => v.id === voiceId)` */
  function FindVoice(id: nat): (r: Option<Voice>)
    ensures r.Some? <==> id < |Voices|
    ensures r.Some? ==> r.value == Voices[id] && r.value.id == id
  {
    if id < |Voices| then Some(Voices[id]) else None
  }

  class Gallery {
    var selectedVoice: nat
    var playingVoice: Option<nat>

    /** The selection always names a position of the list. */
    predicate Valid()
      reads this
    {
      selectedVoice < |Voices|
    }

    constructor ()
      ensures selectedVoice == 0 && playingVoice == None && Valid()
    {
      selectedVoice := 0;
      playingVoice := None;
    }

    /** Clicking a card: `setSelectedVoice(voice.id)`. */
    method SelectVoice(v: Voice)
      requires v in Voices
      modifies this`selectedVoice
      ensures selectedVoice == v.id && Valid()
      ensures Voices[selectedVoice] == v
    {
      IdsArePositions();
      selectedVoice := v.id;
    }

    /** `handlePlayPreview(voiceId)`: stop the preview that is playing, or play this one instead. */
    method HandlePlayPreview(voiceId: nat)
      modifies this`playingVoice
      ensures playingVoice == OneAtATime.Toggle(old(playingVoice), voiceId)
      ensures playingVoice == None <==> old(playingVoice) == Some(voiceId)
    {
      if playingVoice == Some(voiceId) {
        playingVoice := None;
      } else {
        playingVoice := Some(voiceId);
      }
    }

    /** The utterance's `end` or `error` event. */
    method PreviewEnded()
      modifies this`playingVoice
      ensures playingVoice == None
    {
      playingVoice := None;
    }

    /** The summary under the gallery: `voices[selectedVoice]`, always in range. */
    function Selected(): (v: Voice)
      requires Valid()
      reads this
      ensures v in Voices && v.id == selectedVoice
    {
      IdsArePositions();
      Voices[selectedVoice]
    }
  }
}
