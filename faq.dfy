/**
 * The FAQ accordion: six questions, at most one answer open (the first one
 * to begin with), and a narration button per question that reads its answer
 * aloud, at most one at a time.  The narration button sits inside the
 * question button but stops the click from reaching it, so narrating never
 * opens or closes an answer.
 *
 * Speech itself is not modelled: the utterance's `end` and `error` events
 * are calls.
 */
module Faq {
  import opened Wrappers
  import OneAtATime

  const Count: nat := 6

  class Accordion {
    var openIndex: Option<nat>
    var playingIndex: Option<nat>

    /** Both indices, when set, name one of the six questions. */
    predicate Valid()
      reads this
    {
      && (openIndex.Some? ==> openIndex.value < Count)
      && (playingIndex.Some? ==> playingIndex.value < Count)
    }

    constructor ()
      ensures openIndex == Some(0) && playingIndex == None
      ensures Valid()
    {
      openIndex := Some(0);
      playingIndex := None;
    }

    /** `toggleFAQ(index)` from one of the six question buttons: close the answer if it is the open one, otherwise open it alone. */
    method ToggleFaq(index: nat)
      requires Valid() && index < Count
      modifies this`openIndex
      ensures Valid()
      ensures openIndex == OneAtATime.Toggle(old(openIndex), index)
      ensures openIndex == None <==> old(openIndex) == Some(index)
    {
      if openIndex == Some(index) {
        openIndex := None;
      } else {
        openIndex := Some(index);
      }
    }

    /** `playAudio(index)` from one of the six narration buttons: stop the answer being read, or read this one instead. */
    method PlayAudio(index: nat)
      requires Valid() && index < Count
      modifies this`playingIndex
      ensures Valid()
      ensures playingIndex == OneAtATime.Toggle(old(playingIndex), index)
      ensures playingIndex == None <==> old(playingIndex) == Some(index)
    {
      if playingIndex == Some(index) {
        playingIndex := None;
      } else {
        playingIndex := Some(index);
      }
    }

    /**
     * An utterance's `end` or `error` event.  The handler does not check
     * which answer it belongs to, so an event of a cancelled utterance that
     * arrives after the switch also clears the indicator of its successor.
     */
    method SpeechEnded()
      requires Valid()
      modifies this`playingIndex
      ensures Valid()
      ensures playingIndex == None
    {
      playingIndex := None;
    }

    /** Answer `i`'s body is rendered exactly when it is the open one. */
    function AnswerShown(i: nat): (b: bool)
      reads this
      ensures b <==> openIndex == Some(i)
      ensures b ==> forall j :: j != i ==> openIndex != Some(j)
    {
      openIndex == Some(i)
    }
  }
}
