/**
 * The typing effect of a conversation title: every timer tick appends the next
 * character, and once every character is shown the completion callback runs.
 */
module AnimatedTitle {

  /** What the effect does on a render: schedule the next tick, or report completion. */
  datatype EffectAction = ScheduleTick | Complete

  /** The component's invariant for a fixed title: the text shown is the title's first `index` characters. */
  predicate Consistent(title: string, displayed: string, index: nat)
  {
    index <= |title| && displayed == title[..index]
  }

  /**
   * A new title does not reset the state: the invariant survives exactly when the new
   * title starts with what has been shown.
   */
  lemma RetitleKeepsState(title: string, newTitle: string, displayed: string, index: nat)
    requires Consistent(title, displayed, index)
    ensures Consistent(newTitle, displayed, index) <==> index <= |newTitle| && newTitle[..index] == title[..index]
  {
  }

  /** On an unrelated new title the shown text is stale: the invariant breaks. */
  lemma RetitleBreaksState()
    ensures Consistent("Title", "Ti", 2) && !Consistent("Other", "Ti", 2)
  {
    assert "Other"[..2] == "Ot";
    assert "Title"[..2] == "Ti";
  }

  class TitleAnimation {
    var title: string
    var displayedText: string
    var currentIndex: nat

    ghost predicate Valid()
      reads this
    {
      Consistent(title, displayedText, currentIndex)
    }

    /** Mounting: nothing shown yet. */
    constructor (t: string)
      ensures title == t && displayedText == "" && currentIndex == 0
      ensures Valid()
    {
      title := t;
      displayedText := "";
      currentIndex := 0;
    }

    /** The effect: a tick is scheduled while characters remain, otherwise completion is reported. */
    method Effect() returns (action: EffectAction)
      ensures action == Complete <==> currentIndex >= |title|
      ensures action == Complete && Valid() ==> displayedText == title
    {
      if currentIndex < |title| {
        action := ScheduleTick;
      } else {
        action := Complete;
      }
    }

    /**
     * The timeout: the character at the current index is appended and the index advances
     * by one. A pending timeout is cleared whenever the index or the title changes, so one
     * fires only under the render that scheduled it, where the index was below the length.
     */
    method Tick()
      requires currentIndex < |title|
      modifies this
      ensures displayedText == old(displayedText) + [old(title)[old(currentIndex)]]
      ensures currentIndex == old(currentIndex) + 1 && title == old(title)
      ensures old(Valid()) ==> Valid()
    {
      displayedText := displayedText + [title[currentIndex]];
      currentIndex := currentIndex + 1;
    }

    /** A new `title` prop: the state is kept as it is. */
    method SetTitle(t: string)
      modifies this
      ensures title == t && displayedText == old(displayedText) && currentIndex == old(currentIndex)
    {
      title := t;
    }
  }
}
