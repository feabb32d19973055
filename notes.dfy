/**
 * The notes disguise: a title and a body; the body is checked on every change
 * and the application unlocks whenever it contains the PIN followed by `#AJ`.
 */
module Notes {
  import opened Strings

  const TRIGGER: string := "#AJ"

  /** `checkUnlock(text)`: the text contains the PIN immediately followed by the trigger. */
  predicate CheckUnlock(pin: string, text: string)
    ensures CheckUnlock(pin, text) <==> exists k :: OccursAt(text, pin + TRIGGER, k)
  {
    ContainsIffOccurs(text, pin + TRIGGER);
    Contains(text, pin + TRIGGER)
  }

  class NotesDisguise {
    const pin: string
    var title: string
    var content: string

    constructor (pin: string)
      ensures this.pin == pin && title == "" && content == ""
    {
      this.pin := pin;
      title, content := "", "";
    }

    /**
     * `handleContentChange(text)`: the body always becomes the new text, and the
     * unlock fires exactly when that text contains the PIN followed by `#AJ`. The
     * decision looks at the current text only; there is no once-only guard, so
     * every change whose text still holds the trigger fires again.
     */
    method HandleContentChange(text: string) returns (unlock: bool)
      modifies this
      ensures content == text && title == old(title)
      ensures unlock <==> Contains(text, pin + TRIGGER)
    {
      content := text;
      unlock := CheckUnlock(pin, text);
    }

    /** A title edit stores the title; it is never checked and never unlocks. */
    method HandleTitleChange(text: string)
      modifies this
      ensures title == text && content == old(content)
    {
      title := text;
    }
  }

  /** The PIN followed by `#AJ` unlocks wherever it is typed in the body. */
  lemma TriggerAnywhereUnlocks(pin: string, before: string, after: string)
    ensures CheckUnlock(pin, before + pin + TRIGGER + after)
  {
    var t := pin + TRIGGER;
    assert OccursAt(t, t, 0);
    OccursAtContains(t, t, 0);
    assert before + pin + TRIGGER + after == before + t + after;
    ContainsExtend(before, t, after, t);
  }

  /** Once the body unlocks, any further typing around it unlocks again. */
  lemma UnlockRepeatsOnLaterEdits(pin: string, text: string, before: string, after: string)
    requires CheckUnlock(pin, text)
    ensures CheckUnlock(pin, before + text + after)
  {
    ContainsExtend(before, text, after, pin + TRIGGER);
  }

  /** Order matters: with PIN 1234, "1234#AJ" unlocks but "#AJ1234" does not. */
  lemma OrderMatters()
    ensures CheckUnlock("1234", "1234#AJ")
    ensures !CheckUnlock("1234", "#AJ1234")
  {
    TriggerAnywhereUnlocks("1234", "", "");
    assert "" + "1234" + TRIGGER + "" == "1234#AJ";
    ContainsIffOccurs("#AJ1234", "1234#AJ");
    forall i | 0 <= i <= 7
      ensures !OccursAt("#AJ1234", "1234#AJ", i)
    {
      assert "#AJ1234"[0] != "1234#AJ"[0];
    }
  }
}
