/**
 * The Konami-code easter egg (app/components/DebtKonamiEasterEgg.tsx): a
 * keydown handler counts how much of the code has been typed; completing it
 * opens the overlay and counts one more unlock.
 */
module Konami {
  import opened JsString

  /** The code, as lower-cased `KeyboardEvent.key` values. */
  const KONAMI: seq<string> := [
    "arrowup", "arrowup", "arrowdown", "arrowdown",
    "arrowleft", "arrowright", "arrowleft", "arrowright",
    "b", "a"
  ]

  /** The component's three pieces of state. */
  datatype KonamiState = KonamiState(matchedCount: nat, open: bool, launchCount: nat)

  /** One keydown event: its key and whether its target is an input,
      textarea, select or content-editable element (isTypingTarget). */
  datatype KeyEvent = KeyEvent(key: string, typingTarget: bool)

  /** The handler registered for state `s`. `KONAMI[matchedCount]` is
      `undefined` past the end, which equals no key. */
  function KeyDown(s: KonamiState, event: KeyEvent): (t: KonamiState)
    ensures event.typingTarget ==> t == s
    ensures !event.typingTarget ==> t.matchedCount < |KONAMI|
    ensures t.launchCount == s.launchCount || (t.launchCount == s.launchCount + 1 && t.open)
  {
    if event.typingTarget then s
    else
      var key := ToLower(event.key);
      if s.matchedCount < |KONAMI| && key == KONAMI[s.matchedCount] then
        var next := s.matchedCount + 1;
        if next == |KONAMI| then KonamiState(0, true, s.launchCount + 1)
        else s.(matchedCount := next)
      else
        s.(matchedCount := if key == KONAMI[0] then 1 else 0)
  }

  /** The state after a run of keydown events. */
  function Run(s: KonamiState, events: seq<KeyEvent>): KonamiState
    decreases |events|
  {
    if events == [] then s else Run(KeyDown(s, events[0]), events[1..])
  }

  /** A matching key advances the count by one, short of completing the
      code, and changes nothing else. */
  lemma KeyDownAdvances(s: KonamiState, event: KeyEvent)
    requires !event.typingTarget && s.matchedCount + 1 < |KONAMI|
    requires ToLower(event.key) == KONAMI[s.matchedCount]
    ensures KeyDown(s, event) == s.(matchedCount := s.matchedCount + 1)
  {
  }

  /** The key that completes the code opens the overlay, adds one unlock and
      starts over. */
  lemma KeyDownCompletes(s: KonamiState, event: KeyEvent)
    requires !event.typingTarget && s.matchedCount == |KONAMI| - 1
    requires ToLower(event.key) == KONAMI[|KONAMI| - 1]
    ensures KeyDown(s, event) == KonamiState(0, true, s.launchCount + 1)
  {
  }

  /** A key that does not match restarts the count: at 1 when it is the
      first key of the code, at 0 otherwise. No longer overlap is kept. */
  lemma KeyDownMismatch(s: KonamiState, event: KeyEvent)
    requires !event.typingTarget
    requires s.matchedCount >= |KONAMI| || ToLower(event.key) != KONAMI[s.matchedCount]
    ensures KeyDown(s, event) == s.(matchedCount := if ToLower(event.key) == "arrowup" then 1 else 0)
  {
  }

  /** The unlock count never decreases, and grows by at most one per key. */
  lemma {:induction false} RunLaunchCount(s: KonamiState, events: seq<KeyEvent>)
    ensures s.launchCount <= Run(s, events).launchCount <= s.launchCount + |events|
    decreases |events|
  {
    if events != [] {
      RunLaunchCount(KeyDown(s, events[0]), events[1..]);
    }
  }

  /** Keys typed into form fields leave the state as it was. */
  lemma {:induction false} RunTyping(s: KonamiState, events: seq<KeyEvent>)
    requires forall i | 0 <= i < |events| :: events[i].typingTarget
    ensures Run(s, events) == s
    decreases |events|
  {
    if events != [] {
      assert events[0].typingTarget;
      RunTyping(s, events[1..]);
    }
  }

  /** A key with no upper-case ASCII letter is its own lower case. */
  lemma ToLowerOfLower(key: string)
    requires forall i | 0 <= i < |key| :: !IsAsciiUpper(key[i])
    ensures ToLower(key) == key
  {
  }

  /** The events of typing `keys` outside a form field. */
  function Typed(keys: seq<string>): (events: seq<KeyEvent>)
    ensures |events| == |keys|
    ensures forall i | 0 <= i < |keys| :: events[i] == KeyEvent(keys[i], false)
  {
    seq(|keys|, i requires 0 <= i < |keys| => KeyEvent(keys[i], false))
  }

  /** With `matched` keys of the code typed, keys that spell the rest of it
      open the overlay with one more unlock and a count of zero. */
  lemma {:induction false} RunRest(s: KonamiState, matched: nat, events: seq<KeyEvent>)
    requires matched < |KONAMI| && s.matchedCount == matched
    requires |events| == |KONAMI| - matched
    requires forall i | 0 <= i < |events| ::
               !events[i].typingTarget && ToLower(events[i].key) == KONAMI[matched + i]
    ensures Run(s, events) == KonamiState(0, true, s.launchCount + 1)
    decreases |KONAMI| - matched
  {
    assert !events[0].typingTarget && ToLower(events[0].key) == KONAMI[matched];
    var t := KeyDown(s, events[0]);
    assert Run(s, events) == Run(t, events[1..]);
    if matched == |KONAMI| - 1 {
      KeyDownCompletes(s, events[0]);
      assert events[1..] == [];
    } else {
      KeyDownAdvances(s, events[0]);
      assert forall i | 0 <= i < |events[1..]| :: events[1..][i] == events[i + 1];
      RunRest(t, matched + 1, events[1..]);
    }
  }

  /** No key of the code has an upper-case letter. */
  lemma KonamiIsLower()
    ensures forall i | 0 <= i < |KONAMI| :: ToLower(KONAMI[i]) == KONAMI[i]
  {
    forall i | 0 <= i < |KONAMI|
      ensures ToLower(KONAMI[i]) == KONAMI[i]
    {
      ToLowerOfLower(KONAMI[i]);
    }
  }

  /** From a count of zero, typing the whole code opens the overlay, and the
      unlock count goes up by exactly one. */
  lemma KonamiUnlocks(s: KonamiState)
    requires s.matchedCount == 0
    ensures Run(s, Typed(KONAMI)) == KonamiState(0, true, s.launchCount + 1)
  {
    KonamiIsLower();
    RunRest(s, 0, Typed(KONAMI));
  }

  /** The "D" the tracker button dispatches matches no key of the code, so
      besides closing the overlay that button resets the count to zero; the
      unlock count stays. */
  lemma TrackerKeyResets(s: KonamiState)
    ensures KeyDown(s, KeyEvent("D", false)) == s.(matchedCount := 0)
  {
    var key := ToLower("D");
    assert key == "d";
    assert forall i | 0 <= i < |KONAMI| :: key != KONAMI[i] by {
      forall i | 0 <= i < |KONAMI| ensures key != KONAMI[i] {
        assert |KONAMI[i]| != 1 || KONAMI[i][0] != 'd';
      }
    }
  }

  /** The component: its state, the keydown listener and the two buttons. */
  class DebtKonamiEasterEgg {
    var matchedCount: nat
    var open: bool
    var launchCount: nat

    function State(): KonamiState
      reads this
    {
      KonamiState(matchedCount, open, launchCount)
    }

    constructor()
      ensures State() == KonamiState(0, false, 0)
    {
      matchedCount, open, launchCount := 0, false, 0;
    }

    /** The keydown listener. */
    method OnKeyDown(event: KeyEvent)
      modifies this
      ensures State() == KeyDown(old(State()), event)
    {
      var next := KeyDown(State(), event);
      matchedCount, open, launchCount := next.matchedCount, next.open, next.launchCount;
    }

    /** Dismiss: closes the overlay. */
    method Dismiss()
      modifies this
      ensures State() == old(State()).(open := false)
    {
      open := false;
    }

    /** Open Floating Tracker: dispatches a keydown of "D" on the window,
        which this component's own listener receives first, then closes the
        overlay. */
    method OpenFloatingTracker()
      modifies this
      ensures State() == KeyDown(old(State()), KeyEvent("D", false)).(open := false)
    {
      OnKeyDown(KeyEvent("D", false));
      open := false;
    }
  }
}
