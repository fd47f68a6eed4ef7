/**
 * The logo rapid-tap easter egg (app/components/LogoRapidTapEasterEgg.tsx):
 * clicks on the secret logo are time-stamped; five taps within 3.8 seconds
 * open the console overlay and clear the taps.
 */
module RapidTap {
  import opened JsArray

  const REQUIRED_TAPS: nat := 5
  const WINDOW_MS: int := 3800

  /** A tap time still inside the window that ends at `now`. */
  predicate InWindow(now: int, time: int) {
    now - time <= WINDOW_MS
  }

  /** `[...current, now].filter(...)`: the earlier taps still inside the
      window, in order, followed by this one. */
  function Candidates(current: seq<int>, now: int): (next: seq<int>)
    ensures |next| <= |current| + 1
    ensures now in next
    ensures forall t | t in next :: (t in current || t == now) && InWindow(now, t)
    ensures forall t | t in current && InWindow(now, t) :: t in next
    ensures (forall i | 0 <= i < |current| :: InWindow(now, current[i])) ==> next == current + [now]
    ensures next == Filter(current, Window(now)) + [now]
    ensures forall t :: multiset(next)[t]
                        == (if InWindow(now, t) then multiset(current)[t] else 0) + (if t == now then 1 else 0)
  {
    var all := current + [now];
    assert all[|current|] == now;
    FilterSnoc(current, now, Window(now));
    FilterCount(current, Window(now));
    Filter(all, Window(now))
  }

  /** The taps still inside the window that ends at `now`. */
  function Window(now: int): int -> bool {
    t => InWindow(now, t)
  }

  /** The outcome of one tap: the stored taps, and whether it opens the
      overlay. */
  datatype TapOutcome = TapOutcome(tapTimes: seq<int>, opens: bool)

  /** The state updater of a tap at `now`. */
  function Tap(current: seq<int>, now: int): (r: TapOutcome)
    ensures |r.tapTimes| < REQUIRED_TAPS
    ensures r.opens <==> |Candidates(current, now)| >= REQUIRED_TAPS
    ensures r.opens ==> r.tapTimes == []
    ensures !r.opens ==> r.tapTimes == Candidates(current, now)
  {
    var next := Candidates(current, now);
    if |next| >= REQUIRED_TAPS then TapOutcome([], true) else TapOutcome(next, false)
  }

  /** Taps at non-decreasing times, at most WINDOW_MS apart from first to
      last. */
  predicate QuickTaps(times: seq<int>) {
    (forall i, j | 0 <= i < j < |times| :: times[i] <= times[j])
    && (|times| > 0 ==> times[|times| - 1] - times[0] <= WINDOW_MS)
  }

  /** Dropping the last of a run of quick taps leaves a run of quick taps,
      all inside the window of the last one. */
  lemma QuickTapsInit(times: seq<int>)
    requires times != [] && QuickTaps(times)
    ensures QuickTaps(times[..|times| - 1])
    ensures forall i | 0 <= i < |times| - 1 :: InWindow(times[|times| - 1], times[i])
  {
    var init := times[..|times| - 1];
    var now := times[|times| - 1];
    if |init| > 0 {
      assert init[|init| - 1] == times[|init| - 1] <= now;
      assert init[0] == times[0];
    }
    forall i | 0 <= i < |init| ensures InWindow(now, times[i]) {
      assert times[0] <= times[i];
    }
  }

  /** Starting with no taps, the first four of a run of quick taps are all
      stored and none opens the overlay. */
  lemma {:induction false} QuickTapsStored(times: seq<int>)
    requires |times| < REQUIRED_TAPS && QuickTaps(times)
    ensures Stored(times) == times
    decreases |times|
  {
    if times != [] {
      var init := times[..|times| - 1];
      var now := times[|times| - 1];
      QuickTapsInit(times);
      QuickTapsStored(init);
      assert times == init + [now];
      StoredStep(init, now);
    }
  }

  /** A tap inside the window of all stored taps, with room for it, is
      stored after them. */
  lemma StoredStep(prefix: seq<int>, now: int)
    requires |prefix| + 1 < REQUIRED_TAPS && Stored(prefix) == prefix
    requires forall i | 0 <= i < |prefix| :: InWindow(now, prefix[i])
    ensures Stored(prefix + [now]) == prefix + [now]
  {
    var times := prefix + [now];
    assert times[..|times| - 1] == prefix;
    assert Stored(times) == Tap(Stored(prefix), now).tapTimes;
    assert Candidates(prefix, now) == times;
    assert Tap(prefix, now).tapTimes == times;
  }

  /** The stored taps after a run of taps on the logo, starting with none. */
  function Stored(times: seq<int>): seq<int>
    decreases |times|
  {
    if times == [] then []
    else Tap(Stored(times[..|times| - 1]), times[|times| - 1]).tapTimes
  }

  /** Five quick taps open the overlay on the fifth. */
  lemma FiveQuickTapsOpen(times: seq<int>)
    requires |times| == REQUIRED_TAPS && QuickTaps(times)
    ensures Tap(Stored(times[..REQUIRED_TAPS - 1]), times[REQUIRED_TAPS - 1]).opens
  {
    var init := times[..REQUIRED_TAPS - 1];
    var now := times[REQUIRED_TAPS - 1];
    QuickTapsInit(times);
    QuickTapsStored(init);
    assert forall i | 0 <= i < |init| :: InWindow(now, init[i]);
    assert Candidates(init, now) == init + [now];
  }

  /** Taps more than WINDOW_MS after every stored one never open the overlay
      while fewer than five are stored: the window forgets them. */
  lemma LateTapStartsOver(current: seq<int>, now: int)
    requires forall i | 0 <= i < |current| :: !InWindow(now, current[i])
    ensures Tap(current, now) == TapOutcome([now], false)
  {
    CandidatesAllNow(current, now);
  }

  /** When only the new tap is left in the window, the candidates are that
      tap alone. */
  lemma {:induction false} CandidatesAllNow(current: seq<int>, now: int)
    requires forall i | 0 <= i < |current| :: !InWindow(now, current[i])
    ensures Candidates(current, now) == [now]
    decreases |current|
  {
    if current != [] {
      assert !InWindow(now, current[0]);
      CandidatesAllNow(current[1..], now);
      assert current + [now] == [current[0]] + (current[1..] + [now]);
    }
  }

  /** The component: its tap list, its open flag, the click listener and the
      Close button. */
  class LogoRapidTapEasterEgg {
    var tapTimes: seq<int>
    var open: bool

    constructor()
      ensures tapTimes == [] && !open
    {
      tapTimes, open := [], false;
    }

    /** The window's click listener; `onSecretLogo` is whether the target
        lies inside an element marked `data-secret-logo="true"`, and `now`
        is `Date.now()`. */
    method OnClick(onSecretLogo: bool, now: int)
      modifies this
      ensures !onSecretLogo ==> tapTimes == old(tapTimes) && open == old(open)
      ensures onSecretLogo ==>
                tapTimes == Tap(old(tapTimes), now).tapTimes && open == (old(open) || Tap(old(tapTimes), now).opens)
    {
      if !onSecretLogo {
        return;
      }
      var outcome := Tap(tapTimes, now);
      if outcome.opens {
        open := true;
      }
      tapTimes := outcome.tapTimes;
    }

    /** Close: hides the overlay and keeps the taps. */
    method Close()
      modifies this
      ensures !open && tapTimes == old(tapTimes)
    {
      open := false;
    }
  }
}
