/**
 * The state carousel (app/components/StateCarousel.tsx): the states are cut
 * into slides of one or two cards, and buttons, swipes and arrow keys move
 * between slides without leaving the range of slides.
 */
module StateCarousel {
  import opened Wrappers

  function Min(a: int, b: int): int {
    if a <= b then a else b
  }

  /** The chunks concatenated in order. */
  function Flatten<T>(chunks: seq<seq<T>>): seq<T>
    decreases |chunks|
  {
    if chunks == [] then [] else chunks[0] + Flatten(chunks[1..])
  }

  /** `s` cut into consecutive chunks of `size` items, the last one
      possibly shorter. */
  function Chunked<T>(s: seq<T>, size: nat): seq<seq<T>>
    requires size > 0
    decreases |s|
  {
    if s == [] then []
    else if |s| <= size then [s]
    else [s[..size]] + Chunked(s[size..], size)
  }

  /** The chunks concatenate back to `s`. */
  lemma {:induction false} ChunkedFlatten<T>(s: seq<T>, size: nat)
    requires size > 0
    ensures Flatten(Chunked(s, size)) == s
    decreases |s|
  {
    if |s| > size {
      ChunkedFlatten(s[size..], size);
      var chunks := Chunked(s, size);
      assert chunks[0] == s[..size] && chunks[1..] == Chunked(s[size..], size);
      assert s == s[..size] + s[size..];
    } else if s != [] {
      assert Flatten([s]) == s + Flatten([s][1..]);
    }
  }

  /** No chunk is empty or longer than `size`, and all but the last have
      exactly `size` items. */
  lemma {:induction false} ChunkedSizes<T>(s: seq<T>, size: nat)
    requires size > 0
    ensures forall k | 0 <= k < |Chunked(s, size)| :: 0 < |Chunked(s, size)[k]| <= size
    ensures forall k | 0 <= k < |Chunked(s, size)| - 1 :: |Chunked(s, size)[k]| == size
    decreases |s|
  {
    if |s| > size {
      ChunkedSizes(s[size..], size);
      var chunks := Chunked(s, size);
      var rest := Chunked(s[size..], size);
      assert chunks == [s[..size]] + rest;
      forall k | 0 <= k < |chunks|
        ensures 0 < |chunks[k]| <= size && (k < |chunks| - 1 ==> |chunks[k]| == size)
      {
        if k > 0 {
          assert chunks[k] == rest[k - 1];
        }
      }
    }
  }

  /** There are ceil(|s| / size) chunks: k chunks with
      |s| <= k * size < |s| + size. */
  lemma {:induction false} ChunkedCount<T>(s: seq<T>, size: nat)
    requires size > 0
    ensures |s| <= |Chunked(s, size)| * size < |s| + size
    decreases |s|
  {
    if |s| > size {
      ChunkedCount(s[size..], size);
      ChunkedHead(s, size);
      var n := |Chunked(s[size..], size)|;
      assert |Chunked(s, size)| == n + 1;
      assert (n + 1) * size == n * size + size;
    }
  }

  /** The first chunk, then the chunks of what follows it. */
  lemma ChunkedHead<T>(s: seq<T>, size: nat)
    requires size > 0 && s != []
    ensures Chunked(s, size) == [s[..Min(size, |s|)]] + Chunked(s[Min(size, |s|)..], size)
  {
    if |s| <= size {
      assert s[..|s|] == s;
      assert s[|s|..] == [];
    }
  }

  /** One turn of chunkStates' loop: the slice from `index` is the first of
      the chunks that remain. */
  lemma ChunkStep<T>(states: seq<T>, size: nat, index: nat, chunks: seq<seq<T>>)
    requires size > 0 && index < |states|
    requires chunks + Chunked(states[index..], size) == Chunked(states, size)
    ensures chunks + [states[index..Min(index + size, |states|)]] + Chunked(states[Min(index + size, |states|)..], size)
            == Chunked(states, size)
  {
    var end := Min(index + size, |states|);
    var rest := states[index..];
    ChunkedHead(rest, size);
    assert rest[..Min(size, |rest|)] == states[index..end];
    assert rest[Min(size, |rest|)..] == states[end..];
  }

  /** chunkStates: the loop over the start index of each slide. */
  method ChunkStates<T>(states: seq<T>, size: nat) returns (chunks: seq<seq<T>>)
    requires size > 0
    ensures chunks == Chunked(states, size)
  {
    chunks := [];
    var index := 0;
    while index < |states|
      invariant chunks + Chunked(states[Min(index, |states|)..], size) == Chunked(states, size)
      decreases |states| - index
    {
      ChunkStep(states, size, index, chunks);
      chunks := chunks + [states[index..Min(index + size, |states|)]];
      index := index + size;
    }
    assert chunks + [] == chunks;
  }

  /** cardsPerSlide for a window `width` pixels wide. */
  function CardsPerSlide(width: real): (cards: nat)
    ensures cards == 1 || cards == 2
    ensures cards == 2 <==> width >= 768.0
  {
    if width >= 768.0 then 2 else 1
  }

  /** lastSlideIndex: the index of the last slide, 0 with none. */
  function LastSlideIndex(slideCount: nat): (last: nat)
    ensures slideCount > 0 ==> last == slideCount - 1
    ensures slideCount == 0 ==> last == 0
  {
    if slideCount == 0 then 0 else slideCount - 1
  }

  /** currentSlide: the active slide, clamped to the last one. */
  function CurrentSlide(activeSlide: nat, lastSlideIndex: nat): (current: nat)
    ensures current <= lastSlideIndex && current <= activeSlide
    ensures current == activeSlide || current == lastSlideIndex
  {
    Min(activeSlide, lastSlideIndex)
  }

  /** goToPrevious's target: one slide back, never below the first. */
  function Previous(current: nat): (target: nat)
    ensures current > 0 ==> target == current - 1
    ensures current == 0 ==> target == 0
  {
    if current == 0 then 0 else current - 1
  }

  /** goToNext's target: one slide on, never past the last. */
  function Next(current: nat, lastSlideIndex: nat): (target: nat)
    ensures target <= lastSlideIndex || target == current
    ensures current < lastSlideIndex ==> target == current + 1
    ensures current >= lastSlideIndex ==> target == lastSlideIndex
  {
    Min(lastSlideIndex, current + 1)
  }

  /** The current slide is always one of the slides there are. */
  lemma CurrentIsASlide(activeSlide: nat, slideCount: nat)
    requires slideCount > 0
    ensures CurrentSlide(activeSlide, LastSlideIndex(slideCount)) < slideCount
  {
  }

  /** Next and previous undo each other inside the range of slides. */
  lemma NextPreviousInverse(current: nat, lastSlideIndex: nat)
    requires current <= lastSlideIndex
    ensures current < lastSlideIndex ==> Previous(Next(current, lastSlideIndex)) == current
    ensures current > 0 ==> Next(Previous(current), lastSlideIndex) == current
  {
  }

  /** What a swipe does. */
  datatype Move = GoPrevious | GoNext | Stay

  /** A touch that moved from `startX` to `endX`: more than 50 pixels to the
      left goes on, more than 50 to the right goes back. */
  function SwipeMove(startX: real, endX: real): (m: Move)
    ensures m == GoNext <==> startX - endX > 50.0
    ensures m == GoPrevious <==> startX - endX < -50.0
  {
    var deltaX := startX - endX;
    if deltaX > 50.0 then GoNext else if deltaX < -50.0 then GoPrevious else Stay
  }

  /** What a key does: ArrowLeft goes back, ArrowRight goes on. */
  function KeyMove(key: string): (m: Move)
    ensures m == GoPrevious <==> key == "ArrowLeft"
    ensures m == GoNext <==> key == "ArrowRight"
  {
    if key == "ArrowLeft" then GoPrevious else if key == "ArrowRight" then GoNext else Stay
  }

  /** The component's state over its `states` prop. */
  class Carousel<T> {
    const states: seq<T>
    var cardsPerSlide: nat
    var activeSlide: nat
    var touchStartX: Option<real>

    ghost predicate Valid()
      reads this
    {
      cardsPerSlide == 1 || cardsPerSlide == 2
    }

    constructor(states: seq<T>)
      ensures Valid() && this.states == states
      ensures cardsPerSlide == 1 && activeSlide == 0 && touchStartX == None
    {
      this.states := states;
      cardsPerSlide, activeSlide, touchStartX := 1, 0, None;
    }

    function Slides(): seq<seq<T>>
      requires Valid()
      reads this
    {
      Chunked(states, cardsPerSlide)
    }

    function Current(): nat
      requires Valid()
      reads this
    {
      CurrentSlide(activeSlide, LastSlideIndex(|Slides()|))
    }

    /** The resize listener, at a window `width` pixels wide. */
    method UpdateCardsPerSlide(width: real)
      requires Valid()
      modifies this
      ensures Valid()
      ensures cardsPerSlide == CardsPerSlide(width)
      ensures activeSlide == old(activeSlide) && touchStartX == old(touchStartX)
    {
      cardsPerSlide := CardsPerSlide(width);
    }

    /** goToPrevious. */
    method GoToPrevious()
      requires Valid()
      modifies this
      ensures Valid() && cardsPerSlide == old(cardsPerSlide) && touchStartX == old(touchStartX)
      ensures activeSlide == Previous(old(Current()))
    {
      activeSlide := Previous(Current());
    }

    /** goToNext. */
    method GoToNext()
      requires Valid()
      modifies this
      ensures Valid() && cardsPerSlide == old(cardsPerSlide) && touchStartX == old(touchStartX)
      ensures activeSlide == Next(old(Current()), LastSlideIndex(|old(Slides())|))
    {
      activeSlide := Next(Current(), LastSlideIndex(|Slides()|));
    }

    /** handleTouchStart, with the first touch's x, if any. */
    method TouchStart(clientX: Option<real>)
      modifies this
      ensures touchStartX == clientX
      ensures cardsPerSlide == old(cardsPerSlide) && activeSlide == old(activeSlide)
    {
      touchStartX := clientX;
    }

    /** handleTouchEnd, with the first changed touch's x, if any: without a
        recorded start nothing happens; otherwise the swipe moves (a missing
        end counts as no movement) and the start is cleared. */
    method TouchEnd(clientX: Option<real>)
      requires Valid()
      modifies this
      ensures Valid() && cardsPerSlide == old(cardsPerSlide)
      ensures old(touchStartX).None? ==> activeSlide == old(activeSlide) && touchStartX == None
      ensures old(touchStartX).Some? ==>
                touchStartX == None
                && var move := SwipeMove(old(touchStartX).value, clientX.GetOr(old(touchStartX).value));
                   activeSlide == match move
                     case GoNext => Next(old(Current()), LastSlideIndex(|old(Slides())|))
                     case GoPrevious => Previous(old(Current()))
                     case Stay => old(activeSlide)
    {
      if touchStartX.None? {
        return;
      }
      var startX := touchStartX.value;
      var endX := clientX.GetOr(startX);
      var move := SwipeMove(startX, endX);
      if move == GoNext {
        GoToNext();
      } else if move == GoPrevious {
        GoToPrevious();
      }
      touchStartX := None;
    }

    /** handleKeyDown. */
    method KeyDown(key: string)
      requires Valid()
      modifies this
      ensures Valid() && cardsPerSlide == old(cardsPerSlide) && touchStartX == old(touchStartX)
      ensures activeSlide == match KeyMove(key)
                case GoNext => Next(old(Current()), LastSlideIndex(|old(Slides())|))
                case GoPrevious => Previous(old(Current()))
                case Stay => old(activeSlide)
    {
      var move := KeyMove(key);
      if move == GoPrevious {
        GoToPrevious();
      }
      if move == GoNext {
        GoToNext();
      }
    }
  }
}
