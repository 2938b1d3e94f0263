/** The testimonial carousel: five testimonials, one shown at a time, with
    previous/next arrows, one indicator dot per testimonial, and a five-second
    autoplay timer that stops for good as soon as the visitor touches a
    control. The timer itself is not modelled; `Tick` is what one firing does. */
module Testimonials {
  import opened Strings

  /** The authors, in carousel order; of each testimonial only its author's
      initials are computed. */
  const Authors: seq<string> := ["Sarah Chen", "Michael Rodriguez", "Emily Watson", "David Park", "Lisa Thompson"]

  /** The number of testimonials on the page. */
  const TestimonialCount: int := |Authors|

  /** JavaScript's `%` on integers: the remainder of the division truncated
      toward zero, so it takes the sign of the dividend. */
  function JsRem(a: int, b: int): (r: int)
    requires b > 0
    ensures a >= 0 ==> 0 <= r < b && r == a % b
    ensures a < 0 ==> -b < r <= 0
    ensures (a - r) % b == 0
  {
    if a >= 0 then
      RemainderDiffers(a, b, a % b);
      a % b
    else
      RemainderDiffers(a, b, -((-a) % b));
      -((-a) % b)
  }

  /** Both candidate remainders differ from the dividend by a multiple of `b`. */
  lemma RemainderDiffers(a: int, b: int, r: int)
    requires b > 0
    requires (a >= 0 && r == a % b) || (a < 0 && r == -((-a) % b))
    ensures (a - r) % b == 0
  {
    if a >= 0 {
      assert a == b * (a / b) + a % b;
      assert a - r == (a / b) * b;
      MultipleRem(a / b, b);
    } else {
      var q := (-a) / b;
      assert -a == b * q + (-a) % b;
      assert a - r == (-q) * b;
      MultipleRem(-q, b);
    }
  }

  /** A multiple of `b` leaves no remainder. */
  lemma MultipleRem(q: int, b: int)
    requires b > 0
    ensures (q * b) % b == 0
  {
    var d, m := (q * b) / b, (q * b) % b;
    assert q * b == b * d + m;
    assert m == b * (q - d) by {
      assert b * (q - d) == q * b - b * d;
    }
    if q - d >= 1 {
      MulAtLeast(b, q - d);
    } else if q - d <= -1 {
      assert b * (q - d) == -(b * (d - q));
      MulAtLeast(b, d - q);
    }
  }

  /** A positive multiple of a positive `b` is at least `b`. */
  lemma {:induction false} MulAtLeast(b: int, k: int)
    requires b > 0 && k >= 1
    ensures b * k >= b
    decreases k
  {
    if k > 1 {
      MulAtLeast(b, k - 1);
      assert b * k == b * (k - 1) + b;
    }
  }

  datatype Carousel = Carousel(index: int, autoPlaying: bool)

  /** The carousel as the page mounts it: first testimonial, autoplay on. */
  const Initial: Carousel := Carousel(0, true)

  /** The index names a testimonial. */
  predicate InRange(c: Carousel)
  {
    0 <= c.index < TestimonialCount
  }

  /** `nextTestimonial`: advance by one, wrapping, and stop autoplay. */
  function Next(c: Carousel): (r: Carousel)
    ensures !r.autoPlaying
    ensures InRange(c) ==> r.index == (if c.index == TestimonialCount - 1 then 0 else c.index + 1)
  {
    Carousel(JsRem(c.index + 1, TestimonialCount), false)
  }

  /** `prevTestimonial`: step back by one, wrapping, and stop autoplay. */
  function Prev(c: Carousel): (r: Carousel)
    ensures !r.autoPlaying
    ensures InRange(c) ==> r.index == (if c.index == 0 then TestimonialCount - 1 else c.index - 1)
  {
    Carousel(JsRem(c.index - 1 + TestimonialCount, TestimonialCount), false)
  }

  /** `goToTestimonial(i)`: show testimonial `i` and stop autoplay. */
  function GoTo(c: Carousel, i: int): (r: Carousel)
    ensures r.index == i && !r.autoPlaying
  {
    Carousel(i, false)
  }

  /** One firing of the autoplay interval. The interval only exists while
      autoplay is on; it advances like `Next` but leaves autoplay alone. */
  function Tick(c: Carousel): (r: Carousel)
    ensures r.autoPlaying == c.autoPlaying
    ensures c.autoPlaying ==> r.index == Next(c).index
    ensures !c.autoPlaying ==> r == c
  {
    if c.autoPlaying then c.(index := JsRem(c.index + 1, TestimonialCount)) else c
  }

  /** Next then previous, or previous then next, shows the same testimonial again. */
  lemma NextPrevInverse(c: Carousel)
    requires InRange(c)
    ensures Prev(Next(c)).index == c.index
    ensures Next(Prev(c)).index == c.index
  {
  }

  /** `n` presses of the next arrow. */
  function NextTimes(c: Carousel, n: nat): Carousel
  {
    if n == 0 then c else Next(NextTimes(c, n - 1))
  }

  /** `n` firings of the autoplay timer. */
  function TickTimes(c: Carousel, n: nat): Carousel
  {
    if n == 0 then c else Tick(TickTimes(c, n - 1))
  }

  /** After `n > 0` presses of next the carousel shows testimonial
      `index + n` modulo five, with autoplay off. */
  lemma {:induction false} NextTimesIndex(c: Carousel, n: nat)
    requires InRange(c) && n > 0
    ensures NextTimes(c, n) == Carousel((c.index + n) % TestimonialCount, false)
  {
    if n > 1 {
      NextTimesIndex(c, n - 1);
    }
  }

  /** While autoplay is on, `n` firings show testimonial `index + n` modulo five. */
  lemma {:induction false} TickTimesIndex(c: Carousel, n: nat)
    requires InRange(c) && c.autoPlaying
    ensures TickTimes(c, n) == Carousel((c.index + n) % TestimonialCount, true)
  {
    if n > 0 {
      TickTimesIndex(c, n - 1);
    }
  }

  /** Adding whole laps of the carousel does not change the position. */
  lemma {:induction false} WholeLaps(i: int, laps: nat)
    requires 0 <= i < TestimonialCount
    ensures (i + laps * TestimonialCount) % TestimonialCount == i
  {
    if laps > 0 {
      WholeLaps(i, laps - 1);
      assert i + laps * TestimonialCount == (i + (laps - 1) * TestimonialCount) + TestimonialCount;
    }
  }

  /** Every whole number of laps of next presses (five presses per lap)
      comes back to the starting testimonial. */
  lemma NextLapsReturn(c: Carousel, laps: nat)
    requires InRange(c) && laps > 0
    ensures NextTimes(c, laps * TestimonialCount).index == c.index
  {
    NextTimesIndex(c, laps * TestimonialCount);
    WholeLaps(c.index, laps);
  }

  /** Every whole number of laps of autoplay firings comes back to the
      starting carousel. */
  lemma TickLapsReturn(c: Carousel, laps: nat)
    requires InRange(c) && c.autoPlaying
    ensures TickTimes(c, laps * TestimonialCount) == c
  {
    TickTimesIndex(c, laps * TestimonialCount);
    WholeLaps(c.index, laps);
  }

  /** What the visitor (or the timer) can do. `Dot(k)` is the `k`-th
      indicator; the page renders one per testimonial. */
  datatype Event = NextArrow | PrevArrow | Dot(k: int) | TimerFired

  /** The dots the page renders: one for each testimonial, numbered from 0. */
  predicate RenderedDot(e: Event)
  {
    e.Dot? ==> 0 <= e.k < TestimonialCount
  }

  function Step(c: Carousel, e: Event): Carousel
  {
    match e
    case NextArrow => Next(c)
    case PrevArrow => Prev(c)
    case Dot(k) => GoTo(c, k)
    case TimerFired => Tick(c)
  }

  /** The carousel after a sequence of events, oldest first. */
  function Run(c: Carousel, es: seq<Event>): Carousel
    decreases |es|
  {
    if |es| == 0 then c else Run(Step(c, es[0]), es[1..])
  }

  /** Starting from a valid index, every sequence of rendered events keeps
      the index naming a testimonial. */
  lemma {:induction false} RunStaysInRange(c: Carousel, es: seq<Event>)
    requires InRange(c)
    requires forall j :: 0 <= j < |es| ==> RenderedDot(es[j])
    ensures InRange(Run(c, es))
    decreases |es|
  {
    if |es| > 0 {
      assert RenderedDot(es[0]);
      RunStaysInRange(Step(c, es[0]), es[1..]);
    }
  }

  /** Autoplay stays on exactly as long as only the timer has fired: one
      touch of an arrow or a dot turns it off, and nothing turns it back on. */
  lemma {:induction false} AutoplayNeverResumes(c: Carousel, es: seq<Event>)
    ensures Run(c, es).autoPlaying <==> c.autoPlaying && forall j :: 0 <= j < |es| ==> es[j] == TimerFired
    decreases |es|
  {
    if |es| > 0 {
      AutoplayNeverResumes(Step(c, es[0]), es[1..]);
      if forall j :: 0 <= j < |es[1..]| ==> es[1..][j] == TimerFired {
        if es[0] == TimerFired {
          assert forall j :: 0 <= j < |es| ==> es[j] == TimerFired by {
            forall j | 0 <= j < |es| ensures es[j] == TimerFired {
              if j > 0 { assert es[j] == es[1..][j - 1]; }
            }
          }
        }
      }
    }
  }

  /** The avatar fallback's letter for one word: its first character, or
      nothing for an empty word (JavaScript joins `undefined` as ""). */
  function FirstLetter(w: string): (r: string)
    ensures |w| > 0 ==> r == [w[0]]
    ensures |w| == 0 ==> r == ""
  {
    if |w| == 0 then "" else [w[0]]
  }

  /** The first letters of `words`, concatenated. */
  function FirstLetters(words: seq<string>): (r: string)
    ensures |r| <= |words|
  {
    if |words| == 0 then "" else FirstLetter(words[0]) + FirstLetters(words[1..])
  }

  /** The avatar fallback: the first character of each space-separated word of the author. */
  function Initials(author: string): string
  {
    FirstLetters(Split(author, ' '))
  }

  /** Non-empty words: one letter per word. */
  lemma {:induction false} FirstLettersOfWords(words: seq<string>)
    requires forall k :: 0 <= k < |words| ==> |words[k]| > 0
    ensures FirstLetters(words) == seq(|words|, k requires 0 <= k < |words| => words[k][0])
  {
    if |words| > 0 {
      FirstLettersOfWords(words[1..]);
    }
  }

  /** For a name made of non-empty words separated by single spaces, the
      initials are the words' first letters in order. */
  lemma InitialsOfName(words: seq<string>)
    requires |words| >= 1
    requires forall k :: 0 <= k < |words| ==> |words[k]| > 0 && NoSep(words[k], ' ')
    ensures Initials(Join(words, ' ')) == seq(|words|, k requires 0 <= k < |words| => words[k][0])
  {
    SplitJoin(words, ' ');
    FirstLettersOfWords(words);
  }

  /** The first testimonial, by Sarah Chen, shows "SC". */
  lemma FirstAuthorInitials()
    ensures Initials(Authors[0]) == "SC"
  {
    var words := ["Sarah", "Chen"];
    assert Join(words, ' ') == "Sarah Chen" by {
      assert Join(words[1..], ' ') == "Chen";
    }
    InitialsOfName(words);
  }
}
