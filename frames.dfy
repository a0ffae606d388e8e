/** The framing of the serial command stream read by uart_test.py: bytes
    accumulate into a frame until the terminator `!`, which closes the frame
    (the terminator itself is not part of it). Every other byte, spaces
    included, is kept. */
module Frames {

  newtype byte = x: int | 0 <= x < 256

  /** The frame terminator, `b'!'`. */
  const Bang: byte := 0x21

  /** The one frame the consumer acts on, `b'light'`. */
  const Light: seq<byte> := [0x6C, 0x69, 0x67, 0x68, 0x74]

  ghost predicate FramesClean(fs: seq<seq<byte>>)
  {
    forall i :: 0 <= i < |fs| ==> Bang !in fs[i]
  }

  /** The byte stream that produces the frames `fs`: each frame followed by
      its terminator, in order. */
  function Join(fs: seq<seq<byte>>): (s: seq<byte>)
  {
    if fs == [] then [] else Join(fs[..|fs| - 1]) + fs[|fs| - 1] + [Bang]
  }

  /** The state the frame accumulator is in after reading `s` from the
      start: the completed frames in order of completion, and the bytes of
      the frame still open. One step per byte, as the reader loop does. */
  function Split(s: seq<byte>): (r: (seq<seq<byte>>, seq<byte>))
    ensures FramesClean(r.0) && Bang !in r.1
  {
    if s == [] then ([], [])
    else
      var (fs, open) := Split(s[..|s| - 1]);
      assert s == s[..|s| - 1] + [s[|s| - 1]];
      if s[|s| - 1] == Bang then (fs + [open], []) else (fs, open + [s[|s| - 1]])
  }

  /** One byte more: the terminator closes the open frame (possibly empty)
      and starts a new one; any other byte goes on the end of the open frame. */
  lemma SplitStep(s: seq<byte>, b: byte)
    ensures b == Bang ==> Split(s + [b]) == (Split(s).0 + [Split(s).1], [])
    ensures b != Bang ==> Split(s + [b]) == (Split(s).0, Split(s).1 + [b])
  {
  }

  /** Round trip: the completed frames, each with its terminator, followed by
      the open frame give back the stream. */
  lemma {:induction false} SplitJoin(s: seq<byte>)
    ensures Join(Split(s).0) + Split(s).1 == s
  {
    if s != [] {
      var init, b := s[..|s| - 1], s[|s| - 1];
      assert s == init + [b];
      SplitJoin(init);
      SplitStep(init, b);
      var fs, open := Split(init).0, Split(init).1;
      if b == Bang {
        assert (fs + [open])[..|fs|] == fs;
        assert Join(fs + [open]) == (Join(fs) + open) + [Bang];
      } else {
        assert Join(fs) + (open + [b]) == (Join(fs) + open) + [b];
      }
    }
  }

  /** Bytes with no terminator only extend the open frame. */
  lemma {:induction false} SplitPlainSuffix(s: seq<byte>, t: seq<byte>)
    requires Bang !in t
    ensures Split(s + t) == (Split(s).0, Split(s).1 + t)
  {
    if t != [] {
      var init, b := t[..|t| - 1], t[|t| - 1];
      assert t == init + [b];
      assert Bang !in init;
      SplitPlainSuffix(s, init);
      assert s + t == (s + init) + [b];
      SplitStep(s + init, b);
      assert Split(s).1 + init + [b] == Split(s).1 + t;
    } else {
      assert s + t == s;
      assert Split(s).1 + t == Split(s).1;
    }
  }

  /** The other round trip: frames and an open frame free of terminators
      are recovered from the stream they produce. */
  lemma {:induction false} JoinSplit(fs: seq<seq<byte>>, open: seq<byte>)
    requires FramesClean(fs) && Bang !in open
    ensures Split(Join(fs) + open) == (fs, open)
  {
    var closed := Join(fs);
    if fs == [] {
      assert Split(closed) == ([], []);
    } else {
      var init, f := fs[..|fs| - 1], fs[|fs| - 1];
      assert FramesClean(init);
      JoinSplit(init, f);
      var before := Join(init) + f;
      SplitStep(before, Bang);
      assert closed == before + [Bang];
      assert init + [f] == fs;
      assert Split(closed) == (fs, []);
    }
    SplitPlainSuffix(closed, open);
    assert [] + open == open;
  }

  /** Reading on never changes or reorders frames already completed: the
      queue is filled first in, first out. */
  lemma {:induction false} SplitPrefix(s: seq<byte>, t: seq<byte>)
    ensures Split(s).0 <= Split(s + t).0
  {
    if t != [] {
      var init, b := t[..|t| - 1], t[|t| - 1];
      assert t == init + [b];
      SplitPrefix(s, init);
      assert s + t == (s + init) + [b];
      SplitStep(s + init, b);
    } else {
      assert s + t == s;
    }
  }

  /** There is one completed frame per terminator read. */
  lemma {:induction false} SplitCountsTerminators(s: seq<byte>)
    ensures |Split(s).0| == multiset(s)[Bang]
  {
    if s != [] {
      var init, b := s[..|s| - 1], s[|s| - 1];
      assert s == init + [b];
      SplitCountsTerminators(init);
      SplitStep(init, b);
      assert multiset(s) == multiset(init) + multiset{b};
    }
  }

  /** A terminator with nothing before it completes the empty frame. */
  lemma EmptyFrame(s: seq<byte>)
    requires Split(s).1 == []
    ensures Split(s + [Bang]) == (Split(s).0 + [[]], [])
  {
  }

  /** The number of frames equal to `b'light'`. */
  function CountLight(fs: seq<seq<byte>>): (n: nat)
  {
    if fs == [] then 0
    else CountLight(fs[..|fs| - 1]) + (if fs[|fs| - 1] == Light then 1 else 0)
  }

  /** Counting splits over concatenation. */
  lemma {:induction false} CountLightAppend(xs: seq<seq<byte>>, ys: seq<seq<byte>>)
    ensures CountLight(xs + ys) == CountLight(xs) + CountLight(ys)
  {
    if ys == [] {
      assert xs + ys == xs;
    } else {
      var init := ys[..|ys| - 1];
      CountLightAppend(xs, init);
      assert (xs + ys)[..|xs + ys| - 1] == xs + init;
    }
  }

  /** The count is zero exactly when no frame is `b'light'`. */
  lemma {:induction false} CountLightZero(fs: seq<seq<byte>>)
    ensures CountLight(fs) == 0 <==> Light !in fs
  {
    if fs != [] {
      var init := fs[..|fs| - 1];
      CountLightZero(init);
      assert fs == init + [fs[|fs| - 1]];
    }
  }

  predicate Odd(n: nat)
  {
    n % 2 == 1
  }

  /** The LED after toggling once per `b'light'` frame of `fs`. */
  function LedAfter(led: bool, fs: seq<seq<byte>>): (after: bool)
  {
    if fs == [] then led
    else
      var before := LedAfter(led, fs[..|fs| - 1]);
      if fs[|fs| - 1] == Light then !before else before
  }

  /** Toggling once per `b'light'` frame leaves the LED flipped exactly when
      there was an odd number of them. */
  lemma {:induction false} LedAfterParity(led: bool, fs: seq<seq<byte>>)
    ensures LedAfter(led, fs) == (led != Odd(CountLight(fs)))
  {
    if fs != [] {
      LedAfterParity(led, fs[..|fs| - 1]);
    }
  }
}
