/** The serial command link of uart_test.py: a producer task reads the UART
    one byte at a time and turns the stream into frames on a queue, and a
    consumer task takes frames off the queue and toggles the LED on every
    `b'light'` frame. The cooperative scheduler is collapsed into explicit
    steps: one poll of the UART by the producer, or one `get` by the consumer. */
module UartTest {
  import opened Frames

  /** What one poll of the UART finds: `uart.any()` is false, or one byte. */
  datatype Poll = Idle | Read(b: byte)

  /** One scheduling step of the two tasks. */
  datatype Step = Producer(poll: Poll) | Consumer

  datatype Option<T> = None | Some(value: T)

  /** The bytes a sequence of polls reads, in order. */
  function Received(polls: seq<Poll>): (s: seq<byte>)
  {
    if polls == [] then []
    else
      var last := polls[|polls| - 1];
      Received(polls[..|polls| - 1]) + (if last.Read? then [last.b] else [])
  }

  /** The polls the producer makes during a schedule, in order. */
  function Polls(steps: seq<Step>): (ps: seq<Poll>)
  {
    if steps == [] then []
    else
      var last := steps[|steps| - 1];
      Polls(steps[..|steps| - 1]) + (if last.Producer? then [last.poll] else [])
  }

  /** How many frames main has taken after `steps`, when it has taken `k`
      of the frames completed by the stream `s` before them: a consumer step
      takes one frame exactly when a completed frame is still waiting, and a
      producer step that reads a byte extends the stream. */
  ghost function TakenAfter(k: nat, s: seq<byte>, steps: seq<Step>): (n: nat)
    decreases |steps|
  {
    if steps == [] then k
    else match steps[0] {
      case Producer(Idle) => TakenAfter(k, s, steps[1..])
      case Producer(Read(b)) => TakenAfter(k, s + [b], steps[1..])
      case Consumer => TakenAfter(if k < |Split(s).0| then k + 1 else k, s, steps[1..])
    }
  }

  /** The state shared by the two tasks, with the history that explains it. */
  class Link {
    /** `message` in uart_handler: the bytes of the frame being read. */
    var buffer: seq<byte>
    /** `event_queue`: completed frames not yet taken by main. */
    var queue: seq<seq<byte>>
    /** The LED on pin 25. */
    var led: bool

    /** Every byte read from the UART so far. */
    ghost var stream: seq<byte>
    /** Every frame main has taken, in the order it took them. */
    ghost var taken: seq<seq<byte>>
    /** The LED level before main took any frame. */
    ghost const initialLed: bool

    /** The frames taken and still queued are, in order, exactly the frames
        completed by the stream read so far, and the buffer is the open
        frame; the LED has been toggled once per `b'light'` frame taken. */
    ghost predicate Valid()
      reads this
    {
      && Split(stream) == (taken + queue, buffer)
      && led == LedAfter(initialLed, taken)
    }

    constructor (ledOn: bool)
      ensures Valid()
      ensures buffer == [] && queue == [] && led == ledOn
      ensures stream == [] && taken == [] && initialLed == ledOn
    {
      buffer, queue, led := [], [], ledOn;
      stream, taken := [], [];
      initialLed := ledOn;
    }

    /** The body of uart_handler's loop once a byte `b` has been read. */
    method Feed(b: byte)
      requires Valid()
      modifies this
      ensures Valid()
      ensures stream == old(stream) + [b]
      ensures b == Bang ==> queue == old(queue) + [old(buffer)] && buffer == []
      ensures b != Bang ==> queue == old(queue) && buffer == old(buffer) + [b]
      ensures led == old(led) && taken == old(taken)
    {
      SplitStep(stream, b);
      if b == Bang {
        assert taken + queue + [buffer] == taken + (queue + [buffer]);
        queue := queue + [buffer];
        buffer := [];
      } else {
        buffer := buffer + [b];
      }
      stream := stream + [b];
    }

    /** One pass of uart_handler's loop: when no byte is available nothing
        is read and nothing changes. */
    method PollOnce(p: Poll)
      requires Valid()
      modifies this
      ensures Valid()
      ensures p.Idle? ==> buffer == old(buffer) && queue == old(queue) && stream == old(stream)
      ensures p.Read? ==> stream == old(stream) + [p.b]
      ensures p.Read? && p.b == Bang ==> queue == old(queue) + [old(buffer)] && buffer == []
      ensures p.Read? && p.b != Bang ==> queue == old(queue) && buffer == old(buffer) + [p.b]
      ensures led == old(led) && taken == old(taken)
    {
      match p
      case Idle =>
      case Read(b) => Feed(b);
    }

    /** uart_handler over a finite run of polls: everything read is framed,
        and frames already queued stay first in line. */
    method Handler(polls: seq<Poll>)
      requires Valid()
      modifies this
      ensures Valid()
      ensures stream == old(stream) + Received(polls)
      ensures old(queue) <= queue
      ensures led == old(led) && taken == old(taken)
    {
      var i := 0;
      while i < |polls|
        invariant 0 <= i <= |polls|
        invariant Valid()
        invariant stream == old(stream) + Received(polls[..i])
        invariant led == old(led) && taken == old(taken)
      {
        assert polls[..i + 1][..i] == polls[..i];
        PollOnce(polls[i]);
        i := i + 1;
      }
      assert polls[..i] == polls;
      SplitPrefix(old(stream), Received(polls));
      assert old(taken) + old(queue) <= taken + queue;
      assert old(queue) == queue[..|old(queue)|] by {
        forall k | 0 <= k < |old(queue)|
          ensures old(queue)[k] == queue[k]
        {
          assert (old(taken) + old(queue))[|taken| + k] == (taken + queue)[|taken| + k];
        }
      }
    }

    /** One `event_queue.get()` of main, and the toggle that follows on a
        `b'light'` frame. On an empty queue main would wait: nothing is taken
        and nothing changes. */
    method Consume() returns (frame: Option<seq<byte>>)
      requires Valid()
      modifies this
      ensures Valid()
      ensures old(queue) == [] ==> frame == None && queue == [] && led == old(led) && taken == old(taken)
      ensures old(queue) != [] ==>
        && frame == Some(old(queue)[0])
        && queue == old(queue)[1..]
        && taken == old(taken) + [old(queue)[0]]
        && led == (old(led) != (old(queue)[0] == Light))
      ensures buffer == old(buffer) && stream == old(stream)
    {
      if queue == [] {
        frame := None;
      } else {
        var f := queue[0];
        assert taken + queue == (taken + [f]) + queue[1..];
        assert (taken + [f])[..|taken|] == taken;
        queue := queue[1..];
        taken := taken + [f];
        if f == Light {
          led := !led;
        }
        frame := Some(f);
      }
    }

    /** main until it would wait: it takes every queued frame, in queue
        order, and the LED ends flipped exactly when an odd number of them
        were `b'light'`. */
    method Drain() returns (frames: seq<seq<byte>>)
      requires Valid()
      modifies this
      ensures Valid()
      ensures frames == old(queue) && queue == []
      ensures taken == old(taken) + frames
      ensures led == (old(led) != Odd(CountLight(frames)))
      ensures buffer == old(buffer) && stream == old(stream)
    {
      frames := [];
      while queue != []
        invariant Valid()
        invariant frames + queue == old(queue)
        invariant taken == old(taken) + frames
        invariant led == LedAfter(old(led), frames)
        invariant buffer == old(buffer) && stream == old(stream)
        decreases |queue|
      {
        var f := Consume();
        assert (frames + [f.value])[..|frames|] == frames;
        frames := frames + [f.value];
      }
      LedAfterParity(old(led), frames);
    }

    /** One scheduling step: a producer poll or a consumer `get`. */
    method StepOnce(step: Step)
      requires Valid()
      modifies this
      ensures Valid()
      ensures stream == old(stream) + Received(Polls([step]))
      ensures step.Producer? ==> taken == old(taken) && led == old(led)
      ensures step.Consumer? ==> buffer == old(buffer) && stream == old(stream)
      ensures step.Consumer? && old(queue) == [] ==> taken == old(taken) && queue == []
      ensures step.Consumer? && old(queue) != [] ==>
        taken == old(taken) + [old(queue)[0]] && queue == old(queue)[1..]
    {
      assert [step][..0] == [];
      assert Polls([step]) == if step.Producer? then [step.poll] else [];
      assert step.Producer? ==> [step.poll][..0] == [];
      match step {
        case Producer(p) => PollOnce(p);
        case Consumer => var _ := Consume();
      }
    }

    /** The two tasks interleaved by a schedule: every byte the producer
        polls is read, and main takes exactly the number of frames the fold
        `TakenAfter` gives, always the oldest waiting one. With Valid() this
        fixes the whole final state. */
    method Run(schedule: seq<Step>)
      requires Valid()
      modifies this
      ensures Valid()
      ensures stream == old(stream) + Received(Polls(schedule))
      ensures old(taken) <= taken
      ensures |taken| == TakenAfter(|old(taken)|, old(stream), schedule)
    {
      var i := 0;
      while i < |schedule|
        invariant 0 <= i <= |schedule|
        invariant Valid()
        invariant stream == old(stream) + Received(Polls(schedule[..i]))
        invariant old(taken) <= taken
        invariant TakenAfter(|taken|, stream, schedule[i..])
               == TakenAfter(|old(taken)|, old(stream), schedule)
      {
        ghost var before, read := taken, stream;
        ghost var ps := Polls(schedule[..i]);
        var step := schedule[i];
        assert schedule[..i + 1][..i] == schedule[..i];
        assert schedule[i..][0] == step && schedule[i..][1..] == schedule[i + 1..];
        assert |Split(stream).0| == |taken| + |queue|;
        StepOnce(step);
        assert old(taken) <= before <= taken;
        match step {
          case Producer(Idle) =>
            assert [step][..0] == [] && [step.poll][..0] == [];
            assert Received(Polls([step])) == [];
            assert stream == read && taken == before;
            assert TakenAfter(|before|, read, schedule[i..]) == TakenAfter(|taken|, stream, schedule[i + 1..]);
          case Producer(Read(b)) =>
            assert [step][..0] == [] && [step.poll][..0] == [];
            assert Received(Polls([step])) == [b];
            assert stream == read + [b] && taken == before;
            assert schedule[i..][0] == Producer(Read(b));
            assert TakenAfter(|before|, read, schedule[i..]) == TakenAfter(|taken|, stream, schedule[i + 1..]);
          case Consumer =>
            assert |taken| == if |before| < |Split(read).0| then |before| + 1 else |before|;
            assert TakenAfter(|before|, read, schedule[i..]) == TakenAfter(|taken|, stream, schedule[i + 1..]);
        }
        if step.Producer? {
          assert Polls(schedule[..i + 1]) == ps + [step.poll];
          assert (ps + [step.poll])[..|ps|] == ps;
          assert [step.poll][..0] == [];
        } else {
          assert Polls(schedule[..i + 1]) == ps;
        }
        i := i + 1;
      }
      assert schedule[..i] == schedule;
    }
  }

  /** What a valid link promises: the frames taken and queued, each with
      its terminator, followed by the buffer give back every byte read; no
      frame and no buffer holds a terminator; and the LED shows the initial
      level flipped by the parity of the `b'light'` frames taken. */
  lemma ValidMeans(l: Link)
    requires l.Valid()
    ensures Join(l.taken + l.queue) + l.buffer == l.stream
    ensures FramesClean(l.taken + l.queue) && Bang !in l.buffer
    ensures l.led == (l.initialLed != Odd(CountLight(l.taken)))
  {
    SplitJoin(l.stream);
    LedAfterParity(l.initialLed, l.taken);
  }
}
