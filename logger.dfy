/** The diagnostic log of the loader (class Logger): a first-in first-out queue of
    messages with a size check on push, and a text stream the queue is drained into. */
module Logging {
  import Common

  /** The constant `mMaxQueueSize`. */
  const MaxQueueSize: nat := 16

  /** The most messages the queue can hold: the size check runs before the append, so
      a queue of exactly `MaxQueueSize` messages still grows by one. */
  const MaxHeld: nat := MaxQueueSize + 1

  /** The queue after `push(message)`: the oldest entry is dropped first when the queue
      already holds more than `MaxQueueSize` messages. */
  function Pushed(queue: seq<string>, message: string): (r: seq<string>)
    ensures |r| > 0 && r[|r| - 1] == message
    ensures |r| == if |queue| > MaxQueueSize then |queue| else |queue| + 1
    ensures r == (queue + [message])[|queue| + 1 - |r|..]
  {
    var dropped := if |queue| > MaxQueueSize then 1 else 0;
    assert queue[dropped..] + [message] == (queue + [message])[dropped..];
    queue[dropped..] + [message]
  }

  /** The queue after pushing `messages` one by one, oldest first. */
  function PushAll(queue: seq<string>, messages: seq<string>): seq<string>
    decreases |messages|
  {
    if messages == [] then queue
    else PushAll(Pushed(queue, messages[0]), messages[1..])
  }

  /** How many of `n` queued messages have been evicted. */
  function Excess(n: nat): nat
  {
    if n > MaxHeld then n - MaxHeld else 0
  }

  /** One push followed by keeping the newest of the rest keeps the newest of all. */
  lemma PushStep(queue: seq<string>, messages: seq<string>)
    requires |queue| <= MaxHeld && messages != []
    ensures var next := Pushed(queue, messages[0]);
      (next + messages[1..])[Excess(|next| + |messages| - 1)..] == (queue + messages)[Excess(|queue| + |messages|)..]
  {
    var all := queue + messages;
    var next := Pushed(queue, messages[0]);
    var dropped := |queue| + 1 - |next|;
    assert next + messages[1..] == all[dropped..] by {
      assert all == (queue + [messages[0]]) + messages[1..];
    }
  }

  /** Whatever is pushed, the queue holds the newest `MaxHeld` messages (or all of them
      when there are fewer), in the order they were pushed. */
  lemma {:induction false} PushAllKeepsNewest(queue: seq<string>, messages: seq<string>)
    requires |queue| <= MaxHeld
    ensures PushAll(queue, messages) == (queue + messages)[Excess(|queue| + |messages|)..]
    decreases |messages|
  {
    if messages == [] {
      assert Excess(|queue|) == 0;
      assert (queue + messages)[0..] == queue;
    } else {
      PushAllKeepsNewest(Pushed(queue, messages[0]), messages[1..]);
      PushStep(queue, messages);
    }
  }

  /** Seventeen messages pushed into an empty log are all kept: the real bound is one
      more than `MaxQueueSize`. */
  lemma SeventeenPushesKeepAll(messages: seq<string>)
    requires |messages| == MaxHeld
    ensures PushAll([], messages) == messages
  {
    var empty: seq<string> := [];
    PushAllKeepsNewest(empty, messages);
    calc {
      PushAll(empty, messages);
      (empty + messages)[Excess(|empty| + |messages|)..];
      { assert empty + messages == messages; assert Excess(|empty| + |messages|) == 0; }
      messages;
    }
  }

  /** The eighteenth message evicts the first one. */
  lemma EighteenthPushEvictsOldest(messages: seq<string>)
    requires |messages| == MaxHeld + 1
    ensures PushAll([], messages) == messages[1..]
  {
    var empty: seq<string> := [];
    PushAllKeepsNewest(empty, messages);
    calc {
      PushAll(empty, messages);
      (empty + messages)[Excess(|empty| + |messages|)..];
      { assert empty + messages == messages; assert Excess(|empty| + |messages|) == 1; }
      messages[1..];
    }
  }

  /** The text `toStream` writes for a queue: each message followed by a newline. */
  function Render(queue: seq<string>): string
  {
    if queue == [] then ""
    else queue[0] + "\n" + Render(queue[1..])
  }

  /** Splits text into its newline-terminated lines (a last line without a newline
      counts as a line). */
  function Lines(text: string): seq<string>
    decreases |text|
  {
    if text == [] then []
    else
      var i := Common.IndexOf(text, '\n');
      if i == |text| then [text] else [text[..i]] + Lines(text[i + 1..])
  }

  predicate SingleLine(message: string)
  {
    '\n' !in message
  }

  /** A newline-free line followed by a newline is split off as the first line. */
  lemma LinesOfLine(line: string, rest: string)
    requires SingleLine(line)
    ensures Lines(line + "\n" + rest) == [line] + Lines(rest)
  {
    var text := line + "\n" + rest;
    Common.IndexOfAfterText(line, '\n', rest);
    assert text[..|line|] == line;
    assert text[|line| + 1..] == rest;
  }

  /** The rendered log gives back the queued messages, in order, when none of them
      contains a newline of its own. */
  lemma {:induction false} LinesOfRender(queue: seq<string>)
    requires forall k :: 0 <= k < |queue| ==> SingleLine(queue[k])
    ensures Lines(Render(queue)) == queue
  {
    if queue != [] {
      assert SingleLine(queue[0]);
      LinesOfLine(queue[0], Render(queue[1..]));
      LinesOfRender(queue[1..]);
      assert [queue[0]] + queue[1..] == queue;
    }
  }

  /** Rendering a queue piece by piece renders the whole queue. */
  lemma {:induction false} RenderAppend(front: seq<string>, back: seq<string>)
    ensures Render(front + back) == Render(front) + Render(back)
  {
    if front == [] {
      assert front + back == back;
    } else {
      assert (front + back)[1..] == front[1..] + back;
      RenderAppend(front[1..], back);
    }
  }

  /** Writing the next queued message after the text of those before it gives the text
      of the queue up to and including it. */
  lemma DrainStep(queue: seq<string>, drained: nat)
    requires drained < |queue|
    ensures Render(queue[..drained]) + queue[drained] + "\n" == Render(queue[..drained + 1])
  {
    assert queue[..drained + 1] == queue[..drained] + [queue[drained]];
    RenderAppend(queue[..drained], [queue[drained]]);
    assert Render([queue[drained]]) == queue[drained] + "\n" + Render([]);
  }

  class Logger {
    /** `mMessageQueue`, oldest message first. */
    var queue: seq<string>
    /** The text held by `mStream`. */
    var stream: string

    ghost predicate Valid()
      reads this
    {
      |queue| <= MaxHeld
    }

    constructor ()
      ensures Valid() && queue == [] && stream == ""
    {
      queue := [];
      stream := "";
    }

    method Push(message: string)
      requires Valid()
      modifies this
      ensures Valid()
      ensures queue == Pushed(old(queue), message)
      ensures stream == old(stream)
    {
      if |queue| > MaxQueueSize {
        queue := queue[1..];
      }
      queue := queue + [message];
    }

    /** `toString`: the text last rendered by `ToStream`, read without touching the queue. */
    function ToString(): string
      reads this
    {
      stream
    }

    /** `ResetStream`: empties the stream's text (and resets its state flags and number
      base, which the model does not track). */
    method ResetStream()
      modifies this`stream
      ensures stream == ""
    {
      stream := "";
    }

    /** Drains the queue into the freshly reset stream, one message per line. */
    method ToStream() returns (text: string)
      requires Valid()
      modifies this
      ensures Valid()
      ensures queue == []
      ensures stream == Render(old(queue)) && text == stream && ToString() == stream
    {
      ResetStream();
      ghost var drained := 0;
      while queue != []
        invariant drained <= |old(queue)| && queue == old(queue)[drained..]
        invariant stream == Render(old(queue)[..drained])
        decreases |queue|
      {
        DrainStep(old(queue), drained);
        stream := stream + queue[0] + "\n";
        queue := queue[1..];
        drained := drained + 1;
      }
      assert old(queue)[..drained] == old(queue);
      text := stream;
    }

    method Clear()
      modifies this
      ensures Valid()
      ensures queue == [] && stream == ""
    {
      queue := [];
      ResetStream();
    }
  }
}
