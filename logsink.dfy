/** The log window: messages are put on a FIFO and later drained into the
    text widget, one line each. */
module LogSink {
  import opened Strings
  import opened Messages

  /** The texts of the messages, in order. */
  function Texts(ms: seq<Line>): (r: seq<string>)
    ensures |r| == |ms|
  {
    if ms == [] then [] else [ms[0].Text()] + Texts(ms[1..])
  }

  /** The text the widget gains for the message texts `ts`, drained in
      order: each followed by a newline. */
  function Rendered(ts: seq<string>): string {
    if ts == [] then [] else ts[0] + "\n" + Rendered(ts[1..])
  }

  /** Draining the first message writes its text and a newline, then the
      rest. */
  lemma {:induction false} RenderedFirst(ms: seq<Line>)
    requires ms != []
    ensures Rendered(Texts(ms)) == ms[0].Text() + "\n" + Rendered(Texts(ms[1..]))
  {
    assert Texts(ms)[1..] == Texts(ms[1..]);
  }

  /** Draining in two batches writes what draining once writes: the order
      of the messages is all that matters, not when the timer fires. */
  lemma {:induction false} RenderedAppend(a: seq<string>, b: seq<string>)
    ensures Rendered(a + b) == Rendered(a) + Rendered(b)
  {
    if a == [] {
      assert a + b == b;
    } else {
      var ab := a + b;
      assert ab[0] == a[0] && ab[1..] == a[1..] + b;
      calc {
        Rendered(ab);
        a[0] + "\n" + Rendered(a[1..] + b);
        { RenderedAppend(a[1..], b); }
        a[0] + "\n" + (Rendered(a[1..]) + Rendered(b));
        Rendered(a) + Rendered(b);
      }
    }
  }

  /** The rendered text is the messages' texts and a final empty piece,
      joined by newlines. */
  lemma {:induction false} RenderedIsJoin(ts: seq<string>)
    ensures Rendered(ts) == Join(ts + [[]], '\n')
  {
    if ts != [] {
      RenderedIsJoin(ts[1..]);
      assert (ts + [[]])[1..] == ts[1..] + [[]];
    }
  }

  /** Messages without a newline of their own can be read back from the
      widget's text, one per line, in the order they were put. */
  lemma {:induction false} RenderedLines(ts: seq<string>)
    requires forall i :: 0 <= i < |ts| ==> '\n' !in ts[i]
    ensures Split(Rendered(ts), '\n') == ts + [[]]
  {
    RenderedIsJoin(ts);
    SplitJoin(ts + [[]], '\n');
  }
}
