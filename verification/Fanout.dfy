/** One reader's bounded view of a numbered stream: a queue that makes room for its
    history, and a marker that ends it when the reader falls too far behind. */
module Fanout {
  import opened Wrappers

  /** An element of the stream (number 0 when it has none) or the marker that
      tells a dropped reader from where to resume. */
  datatype Elem = Event(number: nat, body: int) | Marker(last: nat)

  function SeqOf(e: Elem): nat {
    if e.Event? then e.number else 0
  }

  datatype Config = Config(queueCap: nat, backlog: seq<Elem>, skipTo: nat)

  /** headroom counts what is left, at the front of q, of the newest history. */
  datatype Queue = Queue(q: seq<Elem>, dead: bool, lastSeq: nat, skipTo: nat, headroom: nat, cap: nat)

  function Last(s: seq<Elem>): Elem
    requires s != []
  {
    s[|s| - 1]
  }

  function Opened(c: Config): Queue {
    Queue(c.backlog, false, if c.backlog == [] then 0 else SeqOf(Last(c.backlog)),
          c.skipTo, |c.backlog|, c.queueCap)
  }

  function Max(a: nat, b: nat): nat {
    if a >= b then a else b
  }

  predicate Ignored(s: Queue, e: Elem) {
    s.dead || (SeqOf(e) != 0 && SeqOf(e) <= s.skipTo)
  }

  /** Too many elements wait behind the newest history. */
  predicate Full(s: Queue) {
    |s.q| - s.headroom >= s.cap
  }

  function Pushed(s: Queue, e: Elem): Queue {
    if Ignored(s, e) then s
    else if Full(s) then s.(dead := true, q := s.q + [Marker(s.lastSeq)])
    else s.(q := s.q + [e], lastSeq := Max(s.lastSeq, SeqOf(e)))
  }

  function NewerThan(q: seq<Elem>, last: nat): seq<Elem> {
    if q == [] then []
    else NewerThan(q[..|q| - 1], last) + (if SeqOf(Last(q)) > last then [Last(q)] else [])
  }

  function Prepended(s: Queue, history: seq<Elem>): Queue {
    if history == [] then s
    else
      var kept := history + NewerThan(s.q, SeqOf(Last(history)));
      s.(q := kept, headroom := |history|, lastSeq := Max(s.lastSeq, SeqOf(Last(kept))))
  }

  function Popped(s: Queue): Queue
    requires s.q != []
  {
    s.(q := s.q[1..], headroom := if s.headroom > 0 then s.headroom - 1 else 0)
  }

  function Stopped(s: Queue): Queue {
    s.(dead := true, q := [], headroom := 0)
  }

  /** The subscriber itself. Every method body is one critical section, followed by the
      wake-up it owes. */
  class Sub {
    var q: seq<Elem>
    var dead: bool
    var lastSeq: nat
    const skipTo: nat
    var headroom: nat
    const cap: nat
    var wake: bool
    var closing: bool

    function State(): Queue
      reads this
    {
      Queue(q, dead, lastSeq, skipTo, headroom, cap)
    }

    constructor (c: Config)
      ensures State() == Opened(c)
      ensures wake == (c.backlog != []) && !closing
    {
      q, dead, lastSeq, headroom := c.backlog, false, 0, 0;
      skipTo, cap, wake, closing := c.skipTo, c.queueCap, false, false;
      if |c.backlog| > 0 {
        lastSeq := SeqOf(c.backlog[|c.backlog| - 1]);
        headroom := |c.backlog|;
        wake := true;
      }
    }

    method Push(e: Elem)
      modifies this
      ensures State() == Pushed(old(State()), e)
      ensures wake == (old(wake) || !Ignored(old(State()), e)) && closing == old(closing)
    {
      if dead {
        return;
      }
      var number := SeqOf(e);
      if number != 0 && number <= skipTo {
        return;
      }
      if |q| - headroom >= cap {
        dead := true;
        q := q + [Marker(lastSeq)];
        wake := true;
        return;
      }
      q := q + [e];
      if number > lastSeq {
        lastSeq := number;
      }
      wake := true;
    }

    method Prepend(history: seq<Elem>)
      modifies this
      ensures State() == Prepended(old(State()), history)
      ensures wake && closing == old(closing)
    {
      wake := true;
      if |history| == 0 {
        return;
      }
      var last := SeqOf(history[|history| - 1]);
      var kept := history;
      for k := 0 to |q|
        invariant kept == history + NewerThan(q[..k], last)
        invariant q == old(q) && State() == old(State())
      {
        assert q[..k + 1][..k] == q[..k];
        if SeqOf(q[k]) > last {
          kept := kept + [q[k]];
        }
      }
      assert q[..|q|] == q;
      q := kept;
      headroom := |history|;
      if SeqOf(kept[|kept| - 1]) > lastSeq {
        lastSeq := SeqOf(kept[|kept| - 1]);
      }
    }

    /** The pump's critical section: the next element to send, if any. */
    method TakeNext() returns (e: Option<Elem>, finished: bool)
      modifies this`q, this`headroom
      ensures old(q) == [] ==> e.None? && finished == dead && State() == old(State())
      ensures old(q) != [] ==> e == Some(old(q)[0]) && !finished && State() == Popped(old(State()))
    {
      if |q| == 0 {
        return None, dead;
      }
      e, finished := Some(q[0]), false;
      q := q[1..];
      if headroom > 0 {
        headroom := headroom - 1;
      }
    }

    /** The pump's inner loop while the reader keeps reading: it delivers the whole queue in
        order and then parks, or ends when the subscriber was dropped. */
    method Drain() returns (delivered: seq<Elem>, finished: bool)
      modifies this`q, this`headroom
      ensures delivered == old(q) && q == [] && finished == dead
    {
      delivered, finished := [], false;
      while true
        invariant delivered + q == old(q)
        decreases |q|
      {
        var e, f := TakeNext();
        if e.None? {
          return delivered, f;
        }
        delivered := delivered + [e.value];
      }
    }

    method Stop()
      modifies this
      ensures State() == Stopped(old(State())) && closing && wake == old(wake)
    {
      dead, q, headroom := true, [], 0;
      closing := true;
    }
  }
}
