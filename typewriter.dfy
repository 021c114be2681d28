/**
 * The welcome banner's typewriter: it types the current message one character
 * per timer tick and, once the message is complete, moves on to the next of
 * four messages, cyclically. Timers are left out: each tick is one step.
 */
module Typewriter {

  const Messages: seq<string> := [
    "EDERSTONE TECH: KNOWLEDGE SYNC ACTIVE.",
    "CODE SANDBOX READY FOR INITIATION.",
    "RESEARCH BASE ACCESS GRANTED.",
    "SYSTEM STATUS: ALL CORE MODULES ONLINE."
  ]

  /** `(msgIndex + 1) % messages.length`: the next message, wrapping after the last. */
  function NextIndex(k: nat): (next: nat)
    requires k < |Messages|
    ensures next < |Messages|
    ensures k + 1 < |Messages| ==> next == k + 1
    ensures k + 1 == |Messages| ==> next == 0
  {
    (k + 1) % |Messages|
  }

  /** `msgIndex`, the character counter `i`, and the banner's text. */
  datatype Typing = Typing(msgIndex: nat, i: nat, text: string)

  /** The banner shows the first `i` characters of the current message. */
  predicate Shows(t: Typing) {
    && t.msgIndex < |Messages|
    && t.i <= |Messages[t.msgIndex]|
    && t.text == Messages[t.msgIndex][..t.i]
  }

  /** `type`: append the next character, if the message has one left. */
  function Type(t: Typing): (r: Typing)
    requires Shows(t)
    ensures Shows(r) && r.msgIndex == t.msgIndex
    ensures t.i < |Messages[t.msgIndex]| ==> r.i == t.i + 1
    ensures t.i == |Messages[t.msgIndex]| ==> r == t
  {
    var txt := Messages[t.msgIndex];
    if t.i < |txt| then
      assert txt[..t.i + 1] == txt[..t.i] + [txt[t.i]];
      t.(text := t.text + [txt[t.i]], i := t.i + 1)
    else t
  }

  /**
   * `typeWriter`: clear the banner, restart the counter on message `k`, and
   * type its first character at once.
   */
  function TypeWriter(k: nat): (r: Typing)
    requires k < |Messages|
    ensures Shows(r) && r.msgIndex == k && r.i == 1
  {
    Type(Typing(k, 0, ""))
  }

  /**
   * The next timer callback: type one more character while the message lasts;
   * once it is exhausted, advance to the next message and restart.
   */
  function Tick(t: Typing): (r: Typing)
    requires Shows(t)
    ensures Shows(r)
    ensures t.i < |Messages[t.msgIndex]| ==>
      r.msgIndex == t.msgIndex && r.i == t.i + 1 && r.text == t.text + [Messages[t.msgIndex][t.i]]
    ensures t.i == |Messages[t.msgIndex]| ==> r == TypeWriter(NextIndex(t.msgIndex))
  {
    if t.i < |Messages[t.msgIndex]| then Type(t) else TypeWriter(NextIndex(t.msgIndex))
  }

  /** The banner after `n` ticks. */
  function Ticks(t: Typing, n: nat): (r: Typing)
    requires Shows(t)
    ensures Shows(r)
    decreases n
  {
    if n == 0 then t else Ticks(Tick(t), n - 1)
  }

  /** Ticks compose: `a + b` ticks are `a` ticks followed by `b` ticks. */
  lemma {:induction false} TicksAdd(t: Typing, a: nat, b: nat)
    requires Shows(t)
    ensures Ticks(t, a + b) == Ticks(Ticks(t, a), b)
    decreases a
  {
    if a > 0 {
      TicksAdd(Tick(t), a - 1, b);
    }
  }

  /** While the message lasts, `n` ticks type exactly its next `n` characters. */
  lemma {:induction false} TicksSpell(t: Typing, n: nat)
    requires Shows(t) && t.i + n <= |Messages[t.msgIndex]|
    ensures Ticks(t, n) == Typing(t.msgIndex, t.i + n, Messages[t.msgIndex][..t.i + n])
    decreases n
  {
    if n > 0 {
      TicksSpell(Tick(t), n - 1);
    }
  }

  /**
   * One round: starting on message `k`, as many ticks as the message is long
   * type the whole message and then restart on the next one.
   */
  lemma MessageRound(k: nat)
    requires k < |Messages|
    ensures Ticks(TypeWriter(k), |Messages[k]|) == TypeWriter(NextIndex(k))
  {
    var n := |Messages[k]|;
    TicksSpell(TypeWriter(k), n - 1);
    TicksAdd(TypeWriter(k), n - 1, 1);
  }

  /** The banner cycles through all four messages and returns to its first state. */
  lemma FullCycle()
    ensures Ticks(TypeWriter(0), |Messages[0]| + |Messages[1]| + |Messages[2]| + |Messages[3]|) == TypeWriter(0)
  {
    var n0, n1, n2, n3 := |Messages[0]|, |Messages[1]|, |Messages[2]|, |Messages[3]|;
    MessageRound(0);
    MessageRound(1);
    MessageRound(2);
    MessageRound(3);
    TicksAdd(TypeWriter(0), n0, n1 + n2 + n3);
    TicksAdd(TypeWriter(1), n1, n2 + n3);
    TicksAdd(TypeWriter(2), n2, n3);
  }
}

/**
 * The banner as the page runs it: counters updated in place by timer
 * callbacks, each proved to follow the matching step of Typewriter.
 */
module TypewriterBanner {
  import opened Typewriter

  /** The banner element and the typewriter's counters, updated by its timers. */
  class Banner {
    var msgIndex: nat
    var i: nat
    /** The banner element's `textContent`. */
    var text: string

    function State(): Typing
      reads this
    {
      Typing(msgIndex, i, text)
    }

    /** Page load: `msgIndex` is 0 and `typeWriter` runs once. */
    constructor ()
      ensures State() == Typewriter.TypeWriter(0)
    {
      msgIndex := 0;
      i := 0;
      text := "";
      new;
      Type();
    }

    /** `type`. */
    method Type()
      requires Shows(State())
      modifies this
      ensures State() == Typewriter.Type(old(State()))
    {
      var txt := Messages[msgIndex];
      if i < |txt| {
        text := text + [txt[i]];
        i := i + 1;
      }
    }

    /** `typeWriter`. */
    method TypeWriter()
      requires msgIndex < |Messages|
      modifies this
      ensures State() == Typewriter.TypeWriter(old(msgIndex))
    {
      i := 0;
      text := "";
      Type();
    }

    /** The next timer callback. */
    method Tick()
      requires Shows(State())
      modifies this
      ensures State() == Typewriter.Tick(old(State()))
    {
      if i < |Messages[msgIndex]| {
        Type();
      } else {
        msgIndex := (msgIndex + 1) % |Messages|;
        TypeWriter();
      }
    }
  }
}
