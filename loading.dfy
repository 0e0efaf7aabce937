/**
 * The progress messages shown while an analysis is in flight. Both result
 * screens use the same indicator over their own five messages: a timer tick
 * advances the shown message by one until the last one, and the tick that
 * finds the last message already shown stops the timer.
 */
module Loading {

  /** The message index after one tick from index `i` over `n` messages. */
  function NextIndex(i: nat, n: nat): nat {
    if i >= n - 1 then i else i + 1
  }

  /** The message index after `ticks` ticks from the initial index 0. */
  function IndexAfter(ticks: nat, n: nat): nat {
    if ticks == 0 then 0 else NextIndex(IndexAfter(ticks - 1, n), n)
  }

  function Min(a: nat, b: nat): nat {
    if a <= b then a else b
  }

  /**
   * After `ticks` ticks the index is `ticks`, capped at the last message: it
   * climbs by exactly one per tick and then stays on the last message.
   */
  lemma {:induction false} IndexAfterTicks(ticks: nat, n: nat)
    requires n > 0
    ensures IndexAfter(ticks, n) == Min(ticks, n - 1)
    ensures IndexAfter(ticks, n) < n
  {
    if ticks > 0 {
      IndexAfterTicks(ticks - 1, n);
    }
  }

  /** The index never decreases from one tick to the next. */
  lemma IndexMonotone(ticks: nat, n: nat)
    requires n > 0
    ensures IndexAfter(ticks, n) <= IndexAfter(ticks + 1, n) <= IndexAfter(ticks, n) + 1
  {
    IndexAfterTicks(ticks, n);
    IndexAfterTicks(ticks + 1, n);
  }

  class LoadingIndicator {
    const messages: seq<string>
    var messageIndex: nat
    /** Whether the interval timer is still registered. */
    var ticking: bool
    /** How many times the timer has fired since mounting. */
    ghost var fired: nat

    ghost predicate Valid()
      reads this
    {
      && |messages| > 0
      && messageIndex < |messages|
      && (messageIndex < |messages| - 1 ==> ticking)
      && messageIndex == IndexAfter(fired, |messages|)
    }

    /** Mounting starts at the first message with the timer running. */
    constructor (messages: seq<string>)
      requires |messages| > 0
      ensures Valid()
      ensures this.messages == messages && messageIndex == 0 && ticking && fired == 0
    {
      this.messages := messages;
      messageIndex := 0;
      ticking := true;
      fired := 0;
    }

    /** The message on screen. */
    function Message(): (m: string)
      reads this
      requires Valid()
      ensures m in messages
    {
      messages[messageIndex]
    }

    /** One firing of the interval timer, which fires only while registered. */
    method Tick()
      requires Valid() && ticking
      modifies this
      ensures Valid()
      ensures messageIndex == NextIndex(old(messageIndex), |messages|)
      ensures ticking <==> old(messageIndex) < |messages| - 1
      ensures fired == old(fired) + 1 && messageIndex == Min(fired, |messages| - 1)
    {
      fired := fired + 1;
      if messageIndex >= |messages| - 1 {
        ticking := false;
      } else {
        messageIndex := messageIndex + 1;
      }
      IndexAfterTicks(fired, |messages|);
    }
  }
}
