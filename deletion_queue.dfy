/**
 * The deletion queue of VkGuide/DeletionQueue.cs: a stack of teardown
 * actions, pushed during initialisation and drained by Flush. Actions are
 * tokens of type T; invoking one appends its token to `invoked`, the record
 * of every teardown performed so far.
 */
module Deletion {

  /** The order in which popping a stack hands back what was pushed (bottom first in `s`). */
  function Reversed<T>(s: seq<T>): (r: seq<T>)
    ensures |r| == |s|
  {
    if s == [] then [] else [s[|s| - 1]] + Reversed(s[..|s| - 1])
  }

  /** The k-th action a flush invokes is the k-th from the top. */
  lemma {:induction false} ReversedAt<T>(s: seq<T>, k: nat)
    requires k < |s|
    ensures Reversed(s)[k] == s[|s| - 1 - k]
  {
    if k > 0 {
      ReversedAt(s[..|s| - 1], k - 1);
    }
  }

  /** A flush invokes every queued action exactly as often as it was queued. */
  lemma {:induction false} ReversedMultiset<T>(s: seq<T>)
    ensures multiset(Reversed(s)) == multiset(s)
  {
    if s != [] {
      ReversedMultiset(s[..|s| - 1]);
      assert s == s[..|s| - 1] + [s[|s| - 1]];
    }
  }

  /** Actions queued later are invoked earlier: the later batch is flushed first. */
  lemma {:induction false} ReversedAppend<T>(a: seq<T>, b: seq<T>)
    ensures Reversed(a + b) == Reversed(b) + Reversed(a)
  {
    if b == [] {
      assert a + b == a;
    } else {
      assert (a + b)[..|a + b| - 1] == a + b[..|b| - 1];
      ReversedAppend(a, b[..|b| - 1]);
    }
  }

  /** Flushing twice gives back the original order: the stack discipline is an involution. */
  lemma {:induction false} ReversedReversed<T>(s: seq<T>)
    ensures Reversed(Reversed(s)) == s
  {
    if s != [] {
      var init, last := s[..|s| - 1], s[|s| - 1];
      ReversedReversed(init);
      ReversedAppend([last], Reversed(init));
      assert Reversed([last]) == [last];
      assert s == init + [last];
    }
  }

  class DeletionQueue<T> {
    /** The stack of pending teardown actions, bottom first, top last. */
    var deletors: seq<T>
    /** Every action invoked so far, in invocation order. */
    var invoked: seq<T>

    /** A fresh queue holds no actions and has invoked none. */
    constructor ()
      ensures deletors == [] && invoked == []
    {
      deletors := [];
      invoked := [];
    }

    /** Pushes a teardown action on top of the stack without invoking it. */
    method Queue(deletor: T)
      modifies this
      ensures deletors == old(deletors) + [deletor]
      ensures invoked == old(invoked)
    {
      deletors := deletors + [deletor];
    }

    /** Pops and invokes every action, top first, until the stack is empty. */
    method Flush()
      modifies this
      ensures deletors == []
      ensures invoked == old(invoked) + Reversed(old(deletors))
    {
      while |deletors| > 0
        invariant invoked + Reversed(deletors) == old(invoked) + Reversed(old(deletors))
        decreases |deletors|
      {
        var item := deletors[|deletors| - 1];
        deletors := deletors[..|deletors| - 1];
        invoked := invoked + [item];
      }
    }
  }

  /**
   * One round of the engine's use of the queue: register `batch` in order,
   * then flush. Starting from an empty stack, exactly the batch is torn
   * down, last registered first; earlier flushed actions are not repeated.
   */
  method QueueAndFlush<T>(q: DeletionQueue<T>, batch: seq<T>)
    requires q.deletors == []
    modifies q
    ensures q.deletors == []
    ensures q.invoked == old(q.invoked) + Reversed(batch)
  {
    var i := 0;
    while i < |batch|
      invariant 0 <= i <= |batch|
      invariant q.deletors == batch[..i]
      invariant q.invoked == old(q.invoked)
    {
      q.Queue(batch[i]);
      assert batch[..i + 1] == batch[..i] + [batch[i]];
      i := i + 1;
    }
    assert batch[..i] == batch;
    q.Flush();
  }
}
