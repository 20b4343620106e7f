/** The edits both session versions make to their subscriber vector, and the
    record of one broadcast pass, as functions on sequences of handlers. */
module SubscriberList {
  import opened Transport

  /** The vector after `erase(remove(begin, end, h), end)`: every occurrence of h
      is dropped, the other entries stay. */
  function Erase(s: seq<Handler>, h: Handler): (r: seq<Handler>)
    ensures |r| <= |s|
  {
    if s == [] then []
    else
      var init, last := s[..|s| - 1], s[|s| - 1];
      if last == h then Erase(init, h) else Erase(init, h) + [last]
  }

  /** Erase drops every copy of h and keeps every copy of everything else. */
  lemma {:induction false} EraseCount(s: seq<Handler>, h: Handler, x: Handler)
    ensures multiset(Erase(s, h))[x] == if x == h then 0 else multiset(s)[x]
  {
    if s != [] {
      var init, last := s[..|s| - 1], s[|s| - 1];
      assert s == init + [last];
      EraseCount(init, h, x);
    }
  }

  /** Erasing distributes over concatenation, so the survivors keep their order. */
  lemma {:induction false} EraseConcat(a: seq<Handler>, b: seq<Handler>, h: Handler)
    ensures Erase(a + b, h) == Erase(a, h) + Erase(b, h)
    decreases |b|
  {
    if b == [] {
      assert a + b == a;
    } else {
      var init, last := b[..|b| - 1], b[|b| - 1];
      assert (a + b)[..|a + b| - 1] == a + init;
      assert (a + b)[|a + b| - 1] == last;
      EraseConcat(a, init, h);
    }
  }

  /** Erasing a handler that is not listed leaves the vector as it was. */
  lemma {:induction false} EraseAbsent(s: seq<Handler>, h: Handler)
    requires h !in s
    ensures Erase(s, h) == s
  {
    if s != [] {
      var init := s[..|s| - 1];
      assert s == init + [s[|s| - 1]];
      EraseAbsent(init, h);
    }
  }

  /** The vector after erasing each handler of `gone` in turn, first to last, as
      the prune step after a broadcast pass does. */
  function EraseAll(s: seq<Handler>, gone: seq<Handler>): (r: seq<Handler>)
    ensures |r| <= |s|
    decreases |gone|
  {
    if gone == [] then s
    else
      var init, last := gone[..|gone| - 1], gone[|gone| - 1];
      Erase(EraseAll(s, init), last)
  }

  /** After the prune a handler is listed as often as before if it is not in
      `gone`, and not at all if it is. */
  lemma {:induction false} EraseAllCount(s: seq<Handler>, gone: seq<Handler>, x: Handler)
    ensures multiset(EraseAll(s, gone))[x] == if x in gone then 0 else multiset(s)[x]
    decreases |gone|
  {
    if gone != [] {
      var init, last := gone[..|gone| - 1], gone[|gone| - 1];
      assert gone == init + [last];
      EraseAllCount(s, init, x);
      EraseCount(EraseAll(s, init), last, x);
    }
  }

  /** Reference definition of pruning: the entries of s that are not in gone, in
      their original order. */
  function Keep(s: seq<Handler>, gone: seq<Handler>): seq<Handler>
  {
    if s == [] then []
    else (if s[0] in gone then [] else [s[0]]) + Keep(s[1..], gone)
  }

  lemma {:induction false} EraseAllConcat(a: seq<Handler>, b: seq<Handler>, gone: seq<Handler>)
    ensures EraseAll(a + b, gone) == EraseAll(a, gone) + EraseAll(b, gone)
    decreases |gone|
  {
    if gone != [] {
      var init, last := gone[..|gone| - 1], gone[|gone| - 1];
      EraseAllConcat(a, b, init);
      EraseConcat(EraseAll(a, init), EraseAll(b, init), last);
    }
  }

  lemma {:induction false} EraseAllSingleton(y: Handler, gone: seq<Handler>)
    ensures EraseAll([y], gone) == if y in gone then [] else [y]
    decreases |gone|
  {
    if gone != [] {
      var init, last := gone[..|gone| - 1], gone[|gone| - 1];
      assert gone == init + [last];
      EraseAllSingleton(y, init);
      var mid := EraseAll([y], init);
      if mid != [] {
        assert mid[..|mid| - 1] == [];
      }
    }
  }

  /** Erasing the failed handlers one after another is the same as filtering
      them out in one order-preserving pass. */
  lemma {:induction false} EraseAllIsKeep(s: seq<Handler>, gone: seq<Handler>)
    ensures EraseAll(s, gone) == Keep(s, gone)
    decreases |s|
  {
    if s == [] {
      EraseAllEmpty(gone);
    } else {
      assert s == [s[0]] + s[1..];
      EraseAllConcat([s[0]], s[1..], gone);
      EraseAllSingleton(s[0], gone);
      EraseAllIsKeep(s[1..], gone);
    }
  }

  lemma {:induction false} EraseAllEmpty(gone: seq<Handler>)
    ensures EraseAll([], gone) == []
    decreases |gone|
  {
    if gone != [] {
      EraseAllEmpty(gone[..|gone| - 1]);
    }
  }

  /** The failedSubscribers vector one broadcast pass builds: the snapshot
      entries, in order, whose send() returned STREAM_ERROR. */
  function Failed(snapshot: seq<Handler>, results: seq<int>): (r: seq<Handler>)
    requires |results| == |snapshot|
    ensures |r| <= |snapshot|
  {
    if snapshot == [] then []
    else
      var n := |snapshot| - 1;
      var init := Failed(snapshot[..n], results[..n]);
      if results[n] == STREAM_ERROR then init + [snapshot[n]] else init
  }

  /** A handler is in the failed list exactly when one of its sends in the pass
      returned STREAM_ERROR. */
  lemma {:induction false} FailedMember(snapshot: seq<Handler>, results: seq<int>, x: Handler)
    requires |results| == |snapshot|
    ensures x in Failed(snapshot, results) <==>
      exists i :: 0 <= i < |snapshot| && snapshot[i] == x && results[i] == STREAM_ERROR
  {
    if snapshot != [] {
      var n := |snapshot| - 1;
      FailedMember(snapshot[..n], results[..n], x);
      if x in Failed(snapshot[..n], results[..n]) {
        var i :| 0 <= i < n && snapshot[..n][i] == x && results[..n][i] == STREAM_ERROR;
        assert snapshot[i] == x && results[i] == STREAM_ERROR;
      }
      if exists i :: 0 <= i < |snapshot| && snapshot[i] == x && results[i] == STREAM_ERROR {
        var i :| 0 <= i < |snapshot| && snapshot[i] == x && results[i] == STREAM_ERROR;
        if i < n {
          assert snapshot[..n][i] == x && results[..n][i] == STREAM_ERROR;
        }
      }
    }
  }

  /** The send() calls of one complete broadcast pass: every snapshot entry, in
      snapshot order, handed the same bytes. */
  function Deliveries(snapshot: seq<Handler>, payload: seq<byte>): (r: seq<Delivery>)
    ensures |r| == |snapshot|
    ensures forall i :: 0 <= i < |snapshot| ==> r[i] == Delivery(snapshot[i], payload)
  {
    if snapshot == [] then []
    else Deliveries(snapshot[..|snapshot| - 1], payload) + [Delivery(snapshot[|snapshot| - 1], payload)]
  }

  /** One more entry of the pass, as the send loop takes it. */
  lemma FailedPrefix(snapshot: seq<Handler>, results: seq<int>, i: nat)
    requires |results| == |snapshot| && i < |snapshot|
    ensures Failed(snapshot[..i + 1], results[..i + 1]) ==
      Failed(snapshot[..i], results[..i]) + (if results[i] == STREAM_ERROR then [snapshot[i]] else [])
  {
    assert snapshot[..i + 1][..i] == snapshot[..i];
    assert results[..i + 1][..i] == results[..i];
  }

  lemma DeliveriesPrefix(snapshot: seq<Handler>, payload: seq<byte>, i: nat)
    requires i < |snapshot|
    ensures Deliveries(snapshot[..i + 1], payload) == Deliveries(snapshot[..i], payload) + [Delivery(snapshot[i], payload)]
  {
    assert snapshot[..i + 1][..i] == snapshot[..i];
  }

  lemma EraseAllPrefix(s: seq<Handler>, gone: seq<Handler>, j: nat)
    requires j < |gone|
    ensures EraseAll(s, gone[..j + 1]) == Erase(EraseAll(s, gone[..j]), gone[j])
  {
    assert gone[..j + 1][..j] == gone[..j];
  }
}
