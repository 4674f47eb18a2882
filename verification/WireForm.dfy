/** What a request says, byte by byte (internal/core/analytics.go:295-298, internal/core/message.go:62-85). */
module WireForm {
  import opened Messages

  // ----- Text at a place -----

  predicate TextAt(text: seq<char>, o: nat, item: seq<char>) {
    o + |item| <= |text| && text[o..o + |item|] == item
  }

  lemma TextStays(text: seq<char>, more: seq<char>, o: nat, item: seq<char>)
    requires TextAt(text, o, item)
    ensures TextAt(text + more, o, item)
  {
    assert (text + more)[o..o + |item|] == text[o..o + |item|];
  }

  lemma TextMoves(head: seq<char>, text: seq<char>, o: nat, item: seq<char>)
    requires TextAt(text, o, item)
    ensures TextAt(head + text, |head| + o, item)
  {
    assert (head + text)[|head| + o..|head| + o + |item|] == text[o..o + |item|];
  }

  lemma TextAppended(text: seq<char>, item: seq<char>)
    ensures TextAt(text + item, |text|, item)
  {
  }

  lemma SamePrefix(p: seq<char>, q: seq<char>, o: nat, item: seq<char>)
    requires o <= |p| && o <= |q| && p[..o] == q[..o]
    requires TextAt(p, o, item) && TextAt(q, o, item)
    ensures p[..o + |item|] == q[..o + |item|]
  {
    assert p[..o + |item|] == p[..o] + p[o..o + |item|];
    assert q[..o + |item|] == q[..o] + q[o..o + |item|];
  }

  // ----- The request for a batch -----

  /** Where item `i` begins in the text of the items: after the earlier ones and a comma for each. */
  function Offset(ms: seq<Message>, i: nat): nat
    requires i <= |ms|
  {
    if i == 0 then 0 else Offset(ms, i - 1) + |ms[i - 1].json| + 1
  }

  /** The items stand in order, each followed by a comma but the last. */
  predicate HoldsItems(text: seq<char>, at: nat, ms: seq<Message>) {
    && (forall i :: 0 <= i < |ms| ==> ItemAt(text, at, ms, i))
    && (forall i :: 0 <= i < |ms| - 1 ==> CommaAfter(text, at, ms, i))
  }

  predicate ItemAt(text: seq<char>, at: nat, ms: seq<Message>, i: nat)
    requires i < |ms|
  {
    TextAt(text, at + Offset(ms, i), ms[i].json)
  }

  predicate CommaAfter(text: seq<char>, at: nat, ms: seq<Message>, i: nat)
    requires i < |ms|
  {
    TextAt(text, at + Offset(ms, i) + |ms[i].json|, [','])
  }

  const OPENING := "{\"sentAt\":\""
  const BATCH := "\",\"batch\":["
  const CLOSING := "]}"

  /** The object `{"sentAt":"...","batch":[item,...,item]}` with this time and these items, and nothing else. */
  predicate IsRequest(p: seq<char>, sentAt: Bytes, ms: seq<Message>) {
    && ms != [] && |sentAt| == 24
    && |p| == 46 + Offset(ms, |ms|) + 1
    && TextAt(p, 0, OPENING)
    && TextAt(p, 11, sentAt)
    && TextAt(p, 35, BATCH)
    && HoldsItems(p, 46, ms)
    && TextAt(p, 46 + Offset(ms, |ms|) - 1, CLOSING)
  }

  lemma {:induction false} OffsetOfPrefix(ms: seq<Message>, n: nat, i: nat)
    requires i <= n <= |ms|
    ensures Offset(ms[..n], i) == Offset(ms, i)
  {
    if i > 0 { OffsetOfPrefix(ms, n, i - 1); }
  }

  lemma {:induction false} ItemsHold(ms: seq<Message>)
    requires ms != []
    ensures |Items(ms)| + 1 == Offset(ms, |ms|)
    ensures HoldsItems(Items(ms), 0, ms)
  {
    hide TextAt;
    var n := |ms| - 1;
    if n == 0 {
      TextAppended([], ms[0].json);
      assert [] + ms[0].json == ms[0].json;
      assert Offset(ms, 1) == Offset(ms, 0) + |ms[0].json| + 1;
    } else {
      ItemsHold(ms[..n]);
      OffsetOfPrefix(ms, n, n);
      ItemAdded(Items(ms[..n]), ms, n);
    }
  }

  /** One more item after a comma leaves the earlier ones in place. */
  lemma ItemAdded(before: seq<char>, ms: seq<Message>, n: nat)
    requires 1 <= n == |ms| - 1
    requires HoldsItems(before, 0, ms[..n]) && |before| + 1 == Offset(ms, n)
    ensures HoldsItems(before + [','] + ms[n].json, 0, ms)
  {
    hide ItemAt, CommaAfter;
    var text := before + [','] + ms[n].json;
    forall i | 0 <= i < |ms| ensures ItemAt(text, 0, ms, i) {
      if i < n { EarlierItem(before, ms, n, i); } else { LastItem(before, ms, n); }
    }
    forall i | 0 <= i < n ensures CommaAfter(text, 0, ms, i) {
      if i < n - 1 { EarlierComma(before, ms, n, i); } else { LastComma(before, ms, n); }
    }
  }

  lemma EarlierItem(before: seq<char>, ms: seq<Message>, n: nat, i: nat)
    requires i < n < |ms| && ItemAt(before, 0, ms[..n], i)
    ensures ItemAt(before + [','] + ms[n].json, 0, ms, i)
  {
    hide TextAt;
    OffsetOfPrefix(ms, n, i);
    StaysBefore(before, ms[n].json, Offset(ms, i), ms[i].json);
  }

  lemma EarlierComma(before: seq<char>, ms: seq<Message>, n: nat, i: nat)
    requires i < n < |ms| && CommaAfter(before, 0, ms[..n], i)
    ensures CommaAfter(before + [','] + ms[n].json, 0, ms, i)
  {
    hide TextAt;
    OffsetOfPrefix(ms, n, i);
    StaysBefore(before, ms[n].json, Offset(ms, i) + |ms[i].json|, [',']);
  }

  lemma LastItem(before: seq<char>, ms: seq<Message>, n: nat)
    requires n < |ms| && |before| + 1 == Offset(ms, n)
    ensures ItemAt(before + [','] + ms[n].json, 0, ms, n)
  {
    hide TextAt;
    TextAppended(before + [','], ms[n].json);
  }

  lemma LastComma(before: seq<char>, ms: seq<Message>, n: nat)
    requires 1 <= n < |ms| && |before| + 1 == Offset(ms, n)
    ensures CommaAfter(before + [','] + ms[n].json, 0, ms, n - 1)
  {
    hide TextAt;
    TextAppended(before, [',']);
    TextStays(before + [','], ms[n].json, |before|, [',']);
  }

  lemma StaysBefore(before: seq<char>, last: seq<char>, o: nat, item: seq<char>)
    requires TextAt(before, o, item)
    ensures TextAt(before + [','] + last, o, item)
  {
    TextStays(before, [','], o, item);
    TextStays(before + [','], last, o, item);
  }

  lemma ItemsInside(head: seq<char>, items: seq<char>, tail: seq<char>, ms: seq<Message>)
    requires HoldsItems(items, 0, ms)
    ensures HoldsItems(head + items + tail, |head|, ms)
  {
    hide TextAt;
    forall i | 0 <= i < |ms| ensures ItemAt(head + items + tail, |head|, ms, i) {
      assert ItemAt(items, 0, ms, i);
      Inside(head, items, tail, Offset(ms, i), ms[i].json);
    }
    forall i | 0 <= i < |ms| - 1 ensures CommaAfter(head + items + tail, |head|, ms, i) {
      assert CommaAfter(items, 0, ms, i);
      Inside(head, items, tail, Offset(ms, i) + |ms[i].json|, [',']);
    }
  }

  lemma Inside(head: seq<char>, text: seq<char>, tail: seq<char>, o: nat, item: seq<char>)
    requires TextAt(text, o, item)
    ensures TextAt(head + text + tail, |head| + o, item)
  {
    TextMoves(head, text, o, item);
    TextStays(head + text, tail, |head| + o, item);
  }

  /** The four parts in a row. */
  lemma Framed(a: seq<char>, b: seq<char>, c: seq<char>, d: seq<char>, e: seq<char>)
    ensures TextAt(a + b + c + d + e, 0, a)
    ensures TextAt(a + b + c + d + e, |a|, b)
    ensures TextAt(a + b + c + d + e, |a| + |b|, c)
    ensures TextAt(a + b + c + d + e, |a| + |b| + |c| + |d|, e)
  {
  }

  /** Every payload the client makes of a batch is the request for it. */
  lemma MarshalIsRequest(sentAt: Bytes, ms: seq<Message>)
    requires ms != [] && |sentAt| == 24
    ensures IsRequest(MarshalBatch(sentAt, Some(ms)), sentAt, ms)
  {
    hide TextAt, HoldsItems, Offset, Items;
    ItemsHold(ms);
    Parts(sentAt, Items(ms), MarshalBatch(sentAt, Some(ms)));
    Framed(OPENING, sentAt, BATCH, Items(ms), CLOSING);
    ItemsInside(OPENING + sentAt + BATCH, Items(ms), CLOSING, ms);
  }

  lemma Parts(sentAt: Bytes, items: Bytes, p: Bytes)
    requires p == Head() + sentAt + Middle() + (['['] + items + [']']) + ['}']
    ensures p == OPENING + sentAt + BATCH + items + CLOSING
    ensures |OPENING| == 11 && |BATCH| == 11 && |CLOSING| == 2
  {
    assert Middle() + ['['] == BATCH;
    assert [']'] + ['}'] == CLOSING;
  }

  lemma {:induction false} SameUpTo(p: seq<char>, q: seq<char>, sentAt: Bytes, ms: seq<Message>, i: nat)
    requires IsRequest(p, sentAt, ms) && IsRequest(q, sentAt, ms) && i < |ms|
    ensures 46 + Offset(ms, i) <= |p| == |q|
    ensures p[..46 + Offset(ms, i)] == q[..46 + Offset(ms, i)]
  {
    hide TextAt, ItemAt, CommaAfter;
    if i == 0 {
      SamePrefix(p, q, 0, OPENING);
      SamePrefix(p, q, 11, sentAt);
      SamePrefix(p, q, 35, BATCH);
    } else {
      SameUpTo(p, q, sentAt, ms, i - 1);
      SameItem(p, q, ms, i - 1);
    }
  }

  lemma SameItem(p: seq<char>, q: seq<char>, ms: seq<Message>, i: nat)
    requires i < |ms| - 1 && HoldsItems(p, 46, ms) && HoldsItems(q, 46, ms)
    requires 46 + Offset(ms, i) <= |p| == |q| && p[..46 + Offset(ms, i)] == q[..46 + Offset(ms, i)]
    ensures 46 + Offset(ms, i + 1) <= |p| && p[..46 + Offset(ms, i + 1)] == q[..46 + Offset(ms, i + 1)]
  {
    hide TextAt, HoldsItems;
    var o, e := 46 + Offset(ms, i), 46 + Offset(ms, i) + |ms[i].json|;
    Holds(p, ms, i);
    Holds(q, ms, i);
    SamePrefix(p, q, o, ms[i].json);
    InText(p, e, [',']);
    SamePrefix(p, q, e, [',']);
  }

  lemma Holds(p: seq<char>, ms: seq<Message>, i: nat)
    requires HoldsItems(p, 46, ms) && i < |ms|
    ensures ItemAt(p, 46, ms, i)
    ensures i < |ms| - 1 ==> CommaAfter(p, 46, ms, i)
  {
  }

  lemma InText(p: seq<char>, o: nat, item: seq<char>)
    requires TextAt(p, o, item)
    ensures o + |item| <= |p|
  {
  }

  /** The request for a batch is unique: the bytes are settled by the time and the messages in their order. */
  lemma RequestIsUnique(p: seq<char>, sentAt: Bytes, ms: seq<Message>)
    requires ms != [] && |sentAt| == 24
    ensures IsRequest(p, sentAt, ms) <==> p == MarshalBatch(sentAt, Some(ms))
  {
    hide TextAt, MarshalBatch, CommaAfter, HoldsItems;
    var q := MarshalBatch(sentAt, Some(ms));
    MarshalIsRequest(sentAt, ms);
    if IsRequest(p, sentAt, ms) {
      var n := |ms| - 1;
      SameUpTo(p, q, sentAt, ms, n);
      Holds(p, ms, n);
      Holds(q, ms, n);
      assert Offset(ms, n + 1) == Offset(ms, n) + |ms[n].json| + 1;
      SamePrefix(p, q, 46 + Offset(ms, n), ms[n].json);
      SamePrefix(p, q, 46 + Offset(ms, |ms|) - 1, CLOSING);
      assert p[..|p|] == p && q[..|q|] == q;
    }
  }
}
