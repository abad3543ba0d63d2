/** The offline metrics buffer (internal/buffer/buffer.go) and its two clients in the agent
    (internal/agent/agent.go). The bucket is an ordered map: its entries, in byte order of
    their keys. */
module OfflineBuffer {
  import opened Basics

  const MAX_ENTRIES: nat := 2000
  const SEQUENCE_LIMIT: nat := 0x1_0000_0000_0000_0000

  type Key = seq<byte>

  // ─── Keys ────────────────────────────────────────────────────────────────────

  /** bytes.Compare(a, b) < 0. */
  predicate KeyLess(a: Key, b: Key) {
    if b == [] then false
    else if a == [] then true
    else if a[0] != b[0] then a[0] < b[0]
    else KeyLess(a[1..], b[1..])
  }

  function Pow256(n: nat): (p: nat)
    ensures p > 0
  {
    if n == 0 then 1 else 256 * Pow256(n - 1)
  }

  /** The n lowest bytes of v, most significant first. */
  function BigEndian(v: nat, n: nat): (k: Key)
    ensures |k| == n
  {
    if n == 0 then [] else BigEndian(v / 256, n - 1) + [v % 256]
  }

  lemma {:induction false} HeadDecides(a: Key, b: Key, c: Key, d: Key)
    requires |a| == |b| && KeyLess(a, b)
    ensures KeyLess(a + c, b + d)
  {
    assert (a + c)[0] == a[0] && (b + d)[0] == b[0];
    if a[0] == b[0] {
      assert (a + c)[1..] == a[1..] + c && (b + d)[1..] == b[1..] + d;
      HeadDecides(a[1..], b[1..], c, d);
    }
  }

  lemma {:induction false} TailDecides(a: Key, c: Key, d: Key)
    requires KeyLess(c, d)
    ensures KeyLess(a + c, a + d)
  {
    if a == [] {
      assert a + c == c && a + d == d;
    } else {
      assert (a + c)[1..] == a[1..] + c && (a + d)[1..] == a[1..] + d;
      TailDecides(a[1..], c, d);
    }
  }

  lemma {:induction false} KeyLessIsStrict(a: Key, b: Key)
    requires KeyLess(a, b)
    ensures a != b && !KeyLess(b, a)
  {
    if a != [] && a[0] == b[0] {
      KeyLessIsStrict(a[1..], b[1..]);
    }
  }

  /** Keys of any length are totally ordered. */
  lemma {:induction false} KeyLessIsTotal(a: Key, b: Key)
    ensures KeyLess(a, b) || a == b || KeyLess(b, a)
    ensures !(KeyLess(a, b) && KeyLess(b, a))
    ensures a == [] && b != [] ==> KeyLess(a, b)
  {
    if a != [] && b != [] && a[0] == b[0] {
      KeyLessIsTotal(a[1..], b[1..]);
    }
  }

  lemma {:induction false} BigEndianKeepsOrder(v: nat, w: nat, n: nat)
    requires v < w < Pow256(n)
    ensures KeyLess(BigEndian(v, n), BigEndian(w, n))
  {
    if n > 0 {
      if v / 256 < w / 256 {
        BigEndianKeepsOrder(v / 256, w / 256, n - 1);
        HeadDecides(BigEndian(v / 256, n - 1), BigEndian(w / 256, n - 1), [v % 256], [w % 256]);
      } else {
        assert KeyLess([v % 256], [w % 256]);
        TailDecides(BigEndian(v / 256, n - 1), [v % 256], [w % 256]);
      }
    }
  }

  lemma SequenceFits()
    ensures Pow256(8) == SEQUENCE_LIMIT
  {
    assert Pow256(4) == 0x1_0000_0000;
    assert Pow256(8) == 256 * (256 * (256 * (256 * Pow256(4))));
  }

  /** itob: numeric order of sequence numbers is byte order of their keys, both ways. */
  lemma KeysSortAsNumbers(v: nat, w: nat)
    requires v < SEQUENCE_LIMIT && w < SEQUENCE_LIMIT
    ensures KeyLess(BigEndian(v, 8), BigEndian(w, 8)) <==> v < w
  {
    SequenceFits();
    if v < w {
      BigEndianKeepsOrder(v, w, 8);
    } else if w < v {
      BigEndianKeepsOrder(w, v, 8);
      KeyLessIsStrict(BigEndian(w, 8), BigEndian(v, 8));
    } else if KeyLess(BigEndian(v, 8), BigEndian(w, 8)) {
      KeyLessIsStrict(BigEndian(v, 8), BigEndian(w, 8));
    }
  }

  /** itob fills a fresh eight-byte array. */
  method Itob(v: nat) returns (b: array<byte>)
    ensures fresh(b) && b[..] == BigEndian(v, 8)
  {
    b := new byte[8];
    var rest, i := v, 8;
    while i > 0
      invariant 0 <= i <= 8
      invariant BigEndian(v, 8) == BigEndian(rest, i) + b[i..]
    {
      i := i - 1;
      ghost var tail := b[i + 1..];
      b[i] := rest % 256;
      assert b[i..] == [rest % 256] + tail;
      assert BigEndian(rest, i + 1) + tail == BigEndian(rest / 256, i) + ([rest % 256] + tail);
      rest := rest / 256;
    }
    assert b[0..] == b[..];
  }

  // ─── The bucket as an ordered map ────────────────────────────────────────────

  datatype Entry<V> = Entry(key: Key, value: V)

  predicate Sorted<V>(entries: seq<Entry<V>>) {
    forall i, j :: 0 <= i < j < |entries| ==> KeyLess(entries[i].key, entries[j].key)
  }

  function Put<V>(entries: seq<Entry<V>>, key: Key, value: V): seq<Entry<V>> {
    if entries == [] || KeyLess(key, entries[0].key) then [Entry(key, value)] + entries
    else if entries[0].key == key then [Entry(key, value)] + entries[1..]
    else [entries[0]] + Put(entries[1..], key, value)
  }

  function Delete<V>(entries: seq<Entry<V>>, key: Key): seq<Entry<V>> {
    if entries == [] then []
    else if entries[0].key == key then entries[1..]
    else [entries[0]] + Delete(entries[1..], key)
  }

  /** In an ordered bucket exactly the entry with the key goes, and the others keep their order. */
  lemma {:induction false} DeleteAt<V>(entries: seq<Entry<V>>, k: nat)
    requires Sorted(entries) && k < |entries|
    ensures Delete(entries, entries[k].key) == entries[..k] + entries[k + 1..]
  {
    if k > 0 {
      KeyLessIsStrict(entries[0].key, entries[k].key);
      DeleteAt(entries[1..], k - 1);
    }
  }

  /** A key above all others goes to the end. */
  lemma {:induction false} PutLast<V>(entries: seq<Entry<V>>, key: Key, value: V)
    requires forall k :: 0 <= k < |entries| ==> KeyLess(entries[k].key, key)
    ensures Put(entries, key, value) == entries + [Entry(key, value)]
  {
    if entries != [] {
      KeyLessIsStrict(entries[0].key, key);
      PutLast(entries[1..], key, value);
    }
  }

  // ─── The buffer ──────────────────────────────────────────────────────────────

  /** A metrics snapshot; json.Marshal refuses one that holds a NaN or an infinity. */
  datatype Metrics = Metrics(id: int, encodable: bool)

  function Encode(m: Metrics): (r: Option<int>)
    ensures r.None? <==> !m.encodable
    ensures r.Some? ==> Decode(r.value) == m
  {
    if m.encodable then Some(m.id) else None
  }

  function Decode(data: int): Metrics {
    Metrics(data, true)
  }

  function LastN<T>(s: seq<T>, n: nat): seq<T> {
    if |s| <= n then s else s[|s| - n..]
  }

  /** The bounded deque that the bucket stands for. */
  function PushSpec(q: seq<Metrics>, m: Metrics): seq<Metrics> {
    if m.encodable then LastN(q + [m], MAX_ENTRIES) else q
  }

  function PushAll(q: seq<Metrics>, ms: seq<Metrics>): seq<Metrics>
    decreases |ms|
  {
    if ms == [] then q else PushAll(PushSpec(q, ms[0]), ms[1..])
  }

  function Values(entries: seq<Entry<int>>): (ms: seq<Metrics>)
    ensures |ms| == |entries|
  {
    seq(|entries|, k requires 0 <= k < |entries| => Decode(entries[k].value))
  }

  /** How many of n entries make room for one more. */
  function Surplus(n: nat): nat {
    if n >= MAX_ENTRIES then n - MAX_ENTRIES + 1 else 0
  }

  lemma PushedValues(entries: seq<Entry<int>>, e: Entry<int>)
    ensures Values(entries[Surplus(|entries|)..] + [e]) == LastN(Values(entries) + [Decode(e.value)], MAX_ENTRIES)
  {
  }

  /** The bucket's keys are the encodings of strictly increasing sequence numbers. */
  predicate Numbered(entries: seq<Entry<int>>, numbers: seq<nat>, last: nat) {
    && |numbers| == |entries|
    && (forall k :: 0 <= k < |entries| ==> 0 < numbers[k] <= last && entries[k].key == BigEndian(numbers[k], 8))
    && (forall i, j :: 0 <= i < j < |entries| ==> numbers[i] < numbers[j])
  }

  lemma NextKeyIsLast(entries: seq<Entry<int>>, numbers: seq<nat>, last: nat, data: int)
    requires Numbered(entries, numbers, last) && last + 1 < SEQUENCE_LIMIT
    ensures var e := Entry(BigEndian(last + 1, 8), data);
            && Put(entries, e.key, data) == entries + [e]
            && Numbered(entries + [e], numbers + [last + 1], last + 1)
  {
    forall k | 0 <= k < |entries| ensures KeyLess(entries[k].key, BigEndian(last + 1, 8)) {
      KeysSortAsNumbers(numbers[k], last + 1);
    }
    PutLast(entries, BigEndian(last + 1, 8), data);
  }

  class Buffer {
    var entries: seq<Entry<int>>
    var sequence: nat
    ghost var numbers: seq<nat>   // the sequence number behind each key

    ghost predicate Valid()
      reads this
    {
      sequence < SEQUENCE_LIMIT && |entries| <= MAX_ENTRIES && Numbered(entries, numbers, sequence)
    }

    ghost function Contents(): seq<Metrics>
      reads this
    {
      Values(entries)
    }

    lemma IsSorted()
      requires Valid()
      ensures Sorted(entries)
    {
      forall i, j | 0 <= i < j < |entries| ensures KeyLess(entries[i].key, entries[j].key) {
        KeysSortAsNumbers(numbers[i], numbers[j]);
      }
    }

    constructor ()
      ensures Valid() && Contents() == [] && sequence == 0
    {
      entries, sequence, numbers := [], 0, [];
    }

    /** Push: the sequence counter is assumed not to wrap. */
    method Push(m: Metrics)
      requires Valid() && sequence + 1 < SEQUENCE_LIMIT
      modifies this
      ensures Valid() && Contents() == PushSpec(old(Contents()), m)
      ensures sequence == old(sequence) + (if m.encodable then 1 else 0)
    {
      var data := Encode(m);
      if data.None? {
        return;
      }
      sequence := sequence + 1;
      var raw := Itob(sequence);
      var key := raw[..];
      ghost var dropped := 0;
      while |entries| >= MAX_ENTRIES
        invariant sequence == old(sequence) + 1
        invariant 0 <= dropped <= Surplus(|old(entries)|)
        invariant entries == old(entries)[dropped..] && numbers == old(numbers)[dropped..]
        decreases |entries|
      {
        var first := entries[0].key;
        entries := Delete(entries, first);
        numbers := numbers[1..];
        dropped := dropped + 1;
      }
      PushedValues(old(entries), Entry(key, data.value));
      NextKeyIsLast(entries, numbers, old(sequence), data.value);
      entries := Put(entries, key, data.value);
      numbers := numbers + [sequence];
    }

    /** Drain: everything in key order, and an empty bucket whose counter starts again. */
    method Drain() returns (out: seq<Metrics>)
      requires Valid()
      modifies this
      ensures Valid() && out == old(Contents()) && Contents() == [] && sequence == 0
    {
      out := [];
      for k := 0 to |entries|
        invariant out == Values(entries)[..k] && entries == old(entries)
      {
        out := out + [Decode(entries[k].value)];
      }
      entries, sequence, numbers := [], 0, [];
    }

    method Count() returns (n: nat)
      ensures n == |Contents()|
    {
      n := |entries|;
    }
  }

  // ─── Pushes between the entries that are stored back ─────────────────────────

  function Next(others: seq<seq<Metrics>>): seq<Metrics> {
    if others == [] then [] else others[0]
  }

  function Later(others: seq<seq<Metrics>>): seq<seq<Metrics>> {
    if others == [] then [] else others[1..]
  }

  function PushCount(others: seq<seq<Metrics>>): nat {
    if others == [] then 0 else |others[0]| + PushCount(others[1..])
  }

  /** The pushes in the order in which they happen, up to the last entry of the batch. */
  function Weave(batch: seq<Metrics>, others: seq<seq<Metrics>>): seq<Metrics>
    decreases |batch|
  {
    if batch == [] then [] else Next(others) + ([batch[0]] + Weave(batch[1..], Later(others)))
  }

  lemma {:induction false} PushAllConcat(q: seq<Metrics>, a: seq<Metrics>, b: seq<Metrics>)
    ensures PushAll(q, a + b) == PushAll(PushAll(q, a), b)
    decreases |a|
  {
    if a == [] {
      assert a + b == b;
    } else {
      assert (a + b)[0] == a[0] && (a + b)[1..] == a[1..] + b;
      PushAllConcat(PushSpec(q, a[0]), a[1..], b);
    }
  }

  lemma WeaveStep(q: seq<Metrics>, batch: seq<Metrics>, others: seq<seq<Metrics>>)
    requires batch != []
    ensures PushAll(q, Weave(batch, others))
            == PushAll(PushSpec(PushAll(q, Next(others)), batch[0]), Weave(batch[1..], Later(others)))
  {
    var tail := Weave(batch[1..], Later(others));
    PushAllConcat(q, Next(others), [batch[0]] + tail);
    assert ([batch[0]] + tail)[0] == batch[0] && ([batch[0]] + tail)[1..] == tail;
  }

  class Agent {
    const buf: Buffer?   // null when the buffer could not be opened

    constructor (buf: Buffer?)
      ensures this.buf == buf
    {
      this.buf := buf;
    }

    /** The end of one tick of metricsLoop: what cannot be sent is stored. */
    method Report(m: Metrics, delivered: bool)
      requires buf != null ==> buf.Valid() && buf.sequence + 1 < SEQUENCE_LIMIT
      modifies buf
      ensures buf != null ==> buf.Valid()
      ensures buf != null ==>
                buf.Contents() == if delivered then old(buf.Contents()) else PushSpec(old(buf.Contents()), m)
    {
      if !delivered && buf != null {
        buf.Push(m);
      }
    }

    /** drainBuffer: `others[k]` is what metricsLoop stores after the drain and before the k-th
        entry is stored back. A delivered batch is the whole buffer in order; a failed one is
        stored back between the other pushes. */
    method DrainBuffer(delivered: bool, others: seq<seq<Metrics>>) returns (batch: seq<Metrics>)
      requires buf != null ==> buf.Valid() && MAX_ENTRIES + PushCount(others) < SEQUENCE_LIMIT
      modifies buf
      ensures buf == null ==> batch == []
      ensures buf != null ==> buf.Valid() && batch == old(buf.Contents())
      ensures buf != null ==> buf.Contents() == if delivered then [] else PushAll([], Weave(batch, others))
    {
      batch := [];
      if buf == null {
        return;
      }
      var count := buf.Count();
      if count == 0 {
        assert buf.Contents() == [];
        return;
      }
      batch := buf.Drain();
      if !delivered {
        var rest, more := batch, others;
        while rest != []
          invariant buf.Valid() && PushAll(buf.Contents(), Weave(rest, more)) == PushAll([], Weave(batch, others))
          invariant buf.sequence + |rest| + PushCount(more) < SEQUENCE_LIMIT
          decreases |rest|
        {
          WeaveStep(buf.Contents(), rest, more);
          PushEach(Next(more));
          buf.Push(rest[0]);
          rest, more := rest[1..], Later(more);
        }
      }
    }

    /** What metricsLoop stores meanwhile. */
    method PushEach(ms: seq<Metrics>)
      requires buf != null && buf.Valid() && buf.sequence + |ms| < SEQUENCE_LIMIT
      modifies buf
      ensures buf.Valid() && buf.Contents() == PushAll(old(buf.Contents()), ms)
      ensures buf.sequence <= old(buf.sequence) + |ms|
    {
      var rest := ms;
      while rest != []
        invariant buf.Valid() && PushAll(buf.Contents(), rest) == PushAll(old(buf.Contents()), ms)
        invariant |rest| <= |ms| && buf.sequence <= old(buf.sequence) + |ms| - |rest|
        decreases |rest|
      {
        buf.Push(rest[0]);
        rest := rest[1..];
      }
    }
  }

  // ─── What a history of pushes and drains leaves ──────────────────────────────

  function Encodable(ms: seq<Metrics>): seq<Metrics> {
    if ms == [] then []
    else (if ms[0].encodable then [ms[0]] else []) + Encodable(ms[1..])
  }

  lemma LastNOfLastN<T>(a: seq<T>, b: seq<T>, n: nat)
    ensures LastN(LastN(a, n) + b, n) == LastN(a + b, n)
  {
  }

  lemma PushThenMore(q: seq<Metrics>, m: Metrics, rest: seq<Metrics>)
    ensures m.encodable ==> LastN(PushSpec(q, m) + rest, MAX_ENTRIES) == LastN(q + ([m] + rest), MAX_ENTRIES)
    ensures !m.encodable ==> PushSpec(q, m) + rest == q + rest
  {
    LastNOfLastN(q + [m], rest, MAX_ENTRIES);
    assert q + [m] + rest == q + ([m] + rest);
  }

  /** After any pushes the buffer holds the most recent MAX_ENTRIES of them, oldest first. */
  lemma {:induction false} PushAllKeepsNewest(q: seq<Metrics>, ms: seq<Metrics>)
    requires |q| <= 2000
    ensures PushAll(q, ms) == LastN(q + Encodable(ms), 2000)
    decreases |ms|
  {
    if ms == [] {
      assert q + [] == q;
    } else {
      PushAllKeepsNewest(PushSpec(q, ms[0]), ms[1..]);
      PushThenMore(q, ms[0], Encodable(ms[1..]));
      assert Encodable(ms) == (if ms[0].encodable then [ms[0]] else []) + Encodable(ms[1..]);
      assert [] + Encodable(ms[1..]) == Encodable(ms[1..]);
    }
  }

  lemma {:induction false} EncodableOfGood(ms: seq<Metrics>)
    requires forall k :: 0 <= k < |ms| ==> ms[k].encodable
    ensures Encodable(ms) == ms
  {
    if ms != [] {
      EncodableOfGood(ms[1..]);
    }
  }

  predicate Distinct<T(==)>(s: seq<T>) {
    forall i, j :: 0 <= i < j < |s| ==> s[i] != s[j]
  }

  /** What metricsLoop stored between the drain and the last entry of the batch, in order. */
  function Between(batch: seq<Metrics>, others: seq<seq<Metrics>>): seq<Metrics>
    decreases |batch|
  {
    if batch == [] then [] else Next(others) + Between(batch[1..], Later(others))
  }

  /** How many entries of the batch were stored back before the first other push. */
  function Before(batch: seq<Metrics>, others: seq<seq<Metrics>>): nat
    decreases |batch|
  {
    if batch == [] || Next(others) != [] then 0 else 1 + Before(batch[1..], Later(others))
  }

  /** A weave has the elements of both, and ends with the batch. */
  lemma {:induction false} WeaveHasBoth(batch: seq<Metrics>, others: seq<seq<Metrics>>)
    ensures var mix, between := Weave(batch, others), Between(batch, others);
            && |mix| == |batch| + |between|
            && (batch != [] ==> mix[|mix| - 1] == batch[|batch| - 1])
            && (forall m :: m in mix ==> m in batch || m in between)
            && (between == [] ==> mix == batch)
    decreases |batch|
  {
    if batch != [] {
      WeaveHasBoth(batch[1..], Later(others));
      assert batch == [batch[0]] + batch[1..];
    }
  }

  lemma TailIsDistinct(first: seq<Metrics>, a: seq<Metrics>, b: seq<Metrics>)
    requires Distinct(a + (first + b)) && a != []
    ensures Distinct(a[1..] + b)
    ensures first != [] ==> first[0] !in first[1..] && first[0] !in a && first[0] !in b
  {
    var all := a + (first + b);
    forall i, k | 0 <= i < k < |a[1..] + b| ensures (a[1..] + b)[i] != (a[1..] + b)[k] {
      assert (a[1..] + b)[i] == all[if i < |a| - 1 then i + 1 else i + 1 + |first|];
      assert (a[1..] + b)[k] == all[if k < |a| - 1 then k + 1 else k + 1 + |first|];
    }
    if first != [] {
      assert all[|a|] == first[0];
      assert forall k :: 0 <= k < |a| ==> all[k] == a[k];
      assert forall k :: 0 <= k < |first| ==> all[|a| + k] == first[k];
      assert forall k :: 0 <= k < |b| ==> all[|a| + |first| + k] == b[k];
    }
  }

  lemma HeadStandsAlone(first: seq<Metrics>, b: Metrics, tail: seq<Metrics>)
    requires first != [] && first[0] !in first[1..] && first[0] != b && first[0] !in tail
    ensures var mix := first + ([b] + tail); mix[0] == first[0] && first[0] !in mix[1..]
  {
    var mix := first + ([b] + tail);
    assert mix[1..] == first[1..] + ([b] + tail);
  }

  lemma OneFurther(b: Metrics, tail: seq<Metrics>, p: nat)
    requires p < |tail|
    ensures var mix: seq<Metrics> := [] + ([b] + tail); mix[p + 1] == tail[p] && mix[p + 2..] == tail[p + 1..]
  {
  }

  /** Where the first other push stands in a weave. */
  lemma {:induction false} FirstPush(batch: seq<Metrics>, others: seq<seq<Metrics>>)
    requires Between(batch, others) != [] && Distinct(batch + Between(batch, others))
    ensures var mix, p, m := Weave(batch, others), Before(batch, others), Between(batch, others)[0];
            p < |mix| && mix[p] == m && m !in mix[p + 1..]
    decreases |batch|
  {
    var first, rest := Next(others), Between(batch[1..], Later(others));
    var tail := Weave(batch[1..], Later(others));
    TailIsDistinct(first, batch, rest);
    if first == [] {
      assert first + rest == rest;
      FirstPush(batch[1..], Later(others));
      OneFurther(batch[0], tail, Before(batch[1..], Later(others)));
    } else {
      WeaveHasBoth(batch[1..], Later(others));
      assert first[0] !in tail;
      HeadStandsAlone(first, batch[0], tail);
    }
  }

  lemma FirstIsLost(mix: seq<Metrics>, p: nat, n: nat)
    requires p < |mix| && mix[p] !in mix[p + 1..]
    ensures mix[p] !in LastN(mix, n) <==> |mix| - p > n
  {
    var q, d := LastN(mix, n), if |mix| <= n then 0 else |mix| - n;
    assert q == mix[d..];
    if p >= d {
      assert q[p - d] == mix[p];
    } else {
      assert forall k :: 0 <= k < |q| ==> q[k] == mix[p + 1..][k + d - p - 1];
    }
  }

  lemma DifferentEnds(a: seq<Metrics>, b: seq<Metrics>, n: nat)
    requires a != [] && b != [] && n > 0 && a[|a| - 1] != b[|b| - 1]
    ensures LastN(a, n) != LastN(b, n)
  {
    var x, y := LastN(a, n), LastN(b, n);
    assert x[|x| - 1] == a[|a| - 1] && y[|y| - 1] == b[|b| - 1];
  }

  /** A failed drain during which metricsLoop stores snapshots, before and between the entries
      that are stored back, in any interleaving. The buffer is in push order exactly when it
      stored none before the last of them; and its first snapshot is lost, although older ones
      stay, exactly when what comes after it, itself included, does not fit. */
  lemma FailedDrainWithPushes(batch: seq<Metrics>, others: seq<seq<Metrics>>)
    requires batch != []
    requires var between := Between(batch, others);
             && (forall k :: 0 <= k < |batch| ==> batch[k].encodable)
             && (forall k :: 0 <= k < |between| ==> between[k].encodable)
             && Distinct(batch + between)
    ensures var q, mix, between := PushAll([], Weave(batch, others)), Weave(batch, others), Between(batch, others);
            && q == LastN(mix, MAX_ENTRIES)
            && (q == LastN(batch + between, MAX_ENTRIES) <==> between == [])
            && (between != [] ==>
                  (between[0] !in q <==> |batch| + |between| - Before(batch, others) > MAX_ENTRIES))
  {
    var mix, between := Weave(batch, others), Between(batch, others);
    WeaveHasBoth(batch, others);
    forall k | 0 <= k < |mix| ensures mix[k].encodable {
      assert mix[k] in mix;
    }
    WovenIsKept(mix);
    if between == [] {
      assert batch + between == batch;
    } else {
      BetweenComesTooEarly(batch, between, mix);
      FirstPush(batch, others);
      FirstIsLost(mix, Before(batch, others), MAX_ENTRIES);
    }
  }

  lemma WovenIsKept(mix: seq<Metrics>)
    requires forall k :: 0 <= k < |mix| ==> mix[k].encodable
    ensures PushAll([], mix) == LastN(mix, MAX_ENTRIES)
  {
    EncodableOfGood(mix);
    PushAllKeepsNewest([], mix);
    assert [] + mix == mix;
  }

  lemma BetweenComesTooEarly(batch: seq<Metrics>, between: seq<Metrics>, mix: seq<Metrics>)
    requires batch != [] && between != [] && mix != [] && mix[|mix| - 1] == batch[|batch| - 1] && Distinct(batch + between)
    ensures LastN(mix, MAX_ENTRIES) != LastN(batch + between, MAX_ENTRIES)
  {
    var all := batch + between;
    assert all[|all| - 1] == between[|between| - 1] && all[|batch| - 1] == batch[|batch| - 1];
    DifferentEnds(mix, all, MAX_ENTRIES);
  }

  /** With no other push in between, a failed drain leaves the buffer as it was. */
  lemma UndisturbedDrain(batch: seq<Metrics>, others: seq<seq<Metrics>>)
    requires |batch| <= MAX_ENTRIES && Between(batch, others) == []
    requires forall k :: 0 <= k < |batch| ==> batch[k].encodable
    ensures PushAll([], Weave(batch, others)) == batch
  {
    WeaveHasBoth(batch, others);
    WovenIsKept(batch);
  }
}
