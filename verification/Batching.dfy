/** Batched delivery updates and read receipts: updates wait in per-conversation lists, read ids in lists per
    conversation and user, and periodic flushes emit every non-empty list and clear the batch. */
module Batching {
  import opened Text

  datatype Status = DeliveredStatus | ReadStatus
  datatype Update = Update(messageId: string, userId: string, status: Status, timestamp: int)

  /** A Map of lists; `keys` is its iteration order, the order of first insertion. */
  datatype Lists<T> = Lists(keys: seq<string>, values: map<string, seq<T>>)

  datatype Emission =
    | DeliveryBatch(conversation: string, updates: seq<Update>)
    | ReadBatch(target: seq<string>, ids: seq<string>)

  datatype State = State(delivery: Lists<Update>, receipts: Lists<string>, emitted: seq<Emission>, processed: nat)

  const Start := State(Lists([], map[]), Lists([], map[]), [], 0)

  // ---------------------------------------------------------------- maps of lists

  ghost predicate Keyed<T>(m: Lists<T>) {
    && (forall k :: k in m.keys <==> k in m.values)
    && (forall i, j :: 0 <= i < j < |m.keys| ==> m.keys[i] != m.keys[j])
  }

  function At<T>(m: Lists<T>, k: string): seq<T> {
    if k in m.values then m.values[k] else []
  }

  function Put<T>(m: Lists<T>, k: string, list: seq<T>): Lists<T> {
    Lists(if k in m.values then m.keys else m.keys + [k], m.values[k := list])
  }

  lemma Assoc<T>(a: seq<T>, b: seq<T>, c: seq<T>)
    ensures (a + b) + c == a + (b + c)
  {
  }

  // ---------------------------------------------------------------- duplicates

  /** `[...new Set(ids)]` */
  function Dedup(ids: seq<string>): seq<string> {
    if ids == [] then []
    else
      var n := |ids| - 1;
      var front := Dedup(ids[..n]);
      if ids[n] in front then front else front + [ids[n]]
  }

  function First(ids: seq<string>, id: string): nat
    requires id in ids
  {
    if ids[0] == id then 0 else 1 + First(ids[1..], id)
  }

  lemma {:induction false} FirstFront(ids: seq<string>, last: string, id: string)
    requires id in ids
    ensures First(ids + [last], id) == First(ids, id) < |ids|
    decreases |ids|
  {
    if ids[0] != id {
      assert (ids + [last])[1..] == ids[1..] + [last];
      FirstFront(ids[1..], last, id);
    }
  }

  lemma {:induction false} FirstLast(ids: seq<string>, id: string)
    requires id !in ids
    ensures First(ids + [id], id) == |ids|
    decreases |ids|
  {
    if ids != [] {
      assert ids[0] in ids;
      assert (ids + [id])[1..] == ids[1..] + [id];
      FirstLast(ids[1..], id);
    }
  }

  /** Duplicates go, nothing else does, and what stays is in the order in which it was first seen. */
  lemma {:induction false} DedupMeaning(ids: seq<string>)
    ensures forall id :: id in Dedup(ids) <==> id in ids
    ensures forall i, j :: 0 <= i < j < |Dedup(ids)| ==> First(ids, Dedup(ids)[i]) < First(ids, Dedup(ids)[j])
    decreases |ids|
  {
    if ids != [] {
      var n := |ids| - 1;
      var front, d := ids[..n], Dedup(ids);
      DedupMeaning(front);
      assert ids == front + [ids[n]];
      forall i, j | 0 <= i < j < |d| ensures First(ids, d[i]) < First(ids, d[j]) {
        FirstFront(front, ids[n], d[i]);
        if j < |Dedup(front)| {
          assert d[j] in front;
          FirstFront(front, ids[n], d[j]);
        } else {
          FirstLast(front, ids[n]);
        }
      }
    }
  }

  /** Merging into an already deduplicated list is deduplicating everything at once. */
  lemma {:induction false} DedupMerge(a: seq<string>, b: seq<string>)
    ensures Dedup(Dedup(a) + b) == Dedup(a + b)
    decreases |b|
  {
    if b == [] {
      assert Dedup(a) + b == Dedup(a) && a + b == a;
      DedupAgain(a);
    } else {
      var n := |b| - 1;
      DedupMerge(a, b[..n]);
      assert (Dedup(a) + b)[..|Dedup(a)| + n] == Dedup(a) + b[..n];
      assert (a + b)[..|a| + n] == a + b[..n];
    }
  }

  lemma {:induction false} DedupAgain(a: seq<string>)
    ensures Dedup(Dedup(a)) == Dedup(a)
    decreases |a|
  {
    if a != [] {
      var n := |a| - 1;
      DedupAgain(a[..n]);
      var front := Dedup(a[..n]);
      assert (front + [a[n]])[..|front|] == front;
    }
  }

  // ---------------------------------------------------------------- keys of read receipts

  function Key(c: string, u: string): string {
    c + ":" + u
  }

  /** `const [conversationId, userId] = key.split(':')` takes the first two parts. */
  function Target(key: string): seq<string> {
    var parts := Split(key, ':');
    if |parts| < 2 then parts else parts[..2]
  }

  predicate Plain(c: string, u: string) {
    ':' !in c && ':' !in u
  }

  /** A read receipt is emitted for the pair it was added for exactly when neither id contains a colon. */
  lemma TargetIff(c: string, u: string)
    ensures Target(Key(c, u)) == [c, u] <==> Plain(c, u)
  {
    assert Key(c, u) == c + [':'] + u;
    if Plain(c, u) {
      SplitAt(c, u, ':');
      SplitPart(u, ':');
    }
    var parts := Split(Key(c, u), ':');
    PartsAreFree(Key(c, u), ':');
    if Target(Key(c, u)) == [c, u] {
      assert parts[0] == [c, u][0] && parts[1] == [c, u][1];
      assert parts[0] in parts && parts[1] in parts;
    }
  }

  /** Colons make two pairs share one list: their receipts are merged. */
  lemma KeysClash(a: string, b: string, c: string)
    ensures Key(a, b + ":" + c) == Key(a + ":" + b, c)
  {
  }

  predicate PlainKey(key: string) {
    |Split(key, ':')| == 2
  }

  lemma PlainKeyOf(c: string, u: string)
    requires Plain(c, u)
    ensures PlainKey(Key(c, u)) && Target(Key(c, u)) == [c, u]
  {
    assert Key(c, u) == c + [':'] + u;
    SplitAt(c, u, ':');
    SplitPart(u, ':');
  }

  lemma PlainKeyTarget(key: string, c: string, u: string)
    requires PlainKey(key) && Plain(c, u)
    ensures Target(key) == [c, u] <==> key == Key(c, u)
  {
    PlainKeyOf(c, u);
    JoinSplit(key, ':');
    if Target(key) == [c, u] {
      assert Split(key, ':') == [c, u];
      assert Join([c, u], ':') == c + [':'] + Join([u], ':') by { assert [c, u][1..] == [u]; }
    }
  }

  // ---------------------------------------------------------------- operations

  function AddDelivery(s: State, c: string, u: Update): State {
    s.(delivery := Put(s.delivery, c, At(s.delivery, c) + [u]))
  }

  function AddReads(s: State, c: string, ids: seq<string>, u: string): State {
    s.(receipts := Put(s.receipts, Key(c, u), Dedup(At(s.receipts, Key(c, u)) + ids)))
  }

  function DeliveryOf(m: Lists<Update>, k: string): seq<Emission> {
    if At(m, k) == [] then [] else [DeliveryBatch(k, At(m, k))]
  }

  /** What the delivery loop emits over a list of keys. */
  function DeliveryEmissions(m: Lists<Update>, keys: seq<string>): seq<Emission> {
    if keys == [] then [] else DeliveryOf(m, keys[0]) + DeliveryEmissions(m, keys[1..])
  }

  function ReadOf(m: Lists<string>, k: string): seq<Emission> {
    if At(m, k) == [] then [] else [ReadBatch(Target(k), Dedup(At(m, k)))]
  }

  function ReadEmissions(m: Lists<string>, keys: seq<string>): seq<Emission> {
    if keys == [] then [] else ReadOf(m, keys[0]) + ReadEmissions(m, keys[1..])
  }

  function Length(e: Emission): nat {
    match e case DeliveryBatch(_, updates) => |updates| case ReadBatch(_, ids) => |ids|
  }

  function Size(trace: seq<Emission>): nat {
    if trace == [] then 0 else Length(trace[0]) + Size(trace[1..])
  }

  function FlushDelivery(s: State): State {
    var batch := DeliveryEmissions(s.delivery, s.delivery.keys);
    s.(delivery := Lists([], map[]), emitted := s.emitted + batch, processed := s.processed + Size(batch))
  }

  function FlushReads(s: State): State {
    var batch := ReadEmissions(s.receipts, s.receipts.keys);
    s.(receipts := Lists([], map[]), emitted := s.emitted + batch, processed := s.processed + Size(batch))
  }

  // ---------------------------------------------------------------- runs

  datatype Event =
    | AddDeliveryE(conversation: string, update: Update)
    | AddReadsE(conversation: string, ids: seq<string>, user: string)
    | FlushDeliveryE
    | FlushReadsE

  function Step(s: State, e: Event): State {
    match e
    case AddDeliveryE(c, u) => AddDelivery(s, c, u)
    case AddReadsE(c, ids, u) => AddReads(s, c, ids, u)
    case FlushDeliveryE => FlushDelivery(s)
    case FlushReadsE => FlushReads(s)
  }

  function Run(s: State, events: seq<Event>): State
    decreases |events|
  {
    if events == [] then s else Run(Step(s, events[0]), events[1..])
  }

  ghost predicate Good(s: State) {
    Keyed(s.delivery) && Keyed(s.receipts)
  }

  lemma StepGood(s: State, e: Event)
    requires Good(s)
    ensures Good(Step(s, e))
  {}

  // ---------------------------------------------------------------- delivery updates are conserved, in order

  /** What one emission delivers to a conversation. */
  function UpdatesFor(e: Emission, c: string): seq<Update> {
    if e.DeliveryBatch? && e.conversation == c then e.updates else []
  }

  /** The updates a trace delivers to one conversation. */
  function DeliveredTo(trace: seq<Emission>, c: string): seq<Update> {
    if trace == [] then [] else UpdatesFor(trace[0], c) + DeliveredTo(trace[1..], c)
  }

  function AddedBy(e: Event, c: string): seq<Update> {
    if e.AddDeliveryE? && e.conversation == c then [e.update] else []
  }

  /** The updates a run adds for one conversation. */
  function AddedTo(events: seq<Event>, c: string): seq<Update> {
    if events == [] then [] else AddedBy(events[0], c) + AddedTo(events[1..], c)
  }

  lemma {:induction false} DeliveredConcat(a: seq<Emission>, b: seq<Emission>, c: string)
    ensures DeliveredTo(a + b, c) == DeliveredTo(a, c) + DeliveredTo(b, c)
    decreases |a|
  {
    if a == [] {
      assert a + b == b;
    } else {
      DeliveredConcat(a[1..], b, c);
      assert (a + b)[1..] == a[1..] + b;
    }
  }

  lemma DeliveryOfTo(m: Lists<Update>, k: string, c: string)
    ensures DeliveredTo(DeliveryOf(m, k), c) == if k == c then At(m, c) else []
  {}

  lemma {:induction false} DeliveryEmitted(m: Lists<Update>, keys: seq<string>, c: string)
    requires forall i, j :: 0 <= i < j < |keys| ==> keys[i] != keys[j]
    ensures DeliveredTo(DeliveryEmissions(m, keys), c) == if c in keys then At(m, c) else []
    decreases |keys|
  {
    if keys != [] {
      var rest := keys[1..];
      DeliveryEmitted(m, rest, c);
      DeliveredConcat(DeliveryOf(m, keys[0]), DeliveryEmissions(m, rest), c);
      DeliveryOfTo(m, keys[0], c);
      assert c in keys <==> c == keys[0] || c in rest;
      assert keys[0] !in rest;
    }
  }

  lemma {:induction false} NoDeliveryInReads(m: Lists<string>, keys: seq<string>, c: string)
    ensures DeliveredTo(ReadEmissions(m, keys), c) == []
    decreases |keys|
  {
    if keys != [] {
      NoDeliveryInReads(m, keys[1..], c);
      DeliveredConcat(ReadOf(m, keys[0]), ReadEmissions(m, keys[1..]), c);
      var one := ReadOf(m, keys[0]);
      if one != [] { assert one[1..] == []; }
    }
  }

  /** Everything added for a conversation so far: what was delivered, then what is pending. */
  function Outstanding(s: State, c: string): seq<Update> {
    DeliveredTo(s.emitted, c) + At(s.delivery, c)
  }

  lemma StepConserves(s: State, e: Event, c: string)
    requires Good(s)
    ensures Outstanding(Step(s, e), c) == Outstanding(s, c) + AddedBy(e, c)
  {
    match e
    case AddDeliveryE(d, u) => Assoc(DeliveredTo(s.emitted, c), At(s.delivery, c), [u]);
    case AddReadsE(d, ids, u) =>
    case FlushDeliveryE =>
      DeliveredConcat(s.emitted, DeliveryEmissions(s.delivery, s.delivery.keys), c);
      DeliveryEmitted(s.delivery, s.delivery.keys, c);
    case FlushReadsE =>
      DeliveredConcat(s.emitted, ReadEmissions(s.receipts, s.receipts.keys), c);
      NoDeliveryInReads(s.receipts, s.receipts.keys, c);
  }

  lemma {:induction false} RunConserves(s: State, events: seq<Event>, c: string)
    requires Good(s)
    ensures Outstanding(Run(s, events), c) == Outstanding(s, c) + AddedTo(events, c)
    decreases |events|
  {
    if events != [] {
      StepGood(s, events[0]);
      StepConserves(s, events[0], c);
      RunConserves(Step(s, events[0]), events[1..], c);
      Assoc(Outstanding(s, c), AddedBy(events[0], c), AddedTo(events[1..], c));
    }
  }

  /** In every run, a conversation's delivered batches followed by its pending batch are exactly the updates added
      for it, in the order of adding: none lost, none twice, none to another conversation. */
  lemma DeliveryIsConserved(events: seq<Event>, c: string)
    ensures var t := Run(Start, events); DeliveredTo(t.emitted, c) + At(t.delivery, c) == AddedTo(events, c)
  {
    RunConserves(Start, events, c);
    assert Outstanding(Start, c) == [];
  }

  // ---------------------------------------------------------------- read receipts

  function IdsFor(e: Emission, target: seq<string>): seq<seq<string>> {
    if e.ReadBatch? && e.target == target then [e.ids] else []
  }

  /** The read batches a trace emits for one target. */
  function ReadTo(trace: seq<Emission>, target: seq<string>): seq<seq<string>> {
    if trace == [] then [] else IdsFor(trace[0], target) + ReadTo(trace[1..], target)
  }

  /** What an event adds to the current round of a pair. */
  function IdsAdded(e: Event, c: string, u: string): seq<string> {
    if e.AddReadsE? && e.conversation == c && e.user == u then e.ids else []
  }

  /** The read batch due for a list of ids. */
  function Due(ids: seq<string>): seq<seq<string>> {
    if ids == [] then [] else [Dedup(ids)]
  }

  /** What a pair's read flushes should emit over a run: for each flush the ids added since the last one. `sofar`
      starts the first round. */
  function Receipts(sofar: seq<string>, events: seq<Event>, c: string, u: string): seq<seq<string>>
    decreases |events|
  {
    if events == [] then []
    else if events[0].FlushReadsE? then Due(sofar) + Receipts([], events[1..], c, u)
    else Receipts(sofar + IdsAdded(events[0], c, u), events[1..], c, u)
  }

  /** The ids added for a pair since the last read flush of a run. */
  function Unflushed(sofar: seq<string>, events: seq<Event>, c: string, u: string): seq<string>
    decreases |events|
  {
    if events == [] then sofar
    else if events[0].FlushReadsE? then Unflushed([], events[1..], c, u)
    else Unflushed(sofar + IdsAdded(events[0], c, u), events[1..], c, u)
  }

  lemma {:induction false} ReadConcat(a: seq<Emission>, b: seq<Emission>, target: seq<string>)
    ensures ReadTo(a + b, target) == ReadTo(a, target) + ReadTo(b, target)
    decreases |a|
  {
    if a == [] {
      assert a + b == b;
    } else {
      ReadConcat(a[1..], b, target);
      assert (a + b)[1..] == a[1..] + b;
    }
  }

  lemma ReadOfTo(m: Lists<string>, k: string, target: seq<string>)
    ensures ReadTo(ReadOf(m, k), target) == if Target(k) == target then Due(At(m, k)) else []
  {}

  lemma {:induction false} ReadEmitted(m: Lists<string>, keys: seq<string>, c: string, u: string)
    requires Plain(c, u) && forall k :: k in keys ==> PlainKey(k)
    requires forall i, j :: 0 <= i < j < |keys| ==> keys[i] != keys[j]
    ensures ReadTo(ReadEmissions(m, keys), [c, u]) == if Key(c, u) in keys then Due(At(m, Key(c, u))) else []
    decreases |keys|
  {
    if keys != [] {
      var rest, key := keys[1..], Key(c, u);
      assert keys[0] in keys && forall k :: k in rest ==> k in keys;
      ReadEmitted(m, rest, c, u);
      ReadConcat(ReadOf(m, keys[0]), ReadEmissions(m, rest), [c, u]);
      PlainKeyTarget(keys[0], c, u);
      ReadOfTo(m, keys[0], [c, u]);
      assert key in keys <==> key == keys[0] || key in rest;
      assert keys[0] !in rest;
    }
  }

  lemma {:induction false} NoReadsInDelivery(m: Lists<Update>, keys: seq<string>, target: seq<string>)
    ensures ReadTo(DeliveryEmissions(m, keys), target) == []
    decreases |keys|
  {
    if keys != [] {
      NoReadsInDelivery(m, keys[1..], target);
      ReadConcat(DeliveryOf(m, keys[0]), DeliveryEmissions(m, keys[1..]), target);
      var one := DeliveryOf(m, keys[0]);
      if one != [] { assert one[1..] == []; }
    }
  }

  predicate PlainEvent(e: Event) {
    e.AddReadsE? ==> Plain(e.conversation, e.user)
  }

  predicate PlainKeys(s: State) {
    forall k <- s.receipts.keys :: PlainKey(k)
  }

  lemma StepPlain(s: State, e: Event)
    requires Good(s) && PlainKeys(s) && PlainEvent(e)
    ensures PlainKeys(Step(s, e))
  {
    if e.AddReadsE? { PlainKeyOf(e.conversation, e.user); }
  }

  lemma AddReadsRound(s: State, c: string, ids: seq<string>, u: string, sofar: seq<string>)
    requires At(s.receipts, Key(c, u)) == Dedup(sofar)
    ensures At(AddReads(s, c, ids, u).receipts, Key(c, u)) == Dedup(sofar + ids)
  {
    DedupMerge(sofar, ids);
  }

  /** A read flush emits the round so far, if it is not empty. */
  lemma FlushReadsRound(s: State, c: string, u: string, sofar: seq<string>)
    requires Good(s) && PlainKeys(s) && Plain(c, u) && At(s.receipts, Key(c, u)) == Dedup(sofar)
    ensures ReadTo(FlushReads(s).emitted, [c, u]) == ReadTo(s.emitted, [c, u]) + Due(sofar)
    ensures At(FlushReads(s).receipts, Key(c, u)) == Dedup([])
  {
    var m, key := s.receipts, Key(c, u);
    ReadConcat(s.emitted, ReadEmissions(m, m.keys), [c, u]);
    ReadEmitted(m, m.keys, c, u);
    DedupAgain(sofar);
    DedupEmptyIff(sofar);
    assert key in m.keys <==> key in m.values;
  }

  lemma DedupEmptyIff(ids: seq<string>)
    ensures Dedup(ids) == [] <==> ids == []
  {}

  lemma FlushDeliveryRound(s: State, target: seq<string>)
    ensures ReadTo(FlushDelivery(s).emitted, target) == ReadTo(s.emitted, target)
  {
    ReadConcat(s.emitted, DeliveryEmissions(s.delivery, s.delivery.keys), target);
    NoReadsInDelivery(s.delivery, s.delivery.keys, target);
  }

  lemma OtherPairKeeps(s: State, d: string, ids: seq<string>, v: string, c: string, u: string)
    requires Plain(d, v) && Plain(c, u) && (d != c || v != u)
    ensures At(AddReads(s, d, ids, v).receipts, Key(c, u)) == At(s.receipts, Key(c, u))
  {
    PlainKeyOf(d, v);
    PlainKeyOf(c, u);
    assert [d, v][0] != [c, u][0] || [d, v][1] != [c, u][1];
  }

  /** Every event but a read flush leaves the emitted receipts alone and extends the round by what it adds. */
  lemma StepReads(s: State, e: Event, c: string, u: string, sofar: seq<string>)
    requires Good(s) && Plain(c, u) && PlainEvent(e) && !e.FlushReadsE?
    requires At(s.receipts, Key(c, u)) == Dedup(sofar)
    ensures ReadTo(Step(s, e).emitted, [c, u]) == ReadTo(s.emitted, [c, u])
    ensures At(Step(s, e).receipts, Key(c, u)) == Dedup(sofar + IdsAdded(e, c, u))
  {
    assert sofar + [] == sofar;
    match e
    case AddReadsE(d, ids, v) =>
      if d == c && v == u {
        AddReadsRound(s, c, ids, u, sofar);
      } else {
        OtherPairKeeps(s, d, ids, v, c, u);
      }
    case AddDeliveryE(_, _) =>
    case FlushDeliveryE => FlushDeliveryRound(s, [c, u]);
  }

  lemma {:induction false} RunReads(s: State, events: seq<Event>, c: string, u: string, sofar: seq<string>)
    requires Good(s) && PlainKeys(s) && Plain(c, u) && forall e :: e in events ==> PlainEvent(e)
    requires At(s.receipts, Key(c, u)) == Dedup(sofar)
    ensures ReadTo(Run(s, events).emitted, [c, u]) == ReadTo(s.emitted, [c, u]) + Receipts(sofar, events, c, u)
    ensures At(Run(s, events).receipts, Key(c, u)) == Dedup(Unflushed(sofar, events, c, u))
    decreases |events|
  {
    if events != [] {
      var e, rest := events[0], events[1..];
      assert e in events && forall x :: x in rest ==> x in events;
      StepGood(s, e);
      StepPlain(s, e);
      if e.FlushReadsE? {
        FlushReadsRound(s, c, u, sofar);
        RunReads(Step(s, e), rest, c, u, []);
        Assoc(ReadTo(s.emitted, [c, u]), Due(sofar), Receipts([], rest, c, u));
      } else {
        StepReads(s, e, c, u, sofar);
        RunReads(Step(s, e), rest, c, u, sofar + IdsAdded(e, c, u));
      }
    }
  }

  /** With ids free of colons, each read flush emits for a pair exactly the ids added since the last flush, without
      duplicates and in first-seen order, and nothing when none were added; the rest is pending. */
  lemma ReadFlushesEmitRounds(events: seq<Event>, c: string, u: string)
    requires Plain(c, u) && forall e :: e in events ==> PlainEvent(e)
    ensures ReadTo(Run(Start, events).emitted, [c, u]) == Receipts([], events, c, u)
    ensures At(Run(Start, events).receipts, Key(c, u)) == Dedup(Unflushed([], events, c, u))
  {
    RunReads(Start, events, c, u, []);
  }

  lemma ColonKey()
    ensures Target(Key("a:b", "u")) == ["a", "b"]
  {
    SplitAt("a", "b:u", ':');
    SplitAt("b", "u", ':');
    assert "a" + [':'] + "b:u" == Key("a:b", "u") && "b" + [':'] + "u" == "b:u";
  }

  /** With a colon in an id the receipt goes to a pair nobody added it for. */
  lemma ColonMisdirects(ids: seq<string>)
    requires ids != []
    ensures ReadTo(FlushReads(AddReads(Start, "a:b", ids, "u")).emitted, ["a", "b"]) == [Dedup(ids)]
  {
    var key, m := Key("a:b", "u"), AddReads(Start, "a:b", ids, "u").receipts;
    assert [] + ids == ids && [] + [key] == [key];
    assert m.keys == [key] && At(m, key) == Dedup(ids);
    ColonKey();
    DedupAgain(ids);
    DedupEmptyIff(ids);
    ReadOfTo(m, key, ["a", "b"]);
    assert ReadEmissions(m, [key]) == ReadOf(m, key) + [] by { assert [key][1..] == []; }
    assert [] + (ReadOf(m, key) + []) == ReadOf(m, key);
  }

  // ---------------------------------------------------------------- counters

  lemma {:induction false} SizeConcat(a: seq<Emission>, b: seq<Emission>)
    ensures Size(a + b) == Size(a) + Size(b)
    decreases |a|
  {
    if a == [] {
      assert a + b == b;
    } else {
      SizeConcat(a[1..], b);
      assert (a + b)[1..] == a[1..] + b;
    }
  }

  /** processedCounter is the number of updates and ids emitted. */
  lemma {:induction false} CounterIsEmitted(s: State, events: seq<Event>)
    ensures Run(s, events).processed - s.processed == Size(Run(s, events).emitted) - Size(s.emitted)
    decreases |events|
  {
    if events != [] {
      var t := Step(s, events[0]);
      if events[0].FlushDeliveryE? { SizeConcat(s.emitted, DeliveryEmissions(s.delivery, s.delivery.keys)); }
      if events[0].FlushReadsE? { SizeConcat(s.emitted, ReadEmissions(s.receipts, s.receipts.keys)); }
      CounterIsEmitted(t, events[1..]);
    }
  }

  /** The sum that getProcessingStatus takes over a batch. */
  function Waiting<T>(m: Lists<T>, keys: seq<string>): nat {
    if keys == [] then 0 else |At(m, keys[0])| + Waiting(m, keys[1..])
  }

  /** Replacing one list changes the sum by the difference of the lengths. */
  lemma {:induction false} WaitingPut<T>(m: Lists<T>, k: string, list: seq<T>, keys: seq<string>)
    requires forall i, j :: 0 <= i < j < |keys| ==> keys[i] != keys[j]
    ensures Waiting(Put(m, k, list), keys) == Waiting(m, keys) + if k in keys then |list| - |At(m, k)| else 0
    decreases |keys|
  {
    if keys != [] {
      WaitingPut(m, k, list, keys[1..]);
      assert k in keys <==> k == keys[0] || k in keys[1..];
      assert keys[0] !in keys[1..];
    }
  }

  lemma {:induction false} WaitingConcat<T>(m: Lists<T>, a: seq<string>, b: seq<string>)
    ensures Waiting(m, a + b) == Waiting(m, a) + Waiting(m, b)
    decreases |a|
  {
    if a == [] {
      assert a + b == b;
    } else {
      WaitingConcat(m, a[1..], b);
      assert (a + b)[1..] == a[1..] + b;
    }
  }

  lemma WaitingGrows<T>(m: Lists<T>, k: string, list: seq<T>)
    requires Keyed(m)
    ensures Waiting(Put(m, k, list), Put(m, k, list).keys) + |At(m, k)| == Waiting(m, m.keys) + |list|
  {
    WaitingPut(m, k, list, m.keys);
    if k !in m.keys {
      WaitingConcat(Put(m, k, list), m.keys, [k]);
      assert [k][1..] == [];
    }
  }

  function DeliveriesAdded(events: seq<Event>): nat {
    if events == [] then 0 else (if events[0].AddDeliveryE? then 1 else 0) + DeliveriesAdded(events[1..])
  }

  /** How many updates and how many read ids a trace emits. */
  function UpdatesEmitted(trace: seq<Emission>): nat {
    if trace == [] then 0
    else (if trace[0].DeliveryBatch? then |trace[0].updates| else 0) + UpdatesEmitted(trace[1..])
  }

  function IdsEmitted(trace: seq<Emission>): nat {
    if trace == [] then 0 else (if trace[0].ReadBatch? then |trace[0].ids| else 0) + IdsEmitted(trace[1..])
  }

  lemma {:induction false} EmittedConcat(a: seq<Emission>, b: seq<Emission>)
    ensures UpdatesEmitted(a + b) == UpdatesEmitted(a) + UpdatesEmitted(b)
    ensures IdsEmitted(a + b) == IdsEmitted(a) + IdsEmitted(b)
    decreases |a|
  {
    if a == [] {
      assert a + b == b;
    } else {
      EmittedConcat(a[1..], b);
      assert (a + b)[1..] == a[1..] + b;
    }
  }

  lemma {:induction false} SizeIsBoth(trace: seq<Emission>)
    ensures Size(trace) == UpdatesEmitted(trace) + IdsEmitted(trace)
  {
    if trace != [] { SizeIsBoth(trace[1..]); }
  }

  lemma {:induction false} OnlyUpdates(m: Lists<Update>, keys: seq<string>)
    ensures UpdatesEmitted(DeliveryEmissions(m, keys)) == Waiting(m, keys)
    decreases |keys|
  {
    if keys != [] {
      OnlyUpdates(m, keys[1..]);
      EmittedConcat(DeliveryOf(m, keys[0]), DeliveryEmissions(m, keys[1..]));
      var one := DeliveryOf(m, keys[0]);
      if one != [] { assert one[1..] == []; }
    }
  }

  lemma {:induction false} OnlyIds(m: Lists<string>, keys: seq<string>)
    ensures UpdatesEmitted(ReadEmissions(m, keys)) == 0
    decreases |keys|
  {
    if keys != [] {
      OnlyIds(m, keys[1..]);
      EmittedConcat(ReadOf(m, keys[0]), ReadEmissions(m, keys[1..]));
      var one := ReadOf(m, keys[0]);
      if one != [] { assert one[1..] == []; }
    }
  }

  /** In every run the delivery side of the status adds up: updates emitted plus updates waiting are those added. */
  lemma {:induction false} StatusAddsUp(s: State, events: seq<Event>)
    requires Good(s)
    ensures var t := Run(s, events);
            UpdatesEmitted(t.emitted) + Waiting(t.delivery, t.delivery.keys)
            == UpdatesEmitted(s.emitted) + Waiting(s.delivery, s.delivery.keys) + DeliveriesAdded(events)
    decreases |events|
  {
    if events != [] {
      StatusStep(s, events[0]);
      StepGood(s, events[0]);
      StatusAddsUp(Step(s, events[0]), events[1..]);
    }
  }

  lemma StatusStep(s: State, e: Event)
    requires Good(s)
    ensures var t := Step(s, e);
            UpdatesEmitted(t.emitted) + Waiting(t.delivery, t.delivery.keys)
            == UpdatesEmitted(s.emitted) + Waiting(s.delivery, s.delivery.keys) + if e.AddDeliveryE? then 1 else 0
  {
    match e
    case AddDeliveryE(c, u) => WaitingGrows(s.delivery, c, At(s.delivery, c) + [u]);
    case AddReadsE(_, _, _) =>
    case FlushDeliveryE =>
      EmittedConcat(s.emitted, DeliveryEmissions(s.delivery, s.delivery.keys));
      OnlyUpdates(s.delivery, s.delivery.keys);
    case FlushReadsE =>
      EmittedConcat(s.emitted, ReadEmissions(s.receipts, s.receipts.keys));
      OnlyIds(s.receipts, s.receipts.keys);
  }

  /** From the start: the counter that the status reports, without the ids of read receipts, and the updates still
      waiting are the updates added. */
  lemma ReportedStatusAddsUp(events: seq<Event>)
    ensures var t := Run(Start, events);
            t.processed - IdsEmitted(t.emitted) + Waiting(t.delivery, t.delivery.keys) == DeliveriesAdded(events)
  {
    var t := Run(Start, events);
    StatusAddsUp(Start, events);
    CounterIsEmitted(Start, events);
    SizeIsBoth(t.emitted);
  }

  // ---------------------------------------------------------------- the service, updating its batches in place

  /** What one loop iteration of the delivery flush takes off what it still has to emit. */
  lemma DeliveryNext(m: Lists<Update>, keys: seq<string>, i: nat, emitted: seq<Emission>)
    requires i < |keys|
    ensures var one, rest := DeliveryOf(m, keys[i]), DeliveryEmissions(m, keys[i+1..]);
            && emitted + DeliveryEmissions(m, keys[i..]) == emitted + one + rest
            && Size(DeliveryEmissions(m, keys[i..])) == |At(m, keys[i])| + Size(rest)
  {
    var one, rest := DeliveryOf(m, keys[i]), DeliveryEmissions(m, keys[i+1..]);
    assert keys[i..][1..] == keys[i+1..];
    Assoc(emitted, one, rest);
    SizeConcat(one, rest);
    if one != [] { assert one[1..] == []; }
  }

  lemma ReadNext(m: Lists<string>, keys: seq<string>, i: nat, emitted: seq<Emission>)
    requires i < |keys|
    ensures var one, rest := ReadOf(m, keys[i]), ReadEmissions(m, keys[i+1..]);
            && emitted + ReadEmissions(m, keys[i..]) == emitted + one + rest
            && Size(ReadEmissions(m, keys[i..])) == |Dedup(At(m, keys[i]))| + Size(rest)
  {
    var one, rest := ReadOf(m, keys[i]), ReadEmissions(m, keys[i+1..]);
    assert keys[i..][1..] == keys[i+1..];
    Assoc(emitted, one, rest);
    SizeConcat(one, rest);
    if one != [] { assert one[1..] == []; }
  }

  class MessageOptimizationService {
    var deliveryBatch: Lists<Update>
    var readBatch: Lists<string>
    var emitted: seq<Emission>
    var processedCounter: nat

    constructor ()
      ensures Batches() == Start
    {
      deliveryBatch, readBatch, emitted, processedCounter := Lists([], map[]), Lists([], map[]), [], 0;
    }

    function Batches(): State
      reads this
    {
      State(deliveryBatch, readBatch, emitted, processedCounter)
    }

    method AddDeliveryUpdate(conversationId: string, update: Update)
      modifies this
      ensures Batches() == AddDelivery(old(Batches()), conversationId, update)
    {
      if conversationId !in deliveryBatch.values {
        deliveryBatch := Put(deliveryBatch, conversationId, []);
      }
      deliveryBatch := Put(deliveryBatch, conversationId, deliveryBatch.values[conversationId] + [update]);
    }

    method AddReadReceipt(conversationId: string, messageIds: seq<string>, userId: string)
      modifies this
      ensures Batches() == AddReads(old(Batches()), conversationId, messageIds, userId)
    {
      var key := Key(conversationId, userId);
      if key !in readBatch.values {
        readBatch := Put(readBatch, key, []);
      }
      var existing := readBatch.values[key];
      readBatch := Put(readBatch, key, Dedup(existing + messageIds));
    }

    /** One iteration of the delivery flush. */
    method EmitDelivery(conversationId: string)
      requires conversationId in deliveryBatch.values
      modifies this`emitted, this`processedCounter
      ensures emitted == old(emitted) + DeliveryOf(deliveryBatch, conversationId)
      ensures processedCounter == old(processedCounter) + |At(deliveryBatch, conversationId)|
    {
      var updates := deliveryBatch.values[conversationId];
      if updates != [] {
        emitted := emitted + [DeliveryBatch(conversationId, updates)];
        processedCounter := processedCounter + |updates|;
      }
    }

    method EmitDeliveries(keys: seq<string>)
      requires forall k <- keys :: k in deliveryBatch.values
      modifies this`emitted, this`processedCounter
      ensures emitted == old(emitted) + DeliveryEmissions(deliveryBatch, keys)
      ensures processedCounter == old(processedCounter) + Size(DeliveryEmissions(deliveryBatch, keys))
    {
      assert keys[0..] == keys;
      var i := 0;
      while i < |keys|
        invariant i <= |keys|
        invariant emitted + DeliveryEmissions(deliveryBatch, keys[i..]) == old(emitted) + DeliveryEmissions(deliveryBatch, keys)
        invariant processedCounter + Size(DeliveryEmissions(deliveryBatch, keys[i..]))
                  == old(processedCounter) + Size(DeliveryEmissions(deliveryBatch, keys))
      {
        DeliveryNext(deliveryBatch, keys, i, emitted);
        EmitDelivery(keys[i]);
        i := i + 1;
      }
    }

    method FlushDeliveryBatch()
      requires Keyed(deliveryBatch)
      modifies this
      ensures Batches() == FlushDelivery(old(Batches()))
    {
      EmitDeliveries(deliveryBatch.keys);
      deliveryBatch := Lists([], map[]);
    }

    /** One iteration of the read flush. */
    method EmitRead(key: string)
      requires key in readBatch.values
      modifies this`emitted, this`processedCounter
      ensures emitted == old(emitted) + ReadOf(readBatch, key)
      ensures processedCounter == old(processedCounter) + |Dedup(At(readBatch, key))|
    {
      var messageIds := readBatch.values[key];
      if messageIds != [] {
        var uniqueMessageIds := Dedup(messageIds);
        emitted := emitted + [ReadBatch(Target(key), uniqueMessageIds)];
        processedCounter := processedCounter + |uniqueMessageIds|;
      }
    }

    method EmitReads(keys: seq<string>)
      requires forall k <- keys :: k in readBatch.values
      modifies this`emitted, this`processedCounter
      ensures emitted == old(emitted) + ReadEmissions(readBatch, keys)
      ensures processedCounter == old(processedCounter) + Size(ReadEmissions(readBatch, keys))
    {
      assert keys[0..] == keys;
      var i := 0;
      while i < |keys|
        invariant i <= |keys|
        invariant emitted + ReadEmissions(readBatch, keys[i..]) == old(emitted) + ReadEmissions(readBatch, keys)
        invariant processedCounter + Size(ReadEmissions(readBatch, keys[i..]))
                  == old(processedCounter) + Size(ReadEmissions(readBatch, keys))
      {
        ReadNext(readBatch, keys, i, emitted);
        EmitRead(keys[i]);
        i := i + 1;
      }
    }

    method FlushReadBatch()
      requires Keyed(readBatch)
      modifies this
      ensures Batches() == FlushReads(old(Batches()))
    {
      EmitReads(readBatch.keys);
      readBatch := Lists([], map[]);
    }

    method GetProcessingStatus() returns (isActive: bool, delivery: nat, read: nat, totalProcessed: nat)
      ensures delivery == Waiting(deliveryBatch, deliveryBatch.keys) && read == Waiting(readBatch, readBatch.keys)
      ensures isActive <==> delivery > 0 || read > 0
      ensures totalProcessed == processedCounter
    {
      delivery := Total(deliveryBatch);
      read := Total(readBatch);
      isActive := delivery > 0 || read > 0;
      totalProcessed := processedCounter;
    }
  }

  method Total<T>(m: Lists<T>) returns (sum: nat)
    ensures sum == Waiting(m, m.keys)
  {
    sum := 0;
    var i := 0;
    assert m.keys[0..] == m.keys;
    while i < |m.keys|
      invariant i <= |m.keys|
      invariant sum + Waiting(m, m.keys[i..]) == Waiting(m, m.keys)
    {
      assert m.keys[i..][1..] == m.keys[i+1..];
      sum := sum + |At(m, m.keys[i])|;
      i := i + 1;
    }
  }
}
