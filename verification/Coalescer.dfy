/**
 * Outbound frames of one connection: at most one frame a key and interval, always the latest value.
 * A JavaScript Map keeps its insertion order, so the waiting frames are a sequence with one entry a key.
 */
module Coalescer {
  import opened Options

  datatype Entry<T> = Entry(key: string, value: T, interval: int)

  datatype State<T> = State(lastSentAt: map<string, int>, pending: seq<Entry<T>>)

  function PendingFor<T>(pending: seq<Entry<T>>, key: string): Option<Entry<T>> {
    if pending == [] then None
    else if pending[|pending| - 1].key == key then Some(pending[|pending| - 1])
    else PendingFor(pending[..|pending| - 1], key)
  }

  /** Setting a key of a Map: in place, or at the end. */
  function Put<T>(pending: seq<Entry<T>>, e: Entry<T>): seq<Entry<T>> {
    if pending == [] then [e]
    else if pending[|pending| - 1].key == e.key then pending[..|pending| - 1] + [e]
    else Put(pending[..|pending| - 1], e) + [pending[|pending| - 1]]
  }

  function Drop<T>(pending: seq<Entry<T>>, key: string): seq<Entry<T>> {
    if pending == [] then []
    else if pending[|pending| - 1].key == key then Drop(pending[..|pending| - 1], key)
    else Drop(pending[..|pending| - 1], key) + [pending[|pending| - 1]]
  }

  predicate Due(lastSentAt: map<string, int>, key: string, interval: int, now: int) {
    now - (if key in lastSentAt then lastSentAt[key] else 0) >= interval
  }

  /** An offer is sent at once when its key is due and nothing waits for it. */
  predicate SendsNow<T>(s: State<T>, key: string, interval: int, now: int) {
    (key !in s.lastSentAt || now - s.lastSentAt[key] >= interval) && PendingFor(s.pending, key).None?
  }

  function Offered<T>(s: State<T>, key: string, value: T, interval: int, now: int): State<T> {
    if SendsNow(s, key, interval, now) then s.(lastSentAt := s.lastSentAt[key := now])
    else s.(pending := Put(s.pending, Entry(key, value, interval)))
  }

  /** One entry of a drain. */
  function DrainOne<T>(s: State<T>, e: Entry<T>, now: int): State<T> {
    if Due(s.lastSentAt, e.key, e.interval, now)
    then State(s.lastSentAt[e.key := now], Drop(s.pending, e.key))
    else s
  }

  function Drained<T>(s: State<T>, entries: seq<Entry<T>>, now: int): State<T> {
    if entries == [] then s else DrainOne(Drained(s, entries[..|entries| - 1], now), entries[|entries| - 1], now)
  }

  /** What a drain sends, in order. */
  function Flushed<T>(s: State<T>, entries: seq<Entry<T>>, now: int): seq<Entry<T>> {
    if entries == [] then []
    else
      var front, e := entries[..|entries| - 1], entries[|entries| - 1];
      Flushed(s, front, now) + if Due(Drained(s, front, now).lastSentAt, e.key, e.interval, now) then [e] else []
  }

  function Forgotten<T>(s: State<T>, key: string): State<T> {
    State(s.lastSentAt - {key}, Drop(s.pending, key))
  }

  class Coalescer<T> {
    var lastSentAt: map<string, int>
    var pending: seq<Entry<T>>

    function View(): State<T>
      reads this
    {
      State(lastSentAt, pending)
    }

    constructor ()
      ensures View() == State(map[], [])
    {
      lastSentAt, pending := map[], [];
    }

    method Offer(key: string, value: T, interval: int, now: int) returns (send: Option<T>)
      modifies this
      ensures View() == Offered(old(View()), key, value, interval, now)
      ensures send == if SendsNow(old(View()), key, interval, now) then Some(value) else None
    {
      if key !in lastSentAt || now - lastSentAt[key] >= interval {
        if PendingFor(pending, key).None? {
          lastSentAt := lastSentAt[key := now];
          return Some(value);
        }
      }
      pending := Put(pending, Entry(key, value, interval));
      return None;
    }

    method Drain(now: int) returns (out: seq<Entry<T>>)
      modifies this
      ensures View() == Drained(old(View()), old(pending), now)
      ensures out == Flushed(old(View()), old(pending), now)
    {
      var entries := pending;
      out := [];
      for i := 0 to |entries|
        invariant View() == Drained(old(View()), entries[..i], now)
        invariant out == Flushed(old(View()), entries[..i], now)
      {
        assert entries[..i + 1][..i] == entries[..i];
        var e := entries[i];
        var last := if e.key in lastSentAt then lastSentAt[e.key] else 0;
        if now - last >= e.interval {
          pending := Drop(pending, e.key);
          lastSentAt := lastSentAt[e.key := now];
          out := out + [e];
        }
      }
      assert entries[..|entries|] == entries;
    }

    method Forget(key: string)
      modifies this
      ensures View() == Forgotten(old(View()), key)
    {
      pending := Drop(pending, key);
      lastSentAt := lastSentAt - {key};
    }
  }

  // ----- waiting frames -----

  predicate OneEach<T>(pending: seq<Entry<T>>) {
    forall i, j :: 0 <= i < j < |pending| ==> pending[i].key != pending[j].key
  }

  predicate Waits<T>(pending: seq<Entry<T>>, key: string) { exists i :: 0 <= i < |pending| && pending[i].key == key }

  lemma {:induction false} PendingForIs<T>(pending: seq<Entry<T>>, key: string)
    ensures PendingFor(pending, key).None? <==> !Waits(pending, key)
    ensures PendingFor(pending, key).Some? ==> PendingFor(pending, key).value in pending && PendingFor(pending, key).value.key == key
  {
    if pending != [] {
      var n := |pending| - 1;
      PendingForIs(pending[..n], key);
      if Waits(pending[..n], key) {
        var i :| 0 <= i < n && pending[..n][i].key == key;
        assert pending[i].key == key;
      }
      if Waits(pending, key) && pending[n].key != key {
        var i :| 0 <= i < |pending| && pending[i].key == key;
        assert pending[..n][i].key == key;
      }
    }
  }

  lemma {:induction false} PutIs<T>(pending: seq<Entry<T>>, e: Entry<T>, key: string)
    requires OneEach(pending)
    ensures PendingFor(Put(pending, e), key) == if key == e.key then Some(e) else PendingFor(pending, key)
    ensures OneEach(Put(pending, e))
  {
    PutContents(pending, e);
    if pending != [] {
      var n := |pending| - 1;
      var last := pending[n];
      if last.key == e.key {
        assert (pending[..n] + [e])[..n] == pending[..n];
      } else {
        PutIs(pending[..n], e, key);
        PutContents(pending[..n], e);
        var longer := Put(pending[..n], e) + [last];
        assert longer[..|longer| - 1] == Put(pending[..n], e);
      }
    }
  }

  lemma {:induction false} PutContents<T>(pending: seq<Entry<T>>, e: Entry<T>)
    ensures forall i :: 0 <= i < |Put(pending, e)| ==> Put(pending, e)[i] in pending || Put(pending, e)[i] == e
  {
    if pending != [] {
      PutContents(pending[..|pending| - 1], e);
    }
  }

  lemma {:induction false} DropIs<T>(pending: seq<Entry<T>>, key: string, other: string)
    requires OneEach(pending)
    ensures PendingFor(Drop(pending, key), other) == if other == key then None else PendingFor(pending, other)
    ensures OneEach(Drop(pending, key))
    ensures forall i :: 0 <= i < |Drop(pending, key)| ==> Drop(pending, key)[i] in pending
  {
    if pending != [] {
      var n := |pending| - 1;
      DropIs(pending[..n], key, other);
      if pending[n].key != key {
        var longer := Drop(pending[..n], key) + [pending[n]];
        assert longer[..|longer| - 1] == Drop(pending[..n], key);
      }
    }
  }

  // ----- runs: offers are numbered -----

  /** A delivery: which offer, when, and after how many times its key was forgotten. */
  datatype Sent = Sent(key: string, offer: nat, at: int, epoch: nat)

  datatype Log = Log(c: State<nat>, offers: nat, sent: seq<Sent>, newest: map<string, nat>, forgets: map<string, nat>)

  datatype Step = OfferStep(key: string, now: int) | DrainStep(now: int) | ForgetStep(key: string)

  const Fresh := Log(State(map[], []), 0, [], map[], map[])

  function Epoch(l: Log, key: string): nat { if key in l.forgets then l.forgets[key] else 0 }

  /** Each key has its own fixed interval. */
  type Intervals = string -> nat

  function OfferNext(l: Log, every: Intervals, key: string, now: int): Log {
    var t := l.(c := Offered(l.c, key, l.offers, every(key), now), offers := l.offers + 1, newest := l.newest[key := l.offers]);
    if SendsNow(l.c, key, every(key), now) then t.(sent := l.sent + [Sent(key, l.offers, now, Epoch(l, key))]) else t
  }

  function DrainNextOne(l: Log, e: Entry<nat>, now: int): Log {
    if Due(l.c.lastSentAt, e.key, e.interval, now)
    then l.(c := DrainOne(l.c, e, now), sent := l.sent + [Sent(e.key, e.value, now, Epoch(l, e.key))])
    else l
  }

  function DrainNext(l: Log, entries: seq<Entry<nat>>, now: int): Log {
    if entries == [] then l else DrainNextOne(DrainNext(l, entries[..|entries| - 1], now), entries[|entries| - 1], now)
  }

  function ForgetNext(l: Log, key: string): Log {
    l.(c := Forgotten(l.c, key), newest := l.newest - {key}, forgets := l.forgets[key := Epoch(l, key) + 1])
  }

  function Next(l: Log, every: Intervals, step: Step): Log {
    match step
    case OfferStep(key, now) => OfferNext(l, every, key, now)
    case DrainStep(now) => DrainNext(l, l.c.pending, now)
    case ForgetStep(key) => ForgetNext(l, key)
  }

  function Run(every: Intervals, steps: seq<Step>): Log {
    if steps == [] then Fresh else Next(Run(every, steps[..|steps| - 1]), every, steps[|steps| - 1])
  }

  /** The log's drain is the coalescer's. */
  lemma {:induction false} DrainNextIsDrained(l: Log, entries: seq<Entry<nat>>, now: int)
    ensures DrainNext(l, entries, now).c == Drained(l.c, entries, now)
    ensures |DrainNext(l, entries, now).sent| == |l.sent| + |Flushed(l.c, entries, now)|
    ensures forall i :: 0 <= i < |Flushed(l.c, entries, now)|
                        ==> var d := DrainNext(l, entries, now).sent[|l.sent| + i];
                            d.key == Flushed(l.c, entries, now)[i].key && d.offer == Flushed(l.c, entries, now)[i].value && d.at == now
  {
    if entries != [] {
      var front, e := entries[..|entries| - 1], entries[|entries| - 1];
      DrainNextIsDrained(l, front, now);
      DrainsOneMore(DrainNext(l, front, now), e, now);
      var before, after := DrainNext(l, front, now).sent, DrainNext(l, entries, now).sent;
      var out := Flushed(l.c, front, now);
      forall i | 0 <= i < |Flushed(l.c, entries, now)|
        ensures var d := after[|l.sent| + i];
                d.key == Flushed(l.c, entries, now)[i].key && d.offer == Flushed(l.c, entries, now)[i].value && d.at == now
      {
        if i < |out| {
          assert Flushed(l.c, entries, now)[i] == out[i];
          assert after[|l.sent| + i] == before[|l.sent| + i];
        }
      }
    }
  }

  /** One entry is sent and recorded, or neither. */
  lemma DrainsOneMore(l: Log, e: Entry<nat>, now: int)
    ensures var t := DrainNextOne(l, e, now);
            && t.c == DrainOne(l.c, e, now)
            && t.sent == l.sent + if Due(l.c.lastSentAt, e.key, e.interval, now) then [Sent(e.key, e.value, now, Epoch(l, e.key))] else []
  {
  }

  /** The last delivery of a key. */
  function LastSent(sent: seq<Sent>, key: string): Option<Sent> {
    if sent == [] then None
    else if sent[|sent| - 1].key == key then Some(sent[|sent| - 1])
    else LastSent(sent[..|sent| - 1], key)
  }

  ghost predicate SentOk(l: Log, every: Intervals) {
    && (forall i, j :: 0 <= i < j < |l.sent| && l.sent[i].key == l.sent[j].key
                       ==> l.sent[i].offer < l.sent[j].offer
                           && (l.sent[i].epoch == l.sent[j].epoch ==> l.sent[i].at + every(l.sent[i].key) <= l.sent[j].at))
    && (forall i :: 0 <= i < |l.sent| ==> SentBounded(l, l.sent[i]))
  }

  /** A delivery is of a made offer, and not later than its key's last one. */
  ghost predicate SentBounded(l: Log, d: Sent) {
    && d.offer < l.offers && d.epoch <= Epoch(l, d.key)
    && (d.epoch == Epoch(l, d.key) ==> d.key in l.c.lastSentAt && d.at <= l.c.lastSentAt[d.key])
  }

  /** A waiting frame is its key's newest offer, newer than anything sent, and its key was sent before. */
  ghost predicate WaitOk(l: Log, every: Intervals, e: Entry<nat>) {
    && e.interval == every(e.key) && e.value < l.offers
    && e.key in l.c.lastSentAt && e.key in l.newest && l.newest[e.key] == e.value
    && (forall i :: 0 <= i < |l.sent| && l.sent[i].key == e.key ==> l.sent[i].offer < e.value)
  }

  ghost predicate NewestOk(l: Log, key: string)
    requires key in l.newest
  {
    var p := PendingFor(l.c.pending, key);
    l.newest[key] < l.offers
    && if p.Some? then p.value.value == l.newest[key]
       else LastSent(l.sent, key).Some? && LastSent(l.sent, key).value.offer == l.newest[key]
  }

  ghost predicate Ok(l: Log, every: Intervals) {
    && OneEach(l.c.pending) && SentOk(l, every)
    && (forall i :: 0 <= i < |l.c.pending| ==> WaitOk(l, every, l.c.pending[i]))
    && (forall key :: key in l.newest ==> NewestOk(l, key))
  }

  // ----- every step keeps it -----

  lemma LastSentMore(sent: seq<Sent>, d: Sent, key: string)
    ensures LastSent(sent + [d], key) == if d.key == key then Some(d) else LastSent(sent, key)
  {
    assert (sent + [d])[..|sent|] == sent;
  }

  lemma PendingIn<T>(pending: seq<Entry<T>>, e: Entry<T>)
    requires OneEach(pending) && e in pending
    ensures PendingFor(pending, e.key) == Some(e)
  {
    PendingForIs(pending, e.key);
    var i :| 0 <= i < |pending| && pending[i] == e;
    assert Waits(pending, e.key);
    var found := PendingFor(pending, e.key).value;
    var j :| 0 <= j < |pending| && pending[j] == found;
  }

  /** One more delivery: the newest so far, an interval after the last. */
  lemma SentMore(l: Log, t: Log, every: Intervals, d: Sent)
    requires SentOk(l, every) && t.sent == l.sent + [d] && t.forgets == l.forgets && l.offers <= t.offers
    requires d.epoch == Epoch(l, d.key) && d.offer < t.offers
    requires forall i :: 0 <= i < |l.sent| && l.sent[i].key == d.key ==> l.sent[i].offer < d.offer
    requires d.key in l.c.lastSentAt ==> d.at - l.c.lastSentAt[d.key] >= every(d.key)
    requires t.c.lastSentAt == l.c.lastSentAt[d.key := d.at]
    ensures SentOk(t, every)
  {
    forall i | 0 <= i < |t.sent| ensures SentBounded(t, t.sent[i]) {
      if i < |l.sent| {
        assert SentBounded(l, l.sent[i]);
      }
    }
    forall i, j | 0 <= i < j < |t.sent| && t.sent[i].key == t.sent[j].key
      ensures t.sent[i].offer < t.sent[j].offer
              && (t.sent[i].epoch == t.sent[j].epoch ==> t.sent[i].at + every(t.sent[i].key) <= t.sent[j].at)
    {
      assert SentBounded(l, l.sent[i]);
    }
  }

  lemma OfferSends(l: Log, every: Intervals, key: string, now: int)
    requires Ok(l, every) && SendsNow(l.c, key, every(key), now)
    ensures Ok(OfferNext(l, every, key, now), every)
  {
    var t := OfferNext(l, every, key, now);
    var d := Sent(key, l.offers, now, Epoch(l, key));
    forall i | 0 <= i < |l.sent| && l.sent[i].key == key ensures l.sent[i].offer < l.offers {
      assert SentBounded(l, l.sent[i]);
    }
    SentMore(l, t, every, d);
    PendingForIs(l.c.pending, key);
    forall i | 0 <= i < |t.c.pending| ensures WaitOk(t, every, t.c.pending[i]) {
      assert WaitOk(l, every, l.c.pending[i]);
      assert Waits(l.c.pending, l.c.pending[i].key);
    }
    forall k | k in t.newest ensures NewestOk(t, k) {
      LastSentMore(l.sent, d, k);
      if k != key {
        assert NewestOk(l, k);
      }
    }
  }

  lemma OfferWaits(l: Log, every: Intervals, key: string, now: int)
    requires Ok(l, every) && !SendsNow(l.c, key, every(key), now)
    ensures Ok(OfferNext(l, every, key, now), every)
  {
    var t := OfferNext(l, every, key, now);
    var e := Entry(key, l.offers, every(key));
    PutIs(l.c.pending, e, key);
    forall i | 0 <= i < |t.sent| ensures SentBounded(t, t.sent[i]) {
      assert SentBounded(l, l.sent[i]);
    }
    KeyWasSent(l, every, key);
    PutContents(l.c.pending, e);
    forall i | 0 <= i < |t.c.pending| ensures WaitOk(t, every, t.c.pending[i]) {
      var x := t.c.pending[i];
      if x == e {
        NewestWaits(l, every, key, now);
      } else {
        OthersStay(l.c.pending, e, t.c.pending, i);
        assert WaitOk(l, every, x);
      }
    }
    forall k | k in t.newest ensures NewestOk(t, k) {
      PutIs(l.c.pending, e, k);
      if k != key {
        assert NewestOk(l, k);
      }
    }
  }

  lemma NewestWaits(l: Log, every: Intervals, key: string, now: int)
    requires Ok(l, every) && !SendsNow(l.c, key, every(key), now)
    ensures WaitOk(OfferNext(l, every, key, now), every, Entry(key, l.offers, every(key)))
  {
    KeyWasSent(l, every, key);
    forall i | 0 <= i < |l.sent| && l.sent[i].key == key ensures l.sent[i].offer < l.offers {
      assert SentBounded(l, l.sent[i]);
    }
  }

  /** An offer waits only behind an earlier delivery or another waiting one, so its key has been sent. */
  lemma KeyWasSent(l: Log, every: Intervals, key: string)
    requires Ok(l, every)
    ensures PendingFor(l.c.pending, key).Some? ==> key in l.c.lastSentAt
  {
    PendingForIs(l.c.pending, key);
    if PendingFor(l.c.pending, key).Some? {
      var i :| 0 <= i < |l.c.pending| && l.c.pending[i] == PendingFor(l.c.pending, key).value;
      assert WaitOk(l, every, l.c.pending[i]);
    }
  }

  lemma OthersStay(pending: seq<Entry<nat>>, e: Entry<nat>, longer: seq<Entry<nat>>, i: nat)
    requires OneEach(pending) && longer == Put(pending, e) && i < |longer| && longer[i] != e
    ensures longer[i].key != e.key
  {
    PutIs(pending, e, e.key);
    PendingIn(longer, longer[i]);
  }

  lemma {:induction false} DropKeeps<T>(pending: seq<Entry<T>>, key: string, e: Entry<T>)
    requires e in pending && e.key != key
    ensures e in Drop(pending, key)
  {
    var n := |pending| - 1;
    if e in pending[..n] {
      DropKeeps(pending[..n], key, e);
    }
  }

  /** A waiting frame that is due goes out. */
  lemma DrainOneKeeps(l: Log, every: Intervals, e: Entry<nat>, now: int)
    requires Ok(l, every) && e in l.c.pending
    ensures Ok(DrainNextOne(l, e, now), every)
    ensures forall x :: x in l.c.pending && x.key != e.key ==> x in DrainNextOne(l, e, now).c.pending
  {
    var t := DrainNextOne(l, e, now);
    assert WaitOk(l, every, e);
    if Due(l.c.lastSentAt, e.key, e.interval, now) {
      var d := Sent(e.key, e.value, now, Epoch(l, e.key));
      SentMore(l, t, every, d);
      DropIs(l.c.pending, e.key, e.key);
      forall i | 0 <= i < |t.c.pending| ensures WaitOk(t, every, t.c.pending[i]) {
        var x := t.c.pending[i];
        assert WaitOk(l, every, x);
        PendingForIs(t.c.pending, e.key);
        assert Waits(t.c.pending, x.key);
      }
      forall k | k in t.newest ensures NewestOk(t, k) {
        DropIs(l.c.pending, e.key, k);
        LastSentMore(l.sent, d, k);
        assert NewestOk(l, k);
      }
      forall x | x in l.c.pending && x.key != e.key ensures x in t.c.pending {
        DropKeeps(l.c.pending, e.key, x);
      }
    }
  }

  lemma {:induction false} DrainKeeps(l: Log, every: Intervals, entries: seq<Entry<nat>>, now: int, rest: seq<Entry<nat>>)
    requires Ok(l, every) && OneEach(entries + rest) && forall x :: x in entries + rest ==> x in l.c.pending
    ensures Ok(DrainNext(l, entries, now), every) && forall x :: x in rest ==> x in DrainNext(l, entries, now).c.pending
    decreases |entries|
  {
    if entries == [] {
      assert entries + rest == rest;
    } else {
      var front, e := entries[..|entries| - 1], entries[|entries| - 1];
      assert front + ([e] + rest) == entries + rest;
      DrainKeeps(l, every, front, now, [e] + rest);
      var m := DrainNext(l, front, now);
      assert e in [e] + rest;
      DrainOneKeeps(m, every, e, now);
      forall x | x in rest ensures x in DrainNextOne(m, e, now).c.pending {
        var i :| 0 <= i < |rest| && rest[i] == x;
        assert (entries + rest)[|entries| + i] == x && (entries + rest)[|entries| - 1] == e;
        assert x in [e] + rest;
      }
    }
  }

  lemma ForgetKeeps(l: Log, every: Intervals, key: string)
    requires Ok(l, every)
    ensures Ok(ForgetNext(l, key), every)
  {
    var t := ForgetNext(l, key);
    DropIs(l.c.pending, key, key);
    PendingForIs(t.c.pending, key);
    ForgetKeepsSent(l, every, key);
    forall i | 0 <= i < |t.c.pending| ensures WaitOk(t, every, t.c.pending[i]) {
      assert Waits(t.c.pending, t.c.pending[i].key);
      ForgetKeepsWaiting(l, every, key, t.c.pending[i]);
    }
    forall k | k in t.newest ensures NewestOk(t, k) {
      DropIs(l.c.pending, key, k);
      assert NewestOk(l, k);
    }
  }

  lemma ForgetKeepsSent(l: Log, every: Intervals, key: string)
    requires SentOk(l, every)
    ensures SentOk(ForgetNext(l, key), every)
  {
    forall i | 0 <= i < |l.sent| ensures SentBounded(ForgetNext(l, key), l.sent[i]) {
      assert SentBounded(l, l.sent[i]);
    }
  }

  lemma ForgetKeepsWaiting(l: Log, every: Intervals, key: string, e: Entry<nat>)
    requires WaitOk(l, every, e) && e.key != key
    ensures WaitOk(ForgetNext(l, key), every, e)
  {
  }

  lemma {:induction false} RunKeeps(every: Intervals, steps: seq<Step>)
    ensures Ok(Run(every, steps), every)
  {
    if steps != [] {
      RunKeeps(every, steps[..|steps| - 1]);
      var l := Run(every, steps[..|steps| - 1]);
      match steps[|steps| - 1]
      case OfferStep(key, now) =>
        if SendsNow(l.c, key, every(key), now) {
          OfferSends(l, every, key, now);
        } else {
          OfferWaits(l, every, key, now);
        }
      case DrainStep(now) =>
        assert l.c.pending + [] == l.c.pending;
        DrainKeeps(l, every, l.c.pending, now, []);
      case ForgetStep(key) => ForgetKeeps(l, every, key);
    }
  }

  // ----- what every run guarantees -----

  /** Deliveries of a key are in strictly increasing offer order and, between two forgettings, an interval apart - on any clock. */
  lemma DeliveriesSpaced(every: Intervals, steps: seq<Step>, i: nat, j: nat)
    requires i < j < |Run(every, steps).sent| && Run(every, steps).sent[i].key == Run(every, steps).sent[j].key
    ensures var sent := Run(every, steps).sent;
            && sent[i].offer < sent[j].offer
            && (sent[i].epoch == sent[j].epoch ==> sent[j].at - sent[i].at >= every(sent[i].key))
  {
    RunKeeps(every, steps);
  }

  /** Until it is forgotten, a key's newest offer is the last one delivered or the one waiting. */
  lemma NewestNeverLost(every: Intervals, steps: seq<Step>, key: string)
    requires key in Run(every, steps).newest
    ensures var l := Run(every, steps);
            var p := PendingFor(l.c.pending, key);
            if p.Some? then p.value.value == l.newest[key]
            else LastSent(l.sent, key).Some? && LastSent(l.sent, key).value.offer == l.newest[key]
  {
    RunKeeps(every, steps);
    assert NewestOk(Run(every, steps), key);
  }

  /** Every key that waits has a time it was last sent at, so the zero the drain falls back on is never used. */
  lemma WaitingWasSent(every: Intervals, steps: seq<Step>, e: Entry<nat>)
    requires e in Run(every, steps).c.pending
    ensures e.key in Run(every, steps).c.lastSentAt && OneEach(Run(every, steps).c.pending)
  {
    RunKeeps(every, steps);
    assert WaitOk(Run(every, steps), every, e);
  }

  // ----- what is sent, and when -----

  /** An interval has gone by since the key was last sent. */
  predicate Ready(lastSentAt: map<string, int>, key: string, interval: int, now: int) {
    now - (if key in lastSentAt then lastSentAt[key] else 0) >= interval
  }

  /** An offer goes out at once exactly when its key was never sent or an interval ago, and nothing waits for it; else it is what waits. */
  lemma OfferSendsIff(every: Intervals, steps: seq<Step>, key: string, now: int)
    ensures var l, t := Run(every, steps), Next(Run(every, steps), every, OfferStep(key, now));
            var sends := (key in l.c.lastSentAt ==> now - l.c.lastSentAt[key] >= every(key)) && !Waits(l.c.pending, key);
            && t.newest == l.newest[key := l.offers]
            && (if sends then t.sent == l.sent + [Sent(key, l.offers, now, Epoch(l, key))] && t.c.pending == l.c.pending
                else t.sent == l.sent && PendingFor(t.c.pending, key) == Some(Entry(key, l.offers, every(key))))
  {
    RunKeeps(every, steps);
    PendingForIs(Run(every, steps).c.pending, key);
    PutIs(Run(every, steps).c.pending, Entry(key, Run(every, steps).offers, every(key)), key);
  }

  /** What a drain does for one waiting frame: it goes out now, or nothing changes for it. */
  ghost predicate Handled(l: Log, t: Log, e: Entry<nat>, now: int) {
    && l.sent <= t.sent
    && if Ready(l.c.lastSentAt, e.key, e.interval, now) then
         && (exists i :: |l.sent| <= i < |t.sent| && t.sent[i].key == e.key && t.sent[i].offer == e.value && t.sent[i].at == now)
         && PendingFor(t.c.pending, e.key).None? && e.key in t.c.lastSentAt && t.c.lastSentAt[e.key] == now
       else SameFor(l, t, e.key)
  }

  ghost predicate SameFor(l: Log, t: Log, key: string) {
    && PendingFor(t.c.pending, key) == PendingFor(l.c.pending, key)
    && (key in t.c.lastSentAt <==> key in l.c.lastSentAt) && (key in l.c.lastSentAt ==> t.c.lastSentAt[key] == l.c.lastSentAt[key])
    && l.sent <= t.sent
  }

  lemma DrainOneHandles(l: Log, e: Entry<nat>, now: int, key: string)
    requires OneEach(l.c.pending)
    ensures var t := DrainNextOne(l, e, now);
            && OneEach(t.c.pending) && l.sent <= t.sent
            && (key != e.key ==> SameFor(l, t, key))
            && Handled(l, t, e, now)
  {
    DropIs(l.c.pending, e.key, key);
    DropIs(l.c.pending, e.key, e.key);
    var t := DrainNextOne(l, e, now);
    if Due(l.c.lastSentAt, e.key, e.interval, now) {
      assert t.sent[|l.sent|] == Sent(e.key, e.value, now, Epoch(l, e.key));
    }
  }

  lemma {:induction false} DrainLeaves(l: Log, entries: seq<Entry<nat>>, now: int, key: string)
    requires OneEach(l.c.pending) && forall i :: 0 <= i < |entries| ==> entries[i].key != key
    ensures OneEach(DrainNext(l, entries, now).c.pending) && SameFor(l, DrainNext(l, entries, now), key)
  {
    if entries != [] {
      var n := |entries| - 1;
      DrainLeaves(l, entries[..n], now, key);
      DrainOneHandles(DrainNext(l, entries[..n], now), entries[n], now, key);
    }
  }

  lemma {:induction false} DrainHandles(l: Log, entries: seq<Entry<nat>>, now: int, i: nat)
    requires OneEach(l.c.pending) && OneEach(entries) && i < |entries|
    ensures OneEach(DrainNext(l, entries, now).c.pending) && Handled(l, DrainNext(l, entries, now), entries[i], now)
  {
    var n := |entries| - 1;
    var t, u := DrainNext(l, entries[..n], now), DrainNext(l, entries, now);
    if i < n {
      DrainHandles(l, entries[..n], now, i);
      DrainOneHandles(t, entries[n], now, entries[i].key);
      HandledStays(l, t, u, entries[i], now);
    } else {
      DrainLeaves(l, entries[..n], now, entries[n].key);
      DrainOneHandles(t, entries[n], now, entries[n].key);
      HandledLater(l, t, u, entries[n], now);
    }
  }

  lemma HandledStays(l: Log, t: Log, u: Log, e: Entry<nat>, now: int)
    requires Handled(l, t, e, now) && SameFor(t, u, e.key)
    ensures Handled(l, u, e, now)
  {
    if Ready(l.c.lastSentAt, e.key, e.interval, now) {
      var i :| |l.sent| <= i < |t.sent| && t.sent[i].key == e.key && t.sent[i].offer == e.value && t.sent[i].at == now;
      assert u.sent[i] == t.sent[i];
    }
  }

  lemma HandledLater(l: Log, t: Log, u: Log, e: Entry<nat>, now: int)
    requires SameFor(l, t, e.key) && Handled(t, u, e, now)
    ensures Handled(l, u, e, now)
  {
    if Ready(l.c.lastSentAt, e.key, e.interval, now) {
      var i :| |t.sent| <= i < |u.sent| && u.sent[i].key == e.key && u.sent[i].offer == e.value && u.sent[i].at == now;
      assert |l.sent| <= i;
    }
  }

  /** A drain delivers every waiting frame whose interval has gone by, as it is, and leaves every other one waiting. */
  lemma DrainSendsReady(every: Intervals, steps: seq<Step>, now: int, i: nat)
    requires i < |Run(every, steps).c.pending|
    ensures Handled(Run(every, steps), Next(Run(every, steps), every, DrainStep(now)), Run(every, steps).c.pending[i], now)
  {
    RunKeeps(every, steps);
    DrainHandles(Run(every, steps), Run(every, steps).c.pending, now, i);
  }

  /** A forgotten key starts afresh: nothing of it waits, and its next offer goes out at once. */
  lemma ForgottenStartsAfresh(every: Intervals, steps: seq<Step>, key: string, now: int)
    ensures var l := Next(Run(every, steps), every, ForgetStep(key));
            var t := Next(l, every, OfferStep(key, now));
            && !Waits(l.c.pending, key) && key !in l.c.lastSentAt
            && t.sent == l.sent + [Sent(key, l.offers, now, Epoch(l, key))]
  {
    RunKeeps(every, steps);
    DropIs(Run(every, steps).c.pending, key, key);
    PendingForIs(Drop(Run(every, steps).c.pending, key), key);
  }
}
