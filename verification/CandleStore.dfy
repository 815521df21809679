/**
 * Persistence of one-minute bars: tracked bars wait in memory, a flush takes them all into one
 * batch whose upsert is awaited while ticks go on, and a restart rebuilds the open bars from rows.
 */
module CandleStore {
  import opened Division
  import opened Options
  import opened Candles

  type Key = (string, int)
  type Entry = (string, Bar)

  function KeyOf(e: Entry): Key { (e.0, e.1.time) }

  /** A Map keeps its insertion order: `dirty` holds one entry a symbol. */
  datatype State = State(dirty: seq<Entry>, closed: seq<Entry>, flying: seq<Entry>, flushing: bool, stored: map<Key, Bar>)

  function Set(dirty: seq<Entry>, symbol: string, bar: Bar): seq<Entry> {
    if dirty == [] then [(symbol, bar)]
    else if dirty[0].0 == symbol then [(symbol, bar)] + dirty[1..]
    else [dirty[0]] + Set(dirty[1..], symbol, bar)
  }

  function Upsert(stored: map<Key, Bar>, batch: seq<Entry>): map<Key, Bar> {
    if batch == [] then stored
    else Upsert(stored, batch[..|batch| - 1])[KeyOf(batch[|batch| - 1]) := batch[|batch| - 1].1]
  }

  function Tracked(s: State, symbol: string, current: Option<Bar>, closed: Option<Bar>): State {
    s.(closed := if closed.Some? then s.closed + [(symbol, closed.value)] else s.closed,
       dirty := if current.Some? then Set(s.dirty, symbol, current.value) else s.dirty)
  }

  function FlushBegun(s: State): State {
    if s.flushing then s else State([], [], s.closed + s.dirty, true, s.stored)
  }

  function FlushEnded(s: State): State {
    if s.flushing then s.(flying := [], flushing := false, stored := Upsert(s.stored, s.flying)) else s
  }

  class CandlePersister {
    var dirty: seq<Entry>
    var closed: seq<Entry>
    var flying: seq<Entry>
    var flushing: bool
    /** The rows of the database. */
    var stored: map<Key, Bar>

    function View(): State
      reads this
    {
      State(dirty, closed, flying, flushing, stored)
    }

    constructor (stored: map<Key, Bar>)
      ensures View() == State([], [], [], false, stored)
    {
      dirty, closed, flying, flushing := [], [], [], false;
      this.stored := stored;
    }

    method Track(symbol: string, current: Option<Bar>, closed1m: Option<Bar>)
      modifies this`dirty, this`closed
      ensures View() == Tracked(old(View()), symbol, current, closed1m)
    {
      if closed1m.Some? {
        closed := closed + [(symbol, closed1m.value)];
      }
      if current.Some? {
        dirty := Set(dirty, symbol, current.value);
      }
    }

    /** Up to the awaited upsert. */
    method BeginFlush()
      modifies this
      ensures View() == FlushBegun(old(View()))
    {
      if flushing {
        return;
      }
      flushing := true;
      flying := closed + dirty;
      closed := [];
      dirty := [];
    }

    /** The upsert succeeded. */
    method EndFlush()
      modifies this
      ensures View() == FlushEnded(old(View()))
    {
      if flushing {
        UpsertBars(flying);
        flying, flushing := [], false;
      }
    }

    method UpsertBars(entries: seq<Entry>)
      modifies this`stored
      ensures stored == Upsert(old(stored), entries)
    {
      for i := 0 to |entries|
        invariant stored == Upsert(old(stored), entries[..i])
      {
        assert entries[..i + 1][..i] == entries[..i];
        stored := stored[KeyOf(entries[i]) := entries[i].1];
      }
      assert entries[..|entries|] == entries;
    }
  }

  // ----- what a reader of the layers sees -----

  /** The last entry for a key. */
  function Find(batch: seq<Entry>, key: Key): Option<Bar> {
    if batch == [] then None
    else if KeyOf(batch[|batch| - 1]) == key then Some(batch[|batch| - 1].1)
    else Find(batch[..|batch| - 1], key)
  }

  function OrElse(a: Option<Bar>, b: Option<Bar>): Option<Bar> { if a.Some? then a else b }

  function Row(stored: map<Key, Bar>, key: Key): Option<Bar> { if key in stored then Some(stored[key]) else None }

  /** Rows overridden by the batch in flight, then by `closed`, then by `dirty`. */
  function Visible(s: State, key: Key): Option<Bar> {
    OrElse(Find(s.dirty, key), OrElse(Find(s.closed, key), OrElse(Find(s.flying, key), Row(s.stored, key))))
  }

  lemma {:induction false} UpsertRow(stored: map<Key, Bar>, batch: seq<Entry>, key: Key)
    ensures Row(Upsert(stored, batch), key) == OrElse(Find(batch, key), Row(stored, key))
  {
    if batch != [] {
      UpsertRow(stored, batch[..|batch| - 1], key);
    }
  }

  lemma {:induction false} FindAppend(a: seq<Entry>, b: seq<Entry>, key: Key)
    ensures Find(a + b, key) == OrElse(Find(b, key), Find(a, key))
  {
    if b == [] {
      assert a + b == a;
    } else {
      assert (a + b)[..|a + b| - 1] == a + b[..|b| - 1];
      FindAppend(a, b[..|b| - 1], key);
    }
  }

  predicate OneEach(dirty: seq<Entry>) {
    forall i, j :: 0 <= i < j < |dirty| ==> dirty[i].0 != dirty[j].0
  }

  function DirtyOf(dirty: seq<Entry>, symbol: string): Option<Bar> {
    if dirty == [] then None else if dirty[0].0 == symbol then Some(dirty[0].1) else DirtyOf(dirty[1..], symbol)
  }

  lemma {:induction false} NoDirty(dirty: seq<Entry>, symbol: string)
    ensures DirtyOf(dirty, symbol).None? <==> forall i :: 0 <= i < |dirty| ==> dirty[i].0 != symbol
  {
    if dirty != [] {
      NoDirty(dirty[1..], symbol);
      assert forall i :: 0 < i < |dirty| ==> dirty[i] == dirty[1..][i - 1];
    }
  }

  /** With one entry a symbol, the entry found for a key is the symbol's own. */
  lemma {:induction false} FindDirty(dirty: seq<Entry>, key: Key)
    requires OneEach(dirty)
    ensures Find(dirty, key) == var d := DirtyOf(dirty, key.0); if d.Some? && d.value.time == key.1 then d else None
  {
    if dirty != [] {
      var tail := dirty[1..];
      FindDirty(tail, key);
      assert dirty == [dirty[0]] + tail;
      FindAppend([dirty[0]], tail, key);
      NoDirty(tail, dirty[0].0);
      assert [dirty[0]][..0] == [];
    }
  }

  lemma {:induction false} SetDirty(dirty: seq<Entry>, symbol: string, bar: Bar, other: string)
    requires OneEach(dirty)
    ensures OneEach(Set(dirty, symbol, bar))
    ensures DirtyOf(Set(dirty, symbol, bar), other) == if other == symbol then Some(bar) else DirtyOf(dirty, other)
  {
    if dirty != [] {
      if dirty[0].0 == symbol {
        assert ([(symbol, bar)] + dirty[1..])[1..] == dirty[1..];
      } else {
        SetDirty(dirty[1..], symbol, bar, other);
        SetDirty(dirty[1..], symbol, bar, dirty[0].0);
        NoDirty(dirty[1..], dirty[0].0);
        NoDirty(Set(dirty[1..], symbol, bar), dirty[0].0);
        assert ([dirty[0]] + Set(dirty[1..], symbol, bar))[1..] == Set(dirty[1..], symbol, bar);
      }
    }
  }

  // ----- builder and persister together -----

  /** What a restart found of one symbol: the rows since the start of the day, and the last row. */
  datatype Read = Read(today: seq<Bar>, last: Option<Bar>)

  /**
   * The process and the database. `histories` are the builders as if the process had never stopped
   * and `latest` is the last tracked value of every bar; `since` is the day start of the last restart.
   */
  datatype Worker = Worker(
    builders: map<string, Current>, histories: map<string, History>, store: State, latest: map<Key, Bar>, since: Option<int>)

  /** `Restarted` is a shutdown, with its final flush, and the start of the next process at `now`. */
  datatype Step =
    | TickArrived(symbol: string, tick: Tick)
    | FlushStarted
    | FlushFinished
    | Restarted(now: int, found: map<string, Read>)

  function BuilderOf(builders: map<string, Current>, symbol: string): Current {
    if symbol in builders then builders[symbol] else map[]
  }

  function HistoryOf(w: Worker, symbol: string): History {
    if symbol in w.histories then w.histories[symbol] else History([], map[])
  }

  /** The one-minute bar among a tick's updates, if it moved. */
  function Current1m(cur: Current, tick: Tick): Option<Bar> {
    if Moves(cur, tick, M1) then Some(BarAfter(cur, tick)(M1)) else None
  }

  function Remember(latest: map<Key, Bar>, symbol: string, bar: Option<Bar>): map<Key, Bar> {
    if bar.Some? then latest[(symbol, bar.value.time) := bar.value] else latest
  }

  /** What a restart found: today's rows, or only the last one when today has none. */
  function RowsRead(read: Read): seq<Bar> {
    if read.today == [] && read.last.Some? then [read.last.value] else read.today
  }

  function RestoredBuilders(found: map<string, Read>, tfs: seq<Timeframe>): map<string, Current> {
    map symbol | symbol in found && RowsRead(found[symbol]) != [] :: Restored(RowsRead(found[symbol]), tfs)
  }

  /** The rows a shutdown leaves: its flush returns at once when one is in flight, which then ends. */
  function FinalRows(s: State): map<Key, Bar> { FlushEnded(FlushBegun(s)).stored }

  const DAY_MS := 86_400_000

  function Next(w: Worker, step: Step, tfs: seq<Timeframe>): Worker {
    match step
    case TickArrived(symbol, tick) =>
      var cur := BuilderOf(w.builders, symbol);
      var current, closed := Current1m(cur, tick), ClosedBy(cur, tick);
      Worker(w.builders[symbol := Ticked(cur, tick, tfs)], w.histories[symbol := Feed(HistoryOf(w, symbol), tick, tfs)],
             Tracked(w.store, symbol, current, closed), Remember(Remember(w.latest, symbol, closed), symbol, current), w.since)
    case FlushStarted => w.(store := FlushBegun(w.store))
    case FlushFinished => w.(store := FlushEnded(w.store))
    case Restarted(now, found) =>
      w.(builders := RestoredBuilders(found, tfs), store := State([], [], [], false, FinalRows(w.store)), since := Some(Bucket(now, DAY_MS)))
  }

  const FirstStart := Worker(map[], map[], State([], [], [], false, map[]), map[], None)

  function Run(steps: seq<Step>, tfs: seq<Timeframe>): Worker {
    if steps == [] then FirstStart else Next(Run(steps[..|steps| - 1], tfs), steps[|steps| - 1], tfs)
  }

  // ----- what a restart finds -----

  /** The rows of a symbol from `since` on, in ascending order. */
  ghost predicate RowsSince(stored: map<Key, Bar>, symbol: string, since: int, rows: seq<Bar>) {
    && Ascending(rows)
    && (forall b :: b in rows ==> b.time >= since && Row(stored, (symbol, b.time)) == Some(b))
    && (forall t: int :: t >= since && (symbol, t) in stored ==> stored[(symbol, t)] in rows)
  }

  /** The latest row of a symbol. */
  ghost predicate LastRow(stored: map<Key, Bar>, symbol: string, last: Option<Bar>) {
    && (last.None? ==> forall t: int :: (symbol, t) !in stored)
    && (last.Some? ==> Row(stored, (symbol, last.value.time)) == last && forall t: int :: (symbol, t) in stored ==> t <= last.value.time)
  }

  ghost predicate ReadRight(stored: map<Key, Bar>, now: int, symbol: string, read: Read) {
    RowsSince(stored, symbol, Bucket(now, DAY_MS), read.today) && LastRow(stored, symbol, read.last)
  }

  /** Every symbol that has rows is restored from them. */
  ghost predicate ReadsAll(stored: map<Key, Bar>, now: int, found: map<string, Read>) {
    && (forall symbol :: symbol in found ==> ReadRight(stored, now, symbol, found[symbol]))
    && (forall symbol: string, t: int :: (symbol, t) in stored ==> symbol in found)
  }

  /** Every restart found what is there. */
  ghost predicate SoundRun(steps: seq<Step>, tfs: seq<Timeframe>) {
    steps == []
    || (SoundRun(steps[..|steps| - 1], tfs)
        && var w, step := Run(steps[..|steps| - 1], tfs), steps[|steps| - 1];
           step.Restarted? ==> ReadsAll(FinalRows(w.store), step.now, step.found))
  }

  /** The final flush finds none in flight, or nothing new. */
  predicate Settles(s: State) { !s.flushing || s.dirty == [] }

  predicate CleanRun(steps: seq<Step>, tfs: seq<Timeframe>) {
    steps == []
    || (CleanRun(steps[..|steps| - 1], tfs) && (steps[|steps| - 1].Restarted? ==> Settles(Run(steps[..|steps| - 1], tfs).store)))
  }

  // ----- nothing is lost -----

  /** Layers show the last tracked values. */
  ghost predicate Shown(w: Worker) {
    forall key: Key :: Visible(w.store, key) == Row(w.latest, key)
  }

  /** A dirty bar is its symbol's open one, and what is closed comes with one. */
  ghost predicate Layered(w: Worker) {
    && OneEach(w.store.dirty) && (!w.store.flushing ==> w.store.flying == [])
    && (forall symbol: string :: DirtyOf(w.store.dirty, symbol).Some? ==> DirtyOf(w.store.dirty, symbol) == Get(BuilderOf(w.builders, symbol), M1))
    && (forall i :: 0 <= i < |w.store.closed| ==> DirtyOf(w.store.dirty, w.store.closed[i].0).Some?)
  }

  /** The open bar is the latest of its symbol, and rows are one a minute. */
  ghost predicate OpenIsLast(builders: map<string, Current>, latest: map<Key, Bar>) {
    && (forall key :: key in latest ==> latest[key].time == key.1 && Bucket(key.1, MINUTE_MS) == key.1)
    && (forall symbol: string, t: int :: (symbol, t) in latest
                                         ==> M1 in BuilderOf(builders, symbol) && t <= BuilderOf(builders, symbol)[M1].time)
    && (forall symbol: string :: M1 in BuilderOf(builders, symbol)
                                 ==> Row(latest, (symbol, BuilderOf(builders, symbol)[M1].time)) == Some(BuilderOf(builders, symbol)[M1]))
  }

  /** What is written or on its way for a bar. */
  function Older(s: State, key: Key): Option<Bar> { OrElse(Find(s.flying, key), Row(s.stored, key)) }

  ghost predicate Newer(s: State, symbol: string, bar: Bar) {
    Older(s, (symbol, bar.time)).Some? ==> Older(s, (symbol, bar.time)).value.volume < bar.volume
  }

  /** A bar that waits has had ticks since it was last taken into a batch. */
  ghost predicate Grown(s: State) {
    forall symbol: string :: DirtyOf(s.dirty, symbol).Some? ==> Newer(s, symbol, DirtyOf(s.dirty, symbol).value)
  }

  ghost predicate Saved(w: Worker) { Shown(w) && Layered(w) && OpenIsLast(w.builders, w.latest) && Grown(w.store) }

  /** A dirty bar that is replaced by another minute's is handed over as closed. */
  lemma TrackVisible(s: State, symbol: string, current: Option<Bar>, closed: Option<Bar>, key: Key)
    requires OneEach(s.dirty) && (closed.Some? ==> current.Some?)
    requires var d := DirtyOf(s.dirty, symbol); d.Some? && current.Some? && d.value.time != current.value.time ==> closed == d
    ensures Visible(Tracked(s, symbol, current, closed), key)
            == if current.Some? && key == (symbol, current.value.time) then current
               else if closed.Some? && key == (symbol, closed.value.time) then closed
               else Visible(s, key)
  {
    FindDirty(s.dirty, key);
    if current.Some? {
      SetDirty(s.dirty, symbol, current.value, key.0);
      FindDirty(Set(s.dirty, symbol, current.value), key);
    }
    if closed.Some? {
      FindAppend(s.closed, [(symbol, closed.value)], key);
      assert [(symbol, closed.value)][..0] == [];
    }
  }

  lemma TickedM1(cur: Current, tick: Tick, tfs: seq<Timeframe>)
    requires M1 in tfs
    ensures Get(Ticked(cur, tick, tfs), M1) == Some(TickBar(Get(cur, M1), Bucket(tick.ts, MINUTE_MS), tick.price))
  {
    OverlayAt(cur, tfs, BarAfter(cur, tick), M1);
    assert Size(M1) == MINUTE_MS;
  }

  lemma RowRemembered(latest: map<Key, Bar>, symbol: string, closed: Option<Bar>, current: Option<Bar>, key: Key)
    ensures Row(Remember(Remember(latest, symbol, closed), symbol, current), key)
            == if current.Some? && key == (symbol, current.value.time) then current
               else if closed.Some? && key == (symbol, closed.value.time) then closed
               else Row(latest, key)
  {
  }

  lemma TickShown(w: Worker, symbol: string, tick: Tick, tfs: seq<Timeframe>)
    requires Shown(w) && Layered(w) && M1 in tfs
    ensures Shown(Next(w, TickArrived(symbol, tick), tfs))
  {
    var cur := BuilderOf(w.builders, symbol);
    var current, closed := Current1m(cur, tick), ClosedBy(cur, tick);
    HandedOver(cur, tick);
    forall key: Key
      ensures Visible(Tracked(w.store, symbol, current, closed), key) == Row(Remember(Remember(w.latest, symbol, closed), symbol, current), key)
    {
      TrackVisible(w.store, symbol, current, closed, key);
      RowRemembered(w.latest, symbol, closed, current, key);
    }
  }

  /** A minute closes only when another one opens, and then the open one was it. */
  lemma HandedOver(cur: Current, tick: Tick)
    ensures var current, closed := Current1m(cur, tick), ClosedBy(cur, tick);
            && (closed.Some? ==> current.Some?)
            && (M1 in cur && current.Some? && cur[M1].time != current.value.time ==> closed == Some(cur[M1]))
  {
    assert Size(M1) == MINUTE_MS;
  }

  lemma TickLayered(w: Worker, symbol: string, tick: Tick, tfs: seq<Timeframe>)
    requires Layered(w) && M1 in tfs
    ensures Layered(Next(w, TickArrived(symbol, tick), tfs))
  {
    var cur := BuilderOf(w.builders, symbol);
    var current, closed := Current1m(cur, tick), ClosedBy(cur, tick);
    TickedM1(cur, tick, tfs);
    HandedOver(cur, tick);
    assert Size(M1) == MINUTE_MS;
    TrackDirty(w.store, symbol, current, closed);
  }

  lemma TrackDirty(s: State, symbol: string, current: Option<Bar>, closed: Option<Bar>)
    requires OneEach(s.dirty)
    ensures var t := Tracked(s, symbol, current, closed);
            && OneEach(t.dirty)
            && (forall other: string :: DirtyOf(t.dirty, other) == if current.Some? && other == symbol then current else DirtyOf(s.dirty, other))
  {
    if current.Some? {
      forall other: string
        ensures DirtyOf(Set(s.dirty, symbol, current.value), other) == if other == symbol then current else DirtyOf(s.dirty, other)
      {
        SetDirty(s.dirty, symbol, current.value, other);
      }
      SetDirty(s.dirty, symbol, current.value, symbol);
    }
  }

  lemma TickOpenIsLast(w: Worker, symbol: string, tick: Tick, tfs: seq<Timeframe>)
    requires OpenIsLast(w.builders, w.latest) && M1 in tfs
    ensures var t := Next(w, TickArrived(symbol, tick), tfs); OpenIsLast(t.builders, t.latest)
  {
    var cur := BuilderOf(w.builders, symbol);
    TickedM1(cur, tick, tfs);
    var bar := Ticked(cur, tick, tfs)[M1];
    BucketIdempotent(tick.ts, MINUTE_MS);
    assert Size(M1) == MINUTE_MS;
    var latest := Remember(Remember(w.latest, symbol, ClosedBy(cur, tick)), symbol, Current1m(cur, tick));
    RememberedOpen(w.builders, w.latest, symbol, cur, tick, bar);
    RememberedKeeps(w.builders, w.latest, symbol, Ticked(cur, tick, tfs), bar, latest);
  }

  /** What a tick makes the tracker remember is the open bar, and what closed was remembered before. */
  lemma RememberedOpen(builders: map<string, Current>, latest: map<Key, Bar>, symbol: string, cur: Current, tick: Tick, bar: Bar)
    requires OpenIsLast(builders, latest) && cur == BuilderOf(builders, symbol)
    requires bar == TickBar(Get(cur, M1), Bucket(tick.ts, MINUTE_MS), tick.price)
    ensures Remember(Remember(latest, symbol, ClosedBy(cur, tick)), symbol, Current1m(cur, tick)) == latest[(symbol, bar.time) := bar]
  {
    assert Size(M1) == MINUTE_MS;
  }

  lemma RememberedKeeps(builders: map<string, Current>, latest: map<Key, Bar>, symbol: string, next: Current, bar: Bar, more: map<Key, Bar>)
    requires OpenIsLast(builders, latest) && Get(next, M1) == Some(bar) && more == latest[(symbol, bar.time) := bar]
    requires Bucket(bar.time, MINUTE_MS) == bar.time
    requires M1 in BuilderOf(builders, symbol) ==> BuilderOf(builders, symbol)[M1].time <= bar.time
    ensures OpenIsLast(builders[symbol := next], more)
  {
    var after := builders[symbol := next];
    assert M1 in next && next[M1] == bar;
    forall other: string
      ensures M1 in BuilderOf(after, other) ==> Row(more, (other, BuilderOf(after, other)[M1].time)) == Some(BuilderOf(after, other)[M1])
    {
      if other != symbol {
        assert BuilderOf(after, other) == BuilderOf(builders, other);
      }
    }
    forall other: string, t: int | (other, t) in more ensures M1 in BuilderOf(after, other) && t <= BuilderOf(after, other)[M1].time {
      if other != symbol {
        assert BuilderOf(after, other) == BuilderOf(builders, other);
      }
    }
  }

  /** Nothing older is known of a minute that opens, and a bar that moves gains a tick. */
  lemma TickGrown(w: Worker, symbol: string, tick: Tick)
    requires Saved(w)
    ensures Grown(Tracked(w.store, symbol, Current1m(BuilderOf(w.builders, symbol), tick), ClosedBy(BuilderOf(w.builders, symbol), tick)))
  {
    var cur := BuilderOf(w.builders, symbol);
    var current, closed := Current1m(cur, tick), ClosedBy(cur, tick);
    var s, t := w.store, Tracked(w.store, symbol, current, closed);
    assert Size(M1) == MINUTE_MS;
    if current.Some? {
      var bar := current.value;
      NewerThanOlder(w, symbol, bar, tick);
      forall other: string | DirtyOf(t.dirty, other).Some? ensures Newer(t, other, DirtyOf(t.dirty, other).value) {
        SetDirty(s.dirty, symbol, bar, other);
        assert other != symbol ==> Newer(s, other, DirtyOf(s.dirty, other).value);
      }
    }
  }

  lemma NewerThanOlder(w: Worker, symbol: string, bar: Bar, tick: Tick)
    requires Saved(w) && Current1m(BuilderOf(w.builders, symbol), tick) == Some(bar)
    ensures Newer(w.store, symbol, bar)
  {
    var key := (symbol, bar.time);
    var cur := BuilderOf(w.builders, symbol);
    assert Size(M1) == MINUTE_MS;
    FindDirty(w.store.dirty, key);
    assert Visible(w.store, key) == Row(w.latest, key);
    if DirtyOf(w.store.dirty, symbol).None? {
      NotClosed(w.store.closed, key);
    } else {
      assert Newer(w.store, symbol, DirtyOf(w.store.dirty, symbol).value);
      OlderIsVisible(w.store, key);
    }
  }

  lemma {:induction false} NotClosed(closed: seq<Entry>, key: Key)
    ensures Find(closed, key).Some? ==> exists i :: 0 <= i < |closed| && closed[i].0 == key.0
  {
    if closed != [] {
      NotClosed(closed[..|closed| - 1], key);
    }
  }

  lemma OlderIsVisible(s: State, key: Key)
    ensures Older(s, key).Some? ==> Visible(s, key).Some?
  {
  }

  lemma FlushStartSaved(w: Worker, tfs: seq<Timeframe>)
    requires Saved(w)
    ensures Saved(Next(w, FlushStarted, tfs))
  {
    var t := Next(w, FlushStarted, tfs);
    forall key: Key ensures Visible(t.store, key) == Visible(w.store, key) {
      FindAppend(w.store.closed, w.store.dirty, key);
    }
  }

  lemma FlushEndSaved(w: Worker, tfs: seq<Timeframe>)
    requires Saved(w)
    ensures Saved(Next(w, FlushFinished, tfs))
  {
    var t := Next(w, FlushFinished, tfs);
    forall key: Key ensures Visible(t.store, key) == Visible(w.store, key) && Older(t.store, key) == Older(w.store, key) {
      UpsertRow(w.store.stored, w.store.flying, key);
    }
    forall symbol: string | DirtyOf(t.store.dirty, symbol).Some? ensures Newer(t.store, symbol, DirtyOf(t.store.dirty, symbol).value) {
      assert Newer(w.store, symbol, DirtyOf(w.store.dirty, symbol).value);
    }
  }

  lemma SameRows(a: map<Key, Bar>, b: map<Key, Bar>)
    requires forall key: Key :: Row(a, key) == Row(b, key)
    ensures a == b
  {
    forall key: Key ensures (key in a <==> key in b) && (key in a ==> a[key] == b[key]) {
      assert Row(a, key) == Row(b, key);
    }
  }

  /** The final flush stores every tracked bar exactly when it finds none in flight, or nothing new. */
  lemma FinalFlushIff(w: Worker)
    requires Saved(w)
    ensures FinalRows(w.store) == w.latest <==> Settles(w.store)
  {
    var s := w.store;
    if Settles(s) {
      forall key: Key ensures Row(FinalRows(s), key) == Row(w.latest, key) {
        assert Visible(s, key) == Row(w.latest, key);
        UpsertRow(s.stored, if s.flushing then s.flying else s.closed + s.dirty, key);
        FindAppend(s.closed, s.dirty, key);
        assert s.dirty == [] ==> DirtyOf(s.dirty, key.0).None?;
        NotClosed(s.closed, key);
      }
      SameRows(FinalRows(s), w.latest);
    } else {
      var symbol, bar := s.dirty[0].0, s.dirty[0].1;
      var key := (symbol, bar.time);
      assert DirtyOf(s.dirty, symbol) == Some(bar);
      FindDirty(s.dirty, key);
      UpsertRow(s.stored, s.flying, key);
      assert Visible(s, key) == Row(w.latest, key) == Some(bar);
      assert Newer(s, symbol, bar);
      assert Row(FinalRows(s), key) == Older(s, key);
    }
  }

  // ----- a restart brings the open minute back -----

  /** One-minute bars are their own aggregation. */
  lemma {:induction false} AggregateMinutes(bars: seq<Bar>)
    requires Ascending(bars) && forall b :: b in bars ==> Bucket(b.time, MINUTE_MS) == b.time
    ensures Aggregate(bars, MINUTE_MS) == bars
  {
    if bars != [] {
      var n := |bars| - 1;
      AggregateMinutes(bars[..n]);
      assert bars[n] in bars && bars[n].(time := bars[n].time) == bars[n];
      assert bars == bars[..n] + [bars[n]];
    }
  }

  lemma RestoredMinute(bars: seq<Bar>, tfs: seq<Timeframe>)
    requires M1 in tfs && bars != [] && Ascending(bars) && forall b :: b in bars ==> Bucket(b.time, MINUTE_MS) == b.time
    ensures Get(Restored(bars, tfs), M1) == Some(Last(bars))
  {
    RestoredAt(bars, tfs, M1);
    AggregateMinutes(bars);
    assert Size(M1) == MINUTE_MS;
  }

  /** With the rows read right, the open minute that comes back is the last row. */
  lemma RestoredLast(stored: map<Key, Bar>, now: int, symbol: string, read: Read, tfs: seq<Timeframe>)
    requires M1 in tfs && ReadRight(stored, now, symbol, read)
    requires forall key :: key in stored ==> stored[key].time == key.1 && Bucket(key.1, MINUTE_MS) == key.1
    ensures RowsRead(read) == [] ==> forall t: int :: (symbol, t) !in stored
    ensures RowsRead(read) != []
            ==> var bar := Get(Restored(RowsRead(read), tfs), M1);
                bar.Some? && Row(stored, (symbol, bar.value.time)) == bar && forall t: int :: (symbol, t) in stored ==> t <= bar.value.time
  {
    var bars := RowsRead(read);
    if bars != [] {
      forall b | b in bars ensures Row(stored, (symbol, b.time)) == Some(b) {
      }
      RestoredMinute(bars, tfs);
      assert Last(bars) in bars;
      forall t: int | (symbol, t) in stored ensures t <= Last(bars).time {
        if read.today != [] && t >= Bucket(now, DAY_MS) {
          var i :| 0 <= i < |bars| && bars[i] == stored[(symbol, t)];
        }
      }
    }
  }

  lemma RestartSaved(w: Worker, now: int, found: map<string, Read>, tfs: seq<Timeframe>)
    requires Saved(w) && M1 in tfs && ReadsAll(w.latest, now, found) && FinalRows(w.store) == w.latest
    ensures Saved(Next(w, Restarted(now, found), tfs))
  {
    var t := Next(w, Restarted(now, found), tfs);
    forall symbol: string
      ensures M1 in BuilderOf(t.builders, symbol) ==> Row(t.latest, (symbol, BuilderOf(t.builders, symbol)[M1].time)) == Some(BuilderOf(t.builders, symbol)[M1])
      ensures forall m: int :: (symbol, m) in t.latest ==> M1 in BuilderOf(t.builders, symbol) && m <= BuilderOf(t.builders, symbol)[M1].time
    {
      if symbol in found {
        RestoredLast(w.latest, now, symbol, found[symbol], tfs);
      }
    }
  }

  lemma StepSaved(w: Worker, step: Step, tfs: seq<Timeframe>)
    requires Saved(w) && M1 in tfs
    requires step.Restarted? ==> ReadsAll(FinalRows(w.store), step.now, step.found)
    ensures Shown(Next(w, step, tfs)) <==> step.Restarted? ==> Settles(w.store)
    ensures Shown(Next(w, step, tfs)) ==> Saved(Next(w, step, tfs))
  {
    match step
    case TickArrived(symbol, tick) =>
      TickShown(w, symbol, tick, tfs);
      TickLayered(w, symbol, tick, tfs);
      TickOpenIsLast(w, symbol, tick, tfs);
      TickGrown(w, symbol, tick);
    case FlushStarted => FlushStartSaved(w, tfs);
    case FlushFinished => FlushEndSaved(w, tfs);
    case Restarted(now, found) =>
      FinalFlushIff(w);
      if Settles(w.store) {
        RestartSaved(w, now, found, tfs);
      } else {
        RestartShows(w, now, found, tfs);
      }
  }

  lemma RestartShows(w: Worker, now: int, found: map<string, Read>, tfs: seq<Timeframe>)
    ensures Shown(Next(w, Restarted(now, found), tfs)) ==> FinalRows(w.store) == w.latest
  {
    var t := Next(w, Restarted(now, found), tfs);
    if Shown(t) {
      forall key: Key ensures Row(FinalRows(w.store), key) == Row(w.latest, key) {
        assert Visible(t.store, key) == Row(t.latest, key);
      }
      SameRows(FinalRows(w.store), w.latest);
    }
  }

  ghost predicate ShownThroughout(steps: seq<Step>, tfs: seq<Timeframe>) {
    Shown(Run(steps, tfs)) && (steps != [] ==> ShownThroughout(steps[..|steps| - 1], tfs))
  }

  lemma {:induction false} RunSaved(steps: seq<Step>, tfs: seq<Timeframe>)
    requires M1 in tfs && SoundRun(steps, tfs)
    ensures ShownThroughout(steps, tfs) <==> CleanRun(steps, tfs)
    ensures CleanRun(steps, tfs) ==> Saved(Run(steps, tfs))
  {
    if steps != [] {
      RunSaved(steps[..|steps| - 1], tfs);
      if CleanRun(steps[..|steps| - 1], tfs) {
        StepSaved(Run(steps[..|steps| - 1], tfs), steps[|steps| - 1], tfs);
      }
    }
  }

  /**
   * Over any number of restarts: at every moment the rows, the batch in flight, `closed` and
   * `dirty` together hold the last tracked value of every bar, exactly when every final flush found
   * none in flight, or nothing new.
   */
  lemma NothingLostIff(steps: seq<Step>, tfs: seq<Timeframe>)
    requires M1 in tfs && SoundRun(steps, tfs)
    ensures ShownThroughout(steps, tfs) <==> CleanRun(steps, tfs)
  {
    RunSaved(steps, tfs);
  }

  /** And the rows a shutdown then leaves are everything that was ever tracked, exactly under the same condition. */
  lemma FinalFlushStoresAllIff(steps: seq<Step>, tfs: seq<Timeframe>)
    requires M1 in tfs && SoundRun(steps, tfs) && CleanRun(steps, tfs)
    ensures FinalRows(Run(steps, tfs).store) == Run(steps, tfs).latest <==> Settles(Run(steps, tfs).store)
  {
    RunSaved(steps, tfs);
    FinalFlushIff(Run(steps, tfs));
  }

  // ----- the rows are the one-minute series -----

  function Lookup(bars: seq<Bar>, t: int): Option<Bar> {
    if bars == [] then None
    else if bars[|bars| - 1].time == t then Some(bars[|bars| - 1])
    else Lookup(bars[..|bars| - 1], t)
  }

  function SeriesOf(h: History): seq<Bar> { if M1 in h.cur then Series(h) else [] }

  lemma LookupLast(bars: seq<Bar>, b: Bar, t: int)
    ensures Lookup(bars + [b], t) == if b.time == t then Some(b) else Lookup(bars, t)
  {
    assert (bars + [b])[..|bars|] == bars;
  }

  ghost predicate LatestIsSeries(w: Worker, symbol: string) {
    forall t: int :: Row(w.latest, (symbol, t)) == Lookup(SeriesOf(HistoryOf(w, symbol)), t)
  }

  /** No minute closes before one was opened. */
  predicate OpensFirst(h: History) { M1 !in h.cur ==> h.closed == [] }

  /** A tick changes the series as the tracker remembers it. */
  lemma FeedLookup(h: History, tick: Tick, tfs: seq<Timeframe>, t: int)
    requires M1 in tfs && OpensFirst(h)
    ensures var current, closed := Current1m(h.cur, tick), ClosedBy(h.cur, tick);
            Lookup(SeriesOf(Feed(h, tick, tfs)), t)
            == if current.Some? && t == current.value.time then current
               else if closed.Some? && t == closed.value.time then closed
               else Lookup(SeriesOf(h), t)
  {
    FeedAt(h, tick, tfs, M1);
    assert Size(M1) == MINUTE_MS;
    var g := Feed(h, tick, tfs);
    LookupLast(g.closed, g.cur[M1], t);
    if M1 in h.cur {
      LookupLast(h.closed, h.cur[M1], t);
    }
  }

  // ----- restart -----

  function FoundOf(found: map<string, Read>, symbols: seq<string>): map<string, Read> {
    map symbol | symbol in found && symbol in symbols :: found[symbol]
  }

  /** Every symbol's builder is restored from what was read of it. */
  method RestoreBuilder(builder: CandleBuilder, symbols: seq<string>, found: map<string, Read>)
    requires builder.bars == map[] && forall symbol :: symbol in found <==> symbol in symbols
    modifies builder`bars
    ensures builder.bars == RestoredBuilders(found, builder.timeframes)
  {
    for i := 0 to |symbols|
      invariant builder.bars == RestoredBuilders(FoundOf(found, symbols[..i]), builder.timeframes)
    {
      var read := found[symbols[i]];
      var bars := read.today;
      if |bars| == 0 && read.last.Some? {
        bars := [read.last.value];
      }
      OneMoreRestored(found, symbols, i, builder.timeframes);
      builder.Restore(symbols[i], bars);
    }
    assert FoundOf(found, symbols[..|symbols|]) == found;
  }

  lemma OneMoreRestored(found: map<string, Read>, symbols: seq<string>, i: nat, tfs: seq<Timeframe>)
    requires i < |symbols| && symbols[i] in found
    ensures var bars, before := RowsRead(found[symbols[i]]), RestoredBuilders(FoundOf(found, symbols[..i]), tfs);
            RestoredBuilders(FoundOf(found, symbols[..i + 1]), tfs)
            == if bars == [] then before else before[symbols[i] := Restored(bars, tfs)]
  {
    assert symbols[..i + 1] == symbols[..i] + [symbols[i]];
    var less, more := FoundOf(found, symbols[..i]), FoundOf(found, symbols[..i + 1]);
    assert more == less[symbols[i] := found[symbols[i]]];
    if symbols[i] !in less {
      OneMoreBuilder(less, symbols[i], found[symbols[i]], tfs);
    }
  }

  lemma OneMoreBuilder(found: map<string, Read>, symbol: string, read: Read, tfs: seq<Timeframe>)
    requires symbol !in found
    ensures RestoredBuilders(found[symbol := read], tfs)
            == if RowsRead(read) == [] then RestoredBuilders(found, tfs) else RestoredBuilders(found, tfs)[symbol := Restored(RowsRead(read), tfs)]
  {
  }

  lemma {:induction false} LookupIn(bars: seq<Bar>, t: int)
    ensures Lookup(bars, t).Some? ==> Lookup(bars, t).value in bars && Lookup(bars, t).value.time == t
    ensures Lookup(bars, t).None? ==> forall b :: b in bars ==> b.time != t
  {
    if bars != [] {
      LookupIn(bars[..|bars| - 1], t);
    }
  }

  lemma LookupAscending(bars: seq<Bar>, b: Bar)
    requires Ascending(bars) && b in bars
    ensures Lookup(bars, b.time) == Some(b)
  {
    LookupIn(bars, b.time);
    var found := Lookup(bars, b.time).value;
    var i :| 0 <= i < |bars| && bars[i] == b;
    var j :| 0 <= j < |bars| && bars[j] == found;
    assert i == j;
  }

  /** Ascending bars are determined by which they are. */
  lemma {:induction false} AscendingUnique(a: seq<Bar>, b: seq<Bar>)
    requires Ascending(a) && Ascending(b) && (forall x :: x in a <==> x in b)
    ensures a == b
    decreases |a|
  {
    assert b != [] ==> b[|b| - 1] in b;
    assert a != [] ==> a[|a| - 1] in a;
    if a != [] {
      var m, n := |a| - 1, |b| - 1;
      LastsMeet(a, b);
      forall x ensures x in a[..m] <==> x in b[..n] {
        if x in a[..m] {
          var i :| 0 <= i < m && a[i] == x;
          assert x in a && x != a[m];
        }
        if x in b[..n] {
          var i :| 0 <= i < n && b[i] == x;
          assert x in b && x != b[n];
        }
      }
      AscendingUnique(a[..m], b[..n]);
      assert a == a[..m] + [a[m]] && b == b[..n] + [b[n]];
    }
  }

  lemma LastsMeet(a: seq<Bar>, b: seq<Bar>)
    requires a != [] && b != [] && Ascending(a) && Ascending(b) && (forall x :: x in a <==> x in b)
    ensures a[|a| - 1] == b[|b| - 1]
  {
    assert a[|a| - 1] in a && b[|b| - 1] in b;
    var i :| 0 <= i < |b| && b[i] == a[|a| - 1];
    var j :| 0 <= j < |a| && a[j] == b[|b| - 1];
    assert b[i].time <= b[|b| - 1].time && a[j].time <= a[|a| - 1].time;
  }

  /** The bars from an instant on. */
  function From(bars: seq<Bar>, since: int): seq<Bar> {
    if bars == [] || bars[|bars| - 1].time < since then [] else From(bars[..|bars| - 1], since) + [bars[|bars| - 1]]
  }

  lemma {:induction false} FromSplits(bars: seq<Bar>, since: int)
    requires Ascending(bars)
    ensures |From(bars, since)| <= |bars|
    ensures var n := |bars| - |From(bars, since)|;
            && bars[n..] == From(bars, since)
            && (forall i :: 0 <= i < n ==> bars[i].time < since) && (forall i :: n <= i < |bars| ==> bars[i].time >= since)
  {
    if bars != [] && bars[|bars| - 1].time >= since {
      var m := |bars| - 1;
      FromSplits(bars[..m], since);
      var n := m - |From(bars[..m], since)|;
      assert bars[n..] == bars[..m][n..] + [bars[m]];
      assert forall i :: 0 <= i < m ==> bars[..m][i] == bars[i];
    }
  }

  lemma RowsAreFrom(stored: map<Key, Bar>, symbol: string, since: int, rows: seq<Bar>, bars: seq<Bar>)
    requires RowsSince(stored, symbol, since, rows) && Ascending(bars)
    requires forall t: int :: Row(stored, (symbol, t)) == Lookup(bars, t)
    ensures rows == From(bars, since)
  {
    FromContents(bars, since);
    forall x ensures x in rows <==> x in From(bars, since) {
      if x in rows {
        LookupIn(bars, x.time);
      }
      if x in From(bars, since) {
        LookupAscending(bars, x);
        assert Row(stored, (symbol, x.time)) == Some(x);
      }
    }
    AscendingUnique(rows, From(bars, since));
  }

  lemma FromContents(bars: seq<Bar>, since: int)
    requires Ascending(bars)
    ensures Ascending(From(bars, since))
    ensures forall x :: x in From(bars, since) <==> x in bars && x.time >= since
  {
    FromSplits(bars, since);
    var n := |bars| - |From(bars, since)|;
    SuffixAscending(bars, n);
    forall x ensures x in From(bars, since) <==> x in bars && x.time >= since {
      InSuffix(bars, n, x, since);
    }
  }

  lemma SuffixAscending(bars: seq<Bar>, n: nat)
    requires Ascending(bars) && n <= |bars|
    ensures Ascending(bars[n..])
  {
    var tail := bars[n..];
    assert forall i :: 0 <= i < |tail| ==> tail[i] == bars[n + i];
  }

  lemma InSuffix(bars: seq<Bar>, n: nat, x: Bar, since: int)
    requires n <= |bars|
    requires (forall i :: 0 <= i < n ==> bars[i].time < since) && (forall i :: n <= i < |bars| ==> bars[i].time >= since)
    ensures x in bars[n..] <==> x in bars && x.time >= since
  {
    if x in bars && x.time >= since {
      var i :| 0 <= i < |bars| && bars[i] == x;
      assert bars[n..][i - n] == x;
    }
    if x in bars[n..] {
      var i :| 0 <= i < |bars| - n && bars[n..][i] == x;
      assert bars[n + i] == x;
    }
  }

  // ----- aggregation of today's bars -----

  lemma {:induction false} SortedStays(bars: seq<Bar>)
    requires Ascending(bars)
    ensures SortByTime(bars) == bars
  {
    if bars != [] {
      SortedStays(bars[..|bars| - 1]);
    }
  }

  lemma LastAbsorb(out: seq<Bar>, other: seq<Bar>, b: Bar, ms: int)
    requires ms > 0 && out != [] && other != [] && Last(out) == Last(other)
    ensures Last(Absorb(out, b, ms)) == Last(Absorb(other, b, ms))
  {
  }

  /** What came before a bucket boundary has no part in the last bar. */
  lemma {:induction false} SuffixSameLast(pre: seq<Bar>, rows: seq<Bar>, since: int, ms: int)
    requires ms > 0 && rows != [] && Bucket(since, ms) == since
    requires (forall b :: b in pre ==> b.time < since) && (forall b :: b in rows ==> b.time >= since)
    ensures Last(Aggregate(pre + rows, ms)) == Last(Aggregate(rows, ms))
    decreases |rows|
  {
    var n := |rows| - 1;
    assert (pre + rows)[..|pre + rows| - 1] == pre + rows[..n];
    assert rows[n] in rows;
    if n == 0 {
      assert pre + rows[..n] == pre;
      AggregateOne(rows[0], ms);
      assert rows == [rows[0]];
      BucketMonotone(since, rows[0].time, ms);
      if pre != [] {
        LastTime(pre, ms);
        assert Last(pre) in pre;
        BucketBracket(Last(pre).time, ms);
      }
    } else {
      SuffixSameLast(pre, rows[..n], since, ms);
      LastAbsorb(Aggregate(pre + rows[..n], ms), Aggregate(rows[..n], ms), rows[n], ms);
    }
  }

  /** A day starts a bucket of every timeframe. */
  lemma DayStartsBuckets(now: int, tf: Timeframe)
    ensures Bucket(Bucket(now, DAY_MS), Size(tf)) == Bucket(now, DAY_MS)
  {
    var k := 1440 / Minutes(tf);
    assert Minutes(tf) * k == 1440;
    assert DAY_MS == Size(tf) * k;
    var d := Bucket(now, DAY_MS);
    QuotientUnique(d, Size(tf), now / DAY_MS * k, 0);
  }

  // ----- the same bars as never restarting -----

  /** The builder of one symbol, as any run without absorbed ticks leaves it. */
  ghost predicate InStep(h: History, tfs: seq<Timeframe>) {
    && M1 in tfs && M1 in h.cur && Ascending(Series(h))
    && (forall tf :: tf in h.cur ==> tf in tfs)
    && (forall tf :: tf in tfs ==> Agrees(h, tf))
  }

  function TicksOf(steps: seq<Step>, symbol: string): seq<Tick> {
    if steps == [] then []
    else
      var step, before := steps[|steps| - 1], TicksOf(steps[..|steps| - 1], symbol);
      if step.TickArrived? && step.symbol == symbol then before + [step.tick] else before
  }

  lemma {:induction false} HistoryIsFeed(steps: seq<Step>, tfs: seq<Timeframe>, symbol: string)
    ensures HistoryOf(Run(steps, tfs), symbol) == FeedAll(TicksOf(steps, symbol), tfs)
  {
    if steps != [] {
      var front, step := steps[..|steps| - 1], steps[|steps| - 1];
      HistoryIsFeed(front, tfs, symbol);
      if step.TickArrived? && step.symbol == symbol {
        FeedMore(TicksOf(front, symbol), step.tick, tfs);
      }
    }
  }

  /** A tick that is not absorbed leaves every bar in step. */
  lemma FeedInStep(h: History, tick: Tick, tfs: seq<Timeframe>)
    requires M1 in tfs && (InStep(h, tfs) || h == History([], map[]))
    requires forall tf :: tf in tfs ==> !Absorbed(h, tick, tf)
    ensures InStep(Feed(h, tick, tfs), tfs)
  {
    var g := Feed(h, tick, tfs);
    forall tf | tf in tfs ensures Agrees(g, tf) {
      if h == History([], map[]) {
        FirstTickAgrees(h, tick, tfs, tf);
      } else {
        TickAgreesIff(h, tick, tfs, tf);
      }
    }
    forall tf | tf in g.cur ensures tf in tfs {
      OverlayAt(h.cur, tfs, BarAfter(h.cur, tick), tf);
    }
    FeedAt(h, tick, tfs, M1);
    if h != History([], map[]) {
      FeedAscending(h, tick, tfs);
    }
  }

  lemma MinuteAligned(h: History, tfs: seq<Timeframe>)
    requires InStep(h, tfs)
    ensures Bucket(h.cur[M1].time, MINUTE_MS) == h.cur[M1].time
  {
    assert Agrees(h, M1) && Size(M1) == MINUTE_MS;
    LastTime(Series(h), MINUTE_MS);
  }

  lemma RestoredAt(bars: seq<Bar>, tfs: seq<Timeframe>, tf: Timeframe)
    requires bars != [] && Ascending(bars)
    ensures Get(Restored(bars, tfs), tf) == if tf in tfs then Some(Last(Aggregate(bars, Size(tf)))) else None
  {
    SortedStays(bars);
    OverlayAt(map[], tfs, LastOf(SortByTime(bars)), tf);
  }

  lemma SameCurrent(a: Current, b: Current)
    requires forall tf: Timeframe :: Get(a, tf) == Get(b, tf)
    ensures a == b
  {
    forall tf: Timeframe ensures (tf in a <==> tf in b) && (tf in a ==> a[tf] == b[tf]) {
      assert Get(a, tf) == Get(b, tf);
    }
  }

  /** With rows for today the restored bars are the very bars that were lost. */
  lemma RestoredToday(h: History, tfs: seq<Timeframe>, now: int)
    requires InStep(h, tfs) && From(Series(h), Bucket(now, DAY_MS)) != []
    ensures Restored(From(Series(h), Bucket(now, DAY_MS)), tfs) == h.cur
  {
    var rows := From(Series(h), Bucket(now, DAY_MS));
    FromContents(Series(h), Bucket(now, DAY_MS));
    forall tf: Timeframe ensures Get(Restored(rows, tfs), tf) == Get(h.cur, tf) {
      RestoredAt(rows, tfs, tf);
      if tf in tfs {
        assert Agrees(h, tf);
        TodayDecides(Series(h), now, tf);
      }
    }
    SameCurrent(Restored(rows, tfs), h.cur);
  }

  lemma TodayDecides(bars: seq<Bar>, now: int, tf: Timeframe)
    requires Ascending(bars) && From(bars, Bucket(now, DAY_MS)) != []
    ensures Last(Aggregate(From(bars, Bucket(now, DAY_MS)), Size(tf))) == Last(Aggregate(bars, Size(tf)))
  {
    var since := Bucket(now, DAY_MS);
    var pre := Before(bars, since);
    FromContents(bars, since);
    DayStartsBuckets(now, tf);
    SuffixSameLast(pre, From(bars, since), since, Size(tf));
  }

  lemma Before(bars: seq<Bar>, since: int) returns (pre: seq<Bar>)
    requires Ascending(bars)
    ensures pre + From(bars, since) == bars && forall b :: b in pre ==> b.time < since
  {
    FromSplits(bars, since);
    pre := bars[..|bars| - |From(bars, since)|];
  }

  /** A tick of a later day starts every bar afresh, whatever was there before it. */
  lemma NewDayTick(a: Current, b: Current, tick: Tick, tfs: seq<Timeframe>, since: int)
    requires forall tf :: tf in tfs ==> Bucket(tick.ts, Size(tf)) >= since
    requires forall tf :: tf in a || tf in b ==> tf in tfs
    requires (forall tf :: tf in a ==> a[tf].time < since) && (forall tf :: tf in b ==> b[tf].time < since)
    ensures Ticked(a, tick, tfs) == Ticked(b, tick, tfs)
  {
    forall tf: Timeframe ensures Get(Ticked(a, tick, tfs), tf) == Get(Ticked(b, tick, tfs), tf) {
      OverlayAt(a, tfs, BarAfter(a, tick), tf);
      OverlayAt(b, tfs, BarAfter(b, tick), tf);
    }
    SameCurrent(Ticked(a, tick, tfs), Ticked(b, tick, tfs));
  }

  lemma BucketsFromDay(ts: int, since: int, tf: Timeframe)
    requires ts >= since && Bucket(since, DAY_MS) == since
    ensures Bucket(ts, Size(tf)) >= since
  {
    DayStartsBuckets(since, tf);
    BucketMonotone(since, ts, Size(tf));
  }

  /** One minute alone restores to bars of its own buckets. */
  lemma RestoredOne(open: Bar, tfs: seq<Timeframe>, tf: Timeframe)
    ensures Get(Restored([open], tfs), tf) == if tf in tfs then Some(open.(time := Bucket(open.time, Size(tf)))) else None
    ensures Bucket(open.time, Size(tf)) <= open.time
  {
    RestoredAt([open], tfs, tf);
    AggregateOne(open, Size(tf));
    BucketBracket(open.time, Size(tf));
  }

  lemma RestoredOneMinute(h: History, tfs: seq<Timeframe>)
    requires InStep(h, tfs)
    ensures Get(Restored([h.cur[M1]], tfs), M1) == Some(h.cur[M1])
  {
    MinuteAligned(h, tfs);
    RestoredOne(h.cur[M1], tfs, M1);
    assert Size(M1) == MINUTE_MS && h.cur[M1].(time := h.cur[M1].time) == h.cur[M1];
  }

  lemma CurrentNotLater(h: History, tfs: seq<Timeframe>, tf: Timeframe)
    requires InStep(h, tfs) && tf in h.cur
    ensures tf in tfs && h.cur[tf].time <= h.cur[M1].time
  {
    assert Agrees(h, tf);
    LastTime(Series(h), Size(tf));
    BucketBracket(h.cur[M1].time, Size(tf));
  }

  /** With no row for today only the last minute comes back, and the next tick makes up for it. */
  lemma RestoredYesterday(h: History, tfs: seq<Timeframe>, since: int, tick: Tick)
    requires InStep(h, tfs) && h.cur[M1].time < since && tick.ts >= since && Bucket(since, DAY_MS) == since
    ensures Ticked(Restored([h.cur[M1]], tfs), tick, tfs) == Ticked(h.cur, tick, tfs)
  {
    var open := h.cur[M1];
    var back := Restored([open], tfs);
    forall tf | tf in tfs ensures Bucket(tick.ts, Size(tf)) >= since {
      BucketsFromDay(tick.ts, since, tf);
    }
    forall tf | tf in back ensures tf in tfs && back[tf].time < since {
      RestoredOne(open, tfs, tf);
    }
    forall tf | tf in h.cur ensures tf in tfs && h.cur[tf].time < since {
      CurrentNotLater(h, tfs, tf);
    }
    NewDayTick(back, h.cur, tick, tfs, since);
  }

  /** The builder in memory is the one that never stopped, or, before the first tick of a new day, the last minute of it. */
  ghost predicate Follows(w: Worker, tfs: seq<Timeframe>, symbol: string) {
    var cur, h := BuilderOf(w.builders, symbol), HistoryOf(w, symbol);
    if M1 !in h.cur then h == History([], map[]) && cur == map[]
    else
      InStep(h, tfs)
      && (cur == h.cur
          || (cur == Restored([h.cur[M1]], tfs) && w.since.Some? && Bucket(w.since.value, DAY_MS) == w.since.value
              && h.cur[M1].time < w.since.value))
  }

  /** A tick of the symbol is not absorbed, and not older than the day of the last restart. */
  predicate Timely(w: Worker, tfs: seq<Timeframe>, symbol: string, tick: Tick) {
    (w.since.Some? ==> tick.ts >= w.since.value) && forall tf :: tf in tfs ==> !Absorbed(HistoryOf(w, symbol), tick, tf)
  }

  predicate TimelyRun(steps: seq<Step>, tfs: seq<Timeframe>, symbol: string) {
    steps == []
    || (TimelyRun(steps[..|steps| - 1], tfs, symbol)
        && var step := steps[|steps| - 1];
           step.TickArrived? && step.symbol == symbol ==> Timely(Run(steps[..|steps| - 1], tfs), tfs, symbol, step.tick))
  }

  /** The next tick gives the same bars and closes the same minute. */
  lemma FollowedTick(w: Worker, tfs: seq<Timeframe>, symbol: string, tick: Tick)
    requires M1 in tfs && Follows(w, tfs, symbol) && Timely(w, tfs, symbol, tick)
    ensures Ticked(BuilderOf(w.builders, symbol), tick, tfs) == Ticked(HistoryOf(w, symbol).cur, tick, tfs)
    ensures Get(BuilderOf(w.builders, symbol), M1) == Get(HistoryOf(w, symbol).cur, M1)
  {
    var h := HistoryOf(w, symbol);
    if M1 in h.cur && BuilderOf(w.builders, symbol) != h.cur {
      RestoredYesterday(h, tfs, w.since.value, tick);
      RestoredOneMinute(h, tfs);
    } else if M1 !in h.cur {
      assert h.cur == map[];
    }
  }

  lemma TickFollows(w: Worker, tfs: seq<Timeframe>, symbol: string, tick: Tick)
    requires M1 in tfs && Follows(w, tfs, symbol) && LatestIsSeries(w, symbol) && Timely(w, tfs, symbol, tick)
    ensures var t := Next(w, TickArrived(symbol, tick), tfs);
            Follows(t, tfs, symbol) && LatestIsSeries(t, symbol)
  {
    FollowedTick(w, tfs, symbol, tick);
    FeedInStep(HistoryOf(w, symbol), tick, tfs);
    TickSeries(w, tfs, symbol, tick);
    var t := Next(w, TickArrived(symbol, tick), tfs);
    assert BuilderOf(t.builders, symbol) == HistoryOf(t, symbol).cur;
  }

  lemma TickSeries(w: Worker, tfs: seq<Timeframe>, symbol: string, tick: Tick)
    requires M1 in tfs && OpensFirst(HistoryOf(w, symbol)) && LatestIsSeries(w, symbol)
    requires Get(BuilderOf(w.builders, symbol), M1) == Get(HistoryOf(w, symbol).cur, M1)
    ensures LatestIsSeries(Next(w, TickArrived(symbol, tick), tfs), symbol)
  {
    var h, cur := HistoryOf(w, symbol), BuilderOf(w.builders, symbol);
    assert Current1m(cur, tick) == Current1m(h.cur, tick) && ClosedBy(cur, tick) == ClosedBy(h.cur, tick);
    forall m: int ensures Row(Next(w, TickArrived(symbol, tick), tfs).latest, (symbol, m)) == Lookup(SeriesOf(Feed(h, tick, tfs)), m) {
      FeedLookup(h, tick, tfs, m);
    }
  }

  lemma RestartFollows(w: Worker, tfs: seq<Timeframe>, symbol: string, now: int, found: map<string, Read>)
    requires M1 in tfs && Follows(w, tfs, symbol) && LatestIsSeries(w, symbol)
    requires FinalRows(w.store) == w.latest && ReadsAll(w.latest, now, found)
    ensures var t := Next(w, Restarted(now, found), tfs);
            Follows(t, tfs, symbol) && LatestIsSeries(t, symbol)
  {
    var h := HistoryOf(w, symbol);
    BucketIdempotent(now, DAY_MS);
    if M1 !in h.cur {
      assert forall m: int :: Row(w.latest, (symbol, m)) == None;
      if symbol in found {
        NothingToRead(w.latest, symbol, Bucket(now, DAY_MS), found[symbol]);
      }
    } else {
      LookupLast(h.closed, h.cur[M1], h.cur[M1].time);
      assert Row(w.latest, (symbol, h.cur[M1].time)) == Some(h.cur[M1]);
      RestoredFollows(w.latest, h, tfs, symbol, now, found[symbol]);
    }
  }

  lemma RestoredFollows(rows: map<Key, Bar>, h: History, tfs: seq<Timeframe>, symbol: string, now: int, read: Read)
    requires InStep(h, tfs) && ReadRight(rows, now, symbol, read)
    requires forall t: int :: Row(rows, (symbol, t)) == Lookup(Series(h), t)
    ensures RowsRead(read) != []
    ensures var cur := Restored(RowsRead(read), tfs);
            cur == h.cur || (cur == Restored([h.cur[M1]], tfs) && h.cur[M1].time < Bucket(now, DAY_MS))
  {
    var since := Bucket(now, DAY_MS);
    RowsAreFrom(rows, symbol, since, read.today, Series(h));
    if read.today != [] {
      RestoredToday(h, tfs, now);
    } else {
      LastIsOpen(rows, symbol, read.last, h);
      FromContents(Series(h), since);
      assert Series(h)[|h.closed|] == h.cur[M1];
    }
  }

  lemma StepFollows(w: Worker, step: Step, tfs: seq<Timeframe>, symbol: string)
    requires M1 in tfs && Follows(w, tfs, symbol) && LatestIsSeries(w, symbol)
    requires step.TickArrived? && step.symbol == symbol ==> Timely(w, tfs, symbol, step.tick)
    requires step.Restarted? ==> FinalRows(w.store) == w.latest && ReadsAll(w.latest, step.now, step.found)
    ensures Follows(Next(w, step, tfs), tfs, symbol) && LatestIsSeries(Next(w, step, tfs), symbol)
  {
    match step
    case TickArrived(other, tick) =>
      if other == symbol {
        TickFollows(w, tfs, symbol, tick);
      } else {
        OtherTickFollows(w, tfs, symbol, other, tick);
      }
    case Restarted(now, found) => RestartFollows(w, tfs, symbol, now, found);
    case _ =>
  }

  lemma OtherTickFollows(w: Worker, tfs: seq<Timeframe>, symbol: string, other: string, tick: Tick)
    requires Follows(w, tfs, symbol) && LatestIsSeries(w, symbol) && other != symbol
    ensures var t := Next(w, TickArrived(other, tick), tfs);
            Follows(t, tfs, symbol) && LatestIsSeries(t, symbol)
  {
    var t := Next(w, TickArrived(other, tick), tfs);
    assert BuilderOf(t.builders, symbol) == BuilderOf(w.builders, symbol) && HistoryOf(t, symbol) == HistoryOf(w, symbol);
  }

  lemma {:induction false} RunFollows(steps: seq<Step>, tfs: seq<Timeframe>, symbol: string)
    requires M1 in tfs && SoundRun(steps, tfs) && CleanRun(steps, tfs) && TimelyRun(steps, tfs, symbol)
    ensures Follows(Run(steps, tfs), tfs, symbol) && LatestIsSeries(Run(steps, tfs), symbol)
  {
    if steps != [] {
      var front := steps[..|steps| - 1];
      RunFollows(front, tfs, symbol);
      RunSaved(front, tfs);
      FinalFlushIff(Run(front, tfs));
      StepFollows(Run(front, tfs), steps[|steps| - 1], tfs, symbol);
    }
  }

  /**
   * Restarts change nothing: after any number of clean ones, every timely tick gives the same bars
   * on every timeframe, and closes the same minute, as if the process had never stopped.
   */
  lemma RestartsContinue(steps: seq<Step>, tfs: seq<Timeframe>, symbol: string, tick: Tick)
    requires M1 in tfs && SoundRun(steps, tfs) && CleanRun(steps, tfs) && TimelyRun(steps, tfs, symbol)
    requires Timely(Run(steps, tfs), tfs, symbol, tick)
    ensures var cur, never := BuilderOf(Run(steps, tfs).builders, symbol), FeedAll(TicksOf(steps, symbol), tfs).cur;
            Ticked(cur, tick, tfs) == Ticked(never, tick, tfs) && ClosedBy(cur, tick) == ClosedBy(never, tick)
  {
    RunFollows(steps, tfs, symbol);
    HistoryIsFeed(steps, tfs, symbol);
    FollowedTick(Run(steps, tfs), tfs, symbol, tick);
  }

  /** And the rows with what is on its way are the symbol's one-minute series, over all processes. */
  lemma RunIsSeries(steps: seq<Step>, tfs: seq<Timeframe>, symbol: string, t: int)
    requires M1 in tfs && SoundRun(steps, tfs) && CleanRun(steps, tfs) && TimelyRun(steps, tfs, symbol)
    ensures Visible(Run(steps, tfs).store, (symbol, t)) == Lookup(SeriesOf(FeedAll(TicksOf(steps, symbol), tfs)), t)
  {
    RunFollows(steps, tfs, symbol);
    RunSaved(steps, tfs);
    HistoryIsFeed(steps, tfs, symbol);
  }

  lemma HasMember<T>(s: seq<T>)
    ensures s == [] || exists x :: x in s
  {
    if s != [] {
      assert s[0] in s;
    }
  }

  lemma NothingToRead(stored: map<Key, Bar>, symbol: string, since: int, read: Read)
    requires RowsSince(stored, symbol, since, read.today) && LastRow(stored, symbol, read.last)
    requires forall t: int :: Row(stored, (symbol, t)) == None
    ensures RowsRead(read) == []
  {
    HasMember(read.today);
  }

  lemma LastIsOpen(stored: map<Key, Bar>, symbol: string, last: Option<Bar>, h: History)
    requires M1 in h.cur && Ascending(Series(h)) && LastRow(stored, symbol, last)
    requires forall t: int :: Row(stored, (symbol, t)) == Lookup(Series(h), t)
    ensures last == Some(h.cur[M1])
  {
    var open := h.cur[M1];
    LookupLast(h.closed, open, open.time);
    assert Row(stored, (symbol, open.time)) == Some(open);
    if last.Some? {
      LookupIn(Series(h), last.value.time);
      assert Row(stored, (symbol, last.value.time)) == Lookup(Series(h), last.value.time);
      var i :| 0 <= i < |Series(h)| && Series(h)[i].time == last.value.time;
      assert Series(h)[|h.closed|] == open;
    }
  }
}
