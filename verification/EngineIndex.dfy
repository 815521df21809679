/**
 * The engine's per-symbol indexes over the objects its accounts hold. Positions and resting orders
 * are objects shared by an account's map and by an index; an index holds exactly the objects of the
 * accounts plus `strays`: objects that a second insertion or a second load pushed out of an account
 * without taking them out of the index.
 */
module EngineIndex {
  import opened Options

  /** A position (`K` is its number) or a resting order (`K` is its text id). */
  class Item<K> {
    const id: K
    const accountId: nat
    const symbol: string
    var closing: bool

    constructor (id: K, accountId: nat, symbol: string)
      ensures this.id == id && this.accountId == accountId && this.symbol == symbol && !closing
    {
      this.id, this.accountId, this.symbol, closing := id, accountId, symbol, false;
    }
  }

  class Account {
    const id: nat
    var positions: map<nat, Item<nat>>
    var pending: map<string, Item<string>>
    var untracked: bool

    constructor (id: nat)
      ensures this.id == id && positions == map[] && pending == map[] && !untracked
    {
      this.id, positions, pending, untracked := id, map[], map[], false;
    }
  }

  // ----- an index over what a set of accounts holds -----

  type Index<T> = map<string, set<T>>

  function At<T>(index: Index<T>, symbol: string): set<T> {
    if symbol in index then index[symbol] else {}
  }

  function Added<T>(index: Index<T>, symbol: string, x: T): (r: Index<T>)
    ensures forall s :: At(r, s) == if s == symbol then At(index, s) + {x} else At(index, s)
  {
    index[symbol := At(index, symbol) + {x}]
  }

  function Removed<T>(index: Index<T>, symbol: string, x: T): (r: Index<T>)
    ensures forall s :: At(r, s) == if s == symbol then At(index, s) - {x} else At(index, s)
  {
    if symbol in index then index[symbol := index[symbol] - {x}] else index
  }

  /** `held[a]` is what account `a` holds and `home` says where an object is held. */
  datatype Shelf<K> = Shelf(held: map<Account, map<K, Item<K>>>, home: map<Item<K>, Account>, strays: set<Item<K>>)

  ghost predicate HasHome<K>(s: Shelf<K>, a: Account, k: K)
    requires a in s.held && k in s.held[a]
  {
    var p := s.held[a][k];
    p.id == k && p.accountId == a.id && p in s.home && s.home[p] == a
  }

  ghost predicate AtHome<K>(s: Shelf<K>, p: Item<K>)
    requires p in s.home
  {
    s.home[p] in s.held && p.id in s.held[s.home[p]] && s.held[s.home[p]][p.id] == p
  }

  /** Every held object is held once. */
  ghost predicate ShelfOk<K>(s: Shelf<K>) {
    && (forall a, k {:trigger HasHome(s, a, k)} :: a in s.held && k in s.held[a] ==> HasHome(s, a, k))
    && (forall p {:trigger AtHome(s, p)} :: p in s.home ==> AtHome(s, p))
    && s.strays !! s.home.Keys
  }

  ghost predicate Known<K>(s: Shelf<K>, symbol: string, p: Item<K>) {
    p.symbol == symbol && p in s.home.Keys + s.strays
  }

  predicate Shown<K>(index: Index<Item<K>>, p: Item<K>) { p in At(index, p.symbol) }

  /** The index lists the held objects and the strays, each under its symbol. */
  ghost predicate Indexed<K>(s: Shelf<K>, index: Index<Item<K>>) {
    && (forall symbol, p {:trigger Known(s, symbol, p)} :: p in At(index, symbol) ==> Known(s, symbol, p))
    && (forall p {:trigger Shown(index, p)} :: p in s.home.Keys + s.strays ==> Shown(index, p))
  }

  /** What was under `k` and leaves. */
  ghost function Entry<K>(s: Shelf<K>, a: Account, k: K): set<Item<K>>
    requires a in s.held
  {
    if k in s.held[a] then {s.held[a][k]} else {}
  }

  ghost function Put<K>(s: Shelf<K>, a: Account, p: Item<K>): Shelf<K>
    requires a in s.held
  {
    var out := Entry(s, a, p.id);
    Shelf(s.held[a := s.held[a][p.id := p]], (s.home - out)[p := a], s.strays + out)
  }

  ghost function Take<K>(s: Shelf<K>, a: Account, p: Item<K>): Shelf<K>
    requires a in s.held
  {
    var out := Entry(s, a, p.id);
    Shelf(s.held[a := s.held[a] - {p.id}], s.home - out, s.strays + out - {p})
  }

  lemma EntryAtHome<K>(s: Shelf<K>, a: Account, k: K)
    requires ShelfOk(s) && a in s.held
    ensures forall q :: q in Entry(s, a, k) ==> q.id == k && q in s.home && s.home[q] == a
  {
    if k in s.held[a] {
      assert HasHome(s, a, k);
    }
  }

  lemma PutShelf<K>(s: Shelf<K>, a: Account, p: Item<K>)
    requires ShelfOk(s) && a in s.held && p.accountId == a.id && p !in s.home && p !in s.strays
    ensures ShelfOk(Put(s, a, p))
  {
    var t := Put(s, a, p);
    EntryAtHome(s, a, p.id);
    forall b, k | b in t.held && k in t.held[b] ensures HasHome(t, b, k) {
      if b != a || k != p.id {
        assert HasHome(s, b, k);
      }
    }
    forall q | q in t.home ensures AtHome(t, q) {
      if q != p {
        assert AtHome(s, q);
      }
    }
  }

  lemma TakeShelf<K>(s: Shelf<K>, a: Account, p: Item<K>)
    requires ShelfOk(s) && a in s.held && (p in s.home ==> s.home[p] == a)
    ensures ShelfOk(Take(s, a, p))
  {
    var t := Take(s, a, p);
    EntryAtHome(s, a, p.id);
    forall b, k | b in t.held && k in t.held[b] ensures HasHome(t, b, k) {
      assert HasHome(s, b, k);
    }
    forall q | q in t.home ensures AtHome(t, q) {
      assert AtHome(s, q);
    }
    if p in s.home {
      assert AtHome(s, p);
    }
  }

  /** The index follows when the objects it should list gain or lose just one. */
  lemma IndexGains<K>(s: Shelf<K>, t: Shelf<K>, index: Index<Item<K>>, p: Item<K>)
    requires Indexed(s, index) && t.home.Keys + t.strays == s.home.Keys + s.strays + {p}
    ensures Indexed(t, Added(index, p.symbol, p))
  {
    var more := Added(index, p.symbol, p);
    forall symbol, q | q in At(more, symbol) ensures Known(t, symbol, q) {
      if q in At(index, symbol) {
        assert Known(s, symbol, q);
      }
    }
    forall q | q in t.home.Keys + t.strays ensures Shown(more, q) {
      if q != p {
        assert Shown(index, q);
      }
    }
  }

  lemma IndexLoses<K>(s: Shelf<K>, t: Shelf<K>, index: Index<Item<K>>, p: Item<K>)
    requires Indexed(s, index) && t.home.Keys + t.strays == s.home.Keys + s.strays - {p}
    ensures Indexed(t, Removed(index, p.symbol, p))
  {
    var less := Removed(index, p.symbol, p);
    forall symbol, q | q in At(less, symbol) ensures Known(t, symbol, q) {
      assert Known(s, symbol, q);
    }
    forall q | q in t.home.Keys + t.strays ensures Shown(less, q) {
      assert Shown(index, q);
    }
  }

  lemma IndexStays<K>(s: Shelf<K>, t: Shelf<K>, index: Index<Item<K>>)
    requires Indexed(s, index) && t.home.Keys + t.strays == s.home.Keys + s.strays
    ensures Indexed(t, index)
  {
    forall symbol, q | q in At(index, symbol) ensures Known(t, symbol, q) {
      assert Known(s, symbol, q);
    }
    forall q | q in t.home.Keys + t.strays ensures Shown(index, q) {
      assert q in s.home.Keys + s.strays;
    }
  }

  lemma PutKeeps<K>(s: Shelf<K>, index: Index<Item<K>>, a: Account, p: Item<K>)
    requires ShelfOk(s) && Indexed(s, index) && a in s.held && p.accountId == a.id && p !in s.home && p !in s.strays
    ensures ShelfOk(Put(s, a, p)) && Indexed(Put(s, a, p), Added(index, p.symbol, p))
  {
    PutShelf(s, a, p);
    EntryAtHome(s, a, p.id);
    var t := Put(s, a, p);
    assert t.home.Keys + t.strays == s.home.Keys + s.strays + {p};
    IndexGains(s, t, index, p);
  }

  lemma TakeKeeps<K>(s: Shelf<K>, index: Index<Item<K>>, a: Account, p: Item<K>)
    requires ShelfOk(s) && Indexed(s, index) && a in s.held && (p in s.home ==> s.home[p] == a)
    ensures ShelfOk(Take(s, a, p)) && Indexed(Take(s, a, p), Removed(index, p.symbol, p))
  {
    TakeShelf(s, a, p);
    EntryAtHome(s, a, p.id);
    var t := Take(s, a, p);
    if p in s.home {
      assert AtHome(s, p);
      assert p in Entry(s, a, p.id);
    }
    assert t.home.Keys + t.strays == s.home.Keys + s.strays - {p};
    IndexLoses(s, t, index, p);
  }

  // ----- accounts coming and going -----

  ghost function Join<K>(s: Shelf<K>, a: Account): Shelf<K> {
    s.(held := s.held[a := map[]])
  }

  lemma JoinKeeps<K>(s: Shelf<K>, index: Index<Item<K>>, a: Account)
    requires ShelfOk(s) && Indexed(s, index) && a !in s.held
    ensures ShelfOk(Join(s, a)) && Indexed(Join(s, a), index)
  {
    var t := Join(s, a);
    forall b, k | b in t.held && k in t.held[b] ensures HasHome(t, b, k) {
      assert HasHome(s, b, k);
    }
    forall q | q in t.home ensures AtHome(t, q) {
      assert AtHome(s, q);
    }
    IndexStays(s, t, index);
  }

  ghost function Contents<K>(s: Shelf<K>, a: Account): set<Item<K>> {
    set p | p in s.home && s.home[p] == a
  }

  /** An account is no longer known; whatever it still holds is astray. */
  ghost function Leave<K>(s: Shelf<K>, a: Account): Shelf<K> {
    Shelf(s.held - {a}, s.home - Contents(s, a), s.strays + Contents(s, a))
  }

  lemma FirstPut<K>(s: Shelf<K>, a: Account, p: Item<K>)
    ensures Put(Join(s, a), a, p).home == s.home[p := a]
  {
    assert s.home - {} == s.home;
  }

  lemma LeaveKeeps<K>(s: Shelf<K>, index: Index<Item<K>>, a: Account)
    requires ShelfOk(s) && Indexed(s, index)
    ensures ShelfOk(Leave(s, a)) && Indexed(Leave(s, a), index)
  {
    var t := Leave(s, a);
    forall b, k | b in t.held && k in t.held[b] ensures HasHome(t, b, k) {
      assert HasHome(s, b, k);
    }
    forall q | q in t.home ensures AtHome(t, q) {
      assert AtHome(s, q);
    }
    assert t.home.Keys + t.strays == s.home.Keys + s.strays;
    IndexStays(s, t, index);
  }

  lemma ContentsHeld<K>(s: Shelf<K>, a: Account)
    requires ShelfOk(s) && a in s.held
    ensures Contents(s, a) == {} <==> s.held[a] == map[]
  {
    if s.held[a] != map[] {
      var k :| k in s.held[a];
      assert HasHome(s, a, k);
      assert s.held[a][k] in Contents(s, a);
    }
    if p :| p in Contents(s, a) {
      assert AtHome(s, p);
    }
  }

  lemma ValuesWithout(accounts: map<nat, Account>, a: Account)
    requires (forall k :: k in accounts ==> accounts[k].id == k) && a.id in accounts && accounts[a.id] == a
    ensures (accounts - {a.id}).Values == accounts.Values - {a}
  {
    var left := accounts - {a.id};
    forall b | b in accounts.Values - {a} ensures b in left.Values {
      var k :| k in accounts && accounts[k] == b;
      assert left[k] == b;
    }
  }

  lemma ValuesWith(accounts: map<nat, Account>, a: Account)
    requires a.id !in accounts
    ensures accounts[a.id := a].Values == accounts.Values + {a}
  {
    var more := accounts[a.id := a];
    assert more[a.id] == a;
    forall b | b in accounts.Values ensures b in more.Values {
      var k :| k in accounts && accounts[k] == b;
      assert more[k] == b;
    }
  }

  // ----- any sequence of operations -----

  /** An account object appears, gets or loses an object, or goes. */
  datatype Op<K> = Joins(a: Account) | Adds(a: Account, p: Item<K>) | Removes(a: Account, p: Item<K>) | Leaves(a: Account)

  datatype Listing<K> = Listing(shelf: Shelf<K>, index: Index<Item<K>>)

  /** Account objects join once, objects are added when they are new, and a removal looks up its id first. */
  ghost predicate May<K>(s: Shelf<K>, op: Op<K>) {
    match op
    case Joins(a) => a !in s.held
    case Adds(a, p) => a in s.held && p.accountId == a.id && p !in s.home && p !in s.strays
    case Removes(a, p) => a in s.held && p.id in s.held[a] && (p in s.home ==> s.home[p] == a)
    case Leaves(a) => true
  }

  ghost function Apply<K>(l: Listing<K>, op: Op<K>): Listing<K> {
    if !May(l.shelf, op) then l
    else
      match op
      case Joins(a) => l.(shelf := Join(l.shelf, a))
      case Adds(a, p) => Listing(Put(l.shelf, a, p), Added(l.index, p.symbol, p))
      case Removes(a, p) => Listing(Take(l.shelf, a, p), Removed(l.index, p.symbol, p))
      case Leaves(a) => l.(shelf := Leave(l.shelf, a))
  }

  /**
   * What a caller can see beforehand: an object is added under an id that is taken, removed while
   * another object has its id, or an account object goes that still holds something.
   */
  ghost predicate Bumps<K>(s: Shelf<K>, op: Op<K>) {
    && May(s, op)
    && match op
       case Joins(a) => false
       case Adds(a, p) => p.id in s.held[a]
       case Removes(a, p) => s.held[a][p.id] != p
       case Leaves(a) => a in s.held && s.held[a] != map[]
  }

  ghost function Applied<K>(l: Listing<K>, ops: seq<Op<K>>): Listing<K> {
    if ops == [] then l else Apply(Applied(l, ops[..|ops| - 1]), ops[|ops| - 1])
  }

  ghost predicate NoneBumps<K>(l: Listing<K>, ops: seq<Op<K>>) {
    ops == []
    || (NoneBumps(l, ops[..|ops| - 1]) && !Bumps(Applied(l, ops[..|ops| - 1]).shelf, ops[|ops| - 1]))
  }

  ghost predicate Kept<K>(l: Listing<K>) { ShelfOk(l.shelf) && Indexed(l.shelf, l.index) }

  lemma ApplyKeeps<K>(l: Listing<K>, op: Op<K>)
    requires Kept(l)
    ensures Kept(Apply(l, op))
  {
    if May(l.shelf, op) {
      match op
      case Joins(a) => JoinKeeps(l.shelf, l.index, a);
      case Adds(a, p) => PutKeeps(l.shelf, l.index, a, p);
      case Removes(a, p) => TakeKeeps(l.shelf, l.index, a, p);
      case Leaves(a) => LeaveKeeps(l.shelf, l.index, a);
    }
  }

  /** An object goes astray exactly at a bump, and the strays never become fewer. */
  lemma ApplyStrays<K>(l: Listing<K>, op: Op<K>)
    requires Kept(l)
    ensures Apply(l, op).shelf.strays == {} <==> l.shelf.strays == {} && !Bumps(l.shelf, op)
    ensures |Apply(l, op).shelf.strays| >= |l.shelf.strays|
  {
    var s := l.shelf;
    if May(s, op) {
      match op
      case Joins(a) =>
      case Adds(a, p) =>
        EntryAtHome(s, a, p.id);
        MoreStrays(s.strays, Entry(s, a, p.id), {});
      case Removes(a, p) =>
        EntryAtHome(s, a, p.id);
        MoreStrays(s.strays, Entry(s, a, p.id), {p});
      case Leaves(a) =>
        LeavesNothing(s, a);
        MoreStrays(s.strays, Contents(s, a), {});
    }
  }

  lemma NothingLeft<K>(s: Shelf<K>, a: Account)
    requires Contents(s, a) == {}
    ensures Leave(s, a).strays == s.strays
  {
  }

  lemma TakenNotAstray<K>(s: Shelf<K>, a: Account, k: K)
    requires ShelfOk(s) && a in s.held && k in s.held[a]
    ensures var p := s.held[a][k]; p.id == k && p in s.home && s.home[p] == a && Take(s, a, p).strays == s.strays
  {
    assert HasHome(s, a, k);
  }

  lemma LeavesNothing<K>(s: Shelf<K>, a: Account)
    requires ShelfOk(s)
    ensures Contents(s, a) == {} <==> a !in s.held || s.held[a] == map[]
  {
    if a in s.held {
      ContentsHeld(s, a);
    }
    assert forall p :: p in s.home ==> AtHome(s, p);
  }

  lemma MoreStrays<T>(strays: set<T>, out: set<T>, less: set<T>)
    requires out !! strays && |less| <= |out|
    ensures |strays + out - less| >= |strays|
  {
    assert |strays + out| == |strays| + |out|;
    assert strays + out - less == (strays + out) - (less * (strays + out));
    assert |less * (strays + out)| <= |less| by {
      assert less * (strays + out) + (less - (strays + out)) == less;
    }
  }

  lemma {:induction false} AppliedKeeps<K>(l: Listing<K>, ops: seq<Op<K>>)
    requires Kept(l)
    ensures Kept(Applied(l, ops))
    ensures l.shelf.strays == {} ==> (Applied(l, ops).shelf.strays == {} <==> NoneBumps(l, ops))
    ensures |Applied(l, ops).shelf.strays| >= |l.shelf.strays|
  {
    if ops != [] {
      AppliedKeeps(l, ops[..|ops| - 1]);
      ApplyKeeps(Applied(l, ops[..|ops| - 1]), ops[|ops| - 1]);
      ApplyStrays(Applied(l, ops[..|ops| - 1]), ops[|ops| - 1]);
    }
  }

  /** The index lists exactly the objects the accounts hold. */
  ghost predicate Precise<K>(l: Listing<K>) { ListsOnly(l.shelf, l.shelf.held.Keys, l.index) }

  /** Over any sequence of operations the index stays exact if and only if none of them bumps. */
  lemma ExactThroughoutIff<K>(l: Listing<K>, ops: seq<Op<K>>)
    requires Kept(l) && Precise(l)
    ensures Precise(Applied(l, ops)) <==> NoneBumps(l, ops)
  {
    ListsOnlyIff(l.shelf, l.shelf.held.Keys, l.index);
    AppliedKeeps(l, ops);
    var m := Applied(l, ops);
    ListsOnlyIff(m.shelf, m.shelf.held.Keys, m.index);
  }

  /** What has gone astray is never made up for: an index that is not exact is never exact again. */
  lemma InexactForGood<K>(l: Listing<K>, ops: seq<Op<K>>)
    requires Kept(l) && !Precise(l)
    ensures !Precise(Applied(l, ops))
  {
    ListsOnlyIff(l.shelf, l.shelf.held.Keys, l.index);
    AppliedKeeps(l, ops);
    var m := Applied(l, ops);
    ListsOnlyIff(m.shelf, m.shelf.held.Keys, m.index);
  }

  // ----- the engine -----

  class Engine {
    var accounts: map<nat, Account>
    var positionsBySymbol: Index<Item<nat>>
    var pendingBySymbol: Index<Item<string>>
    /** Accounts whose rows are being read and that are not tracked yet. */
    ghost var loading: set<Account>
    ghost var shelf: Shelf<nat>
    ghost var orders: Shelf<string>

    ghost function Holders(): set<Account>
      reads this
    {
      accounts.Values + loading
    }

    /** The shelves say what the accounts hold. */
    ghost predicate Mirrored()
      reads this, Holders()
    {
      && shelf.held.Keys == Holders() && orders.held.Keys == Holders()
      && (forall a :: a in Holders() ==> shelf.held[a] == a.positions && orders.held[a] == a.pending)
    }

    ghost predicate AccountsOk()
      reads this
    {
      (forall k :: k in accounts ==> accounts[k].id == k) && loading !! accounts.Values
    }

    ghost predicate ShelvesOk()
      reads this
    {
      ShelfOk(shelf) && Indexed(shelf, positionsBySymbol) && ShelfOk(orders) && Indexed(orders, pendingBySymbol)
    }

    ghost predicate Valid()
      reads this, Holders()
    {
      AccountsOk() && Mirrored() && ShelvesOk()
    }

    ghost function Positions(): Listing<nat>
      reads this
    {
      Listing(shelf, positionsBySymbol)
    }

    ghost function Pendings(): Listing<string>
      reads this
    {
      Listing(orders, pendingBySymbol)
    }

    /** The indexes list exactly what tracked accounts hold, by symbol. */
    ghost predicate Exact()
      reads this, Holders()
      requires Mirrored()
    {
      ListsOnly(shelf, accounts.Values, positionsBySymbol) && ListsOnly(orders, accounts.Values, pendingBySymbol)
    }

    constructor ()
      ensures Valid() && accounts == map[] && loading == {} && shelf.strays == {} && orders.strays == {}
    {
      accounts, positionsBySymbol, pendingBySymbol := map[], map[], map[];
      loading, shelf, orders := {}, Shelf(map[], map[], {}), Shelf(map[], map[], {});
    }

    // ----- positions -----

    /** A new object joins the account and the index; one it replaces stays in the index as a stray. */
    method AddPosition(acct: Account, id: nat, symbol: string) returns (pos: Item<nat>)
      requires Valid() && acct in Holders()
      modifies this`positionsBySymbol, this`shelf, acct`positions
      ensures Valid() && fresh(pos) && pos.id == id && pos.symbol == symbol && pos.accountId == acct.id && !pos.closing
      ensures shelf == Put(old(shelf), acct, pos) && Positions() == Apply(old(Positions()), Adds(acct, pos))
    {
      pos := new Item(id, acct.id, symbol);
      InsertPosition(acct, pos);
    }

    method InsertPosition(acct: Account, pos: Item<nat>)
      requires Valid() && acct in Holders() && pos.accountId == acct.id && pos !in shelf.home && pos !in shelf.strays
      modifies this`positionsBySymbol, this`shelf, acct`positions
      ensures Valid() && shelf == Put(old(shelf), acct, pos) && positionsBySymbol == Added(old(positionsBySymbol), pos.symbol, pos)
    {
      PutKeeps(shelf, positionsBySymbol, acct, pos);
      StorePositions(acct, acct.positions[pos.id := pos], Added(positionsBySymbol, pos.symbol, pos), Put(shelf, acct, pos));
    }

    method StorePositions(acct: Account, held: map<nat, Item<nat>>, index: Index<Item<nat>>, ghost now: Shelf<nat>)
      requires AccountsOk() && Mirrored() && acct in Holders() && now.held == shelf.held[acct := held]
      modifies this`positionsBySymbol, this`shelf, acct`positions
      ensures Mirrored() && shelf == now && positionsBySymbol == index
    {
      KeysStay(shelf.held, acct, held);
      acct.positions := held;
      positionsBySymbol := index;
      shelf := now;
    }

    /** The account's entry and the given object go; when they differ, the entry's object is astray. */
    method RemovePosition(acct: Account, pos: Item<nat>)
      requires Valid() && acct in Holders() && (pos in shelf.home ==> shelf.home[pos] == acct)
      modifies this`positionsBySymbol, this`shelf, acct`positions
      ensures Valid() && shelf == Take(old(shelf), acct, pos)
      ensures pos.id in old(acct.positions) ==> Positions() == Apply(old(Positions()), Removes(acct, pos))
    {
      TakeKeeps(shelf, positionsBySymbol, acct, pos);
      StorePositions(acct, acct.positions - {pos.id}, Removed(positionsBySymbol, pos.symbol, pos), Take(shelf, acct, pos));
    }

    // ----- resting orders -----

    method AddPending(acct: Account, id: string, symbol: string) returns (order: Item<string>)
      requires Valid() && acct in Holders()
      modifies this`pendingBySymbol, this`orders, acct`pending
      ensures Valid() && fresh(order) && order.id == id && order.symbol == symbol && order.accountId == acct.id && !order.closing
      ensures orders == Put(old(orders), acct, order) && Pendings() == Apply(old(Pendings()), Adds(acct, order))
    {
      order := new Item(id, acct.id, symbol);
      InsertOrder(acct, order);
    }

    method InsertOrder(acct: Account, order: Item<string>)
      requires Valid() && acct in Holders() && order.accountId == acct.id && order !in orders.home && order !in orders.strays
      modifies this`pendingBySymbol, this`orders, acct`pending
      ensures Valid() && orders == Put(old(orders), acct, order) && pendingBySymbol == Added(old(pendingBySymbol), order.symbol, order)
    {
      PutKeeps(orders, pendingBySymbol, acct, order);
      StoreOrders(acct, acct.pending[order.id := order], Added(pendingBySymbol, order.symbol, order), Put(orders, acct, order));
    }

    method StoreOrders(acct: Account, held: map<string, Item<string>>, index: Index<Item<string>>, ghost now: Shelf<string>)
      requires AccountsOk() && Mirrored() && acct in Holders() && now.held == orders.held[acct := held]
      modifies this`pendingBySymbol, this`orders, acct`pending
      ensures Mirrored() && orders == now && pendingBySymbol == index
    {
      KeysStay(orders.held, acct, held);
      acct.pending := held;
      pendingBySymbol := index;
      orders := now;
    }

    method RemovePending(acct: Account, order: Item<string>)
      requires Valid() && acct in Holders() && (order in orders.home ==> orders.home[order] == acct)
      modifies this`pendingBySymbol, this`orders, acct`pending
      ensures Valid() && orders == Take(old(orders), acct, order)
      ensures order.id in old(acct.pending) ==> Pendings() == Apply(old(Pendings()), Removes(acct, order))
    {
      TakeKeeps(orders, pendingBySymbol, acct, order);
      StoreOrders(acct, acct.pending - {order.id}, Removed(pendingBySymbol, order.symbol, order), Take(orders, acct, order));
    }

    // ----- loading and untracking -----

    /** The first half of a load: the account object exists, its rows are still to come. */
    method BeginLoad(id: nat) returns (acct: Account)
      requires Valid()
      modifies this`loading, this`shelf, this`orders
      ensures Valid() && fresh(acct) && acct.id == id && loading == old(loading) + {acct}
      ensures shelf == Join(old(shelf), acct) && orders == Join(old(orders), acct)
      ensures Positions() == Apply(old(Positions()), Joins(acct)) && Pendings() == Apply(old(Pendings()), Joins(acct))
    {
      acct := new Account(id);
      JoinKeeps(shelf, positionsBySymbol, acct);
      JoinKeeps(orders, pendingBySymbol, acct);
      loading := loading + {acct};
      shelf, orders := Join(shelf, acct), Join(orders, acct);
    }

    /** A load of an account with one position, up to the end of its reads. */
    method LoadOne(id: nat, k: nat, symbol: string) returns (acct: Account, p: Item<nat>)
      requires Valid()
      modifies this`loading, this`shelf, this`orders, this`positionsBySymbol
      ensures Valid() && fresh(acct) && acct.id == id && loading == old(loading) + {acct}
      ensures p !in old(shelf.home) && shelf.home == old(shelf.home)[p := acct]
    {
      acct := BeginLoad(id);
      p := AddPosition(acct, k, symbol);
      FirstPut(old(shelf), acct, p);
    }

    /** The account object leaves the table; objects it still holds are astray. */
    method Forget(acct: Account)
      requires Valid() && acct.id in accounts && accounts[acct.id] == acct
      modifies this`accounts, this`shelf, this`orders
      ensures Valid() && accounts == old(accounts) - {acct.id}
      ensures shelf == Leave(old(shelf), acct) && orders == Leave(old(orders), acct)
      ensures Positions() == Apply(old(Positions()), Leaves(acct)) && Pendings() == Apply(old(Pendings()), Leaves(acct))
    {
      LeaveKeeps(shelf, positionsBySymbol, acct);
      LeaveKeeps(orders, pendingBySymbol, acct);
      accounts := accounts - {acct.id};
      shelf, orders := Leave(shelf, acct), Leave(orders, acct);
      ValuesWithout(old(accounts), acct);
    }

    /** The second half: the account is tracked. If another load of it was faster, that one's objects are astray. */
    method FinishLoad(acct: Account)
      requires Valid() && acct in loading
      modifies this`accounts, this`loading, this`shelf, this`orders
      ensures Valid() && accounts == old(accounts)[acct.id := acct] && loading == old(loading) - {acct}
      ensures acct.id !in old(accounts) ==> shelf == old(shelf) && orders == old(orders)
      ensures acct.id in old(accounts)
              ==> shelf == Leave(old(shelf), old(accounts)[acct.id]) && orders == Leave(old(orders), old(accounts)[acct.id])
    {
      WithoutThenWith(accounts, acct.id, acct);
      Displace(acct.id);
      Track(acct);
    }

    /** What the table has under the number goes. */
    method Displace(id: nat)
      requires Valid()
      modifies this`accounts, this`shelf, this`orders
      ensures Valid() && accounts == old(accounts) - {id}
      ensures id !in old(accounts) ==> shelf == old(shelf) && orders == old(orders)
      ensures id in old(accounts) ==> shelf == Leave(old(shelf), old(accounts)[id]) && orders == Leave(old(orders), old(accounts)[id])
    {
      if id in accounts {
        Forget(accounts[id]);
      }
    }

    method Track(acct: Account)
      requires Valid() && acct in loading && acct.id !in accounts
      modifies this`accounts, this`loading
      ensures Valid() && accounts == old(accounts)[acct.id := acct] && loading == old(loading) - {acct}
    {
      accounts := accounts[acct.id := acct];
      loading := loading - {acct};
      ValuesWith(old(accounts), acct);
    }

    /** Every object leaves the index with its account. */
    method Untrack(accountId: nat)
      requires Valid()
      modifies this, if accountId in accounts then {accounts[accountId]} else {}
      ensures Valid() && accounts == old(accounts) - {accountId} && loading == old(loading)
      ensures shelf.strays == old(shelf.strays) && orders.strays == old(orders.strays)
      ensures accountId in old(accounts) ==> old(accounts)[accountId].untracked
    {
      if accountId !in accounts {
        return;
      }
      var acct := accounts[accountId];
      Empty(acct);
      MarkAndForget(acct);
    }

    method MarkAndForget(acct: Account)
      requires Valid() && acct.id in accounts && accounts[acct.id] == acct && Contents(shelf, acct) == {} && Contents(orders, acct) == {}
      modifies this`accounts, this`shelf, this`orders, acct`untracked
      ensures Valid() && accounts == old(accounts) - {acct.id} && acct.untracked
      ensures shelf.strays == old(shelf.strays) && orders.strays == old(orders.strays)
    {
      NothingLeft(shelf, acct);
      NothingLeft(orders, acct);
      acct.untracked := true;
      Forget(acct);
    }

    method Empty(acct: Account)
      requires Valid() && acct in Holders()
      modifies this`positionsBySymbol, this`pendingBySymbol, this`shelf, this`orders, acct`positions, acct`pending
      ensures Valid() && Contents(shelf, acct) == {} && Contents(orders, acct) == {}
      ensures shelf.strays == old(shelf.strays) && orders.strays == old(orders.strays)
    {
      DropPositions(acct);
      DropOrders(acct);
      ContentsHeld(shelf, acct);
      ContentsHeld(orders, acct);
    }

    method DropPositions(acct: Account)
      requires Valid() && acct in Holders()
      modifies this`positionsBySymbol, this`shelf, acct`positions
      ensures Valid() && acct.positions == map[] && shelf.strays == old(shelf.strays)
    {
      while acct.positions != map[]
        invariant Valid() && acct in Holders() && shelf.strays == old(shelf.strays)
        decreases |acct.positions|
      {
        DropSomePosition(acct);
      }
    }

    method DropSomePosition(acct: Account)
      requires Valid() && acct in Holders() && acct.positions != map[]
      modifies this`positionsBySymbol, this`shelf, acct`positions
      ensures Valid() && shelf.strays == old(shelf.strays) && |acct.positions| < |old(acct.positions)|
    {
      var k :| k in acct.positions;
      DropPosition(acct, k);
    }

    /** What the account holds under a key goes, and nothing is left astray. */
    method DropPosition(acct: Account, k: nat)
      requires Valid() && acct in Holders() && k in acct.positions
      modifies this`positionsBySymbol, this`shelf, acct`positions
      ensures Valid() && acct.positions == old(acct.positions) - {k} && shelf.strays == old(shelf.strays)
      ensures |acct.positions| < |old(acct.positions)|
    {
      TakenNotAstray(shelf, acct, k);
      FewerKeys(acct.positions, k);
      RemovePosition(acct, acct.positions[k]);
    }

    method DropOrders(acct: Account)
      requires Valid() && acct in Holders()
      modifies this`pendingBySymbol, this`orders, acct`pending
      ensures Valid() && acct.pending == map[] && orders.strays == old(orders.strays)
    {
      while acct.pending != map[]
        invariant Valid() && acct in Holders() && orders.strays == old(orders.strays)
        decreases |acct.pending|
      {
        DropSomeOrder(acct);
      }
    }

    method DropSomeOrder(acct: Account)
      requires Valid() && acct in Holders() && acct.pending != map[]
      modifies this`pendingBySymbol, this`orders, acct`pending
      ensures Valid() && orders.strays == old(orders.strays) && |acct.pending| < |old(acct.pending)|
    {
      var k :| k in acct.pending;
      DropOrder(acct, k);
    }

    method DropOrder(acct: Account, k: string)
      requires Valid() && acct in Holders() && k in acct.pending
      modifies this`pendingBySymbol, this`orders, acct`pending
      ensures Valid() && acct.pending == old(acct.pending) - {k} && orders.strays == old(orders.strays)
      ensures |acct.pending| < |old(acct.pending)|
    {
      TakenNotAstray(orders, acct, k);
      FewerKeys(acct.pending, k);
      RemovePending(acct, acct.pending[k]);
    }

    // ----- merging a reloaded row -----

    /** Rows the account lacks join it; positions without a row leave it unless they are closing. */
    method MergeRow(acct: Account, rows: seq<(nat, string)>)
      requires Valid() && acct in Holders()
      modifies this`positionsBySymbol, this`shelf, acct`positions
      ensures Valid() && shelf.strays == old(shelf.strays)
      ensures forall k :: k in acct.positions <==> k in RowIds(rows) || (k in old(acct.positions) && old(acct.positions)[k].closing)
      ensures forall k :: k in acct.positions && k in old(acct.positions) ==> acct.positions[k] == old(acct.positions)[k]
    {
      AddMissing(acct, rows);
      DropUnlisted(acct, rows);
    }

    method DropUnlisted(acct: Account, rows: seq<(nat, string)>)
      requires Valid() && acct in Holders()
      modifies this`positionsBySymbol, this`shelf, acct`positions
      ensures Valid() && shelf.strays == old(shelf.strays)
      ensures acct.positions == old(acct.positions) - Unlisted(old(acct.positions), rows)
    {
      DropEach(acct, Unlisted(acct.positions, rows));
    }

    method DropEach(acct: Account, keys: set<nat>)
      requires Valid() && acct in Holders() && keys <= acct.positions.Keys
      modifies this`positionsBySymbol, this`shelf, acct`positions
      ensures Valid() && shelf.strays == old(shelf.strays)
      ensures acct.positions == old(acct.positions) - keys
    {
      var left := keys;
      while left != {}
        invariant Valid() && acct in Holders() && shelf.strays == old(shelf.strays)
        invariant left <= acct.positions.Keys && acct.positions - left == old(acct.positions) - keys
        decreases |left|
      {
        left := DropOneOf(acct, left);
      }
      assert acct.positions - {} == acct.positions;
    }

    method DropOneOf(acct: Account, keys: set<nat>) returns (left: set<nat>)
      requires Valid() && acct in Holders() && keys <= acct.positions.Keys && keys != {}
      modifies this`positionsBySymbol, this`shelf, acct`positions
      ensures Valid() && shelf.strays == old(shelf.strays) && |left| < |keys|
      ensures left <= acct.positions.Keys && acct.positions - left == old(acct.positions) - keys
    {
      var k :| k in keys;
      MinusInTwo(acct.positions, keys, k);
      DropPosition(acct, k);
      left := keys - {k};
    }

    /** Positions without a row, unless they are closing. */
    function Unlisted(positions: map<nat, Item<nat>>, rows: seq<(nat, string)>): set<nat>
      reads positions.Values
    {
      set k | k in positions && k !in RowIds(rows) && !positions[k].closing
    }

    method AddRow(acct: Account, row: (nat, string))
      requires Valid() && acct in Holders()
      modifies this`positionsBySymbol, this`shelf, acct`positions
      ensures Valid() && shelf.strays == old(shelf.strays)
      ensures Gains(old(acct.positions), acct.positions, {row.0})
    {
      ghost var before := acct.positions;
      if row.0 !in acct.positions {
        var pos := AddPosition(acct, row.0, row.1);
        GainsOne(before, row.0, pos);
      } else {
        GainsNothing(before, row.0);
      }
    }

    method AddMissing(acct: Account, rows: seq<(nat, string)>)
      requires Valid() && acct in Holders()
      modifies this`positionsBySymbol, this`shelf, acct`positions
      ensures Valid() && shelf.strays == old(shelf.strays)
      ensures Gains(old(acct.positions), acct.positions, RowIds(rows))
    {
      ghost var before := acct.positions;
      for i := 0 to |rows|
        invariant Valid() && acct in Holders() && shelf.strays == old(shelf.strays)
        invariant Gains(before, acct.positions, RowIds(rows[..i]))
      {
        ghost var now := acct.positions;
        AddRow(acct, rows[i]);
        GainsMore(before, now, acct.positions, rows, i);
      }
      assert rows[..|rows|] == rows;
    }

    // ----- who a tick touches -----

    /** The tick loop goes from the index to the accounts; with nothing astray or loading, to every holder and no other. */
    method TouchedBy(symbol: string) returns (touched: set<Account>)
      requires Valid()
      ensures touched <= accounts.Values
      ensures shelf.strays == {} && loading == {}
              ==> forall a :: a in accounts.Values ==> (a in touched <==> exists k :: k in a.positions && a.positions[k].symbol == symbol)
    {
      touched := {};
      var left := At(positionsBySymbol, symbol);
      while left != {}
        invariant left <= At(positionsBySymbol, symbol) && touched <= accounts.Values
        invariant forall p :: p in At(positionsBySymbol, symbol) && p !in left && p.accountId in accounts ==> accounts[p.accountId] in touched
        invariant forall a :: a in touched ==> exists p :: p in At(positionsBySymbol, symbol) && p.accountId == a.id
        decreases |left|
      {
        var p :| p in left;
        left := left - {p};
        if p.accountId in accounts {
          touched := touched + {accounts[p.accountId]};
        }
      }
      if shelf.strays == {} && loading == {} {
        HoldersAreTouched(this, symbol, touched);
      }
    }
  }

  function RowIds(rows: seq<(nat, string)>): set<nat> {
    set i | 0 <= i < |rows| :: rows[i].0
  }

  lemma RowIdsMore(rows: seq<(nat, string)>, i: nat)
    requires i < |rows|
    ensures RowIds(rows[..i + 1]) == RowIds(rows[..i]) + {rows[i].0}
  {
    var more, less := rows[..i + 1], rows[..i];
    forall k | k in RowIds(less) + {rows[i].0} ensures k in RowIds(more) {
      if k in RowIds(less) {
        var j :| 0 <= j < |less| && less[j].0 == k;
        assert more[j].0 == k;
      } else {
        assert more[i].0 == k;
      }
    }
    forall k | k in RowIds(more) ensures k in RowIds(less) + {rows[i].0} {
      var j :| 0 <= j < |more| && more[j].0 == k;
      assert j < i ==> less[j].0 == k;
    }
  }

  /** The old entries stay and exactly `ids` join them. */
  ghost predicate Gains<V>(before: map<nat, V>, after: map<nat, V>, ids: set<nat>) {
    after.Keys == before.Keys + ids && forall k :: k in before ==> after[k] == before[k]
  }

  lemma GainsOne<V>(before: map<nat, V>, id: nat, x: V)
    requires id !in before
    ensures Gains(before, before[id := x], {id})
  {
  }

  lemma GainsNothing<V>(before: map<nat, V>, id: nat)
    requires id in before
    ensures Gains(before, before, {id})
  {
  }

  lemma GainsMore<V>(before: map<nat, V>, now: map<nat, V>, after: map<nat, V>, rows: seq<(nat, string)>, i: nat)
    requires i < |rows| && Gains(before, now, RowIds(rows[..i])) && Gains(now, after, {rows[i].0})
    ensures Gains(before, after, RowIds(rows[..i + 1]))
  {
    RowIdsMore(rows, i);
  }

  lemma MinusInTwo<K, V>(m: map<K, V>, left: set<K>, k: K)
    requires k in left && left <= m.Keys
    ensures left - {k} <= (m - {k}).Keys && (m - {k}) - (left - {k}) == m - left
  {
  }

  lemma WithoutThenWith<K, V>(m: map<K, V>, k: K, v: V)
    ensures (m - {k})[k := v] == m[k := v]
  {
  }

  lemma KeysStay<K, V>(m: map<K, V>, k: K, v: V)
    requires k in m
    ensures m[k := v].Keys == m.Keys
  {
  }

  lemma FewerKeys<K, V>(m: map<K, V>, k: K)
    requires k in m
    ensures |m - {k}| < |m|
  {
    assert (m - {k}).Keys == m.Keys - {k};
    assert |m| == |m.Keys| && |m - {k}| == |(m - {k}).Keys|;
  }

  lemma HoldersAreTouched(e: Engine, symbol: string, touched: set<Account>)
    requires e.Valid() && e.shelf.strays == {} && e.loading == {} && touched <= e.accounts.Values
    requires forall p :: p in At(e.positionsBySymbol, symbol) && p.accountId in e.accounts ==> e.accounts[p.accountId] in touched
    requires forall a :: a in touched ==> exists p :: p in At(e.positionsBySymbol, symbol) && p.accountId == a.id
    ensures forall a :: a in e.accounts.Values
                        ==> (a in touched <==> exists k :: k in a.positions && a.positions[k].symbol == symbol)
  {
    forall a | a in e.accounts.Values
      ensures a in touched <==> exists k :: k in a.positions && a.positions[k].symbol == symbol
    {
      assert e.accounts[a.id] == a;
      if k :| k in a.positions && a.positions[k].symbol == symbol {
        assert HasHome(e.shelf, a, k);
        Listed(e.shelf, e.positionsBySymbol, a, k);
      }
      if a in touched {
        var p :| p in At(e.positionsBySymbol, symbol) && p.accountId == a.id;
        assert Known(e.shelf, symbol, p);
        assert AtHome(e.shelf, p);
        var b := e.shelf.home[p];
        assert HasHome(e.shelf, b, p.id);
        assert e.accounts[b.id] == b;
      }
    }
  }

  // ----- when the indexes are exact -----

  /** The index lists exactly what the accounts in `tracked` hold. */
  ghost predicate ListsOnly<K>(s: Shelf<K>, tracked: set<Account>, index: Index<Item<K>>)
    requires tracked <= s.held.Keys
  {
    && (forall symbol, p :: p in At(index, symbol)
                            ==> p.symbol == symbol && exists a :: a in tracked && p.id in s.held[a] && s.held[a][p.id] == p)
    && (forall a, k :: a in tracked && k in s.held[a] ==> s.held[a][k] in At(index, s.held[a][k].symbol))
  }

  lemma Listed<K>(s: Shelf<K>, index: Index<Item<K>>, a: Account, k: K)
    requires ShelfOk(s) && Indexed(s, index) && a in s.held && k in s.held[a]
    ensures s.held[a][k] in s.home && s.home[s.held[a][k]] == a && s.held[a][k] in At(index, s.held[a][k].symbol)
  {
    assert HasHome(s, a, k);
    assert s.held[a][k] in s.home.Keys + s.strays;
    assert Shown(index, s.held[a][k]);
  }

  lemma NoneAstray<K>(s: Shelf<K>, tracked: set<Account>, index: Index<Item<K>>)
    requires ShelfOk(s) && Indexed(s, index) && tracked <= s.held.Keys && ListsOnly(s, tracked, index)
    ensures s.strays == {}
  {
    if s.strays != {} {
      var p :| p in s.strays;
      assert p in s.home.Keys + s.strays && Shown(index, p);
      ListedHome(s, tracked, index, p);
    }
  }

  lemma ListsOnlyIff<K>(s: Shelf<K>, tracked: set<Account>, index: Index<Item<K>>)
    requires ShelfOk(s) && Indexed(s, index) && tracked <= s.held.Keys
    ensures ListsOnly(s, tracked, index) <==> s.strays == {} && forall a :: a in s.held && a !in tracked ==> s.held[a] == map[]
  {
    if s.strays == {} && forall a :: a in s.held && a !in tracked ==> s.held[a] == map[] {
      forall symbol, p | p in At(index, symbol)
        ensures p.symbol == symbol && exists a :: a in tracked && p.id in s.held[a] && s.held[a][p.id] == p
      {
        assert Known(s, symbol, p);
        assert AtHome(s, p);
        assert s.home[p] in tracked;
      }
      forall a, k | a in tracked && k in s.held[a] ensures s.held[a][k] in At(index, s.held[a][k].symbol) {
        Listed(s, index, a, k);
      }
    }
    if ListsOnly(s, tracked, index) {
      NoneAstray(s, tracked, index);
      forall a | a in s.held && a !in tracked ensures s.held[a] == map[] {
        if s.held[a] != map[] {
          var k :| k in s.held[a];
          Listed(s, index, a, k);
          ListedHome(s, tracked, index, s.held[a][k]);
        }
      }
    }
  }

  lemma ListedHome<K>(s: Shelf<K>, tracked: set<Account>, index: Index<Item<K>>, p: Item<K>)
    requires ShelfOk(s) && tracked <= s.held.Keys && ListsOnly(s, tracked, index) && p in At(index, p.symbol)
    ensures p in s.home && s.home[p] in tracked
  {
    var a :| a in tracked && p.id in s.held[a] && s.held[a][p.id] == p;
    assert HasHome(s, a, p.id);
  }

  /** The indexes are exact as long as nothing is astray and no account half-way through a load holds anything. */
  lemma ExactIff(e: Engine)
    requires e.Valid()
    ensures e.Exact() <==> e.shelf.strays == {} && e.orders.strays == {}
                           && forall a :: a in e.loading ==> a.positions == map[] && a.pending == map[]
  {
    ListsOnlyIff(e.shelf, e.accounts.Values, e.positionsBySymbol);
    ListsOnlyIff(e.orders, e.accounts.Values, e.pendingBySymbol);
  }

  /**
   * Two loads of one account that overlap: the second bumps the objects of the first, and no
   * sequence of operations makes the index exact again.
   */
  method OverlappingLoads() returns (e: Engine)
    ensures e.Valid() && e.loading == {} && !e.Exact()
    ensures forall ops :: !Precise(Applied(e.Positions(), ops))
  {
    var first, second, p;
    e, first, second, p := BothLoading();
    e.FinishLoad(first);
    e.FinishLoad(second);
    assert p in e.shelf.strays;
    ExactIff(e);
    NeverPrecise(e.Positions());
  }

  /** A second load of the account, before the first is done. */
  method BothLoading() returns (e: Engine, first: Account, second: Account, p: Item<nat>)
    ensures fresh(e) && e.Valid() && e.accounts == map[] && e.loading == {first, second}
    ensures first != second && first.id == second.id == 1 && p in Contents(e.shelf, first)
  {
    e, first, p := HalfLoaded();
    var q;
    second, q := e.LoadOne(1, 7, "EURUSD");
  }

  /** A load of an account, past its reads. */
  method HalfLoaded() returns (e: Engine, first: Account, p: Item<nat>)
    ensures fresh(e) && e.Valid() && e.accounts == map[] && e.loading == {first} && first.id == 1 && p in Contents(e.shelf, first)
  {
    e := new Engine();
    first, p := e.LoadOne(1, 7, "EURUSD");
  }

  lemma NeverPrecise<K>(l: Listing<K>)
    requires Kept(l) && l.shelf.strays != {}
    ensures forall ops :: !Precise(Applied(l, ops))
  {
    ListsOnlyIff(l.shelf, l.shelf.held.Keys, l.index);
    forall ops ensures !Precise(Applied(l, ops)) {
      InexactForGood(l, ops);
    }
  }
}
