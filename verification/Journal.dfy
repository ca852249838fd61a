/** Rebuilding the counters and the lifecycle of every reservation from the event log alone. */
module Journal {
  import opened Domain
  import opened Tables

  datatype Counters = Counters(available: int, reserved: int, sold: int)

  datatype Item = Item(productId: Id, quantity: int, state: ReservationState)

  datatype Book = Book(counters: map<Id, Counters>, items: map<Id, Item>)

  /** The stock movement that goes with entering a state. */
  function Shift(c: Counters, to: ReservationState, q: int): Counters {
    match to
    case Pending => Counters(c.available - q, c.reserved + q, c.sold)
    case Confirmed => c
    case Paid => Counters(c.available, c.reserved - q, c.sold + q)
    case Cancelled => Counters(c.available + q, c.reserved - q, c.sold)
    case Expired => Counters(c.available + q, c.reserved - q, c.sold)
  }

  /** One entry read back; None when the entry is not a legal continuation of the book. */
  function Post(b: Book, e: Entry): Option<Book> {
    match e
    case StockSet(p, n) =>
      var c := if p in b.counters then b.counters[p].(available := n) else Counters(n, 0, 0);
      Some(b.(counters := b.counters[p := c]))
    case Opened(r, p, q) =>
      if r in b.items || p !in b.counters then None
      else Some(Book(b.counters[p := Shift(b.counters[p], Pending, q)], b.items[r := Item(p, q, Pending)]))
    case Moved(r, from, to) =>
      if r !in b.items || b.items[r].state != from || !ValidTransition(from, to) then None
      else
        var i := b.items[r];
        if i.productId !in b.counters then None
        else Some(Book(b.counters[i.productId := Shift(b.counters[i.productId], to, i.quantity)],
                       b.items[r := i.(state := to)]))
    case PaymentNoted(_, _) => Some(b)
    case UnitsLost(_, _) => Some(b)
  }

  /** The whole log folded from an empty book; None as soon as one entry is not legal. */
  function Replay(log: seq<Entry>): Option<Book> {
    if log == [] then Some(Book(map[], map[]))
    else
      var before := Replay(log[..|log| - 1]);
      if before.None? then None else Post(before.value, log[|log| - 1])
  }

  lemma ReplayNext(log: seq<Entry>, e: Entry)
    requires Replay(log).Some?
    ensures Replay(log + [e]) == Post(Replay(log).value, e)
  {
    assert (log + [e])[..|log|] == log;
  }

  /** Sale units that a refused request took and did not give back. */
  function Lost(log: seq<Entry>, saleId: Id): int {
    if log == [] then 0
    else
      var e := log[|log| - 1];
      Lost(log[..|log| - 1], saleId) + (if e.UnitsLost? && e.saleId == saleId then e.units else 0)
  }

  lemma LostNext(log: seq<Entry>, e: Entry, saleId: Id)
    ensures Lost(log + [e], saleId) == Lost(log, saleId) + (if e.UnitsLost? && e.saleId == saleId then e.units else 0)
  {
    assert (log + [e])[..|log|] == log;
  }

  function CountersOf(s: Stock): Counters {
    Counters(s.available, s.reserved, s.sold)
  }

  function ItemOf(r: Reservation): Item {
    Item(r.productId, r.quantity, r.state)
  }

  /** What the tables say, in the shape of a book. */
  function BookOf(inventory: map<Id, Stock>, reservations: map<Id, Reservation>): Book {
    Book(map p | p in inventory :: CountersOf(inventory[p]),
         map r | r in reservations :: ItemOf(reservations[r]))
  }

  /** How often an event of reservation r enters the state `to` in a log. */
  function Entries(log: seq<Entry>, r: Id, to: ReservationState): nat {
    if log == [] then 0
    else
      var e := log[|log| - 1];
      Entries(log[..|log| - 1], r, to) + (if e.Moved? && e.reservationId == r && e.to == to then 1 else 0)
  }

  /** In a log that replays, a reservation enters each state at most once, and the terminal states
      exclude each other: stock is restored or sold at most once per reservation. */
  lemma {:induction false} EachStateEnteredOnce(log: seq<Entry>, r: Id)
    requires Replay(log).Some?
    ensures r !in Replay(log).value.items ==>
              Entries(log, r, Confirmed) == Entries(log, r, Paid) == Entries(log, r, Cancelled)
                == Entries(log, r, Expired) == 0
    ensures r in Replay(log).value.items ==>
              var s := Replay(log).value.items[r].state;
              && Entries(log, r, Confirmed) == (if s == Confirmed || s == Paid then 1 else 0)
              && Entries(log, r, Paid) == (if s == Paid then 1 else 0)
              && Entries(log, r, Cancelled) == (if s == Cancelled then 1 else 0)
              && Entries(log, r, Expired) == (if s == Expired then 1 else 0)
  {
    if log != [] {
      EachStateEnteredOnce(log[..|log| - 1], r);
    }
  }

  // ---------------------------------------------------------------- the order of entries

  /** One more entry; None once an entry was not legal. */
  function Read(b: Option<Book>, e: Entry): Option<Book> {
    if b.None? then None else Post(b.value, e)
  }

  predicate AboutReservation(e: Entry) {
    e.Opened? || e.Moved?
  }

  /** Two entries of the same reservation. */
  predicate Related(e: Entry, f: Entry) {
    AboutReservation(e) && AboutReservation(f) && e.reservationId == f.reservationId
  }

  /** The item an entry leaves behind, when the entry is legal. */
  function Posted(b: Book, e: Entry): Option<Item>
    requires AboutReservation(e)
  {
    match e
    case Opened(r, p, q) => if r in b.items || p !in b.counters then None else Some(Item(p, q, Pending))
    case Moved(r, from, to) =>
      if r !in b.items || b.items[r].state != from || !ValidTransition(from, to) || b.items[r].productId !in b.counters
      then None else Some(b.items[r].(state := to))
  }

  function Put(b: Book, r: Id, i: Item): Book
    requires i.productId in b.counters
  {
    Book(b.counters[i.productId := Shift(b.counters[i.productId], i.state, i.quantity)], b.items[r := i])
  }

  lemma PostIsPut(b: Book, e: Entry)
    requires AboutReservation(e)
    ensures var i := Posted(b, e);
            && (i.Some? ==> i.value.productId in b.counters)
            && Post(b, e) == if i.None? then None else Some(Put(b, e.reservationId, i.value))
  {
  }

  lemma PutKeepsPosted(b: Book, r: Id, i: Item, e: Entry)
    requires AboutReservation(e) && e.reservationId != r && i.productId in b.counters
    ensures Posted(Put(b, r, i), e) == Posted(b, e)
  {
  }

  lemma PutSwaps(b: Book, r: Id, i: Item, s: Id, j: Item)
    requires r != s && i.productId in b.counters && j.productId in b.counters
    ensures Put(Put(b, r, i), s, j) == Put(Put(b, s, j), r, i)
  {
    var x, y := Put(Put(b, r, i), s, j), Put(Put(b, s, j), r, i);
    assert x.items == y.items;
    assert x.counters == y.counters;
  }

  lemma PostSwaps(b: Book, e: Entry, f: Entry)
    requires !e.StockSet? && !f.StockSet? && !Related(e, f)
    ensures Read(Post(b, e), f) == Read(Post(b, f), e)
  {
    if AboutReservation(e) && AboutReservation(f) {
      hide Post, Put, Posted;
      var r, s, i, j := e.reservationId, f.reservationId, Posted(b, e), Posted(b, f);
      PostIsPut(b, e);
      PostIsPut(b, f);
      if i.Some? {
        PostIsPut(Put(b, r, i.value), f);
        PutKeepsPosted(b, r, i.value, f);
      }
      if j.Some? {
        PostIsPut(Put(b, s, j.value), e);
        PutKeepsPosted(b, s, j.value, e);
      }
      if i.Some? && j.Some? {
        PutSwaps(b, r, i.value, s, j.value);
      }
    }
  }

  lemma RelatedCannotSwap(b: Book, e: Entry, f: Entry)
    requires Related(e, f) && Read(Post(b, e), f).Some?
    ensures Read(Post(b, f), e).None?
  {
  }

  lemma {:induction false} ReadOn(log: seq<Entry>, swapped: seq<Entry>, rest: seq<Entry>)
    ensures Replay(log) == Replay(swapped) ==> Replay(log + rest) == Replay(swapped + rest)
    ensures Replay(swapped).None? ==> Replay(swapped + rest).None?
  {
    if rest == [] {
      assert log + rest == log && swapped + rest == swapped;
    } else {
      var init, e := rest[..|rest| - 1], rest[|rest| - 1];
      ReadOn(log, swapped, init);
      assert (log + rest)[..|log + rest| - 1] == log + init;
      assert (swapped + rest)[..|swapped + rest| - 1] == swapped + init;
    }
  }

  lemma ReplayTwo(log: seq<Entry>, e: Entry, f: Entry)
    ensures Replay(log + [e] + [f]) == Read(Read(Replay(log), e), f)
  {
    assert (log + [e])[..|log|] == log && (log + [e] + [f])[..|log| + 1] == log + [e];
  }

  lemma {:induction false} ReplayedBefore(log: seq<Entry>, rest: seq<Entry>)
    requires Replay(log + rest).Some?
    ensures Replay(log).Some?
  {
    if rest == [] {
      assert log + rest == log;
    } else {
      assert (log + rest)[..|log + rest| - 1] == log + rest[..|rest| - 1];
      ReplayedBefore(log, rest[..|rest| - 1]);
    }
  }

  /** Reading two neighbouring events the other way round gives the same book exactly when they belong to
      different reservations; otherwise the log is no longer legal. */
  lemma SwapReplaysExactlyWhen(log: seq<Entry>, e: Entry, f: Entry, rest: seq<Entry>)
    requires !e.StockSet? && !f.StockSet? && Replay(log + [e] + [f] + rest).Some?
    ensures Replay(log + [f] + [e] + rest) == if Related(e, f) then None else Replay(log + [e] + [f] + rest)
  {
    hide Replay, Post;
    ReplayedBefore(log + [e] + [f], rest);
    ReplayTwo(log, e, f);
    ReplayTwo(log, f, e);
    if Related(e, f) {
      RelatedCannotSwap(Replay(log).value, e, f);
    } else {
      PostSwaps(Replay(log).value, e, f);
    }
    ReadOn(log + [e] + [f], log + [f] + [e], rest);
  }
}
