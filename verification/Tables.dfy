/** The PostgreSQL tables as one value, and sums of reservation quantities over them. */
module Tables {
  import opened Domain

  datatype Product = Product(sku: string, price: int, currency: string, active: bool)

  datatype Stock = Stock(available: int, reserved: int, sold: int, expectedTotal: int)

  datatype Sale = Sale(
    productId: Id, startsAt: int, endsAt: int, allocation: int, remaining: int, maxPerUser: int, state: SaleState)

  datatype Reservation = Reservation(
    saleId: Id, productId: Id, userId: Id, quantity: int, state: ReservationState, expiresAt: int)

  datatype Order = Order(
    reservationId: Id, saleId: Id, productId: Id, userId: Id, quantity: int,
    amount: int, currency: string, state: OrderState)

  /** Payments are keyed by their unique idempotency key. */
  datatype Payment = Payment(
    paymentId: Id, orderId: Id, outcome: Outcome, status: PaymentStatus, fingerprint: string)

  /** A row of idempotency_keys; `response` is None until response_status and response_body are written. */
  datatype KeyRow = KeyRow(userId: Id, fingerprint: string, response: Option<Response>, expiresAt: int)

  /** Opened, Moved and PaymentNoted stand for rows of domain_events, in commit order; the product of Opened
      is the reservation row's, which the event does not repeat. StockSet and UnitsLost are history the
      program does not store: a stock level set by the catalog, and sale units a refused request kept. */
  datatype Entry =
    | Opened(reservationId: Id, productId: Id, quantity: int)
    | Moved(reservationId: Id, from: ReservationState, to: ReservationState)
    | PaymentNoted(paymentId: Id, status: PaymentStatus)
    | StockSet(productId: Id, level: int)
    | UnitsLost(saleId: Id, units: int)

  datatype Db = Db(
    products: map<Id, Product>,
    inventory: map<Id, Stock>,
    sales: map<Id, Sale>,
    reservations: map<Id, Reservation>,
    orders: map<Id, Order>,
    payments: map<Id, Payment>,
    keys: map<Id, KeyRow>,
    journal: seq<Entry>)

  const EMPTY: Db := Db(map[], map[], map[], map[], map[], map[], map[], [])

  /** The WHERE clauses under which reservation quantities are summed. */
  datatype Filter =
    | Held(product: Id)
    | SoldOf(product: Id)
    | ActiveIn(sale: Id)
    | ActiveBy(sale: Id, user: Id)

  predicate Selects(f: Filter, r: Reservation) {
    match f
    case Held(p) => r.productId == p && (r.state == Pending || r.state == Confirmed)
    case SoldOf(p) => r.productId == p && r.state == Paid
    case ActiveIn(s) => r.saleId == s && Live(r.state)
    case ActiveBy(s, u) => r.saleId == s && r.userId == u && Live(r.state)
  }

  function Weight(f: Filter, r: Reservation): int {
    if Selects(f, r) then r.quantity else 0
  }

  /** SELECT COALESCE(sum(quantity),0) FROM reservations WHERE f. */
  ghost function Total(f: Filter, m: map<Id, Reservation>): int
    decreases m.Keys
  {
    if m == map[] then 0
    else
      var k :| k in m;
      Weight(f, m[k]) + Total(f, m - {k})
  }

  /** Any row can be split off a sum first, whatever order the sum was taken in. */
  lemma {:induction false} TotalSplit(f: Filter, m: map<Id, Reservation>, k: Id)
    requires k in m
    ensures Total(f, m) == Weight(f, m[k]) + Total(f, m - {k})
    decreases m.Keys
  {
    var j :| j in m && Total(f, m) == Weight(f, m[j]) + Total(f, m - {j});
    if j != k {
      TotalSplit(f, m - {j}, k);
      TotalSplit(f, m - {k}, j);
      assert m - {j} - {k} == m - {k} - {j};
    }
  }

  /** Writing one row moves a sum by exactly that row's change of weight. */
  lemma TotalPut(f: Filter, m: map<Id, Reservation>, k: Id, r: Reservation)
    ensures Total(f, m[k := r])
            == Total(f, m) - (if k in m then Weight(f, m[k]) else 0) + Weight(f, r)
  {
    TotalSplit(f, m[k := r], k);
    assert m[k := r] - {k} == m - {k};
    if k in m {
      TotalSplit(f, m, k);
    } else {
      assert m - {k} == m;
    }
  }

  ghost predicate Positive(m: map<Id, Reservation>) {
    forall k :: k in m ==> m[k].quantity >= 1
  }

  lemma {:induction false} TotalNonNegative(f: Filter, m: map<Id, Reservation>)
    requires Positive(m)
    ensures Total(f, m) >= 0
    decreases m.Keys
  {
    if m != map[] {
      var k :| k in m;
      TotalSplit(f, m, k);
      TotalNonNegative(f, m - {k});
    }
  }

  /** A sum of positive quantities covers each selected row. */
  lemma TotalCovers(f: Filter, m: map<Id, Reservation>, k: Id)
    requires Positive(m) && k in m
    ensures Total(f, m) >= Weight(f, m[k])
  {
    TotalSplit(f, m, k);
    TotalNonNegative(f, m - {k});
  }

  lemma {:induction false} TotalNone(f: Filter, m: map<Id, Reservation>)
    requires forall k :: k in m ==> !Selects(f, m[k])
    ensures Total(f, m) == 0
    decreases m.Keys
  {
    if m != map[] {
      var k :| k in m;
      TotalSplit(f, m, k);
      TotalNone(f, m - {k});
    }
  }

  // ---------------------------------------------------------------- sums over named rows

  /** The quantities of some rows. */
  ghost function Sum(ids: set<Id>, m: map<Id, Reservation>): int
    requires ids <= m.Keys
    decreases ids
  {
    if ids == {} then 0
    else
      var k :| k in ids;
      m[k].quantity + Sum(ids - {k}, m)
  }

  lemma {:induction false} SumSplit(ids: set<Id>, m: map<Id, Reservation>, k: Id)
    requires ids <= m.Keys && k in ids
    ensures Sum(ids, m) == m[k].quantity + Sum(ids - {k}, m)
    decreases ids
  {
    var j :| j in ids && Sum(ids, m) == m[j].quantity + Sum(ids - {j}, m);
    if j != k {
      SumSplit(ids - {j}, m, k);
      SumSplit(ids - {k}, m, j);
      assert ids - {j} - {k} == ids - {k} - {j};
    }
  }

  lemma {:induction false} SumFrame(ids: set<Id>, m: map<Id, Reservation>, n: map<Id, Reservation>)
    requires ids <= m.Keys && ids <= n.Keys && forall k :: k in ids ==> m[k] == n[k]
    ensures Sum(ids, m) == Sum(ids, n)
    decreases ids
  {
    if ids != {} {
      var k :| k in ids;
      SumSplit(ids, m, k);
      SumSplit(ids, n, k);
      SumFrame(ids - {k}, m, n);
    }
  }

  function Passing(f: Filter, m: map<Id, Reservation>): set<Id> {
    set k | k in m && Selects(f, m[k])
  }

  /** A filtered sum is the sum of the rows that pass the filter. */
  lemma {:induction false} TotalIsSum(f: Filter, m: map<Id, Reservation>)
    ensures Total(f, m) == Sum(Passing(f, m), m)
    decreases m.Keys
  {
    if m != map[] {
      var k :| k in m;
      TotalSplit(f, m, k);
      TotalIsSum(f, m - {k});
      SumFrame(Passing(f, m - {k}), m - {k}, m);
      if Selects(f, m[k]) {
        SumSplit(Passing(f, m), m, k);
        assert Passing(f, m) - {k} == Passing(f, m - {k});
      } else {
        assert Passing(f, m) == Passing(f, m - {k});
      }
    }
  }

  /** The reservations of a user in a sale that have not been given back. */
  function Unreleased(m: map<Id, Reservation>, sale: Id, user: Id): set<Id> {
    set k | k in m && m[k].saleId == sale && m[k].userId == user && m[k].state != Cancelled && m[k].state != Expired
  }

  /** The quantity sum of Reserve counts every unit the user holds in the sale, paid ones included. */
  lemma ActiveIsUnreleased(m: map<Id, Reservation>, sale: Id, user: Id)
    ensures Total(ActiveBy(sale, user), m) == Sum(Unreleased(m, sale, user), m)
  {
    TotalIsSum(ActiveBy(sale, user), m);
    assert Passing(ActiveBy(sale, user), m) == Unreleased(m, sale, user);
  }

  function Users(m: map<Id, Reservation>): set<Id> {
    set r | r in m :: m[r].userId
  }

  /** What some users hold in a sale. */
  ghost function OverUsers(users: set<Id>, sale: Id, m: map<Id, Reservation>): int
    decreases users
  {
    if users == {} then 0
    else
      var u :| u in users;
      Total(ActiveBy(sale, u), m) + OverUsers(users - {u}, sale, m)
  }

  lemma {:induction false} OverUsersRow(users: set<Id>, sale: Id, m: map<Id, Reservation>, k: Id)
    requires k in m
    ensures OverUsers(users, sale, m) == OverUsers(users, sale, m - {k})
            + (if m[k].userId in users then Weight(ActiveBy(sale, m[k].userId), m[k]) else 0)
    decreases users
  {
    if users != {} {
      var u :| u in users && OverUsers(users, sale, m) == Total(ActiveBy(sale, u), m) + OverUsers(users - {u}, sale, m);
      TotalSplit(ActiveBy(sale, u), m, k);
      OverUsersRow(users - {u}, sale, m, k);
      OverUsersSplit(users, sale, m - {k}, u);
    }
  }

  lemma {:induction false} OverUsersSplit(users: set<Id>, sale: Id, m: map<Id, Reservation>, u: Id)
    requires u in users
    ensures OverUsers(users, sale, m) == Total(ActiveBy(sale, u), m) + OverUsers(users - {u}, sale, m)
    decreases users
  {
    var j :| j in users && OverUsers(users, sale, m) == Total(ActiveBy(sale, j), m) + OverUsers(users - {j}, sale, m);
    if j != u {
      OverUsersSplit(users - {j}, sale, m, u);
      OverUsersSplit(users - {u}, sale, m, j);
      assert users - {j} - {u} == users - {u} - {j};
    }
  }

  lemma {:induction false} OverNoRows(users: set<Id>, sale: Id)
    ensures OverUsers(users, sale, map[]) == 0
    decreases users
  {
    if users != {} {
      var u :| u in users;
      OverUsersSplit(users, sale, map[], u);
      OverNoRows(users - {u}, sale);
    }
  }

  lemma {:induction false} SaleIsSumOver(users: set<Id>, sale: Id, m: map<Id, Reservation>)
    requires Users(m) <= users
    ensures Total(ActiveIn(sale), m) == OverUsers(users, sale, m)
    decreases m.Keys
  {
    if m == map[] {
      OverNoRows(users, sale);
    } else {
      var k :| k in m;
      TotalSplit(ActiveIn(sale), m, k);
      assert m[k].userId in Users(m);
      OverUsersRow(users, sale, m, k);
      SaleIsSumOver(users, sale, m - {k});
    }
  }

  /** The units active in a sale are those its users hold, user by user. */
  lemma SaleIsSumOverUsers(sale: Id, m: map<Id, Reservation>)
    ensures Total(ActiveIn(sale), m) == OverUsers(Users(m), sale, m)
  {
    SaleIsSumOver(Users(m), sale, m);
  }
}
