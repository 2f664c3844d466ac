/** The administrator's dashboard figures: table sizes, confirmed bookings, the
    revenue collected from paid invoices and the five most recent reservations. */
module Admin {
  import opened Models
  import opened Store

  // ---- Revenue ----------------------------------------------------------------

  /** What one invoice adds to the revenue: its amount when paid, nothing otherwise. */
  function Contribution(m: map<int, Invoice>, k: int): int
  {
    if k in m && m[k].status == Paid then m[k].amount else 0
  }

  /** The revenue fold over the invoices whose keys lie below `n`. */
  function PaidRevenueBelow(m: map<int, Invoice>, n: int): int
    decreases n
  {
    if n <= 0 then 0 else PaidRevenueBelow(m, n - 1) + Contribution(m, n - 1)
  }

  /** `totalRevenue`: the sum of the amounts of the paid invoices. */
  function TotalRevenue(db: Db): int
    reads db
  {
    PaidRevenueBelow(db.invoices, db.nextInvoiceId)
  }

  /** The invoices with status paid. */
  function PaidOnly(m: map<int, Invoice>): (p: map<int, Invoice>)
    ensures p.Keys <= m.Keys
    ensures forall k :: k in p ==> p[k] == m[k] && p[k].status == Paid
    ensures forall k :: k in m && m[k].status == Paid ==> k in p
  {
    map k | k in m && m[k].status == Paid :: m[k]
  }

  /** Two invoice tables that agree on what every key below `n` contributes have
      the same revenue. */
  lemma {:induction false} RevenueDependsOnContributions(m1: map<int, Invoice>, m2: map<int, Invoice>, n: int)
    requires forall k :: 0 <= k < n ==> Contribution(m1, k) == Contribution(m2, k)
    ensures PaidRevenueBelow(m1, n) == PaidRevenueBelow(m2, n)
    decreases n
  {
    if n > 0 {
      RevenueDependsOnContributions(m1, m2, n - 1);
    }
  }

  /** Unpaid and pending invoices contribute nothing: the revenue is that of the
      paid invoices alone. */
  lemma RevenueCountsOnlyPaid(m: map<int, Invoice>, n: int)
    ensures PaidRevenueBelow(m, n) == PaidRevenueBelow(PaidOnly(m), n)
  {
    RevenueDependsOnContributions(m, PaidOnly(m), n);
  }

  /** With non-negative amounts the revenue is non-negative. */
  lemma {:induction false} RevenueNonNegative(m: map<int, Invoice>, n: int)
    ensures (forall k :: k in m ==> m[k].amount >= 0) ==> PaidRevenueBelow(m, n) >= 0
    decreases n
  {
    if n > 0 {
      RevenueNonNegative(m, n - 1);
    }
  }

  /** Marking one unpaid (or pending) invoice paid raises the revenue by exactly
      its amount. */
  lemma {:induction false} PayingAddsAmount(m: map<int, Invoice>, k: int, n: int)
    requires k in m && m[k].status != Paid && 0 <= k < n
    ensures PaidRevenueBelow(m[k := m[k].(status := Paid)], n) == PaidRevenueBelow(m, n) + m[k].amount
    decreases n
  {
    var m' := m[k := m[k].(status := Paid)];
    if n - 1 == k {
      RevenueDependsOnContributions(m, m', k);
    } else {
      PayingAddsAmount(m, k, n - 1);
    }
  }

  /** In a consistent store every invoice is counted: the revenue over the issued
      keys is that over any larger bound. */
  lemma {:induction false} RevenueBeyondIssuedKeys(m: map<int, Invoice>, next: int, n: int)
    requires InvoicesKeyed(m, next) && next <= n
    ensures PaidRevenueBelow(m, n) == PaidRevenueBelow(m, next)
    decreases n - next
  {
    if n > next {
      RevenueBeyondIssuedKeys(m, next, n - 1);
    }
  }

  // ---- Counts -----------------------------------------------------------------

  /** `activeReservations`: the reservations with status confirmed. */
  function ActiveReservations(db: Db): (count: nat)
    reads db
    ensures count <= |db.reservations|
    ensures count == |set k | k in db.reservations && db.reservations[k].status == Confirmed|
  {
    var active := set k | k in db.reservations && db.reservations[k].status == Confirmed;
    SubsetCardinality(active, db.reservations.Keys);
    |active|
  }

  lemma SubsetCardinality(a: set<int>, b: set<int>)
    requires a <= b
    ensures |a| <= |b|
  {
    assert b == a + (b - a);
  }

  // ---- Recent activity --------------------------------------------------------

  const RECENT_LIMIT: nat := 5

  /** Ordered by creation time, newest first. */
  predicate NewestFirst(t: seq<Reservation>)
  {
    forall i, j :: 0 <= i < j < |t| ==> t[i].createdAt >= t[j].createdAt
  }

  /** Places `x` after every entry at least as recent as it. */
  function InsertByRecency(t: seq<Reservation>, x: Reservation): (r: seq<Reservation>)
    ensures |r| == |t| + 1
    ensures x in r && forall y :: y in t ==> y in r
    ensures forall y :: y in r ==> y in t || y == x
    ensures forall i :: 0 <= i < |t| ==> NewestFirst(t) ==> r[i].createdAt >= t[i].createdAt
    ensures NewestFirst(t) ==> NewestFirst(r)
  {
    if t == [] then [x]
    else if x.createdAt > t[0].createdAt then [x] + t
    else [t[0]] + InsertByRecency(t[1..], x)
  }

  function Limit(t: seq<Reservation>): seq<Reservation>
  {
    if |t| > RECENT_LIMIT then t[..RECENT_LIMIT] else t
  }

  /** Cutting a six-entry ranking to five keeps each entry or leaves one no newer
      than the fifth. */
  lemma LimitKeepsOrOutranks(t: seq<Reservation>, y: Reservation)
    requires NewestFirst(t) && |t| == RECENT_LIMIT + 1 && y in t
    ensures y in Limit(t) || y.createdAt <= Limit(t)[RECENT_LIMIT - 1].createdAt
  {
    var j :| 0 <= j < |t| && t[j] == y;
    if j < RECENT_LIMIT {
      assert Limit(t)[j] == y;
    }
  }

  /** The reservations stored under keys below `n`. */
  function StoredBelow(m: map<int, Reservation>, n: int): set<Reservation>
  {
    set k | k in m && 0 <= k < n :: m[k]
  }

  /** `recentActivity` over the keys below `n`: at most five reservations, newest
      first, each one stored, and every stored reservation left out no newer than
      the last one listed. */
  function RecentBelow(m: map<int, Reservation>, n: int): (t: seq<Reservation>)
    ensures |t| <= RECENT_LIMIT
    ensures NewestFirst(t)
    ensures forall y :: y in t ==> y in StoredBelow(m, n)
    ensures forall k :: k in m && 0 <= k < n ==>
              m[k] in t || (|t| == RECENT_LIMIT && m[k].createdAt <= t[RECENT_LIMIT - 1].createdAt)
    decreases n
  {
    if n <= 0 then []
    else
      var prev := RecentBelow(m, n - 1);
      if n - 1 !in m then prev
      else
        var t := Limit(InsertByRecency(prev, m[n - 1]));
        RecentStep(m, n, prev, t);
        t
  }

  lemma RecentStep(m: map<int, Reservation>, n: int, prev: seq<Reservation>, t: seq<Reservation>)
    requires n > 0 && n - 1 in m
    requires |prev| <= RECENT_LIMIT && NewestFirst(prev)
    requires forall y :: y in prev ==> y in StoredBelow(m, n - 1)
    requires forall k :: k in m && 0 <= k < n - 1 ==>
               m[k] in prev || (|prev| == RECENT_LIMIT && m[k].createdAt <= prev[RECENT_LIMIT - 1].createdAt)
    requires t == Limit(InsertByRecency(prev, m[n - 1]))
    ensures |t| <= RECENT_LIMIT && NewestFirst(t)
    ensures forall y :: y in t ==> y in StoredBelow(m, n)
    ensures forall k :: k in m && 0 <= k < n ==>
              m[k] in t || (|t| == RECENT_LIMIT && m[k].createdAt <= t[RECENT_LIMIT - 1].createdAt)
  {
    var ins := InsertByRecency(prev, m[n - 1]);
    assert m[n - 1] in StoredBelow(m, n);
    forall y | y in t ensures y in StoredBelow(m, n) {
      assert y in ins;
      if y != m[n - 1] {
        assert y in prev;
        var k :| k in m && 0 <= k < n - 1 && m[k] == y;
        assert k < n;
      }
    }
    forall k | k in m && 0 <= k < n
      ensures m[k] in t || (|t| == RECENT_LIMIT && m[k].createdAt <= t[RECENT_LIMIT - 1].createdAt)
    {
      if |ins| <= RECENT_LIMIT {
        assert t == ins;
        if k < n - 1 {
          assert m[k] in prev;
        }
      } else {
        assert |prev| == RECENT_LIMIT;
        if k == n - 1 || m[k] in prev {
          LimitKeepsOrOutranks(ins, m[k]);
        } else {
          assert m[k].createdAt <= prev[RECENT_LIMIT - 1].createdAt <= ins[RECENT_LIMIT - 1].createdAt;
        }
      }
    }
  }

  /** Each row is stored under its own id, as in the store's tables. */
  predicate IdsAreKeys(m: map<int, Reservation>)
  {
    forall k :: k in m ==> m[k].id == k
  }

  /** The keys below `n` that hold a reservation. */
  function KeysBelow(m: map<int, Reservation>, n: int): set<int>
  {
    set k | k in m && 0 <= k < n
  }

  /** No entry is listed twice. */
  predicate Distinct(t: seq<Reservation>)
  {
    forall i, j :: 0 <= i < j < |t| ==> t[i] != t[j]
  }

  function Min(a: int, b: int): int
  {
    if a <= b then a else b
  }

  /** Inserting an entry that is not yet listed keeps the entries distinct. */
  lemma {:induction false} InsertKeepsDistinct(t: seq<Reservation>, x: Reservation)
    requires Distinct(t) && x !in t
    ensures Distinct(InsertByRecency(t, x))
  {
    if t != [] && x.createdAt <= t[0].createdAt {
      var rest := InsertByRecency(t[1..], x);
      InsertKeepsDistinct(t[1..], x);
      assert t[0] !in t[1..];
      assert t[0] !in rest;
      assert InsertByRecency(t, x) == [t[0]] + rest;
    }
  }

  /** One more stored row lengthens the list by one until it holds five, and an
      entry not yet listed keeps it distinct. */
  lemma RecentCountStep(prev: seq<Reservation>, x: Reservation, c: nat)
    requires Distinct(prev) && x !in prev && |prev| == Min(RECENT_LIMIT, c)
    ensures |Limit(InsertByRecency(prev, x))| == Min(RECENT_LIMIT, c + 1)
    ensures Distinct(Limit(InsertByRecency(prev, x)))
  {
    InsertKeepsDistinct(prev, x);
  }

  lemma KeysBelowStep(m: map<int, Reservation>, n: int)
    requires n > 0
    ensures n - 1 in m ==> |KeysBelow(m, n)| == |KeysBelow(m, n - 1)| + 1
    ensures n - 1 !in m ==> KeysBelow(m, n) == KeysBelow(m, n - 1)
  {
    if n - 1 in m {
      assert KeysBelow(m, n) == KeysBelow(m, n - 1) + {n - 1};
    } else {
      assert KeysBelow(m, n) == KeysBelow(m, n - 1);
    }
  }

  /** The row under key `n - 1` is not among those listed from the keys below it. */
  lemma NotYetListed(m: map<int, Reservation>, n: int)
    requires IdsAreKeys(m) && n > 0 && n - 1 in m
    ensures m[n - 1] !in RecentBelow(m, n - 1)
  {
    forall y | y in RecentBelow(m, n - 1) ensures y.id < n - 1 {
      assert y in StoredBelow(m, n - 1);
      var k :| k in m && 0 <= k < n - 1 && m[k] == y;
    }
  }

  /** With rows stored under their own ids, the recent list is as long as
      `LIMIT 5` makes it (five, or every stored row when there are fewer) and
      lists no reservation twice. */
  lemma {:induction false} RecentBelowIsFull(m: map<int, Reservation>, n: int)
    requires IdsAreKeys(m)
    ensures |RecentBelow(m, n)| == Min(RECENT_LIMIT, |KeysBelow(m, n)|)
    ensures Distinct(RecentBelow(m, n))
    decreases n
  {
    if n <= 0 {
      assert KeysBelow(m, n) == {};
    } else {
      RecentBelowIsFull(m, n - 1);
      KeysBelowStep(m, n);
      if n - 1 in m {
        NotYetListed(m, n);
        var prev := RecentBelow(m, n - 1);
        assert RecentBelow(m, n) == Limit(InsertByRecency(prev, m[n - 1]));
        RecentCountStep(prev, m[n - 1], |KeysBelow(m, n - 1)|);
      }
    }
  }

  function RecentActivity(db: Db): (t: seq<Reservation>)
    reads db
    ensures |t| <= RECENT_LIMIT && NewestFirst(t)
    ensures forall y :: y in t ==> y in db.reservations.Values
  {
    StoredBelowIsStored(db.reservations, db.nextReservationId);
    RecentBelow(db.reservations, db.nextReservationId)
  }

  // ---- The whole dashboard ----------------------------------------------------

  datatype DashboardStats = DashboardStats(
    totalUsers: nat,
    totalProperties: nat,
    activeReservations: nat,
    totalRevenue: int,
    recentActivity: seq<Reservation>)

  /** GET /admin/stats: the counts are the table sizes and the confirmed
      reservations, the revenue is the paid invoices' total, and the recent list
      holds at most five stored reservations, newest first, outranking the rest. */
  function GetDashboardStats(db: Db): (s: DashboardStats)
    reads db
    requires db.Valid()
    ensures s.totalUsers == |db.users| && s.totalProperties == |db.properties|
    ensures s.activeReservations == |set k | k in db.reservations && db.reservations[k].status == Confirmed|
    ensures s.activeReservations <= |db.reservations|
    ensures s.totalRevenue == PaidRevenueBelow(PaidOnly(db.invoices), db.nextInvoiceId)
    ensures (forall k :: k in db.invoices ==> db.invoices[k].amount >= 0) ==> s.totalRevenue >= 0
    ensures |s.recentActivity| == Min(RECENT_LIMIT, |db.reservations|) && NewestFirst(s.recentActivity)
    ensures Distinct(s.recentActivity)
    ensures forall y :: y in s.recentActivity ==> y in db.reservations.Values
    ensures forall k :: k in db.reservations ==>
              db.reservations[k] in s.recentActivity
              || (|s.recentActivity| == RECENT_LIMIT
                  && db.reservations[k].createdAt <= s.recentActivity[RECENT_LIMIT - 1].createdAt)
  {
    RevenueCountsOnlyPaid(db.invoices, db.nextInvoiceId);
    RevenueNonNegative(db.invoices, db.nextInvoiceId);
    StoredBelowIsStored(db.reservations, db.nextReservationId);
    RecentBelowIsFull(db.reservations, db.nextReservationId);
    assert KeysBelow(db.reservations, db.nextReservationId) == db.reservations.Keys;
    DashboardStats(|db.users|, |db.properties|, ActiveReservations(db), TotalRevenue(db), RecentActivity(db))
  }

  lemma StoredBelowIsStored(m: map<int, Reservation>, n: int)
    ensures StoredBelow(m, n) <= m.Values
  {
    forall y | y in StoredBelow(m, n) ensures y in m.Values {
      var k :| k in m && 0 <= k < n && m[k] == y;
    }
  }
}
