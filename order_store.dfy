/** The `orders` table that the two payment edge functions share.

    A row has the shape of the `Order` record: an id and a creation time assigned
    by the database, the payment session that created it, an optional customer
    email, the total in cents and a status string. The table is a plain sequence
    of rows; the store's own query engine, constraints and atomicity are not
    part of the model. */
module OrderStore {
  import opened Wrappers

  const Pending := "pending"
  const Completed := "completed"
  const Failed := "failed"

  datatype Order = Order(
    id: string,
    stripeSessionId: Option<string>,
    customerEmail: Option<string>,
    totalCents: int,
    status: string,
    createdAt: string)

  /** The body of an `update(...)` call. `status` is always written; an `Undefined`
      email is dropped from the serialised body and so leaves the column alone,
      while `Null` clears it. */
  datatype Patch = Patch(status: string, customerEmail: Nullable<string>)

  /** `.eq('stripe_session_id', key)`: a missing key matches no row, and a row
      without a session id never equals a key. */
  predicate Matches(o: Order, key: Option<string>)
  {
    key.Some? && o.stripeSessionId == key
  }

  /** The row with the patch's columns written. */
  function Patched(o: Order, p: Patch): (r: Order)
    ensures r.status == p.status
    ensures r.customerEmail == match p.customerEmail
                               case Undefined => o.customerEmail
                               case Null => None
                               case Present(e) => Some(e)
    ensures r.(status := o.status, customerEmail := o.customerEmail) == o
  {
    var email := match p.customerEmail
                 case Undefined => o.customerEmail
                 case Null => None
                 case Present(e) => Some(e);
    o.(status := p.status, customerEmail := email)
  }

  function UpdateRow(o: Order, key: Option<string>, p: Patch): Order
  {
    if Matches(o, key) then Patched(o, p) else o
  }

  /** Identity columns an update never writes. */
  predicate SameIdentity(a: Order, b: Order)
  {
    a.id == b.id && a.stripeSessionId == b.stripeSessionId &&
    a.totalCents == b.totalCents && a.createdAt == b.createdAt
  }

  /** `update(p).eq('stripe_session_id', key)`: every matching row gets the patch,
      every other row stays as it was, and the order of rows is kept. */
  function UpdateWhere(rows: seq<Order>, key: Option<string>, p: Patch): (r: seq<Order>)
    ensures |r| == |rows|
    ensures forall k :: 0 <= k < |rows| ==> SameIdentity(r[k], rows[k])
    ensures forall k :: 0 <= k < |rows| && Matches(rows[k], key) ==> r[k] == Patched(rows[k], p)
    ensures forall k :: 0 <= k < |rows| && !Matches(rows[k], key) ==> r[k] == rows[k]
  {
    if rows == [] then []
    else [UpdateRow(rows[0], key, p)] + UpdateWhere(rows[1..], key, p)
  }

  /** Two updates with the same key act as one update whose body is the second
      body laid over the first. */
  function Then(first: Patch, second: Patch): Patch
  {
    Patch(second.status, if second.customerEmail.Undefined? then first.customerEmail else second.customerEmail)
  }

  /** An update whose key matches no row leaves the table exactly as it was. */
  lemma {:induction false} NoMatchLeavesTable(rows: seq<Order>, key: Option<string>, p: Patch)
    requires forall k :: 0 <= k < |rows| ==> !Matches(rows[k], key)
    ensures UpdateWhere(rows, key, p) == rows
  {
    if rows != [] {
      NoMatchLeavesTable(rows[1..], key, p);
    }
  }

  /** Sequential updates on one key compose: the later body wins on every column
      it writes. */
  lemma {:induction false} UpdatesCompose(rows: seq<Order>, key: Option<string>, p1: Patch, p2: Patch)
    ensures UpdateWhere(UpdateWhere(rows, key, p1), key, p2) == UpdateWhere(rows, key, Then(p1, p2))
  {
    if rows != [] {
      UpdatesCompose(rows[1..], key, p1, p2);
      var once := UpdateWhere(rows, key, p1);
      assert once[1..] == UpdateWhere(rows[1..], key, p1);
    }
  }

  /** Applying the same update twice gives the table that applying it once gives. */
  lemma UpdateIdempotent(rows: seq<Order>, key: Option<string>, p: Patch)
    ensures UpdateWhere(UpdateWhere(rows, key, p), key, p) == UpdateWhere(rows, key, p)
  {
    UpdatesCompose(rows, key, p, p);
    assert Then(p, p) == p;
  }

  /** The table both edge functions write. */
  class OrderTable {
    var rows: seq<Order>

    constructor (initial: seq<Order>)
      ensures rows == initial
    {
      rows := initial;
    }

    /** `insert([o])`: the row is appended and no existing row changes. */
    method Insert(o: Order)
      modifies this
      ensures rows == old(rows) + [o]
    {
      rows := rows + [o];
    }

    /** `update(p).eq('stripe_session_id', key)`, applied row by row. */
    method UpdateBySession(key: Option<string>, p: Patch)
      modifies this
      ensures rows == UpdateWhere(old(rows), key, p)
    {
      var i := 0;
      while i < |rows|
        invariant 0 <= i <= |rows| == |old(rows)|
        invariant forall k :: 0 <= k < i ==> rows[k] == UpdateRow(old(rows)[k], key, p)
        invariant forall k :: i <= k < |rows| ==> rows[k] == old(rows)[k]
      {
        if Matches(rows[i], key) {
          rows := rows[i := Patched(rows[i], p)];
        }
        i := i + 1;
      }
      ghost var spec := UpdateWhere(old(rows), key, p);
      assert forall k :: 0 <= k < |rows| ==> rows[k] == spec[k];
    }
  }
}
