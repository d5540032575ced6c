/**
 * The persisted store as an object with one table per model, updated in
 * place by `objects.create(...)` and by `delete()` on a set of rows.
 *
 * Each write is checked against its meaning in `Database`: an insert either
 * commits exactly the record or is rejected with the store left as it was,
 * and a delete removes exactly the rows that transitively reference a deleted
 * row. Every method keeps the store valid (keys match, emails unique, every
 * foreign key resolves).
 */
module ObjectStore {
  import opened Models
  import Database

  datatype Outcome = Created | Rejected(error: Database.StoreError)

  /** `after` is what a write with meaning `r` over `before` leaves, and `res` reports it. */
  ghost predicate Committed(r: Database.Result, res: Outcome, before: Database.Db, after: Database.Db) {
    match r
    case Ok(next) => res == Created && after == next
    case Err(e) => res == Rejected(e) && after == before
  }

  class Store {
    var users: map<Uuid, User>
    var listings: map<Uuid, Listing>
    var bookings: map<Uuid, Booking>
    var payments: map<Uuid, Payment>
    var reviews: map<Uuid, Review>
    var messages: map<Uuid, Message>

    /** The six tables as one value. */
    function Snapshot(): Database.Db
      reads this
    {
      Database.Db(users, listings, bookings, payments, reviews, messages)
    }

    ghost predicate Valid()
      reads this
    {
      Database.Valid(Snapshot())
    }

    constructor ()
      ensures Snapshot() == Database.EmptyDb && Valid()
    {
      users, listings, bookings := map[], map[], map[];
      payments, reviews, messages := map[], map[], map[];
    }

    method CreateUser(u: User) returns (res: Outcome)
      requires Valid()
      modifies this
      ensures Valid()
      ensures Committed(Database.InsertUser(old(Snapshot()), u), res, old(Snapshot()), Snapshot())
      ensures u.id !in old(users) && !Database.EmailTaken(old(Snapshot()), u.email) ==>
                res == Created && Snapshot() == old(Snapshot()).(users := old(users)[u.id := u])
    {
      ghost var before := Snapshot();
      ghost var r := Database.InsertUser(before, u);
      if u.id in users {
        res := Rejected(Database.DuplicateKey);
      } else if exists k | k in users :: users[k].email == u.email {
        res := Rejected(Database.DuplicateEmail);
      } else {
        users := users[u.id := u];
        assert Snapshot() == r.db;
        res := Created;
      }
    }

    method CreateListing(l: Listing) returns (res: Outcome)
      requires Valid()
      modifies this
      ensures Valid()
      ensures Committed(Database.InsertListing(old(Snapshot()), l), res, old(Snapshot()), Snapshot())
      ensures l.id !in old(listings) && l.host in old(users) ==>
                res == Created && Snapshot() == old(Snapshot()).(listings := old(listings)[l.id := l])
    {
      ghost var before := Snapshot();
      ghost var r := Database.InsertListing(before, l);
      if l.id in listings {
        res := Rejected(Database.DuplicateKey);
      } else if l.host !in users {
        res := Rejected(Database.MissingReference);
      } else {
        listings := listings[l.id := l];
        assert Snapshot() == r.db;
        res := Created;
      }
    }

    method CreateBooking(b: Booking) returns (res: Outcome)
      requires Valid()
      modifies this
      ensures Valid()
      ensures Committed(Database.InsertBooking(old(Snapshot()), b), res, old(Snapshot()), Snapshot())
      ensures b.id !in old(bookings) && b.listing in old(listings) && b.user in old(users) ==>
                res == Created && Snapshot() == old(Snapshot()).(bookings := old(bookings)[b.id := b])
    {
      ghost var before := Snapshot();
      ghost var r := Database.InsertBooking(before, b);
      if b.id in bookings {
        res := Rejected(Database.DuplicateKey);
      } else if b.listing !in listings || b.user !in users {
        res := Rejected(Database.MissingReference);
      } else {
        bookings := bookings[b.id := b];
        assert Snapshot() == r.db;
        res := Created;
      }
    }

    method CreatePayment(p: Payment) returns (res: Outcome)
      requires Valid()
      modifies this
      ensures Valid()
      ensures Committed(Database.InsertPayment(old(Snapshot()), p), res, old(Snapshot()), Snapshot())
      ensures p.id !in old(payments) && p.booking in old(bookings) ==>
                res == Created && Snapshot() == old(Snapshot()).(payments := old(payments)[p.id := p])
    {
      ghost var before := Snapshot();
      ghost var r := Database.InsertPayment(before, p);
      if p.id in payments {
        res := Rejected(Database.DuplicateKey);
      } else if p.booking !in bookings {
        res := Rejected(Database.MissingReference);
      } else {
        payments := payments[p.id := p];
        assert Snapshot() == r.db;
        res := Created;
      }
    }

    method CreateReview(rv: Review) returns (res: Outcome)
      requires Valid()
      modifies this
      ensures Valid()
      ensures Committed(Database.InsertReview(old(Snapshot()), rv), res, old(Snapshot()), Snapshot())
      ensures rv.id !in old(reviews) && rv.listing in old(listings) && rv.user in old(users) ==>
                res == Created && Snapshot() == old(Snapshot()).(reviews := old(reviews)[rv.id := rv])
    {
      ghost var before := Snapshot();
      ghost var r := Database.InsertReview(before, rv);
      if rv.id in reviews {
        res := Rejected(Database.DuplicateKey);
      } else if rv.listing !in listings || rv.user !in users {
        res := Rejected(Database.MissingReference);
      } else {
        reviews := reviews[rv.id := rv];
        assert Snapshot() == r.db;
        res := Created;
      }
    }

    method CreateMessage(m: Message) returns (res: Outcome)
      requires Valid()
      modifies this
      ensures Valid()
      ensures Committed(Database.InsertMessage(old(Snapshot()), m), res, old(Snapshot()), Snapshot())
      ensures m.id !in old(messages) && m.sender in old(users) && m.recipient in old(users) ==>
                res == Created && Snapshot() == old(Snapshot()).(messages := old(messages)[m.id := m])
    {
      ghost var before := Snapshot();
      ghost var r := Database.InsertMessage(before, m);
      if m.id in messages {
        res := Rejected(Database.DuplicateKey);
      } else if m.sender !in users || m.recipient !in users {
        res := Rejected(Database.MissingReference);
      } else {
        messages := messages[m.id := m];
        assert Snapshot() == r.db;
        res := Created;
      }
    }

    /**
     * Deletes the rows of model `m` whose key is in `ids`, following every
     * cascade-on-delete foreign key: exactly the rows that transitively
     * reference a deleted row go, and the store stays valid.
     */
    method Delete(m: Database.Model, ids: set<Uuid>)
      requires Valid()
      modifies this
      ensures Valid()
      ensures Snapshot() == Database.Delete(old(Snapshot()), m, ids)
      ensures Snapshot() == Database.Cascade(old(Snapshot()), Database.Rows(m, ids))
      ensures Database.SubStore(Snapshot(), old(Snapshot()))
    {
      ghost var before := Snapshot();
      var doomed := Database.Collect(Snapshot(), m, ids);
      users := users - doomed.users;
      listings := listings - doomed.listings;
      bookings := bookings - doomed.bookings;
      payments := payments - doomed.payments;
      reviews := reviews - doomed.reviews;
      messages := messages - doomed.messages;
      assert Snapshot() == Database.Delete(before, m, ids);
      Database.DeletePreservesValid(before, m, ids);
    }

    /** The label of a stored review: "Review by " and the label of its (stored) user. */
    function ReviewLabel(k: Uuid): (s: string)
      reads this
      requires Valid() && k in reviews
      ensures reviews[k].user in users && s == ReviewLabelOf(users[reviews[k].user])
    {
      ReviewLabelOf(users[reviews[k].user])
    }

    /** The label of a stored message, built from the labels of its sender and recipient. */
    function MessageLabel(k: Uuid): (s: string)
      reads this
      requires Valid() && k in messages
      ensures messages[k].sender in users && messages[k].recipient in users
      ensures s == MessageLabelOf(users[messages[k].sender], users[messages[k].recipient])
    {
      MessageLabelOf(users[messages[k].sender], users[messages[k].recipient])
    }
  }
}
