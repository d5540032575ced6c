/**
 * The relational store behind the six models, as a value: one table per
 * model, each a map from primary key to record.
 *
 * It gives the meaning of the schema's constraints (unique primary keys,
 * unique user email, every foreign key resolving) and of its two kinds of
 * write: inserting one record, and deleting a set of rows of one model with
 * every foreign key declared cascade-on-delete. Deletion is written the way
 * the object-relational layer collects rows (model by model, following each
 * foreign key); `Cascade` is an independent reference definition, "remove
 * every row that transitively references a deleted row", and the lemmas show
 * the two agree and that the result keeps referential integrity.
 */
module Database {
  import opened Models

  datatype Db = Db(
    users: map<Uuid, User>,
    listings: map<Uuid, Listing>,
    bookings: map<Uuid, Booking>,
    payments: map<Uuid, Payment>,
    reviews: map<Uuid, Review>,
    messages: map<Uuid, Message>)

  const EmptyDb: Db := Db(map[], map[], map[], map[], map[], map[])

  // Integrity

  /** Every record is stored under its own primary key. */
  ghost predicate KeysMatch(db: Db) {
    && (forall k :: k in db.users ==> db.users[k].id == k)
    && (forall k :: k in db.listings ==> db.listings[k].id == k)
    && (forall k :: k in db.bookings ==> db.bookings[k].id == k)
    && (forall k :: k in db.payments ==> db.payments[k].id == k)
    && (forall k :: k in db.reviews ==> db.reviews[k].id == k)
    && (forall k :: k in db.messages ==> db.messages[k].id == k)
  }

  /** Every foreign key names a stored row. */
  ghost predicate ReferencesResolve(db: Db) {
    && (forall k :: k in db.listings ==> db.listings[k].host in db.users)
    && (forall k :: k in db.bookings ==> db.bookings[k].listing in db.listings && db.bookings[k].user in db.users)
    && (forall k :: k in db.payments ==> db.payments[k].booking in db.bookings)
    && (forall k :: k in db.reviews ==> db.reviews[k].listing in db.listings && db.reviews[k].user in db.users)
    && (forall k :: k in db.messages ==> db.messages[k].sender in db.users && db.messages[k].recipient in db.users)
  }

  /** No two users share an email. */
  ghost predicate EmailsUnique(db: Db) {
    forall a, b :: a in db.users && b in db.users && db.users[a].email == db.users[b].email ==> a == b
  }

  ghost predicate Valid(db: Db) {
    KeysMatch(db) && ReferencesResolve(db) && EmailsUnique(db)
  }

  /** `a` keeps some rows of `b`, each unchanged. */
  ghost predicate SubStore(a: Db, b: Db) {
    && (forall k :: k in a.users ==> k in b.users && a.users[k] == b.users[k])
    && (forall k :: k in a.listings ==> k in b.listings && a.listings[k] == b.listings[k])
    && (forall k :: k in a.bookings ==> k in b.bookings && a.bookings[k] == b.bookings[k])
    && (forall k :: k in a.payments ==> k in b.payments && a.payments[k] == b.payments[k])
    && (forall k :: k in a.reviews ==> k in b.reviews && a.reviews[k] == b.reviews[k])
    && (forall k :: k in a.messages ==> k in b.messages && a.messages[k] == b.messages[k])
  }

  // Inserting one record

  datatype StoreError = DuplicateKey | DuplicateEmail | MissingReference

  datatype Result = Ok(db: Db) | Err(error: StoreError)

  predicate EmailTaken(db: Db, email: string) {
    exists k :: k in db.users && db.users[k].email == email
  }

  /** Inserting a user: a taken primary key or a taken email is rejected. */
  function InsertUser(db: Db, u: User): (r: Result)
    ensures r.Ok? <==> u.id !in db.users && !EmailTaken(db, u.email)
    ensures r.Err? ==> r.error == (if u.id in db.users then DuplicateKey else DuplicateEmail)
    ensures r.Ok? ==> r.db == db.(users := db.users[u.id := u])
    ensures Valid(db) && r.Ok? ==> Valid(r.db)
  {
    if u.id in db.users then Err(DuplicateKey)
    else if EmailTaken(db, u.email) then Err(DuplicateEmail)
    else UserInsertKeepsValid(db, u); Ok(db.(users := db.users[u.id := u]))
  }

  lemma UserInsertKeepsValid(db: Db, u: User)
    requires u.id !in db.users && !EmailTaken(db, u.email)
    ensures Valid(db) ==> Valid(db.(users := db.users[u.id := u]))
  {
    var next := db.(users := db.users[u.id := u]);
    if Valid(db) {
      UserInsertKeepsKeys(db, u);
      UserInsertKeepsEmailsUnique(db, u);
      UserInsertKeepsReferences(db, u);
    }
  }

  lemma UserInsertKeepsKeys(db: Db, u: User)
    ensures KeysMatch(db) ==> KeysMatch(db.(users := db.users[u.id := u]))
  {
    var next := db.(users := db.users[u.id := u]);
    if KeysMatch(db) {
      forall k | k in next.users ensures next.users[k].id == k {
        if k != u.id { assert next.users[k] == db.users[k]; }
      }
    }
  }

  lemma UserInsertKeepsReferences(db: Db, u: User)
    requires u.id !in db.users
    ensures ReferencesResolve(db) ==> ReferencesResolve(db.(users := db.users[u.id := u]))
  {
    assert db.users.Keys <= db.users[u.id := u].Keys;
  }

  lemma UserInsertKeepsEmailsUnique(db: Db, u: User)
    requires !EmailTaken(db, u.email)
    ensures EmailsUnique(db) ==> EmailsUnique(db.(users := db.users[u.id := u]))
  {
    var next := db.(users := db.users[u.id := u]);
    assert forall k :: k in db.users ==> db.users[k].email != u.email;
    if EmailsUnique(db) {
      forall a, b | a in next.users && b in next.users && next.users[a].email == next.users[b].email
        ensures a == b
      {
        if a != u.id && b != u.id {
          assert next.users[a] == db.users[a] && next.users[b] == db.users[b];
        }
      }
    }
  }

  /** Inserting a listing: its host must be a stored user. */
  function InsertListing(db: Db, l: Listing): (r: Result)
    ensures r.Ok? <==> l.id !in db.listings && l.host in db.users
    ensures r.Err? ==> r.error == (if l.id in db.listings then DuplicateKey else MissingReference)
    ensures r.Ok? ==> r.db == db.(listings := db.listings[l.id := l])
    ensures Valid(db) && r.Ok? ==> Valid(r.db)
  {
    if l.id in db.listings then Err(DuplicateKey)
    else if l.host !in db.users then Err(MissingReference)
    else ListingInsertKeepsValid(db, l); Ok(db.(listings := db.listings[l.id := l]))
  }

  lemma ListingInsertKeepsValid(db: Db, l: Listing)
    requires l.host in db.users
    ensures Valid(db) ==> Valid(db.(listings := db.listings[l.id := l]))
  {
    var next := db.(listings := db.listings[l.id := l]);
    if Valid(db) {
      ListingInsertKeepsKeys(db, l);
      ListingInsertKeepsReferences(db, l);
      assert EmailsUnique(next);
    }
  }

  lemma ListingInsertKeepsKeys(db: Db, l: Listing)
    ensures KeysMatch(db) ==> KeysMatch(db.(listings := db.listings[l.id := l]))
  {
    var next := db.(listings := db.listings[l.id := l]);
    if KeysMatch(db) {
      forall k | k in next.listings ensures next.listings[k].id == k {
        if k != l.id { assert next.listings[k] == db.listings[k]; }
      }
    }
  }

  lemma ListingInsertKeepsReferences(db: Db, l: Listing)
    requires l.host in db.users
    ensures ReferencesResolve(db) ==> ReferencesResolve(db.(listings := db.listings[l.id := l]))
  {
    var next := db.(listings := db.listings[l.id := l]);
    if ReferencesResolve(db) {
      forall k | k in next.listings ensures next.listings[k].host in next.users {
        if k != l.id { assert next.listings[k] == db.listings[k]; }
      }
    }
  }

  /** Inserting a booking: its listing and its guest must be stored. */
  function InsertBooking(db: Db, b: Booking): (r: Result)
    ensures r.Ok? <==> b.id !in db.bookings && b.listing in db.listings && b.user in db.users
    ensures r.Err? ==> r.error == (if b.id in db.bookings then DuplicateKey else MissingReference)
    ensures r.Ok? ==> r.db == db.(bookings := db.bookings[b.id := b])
    ensures Valid(db) && r.Ok? ==> Valid(r.db)
  {
    if b.id in db.bookings then Err(DuplicateKey)
    else if b.listing !in db.listings || b.user !in db.users then Err(MissingReference)
    else BookingInsertKeepsValid(db, b); Ok(db.(bookings := db.bookings[b.id := b]))
  }

  lemma BookingInsertKeepsValid(db: Db, b: Booking)
    requires b.listing in db.listings && b.user in db.users
    ensures Valid(db) ==> Valid(db.(bookings := db.bookings[b.id := b]))
  {
    var next := db.(bookings := db.bookings[b.id := b]);
    if Valid(db) {
      BookingInsertKeepsKeys(db, b);
      BookingInsertKeepsReferences(db, b);
      assert EmailsUnique(next);
    }
  }

  lemma BookingInsertKeepsKeys(db: Db, b: Booking)
    ensures KeysMatch(db) ==> KeysMatch(db.(bookings := db.bookings[b.id := b]))
  {
    var next := db.(bookings := db.bookings[b.id := b]);
    if KeysMatch(db) {
      forall k | k in next.bookings ensures next.bookings[k].id == k {
        if k != b.id { assert next.bookings[k] == db.bookings[k]; }
      }
    }
  }

  lemma BookingInsertKeepsReferences(db: Db, b: Booking)
    requires b.listing in db.listings && b.user in db.users
    ensures ReferencesResolve(db) ==> ReferencesResolve(db.(bookings := db.bookings[b.id := b]))
  {
    var next := db.(bookings := db.bookings[b.id := b]);
    if ReferencesResolve(db) {
      forall k | k in next.bookings ensures next.bookings[k].listing in next.listings && next.bookings[k].user in next.users {
        if k != b.id { assert next.bookings[k] == db.bookings[k]; }
      }
    }
  }

  /** Inserting a payment: its booking must be stored. */
  function InsertPayment(db: Db, p: Payment): (r: Result)
    ensures r.Ok? <==> p.id !in db.payments && p.booking in db.bookings
    ensures r.Err? ==> r.error == (if p.id in db.payments then DuplicateKey else MissingReference)
    ensures r.Ok? ==> r.db == db.(payments := db.payments[p.id := p])
    ensures Valid(db) && r.Ok? ==> Valid(r.db)
  {
    if p.id in db.payments then Err(DuplicateKey)
    else if p.booking !in db.bookings then Err(MissingReference)
    else PaymentInsertKeepsValid(db, p); Ok(db.(payments := db.payments[p.id := p]))
  }

  lemma PaymentInsertKeepsValid(db: Db, p: Payment)
    requires p.booking in db.bookings
    ensures Valid(db) ==> Valid(db.(payments := db.payments[p.id := p]))
  {
    var next := db.(payments := db.payments[p.id := p]);
    if Valid(db) {
      PaymentInsertKeepsKeys(db, p);
      PaymentInsertKeepsReferences(db, p);
      assert EmailsUnique(next);
    }
  }

  lemma PaymentInsertKeepsKeys(db: Db, p: Payment)
    ensures KeysMatch(db) ==> KeysMatch(db.(payments := db.payments[p.id := p]))
  {
    var next := db.(payments := db.payments[p.id := p]);
    if KeysMatch(db) {
      forall k | k in next.payments ensures next.payments[k].id == k {
        if k != p.id { assert next.payments[k] == db.payments[k]; }
      }
    }
  }

  lemma PaymentInsertKeepsReferences(db: Db, p: Payment)
    requires p.booking in db.bookings
    ensures ReferencesResolve(db) ==> ReferencesResolve(db.(payments := db.payments[p.id := p]))
  {
    var next := db.(payments := db.payments[p.id := p]);
    if ReferencesResolve(db) {
      forall k | k in next.payments ensures next.payments[k].booking in next.bookings {
        if k != p.id { assert next.payments[k] == db.payments[k]; }
      }
    }
  }

  /** Inserting a review: its listing and user must be stored; the rating is not checked. */
  function InsertReview(db: Db, rv: Review): (r: Result)
    ensures r.Ok? <==> rv.id !in db.reviews && rv.listing in db.listings && rv.user in db.users
    ensures r.Err? ==> r.error == (if rv.id in db.reviews then DuplicateKey else MissingReference)
    ensures r.Ok? ==> r.db == db.(reviews := db.reviews[rv.id := rv])
    ensures Valid(db) && r.Ok? ==> Valid(r.db)
  {
    if rv.id in db.reviews then Err(DuplicateKey)
    else if rv.listing !in db.listings || rv.user !in db.users then Err(MissingReference)
    else ReviewInsertKeepsValid(db, rv); Ok(db.(reviews := db.reviews[rv.id := rv]))
  }

  lemma ReviewInsertKeepsValid(db: Db, rv: Review)
    requires rv.listing in db.listings && rv.user in db.users
    ensures Valid(db) ==> Valid(db.(reviews := db.reviews[rv.id := rv]))
  {
    var next := db.(reviews := db.reviews[rv.id := rv]);
    if Valid(db) {
      ReviewInsertKeepsKeys(db, rv);
      ReviewInsertKeepsReferences(db, rv);
      assert EmailsUnique(next);
    }
  }

  lemma ReviewInsertKeepsKeys(db: Db, rv: Review)
    ensures KeysMatch(db) ==> KeysMatch(db.(reviews := db.reviews[rv.id := rv]))
  {
    var next := db.(reviews := db.reviews[rv.id := rv]);
    if KeysMatch(db) {
      forall k | k in next.reviews ensures next.reviews[k].id == k {
        if k != rv.id { assert next.reviews[k] == db.reviews[k]; }
      }
    }
  }

  lemma ReviewInsertKeepsReferences(db: Db, rv: Review)
    requires rv.listing in db.listings && rv.user in db.users
    ensures ReferencesResolve(db) ==> ReferencesResolve(db.(reviews := db.reviews[rv.id := rv]))
  {
    var next := db.(reviews := db.reviews[rv.id := rv]);
    if ReferencesResolve(db) {
      forall k | k in next.reviews ensures next.reviews[k].listing in next.listings && next.reviews[k].user in next.users {
        if k != rv.id { assert next.reviews[k] == db.reviews[k]; }
      }
    }
  }

  /** Inserting a message: sender and recipient must be stored; they may be the same user. */
  function InsertMessage(db: Db, m: Message): (r: Result)
    ensures r.Ok? <==> m.id !in db.messages && m.sender in db.users && m.recipient in db.users
    ensures r.Err? ==> r.error == (if m.id in db.messages then DuplicateKey else MissingReference)
    ensures r.Ok? ==> r.db == db.(messages := db.messages[m.id := m])
    ensures Valid(db) && r.Ok? ==> Valid(r.db)
  {
    if m.id in db.messages then Err(DuplicateKey)
    else if m.sender !in db.users || m.recipient !in db.users then Err(MissingReference)
    else MessageInsertKeepsValid(db, m); Ok(db.(messages := db.messages[m.id := m]))
  }

  lemma MessageInsertKeepsValid(db: Db, m: Message)
    requires m.sender in db.users && m.recipient in db.users
    ensures Valid(db) ==> Valid(db.(messages := db.messages[m.id := m]))
  {
    var next := db.(messages := db.messages[m.id := m]);
    if Valid(db) {
      MessageInsertKeepsKeys(db, m);
      MessageInsertKeepsReferences(db, m);
      assert EmailsUnique(next);
    }
  }

  lemma MessageInsertKeepsKeys(db: Db, m: Message)
    ensures KeysMatch(db) ==> KeysMatch(db.(messages := db.messages[m.id := m]))
  {
    var next := db.(messages := db.messages[m.id := m]);
    if KeysMatch(db) {
      forall k | k in next.messages ensures next.messages[k].id == k {
        if k != m.id { assert next.messages[k] == db.messages[k]; }
      }
    }
  }

  lemma MessageInsertKeepsReferences(db: Db, m: Message)
    requires m.sender in db.users && m.recipient in db.users
    ensures ReferencesResolve(db) ==> ReferencesResolve(db.(messages := db.messages[m.id := m]))
  {
    var next := db.(messages := db.messages[m.id := m]);
    if ReferencesResolve(db) {
      forall k | k in next.messages ensures next.messages[k].sender in next.users && next.messages[k].recipient in next.users {
        if k != m.id { assert next.messages[k] == db.messages[k]; }
      }
    }
  }

  /** The schema puts no bound on a rating: whether a review is accepted does not depend on it. */
  lemma RatingIsNotValidated(db: Db, rv: Review, rating: int)
    ensures InsertReview(db, rv.(rating := rating)).Ok? == InsertReview(db, rv).Ok?
  {
  }

  /** The schema does not forbid a user messaging themselves. */
  lemma SelfMessageAccepted(db: Db, m: Message)
    requires m.id !in db.messages && m.sender in db.users && m.sender == m.recipient
    ensures InsertMessage(db, m).Ok?
  {
  }

  // Rows and the foreign-key graph

  datatype Model = UserModel | ListingModel | BookingModel | PaymentModel | ReviewModel | MessageModel

  /** A row of the store, named by its model and primary key. */
  datatype Row = Row(model: Model, key: Uuid)

  function Keys(db: Db, m: Model): set<Uuid> {
    match m
    case UserModel => db.users.Keys
    case ListingModel => db.listings.Keys
    case BookingModel => db.bookings.Keys
    case PaymentModel => db.payments.Keys
    case ReviewModel => db.reviews.Keys
    case MessageModel => db.messages.Keys
  }

  /** The depth of a model in the foreign-key graph; every foreign key points to a smaller depth. */
  function Depth(m: Model): nat {
    match m
    case UserModel => 0
    case ListingModel => 1
    case MessageModel => 1
    case BookingModel => 2
    case ReviewModel => 2
    case PaymentModel => 3
  }

  /** The rows a stored row's foreign keys point to (none for a row that is not stored). */
  function Parents(db: Db, r: Row): (ps: set<Row>)
    ensures forall p :: p in ps ==> Depth(p.model) < Depth(r.model)
  {
    var k := r.key;
    match r.model
    case UserModel => {}
    case ListingModel =>
      if k in db.listings then {Row(UserModel, db.listings[k].host)} else {}
    case BookingModel =>
      if k in db.bookings then {Row(ListingModel, db.bookings[k].listing), Row(UserModel, db.bookings[k].user)} else {}
    case PaymentModel =>
      if k in db.payments then {Row(BookingModel, db.payments[k].booking)} else {}
    case ReviewModel =>
      if k in db.reviews then {Row(ListingModel, db.reviews[k].listing), Row(UserModel, db.reviews[k].user)} else {}
    case MessageModel =>
      if k in db.messages then {Row(UserModel, db.messages[k].sender), Row(UserModel, db.messages[k].recipient)} else {}
  }

  /** `r` is one of `targets` or reaches one of them through a chain of foreign keys. */
  ghost predicate DependsOn(db: Db, r: Row, targets: set<Row>)
    decreases Depth(r.model)
  {
    r in targets || exists p :: p in Parents(db, r) && DependsOn(db, p, targets)
  }

  function Rows(m: Model, ids: set<Uuid>): set<Row> {
    set k | k in ids :: Row(m, k)
  }

  // Deletion

  /** The keys to delete from each table. */
  datatype Doomed = Doomed(
    users: set<Uuid>,
    listings: set<Uuid>,
    bookings: set<Uuid>,
    payments: set<Uuid>,
    reviews: set<Uuid>,
    messages: set<Uuid>)

  function Remove(db: Db, d: Doomed): Db {
    Db(db.users - d.users, db.listings - d.listings, db.bookings - d.bookings,
       db.payments - d.payments, db.reviews - d.reviews, db.messages - d.messages)
  }

  /**
   * The rows removed when the stored rows of model `m` with a key in `ids`
   * are deleted, collected along each cascade-on-delete foreign key:
   * a listing's host; a booking's listing and user; a payment's booking;
   * a review's listing and user; a message's sender and recipient.
   */
  function Collect(db: Db, m: Model, ids: set<Uuid>): Doomed {
    match m
    case UserModel =>
      var ls := set k | k in db.listings && db.listings[k].host in ids;
      var bs := set k | k in db.bookings && (db.bookings[k].user in ids || db.bookings[k].listing in ls);
      Doomed(
        (set k | k in db.users && k in ids),
        ls,
        bs,
        (set k | k in db.payments && db.payments[k].booking in bs),
        (set k | k in db.reviews && (db.reviews[k].user in ids || db.reviews[k].listing in ls)),
        (set k | k in db.messages && (db.messages[k].sender in ids || db.messages[k].recipient in ids)))
    case ListingModel =>
      var bs := set k | k in db.bookings && db.bookings[k].listing in ids;
      Doomed(
        {},
        (set k | k in db.listings && k in ids),
        bs,
        (set k | k in db.payments && db.payments[k].booking in bs),
        (set k | k in db.reviews && db.reviews[k].listing in ids),
        {})
    case BookingModel =>
      Doomed({}, {}, (set k | k in db.bookings && k in ids),
             (set k | k in db.payments && db.payments[k].booking in ids), {}, {})
    case PaymentModel =>
      Doomed({}, {}, {}, (set k | k in db.payments && k in ids), {}, {})
    case ReviewModel =>
      Doomed({}, {}, {}, {}, (set k | k in db.reviews && k in ids), {})
    case MessageModel =>
      Doomed({}, {}, {}, {}, {}, (set k | k in db.messages && k in ids))
  }

  /** Deleting the rows of model `m` with a key in `ids`, with every cascade. */
  function Delete(db: Db, m: Model, ids: set<Uuid>): Db {
    Remove(db, Collect(db, m, ids))
  }

  /** Reference definition: the stored rows that transitively reference one of `targets`. */
  ghost function Closure(db: Db, targets: set<Row>): Doomed {
    Doomed(
      set k | k in db.users && DependsOn(db, Row(UserModel, k), targets),
      set k | k in db.listings && DependsOn(db, Row(ListingModel, k), targets),
      set k | k in db.bookings && DependsOn(db, Row(BookingModel, k), targets),
      set k | k in db.payments && DependsOn(db, Row(PaymentModel, k), targets),
      set k | k in db.reviews && DependsOn(db, Row(ReviewModel, k), targets),
      set k | k in db.messages && DependsOn(db, Row(MessageModel, k), targets))
  }

  ghost function Cascade(db: Db, targets: set<Row>): Db {
    Remove(db, Closure(db, targets))
  }

  // Unfolding DependsOn one model at a time

  lemma DependsOnUser(db: Db, k: Uuid, t: set<Row>)
    ensures DependsOn(db, Row(UserModel, k), t) <==> Row(UserModel, k) in t
  {
  }

  lemma DependsOnListing(db: Db, k: Uuid, t: set<Row>)
    requires k in db.listings
    ensures DependsOn(db, Row(ListingModel, k), t) <==>
      Row(ListingModel, k) in t || DependsOn(db, Row(UserModel, db.listings[k].host), t)
  {
    assert Parents(db, Row(ListingModel, k)) == {Row(UserModel, db.listings[k].host)};
  }

  lemma DependsOnBooking(db: Db, k: Uuid, t: set<Row>)
    requires k in db.bookings
    ensures DependsOn(db, Row(BookingModel, k), t) <==>
      || Row(BookingModel, k) in t
      || DependsOn(db, Row(ListingModel, db.bookings[k].listing), t)
      || DependsOn(db, Row(UserModel, db.bookings[k].user), t)
  {
    assert Parents(db, Row(BookingModel, k)) ==
      {Row(ListingModel, db.bookings[k].listing), Row(UserModel, db.bookings[k].user)};
  }

  lemma DependsOnPayment(db: Db, k: Uuid, t: set<Row>)
    requires k in db.payments
    ensures DependsOn(db, Row(PaymentModel, k), t) <==>
      Row(PaymentModel, k) in t || DependsOn(db, Row(BookingModel, db.payments[k].booking), t)
  {
    assert Parents(db, Row(PaymentModel, k)) == {Row(BookingModel, db.payments[k].booking)};
  }

  lemma DependsOnReview(db: Db, k: Uuid, t: set<Row>)
    requires k in db.reviews
    ensures DependsOn(db, Row(ReviewModel, k), t) <==>
      || Row(ReviewModel, k) in t
      || DependsOn(db, Row(ListingModel, db.reviews[k].listing), t)
      || DependsOn(db, Row(UserModel, db.reviews[k].user), t)
  {
    assert Parents(db, Row(ReviewModel, k)) ==
      {Row(ListingModel, db.reviews[k].listing), Row(UserModel, db.reviews[k].user)};
  }

  lemma DependsOnMessage(db: Db, k: Uuid, t: set<Row>)
    requires k in db.messages
    ensures DependsOn(db, Row(MessageModel, k), t) <==>
      || Row(MessageModel, k) in t
      || DependsOn(db, Row(UserModel, db.messages[k].sender), t)
      || DependsOn(db, Row(UserModel, db.messages[k].recipient), t)
  {
    assert Parents(db, Row(MessageModel, k)) ==
      {Row(UserModel, db.messages[k].sender), Row(UserModel, db.messages[k].recipient)};
  }

  lemma InRows(m: Model, ids: set<Uuid>, r: Row)
    ensures r in Rows(m, ids) <==> r.model == m && r.key in ids
  {
    if r.model == m && r.key in ids {
      assert r == Row(m, r.key);
    }
  }

  /** A row that is not stored references nothing, so it depends only on being a target itself. */
  lemma DependsOnAbsent(db: Db, r: Row, t: set<Row>)
    requires r.key !in Keys(db, r.model)
    ensures DependsOn(db, r, t) <==> r in t
  {
    assert Parents(db, r) == {};
  }

  /** Collecting from listings and bookings whose keys a targeted set of listings determines. */
  lemma ListingDoomedAsCollected(db: Db, l: Uuid, t: set<Row>, hosts: set<Uuid>, ls: set<Uuid>)
    requires t == Rows(UserModel, hosts)
    requires ls == set k | k in db.listings && db.listings[k].host in hosts
    ensures DependsOn(db, Row(ListingModel, l), t) <==> l in ls
  {
    InRows(UserModel, hosts, Row(ListingModel, l));
    if l in db.listings {
      DependsOnListing(db, l, t);
      DependsOnUser(db, db.listings[l].host, t);
      InRows(UserModel, hosts, Row(UserModel, db.listings[l].host));
    } else {
      DependsOnAbsent(db, Row(ListingModel, l), t);
    }
  }

  lemma BookingDoomedAsCollected(db: Db, b: Uuid, t: set<Row>, bs: set<Uuid>)
    requires bs == set k | k in db.bookings && DependsOn(db, Row(BookingModel, k), t)
    ensures DependsOn(db, Row(BookingModel, b), t) <==> b in bs || (b !in db.bookings && Row(BookingModel, b) in t)
  {
    if b !in db.bookings {
      DependsOnAbsent(db, Row(BookingModel, b), t);
    }
  }

  /** Doomed payments are those whose booking is doomed (or that are targets themselves). */
  lemma PaymentsFollowBookings(db: Db, t: set<Row>, bs: set<Uuid>)
    requires forall r :: r in t ==> r.model != PaymentModel && r.model != BookingModel
    requires bs == set k | k in db.bookings && DependsOn(db, Row(BookingModel, k), t)
    ensures (set k | k in db.payments && db.payments[k].booking in bs)
         == (set k | k in db.payments && DependsOn(db, Row(PaymentModel, k), t))
  {
    forall k | k in db.payments
      ensures db.payments[k].booking in bs <==> DependsOn(db, Row(PaymentModel, k), t)
    {
      DependsOnPayment(db, k, t);
      BookingDoomedAsCollected(db, db.payments[k].booking, t, bs);
    }
  }

  /**
   * The collector removes exactly the rows that transitively reference a
   * deleted row: per-model collection agrees with the reference closure.
   */
  lemma CollectIsClosure(db: Db, m: Model, ids: set<Uuid>)
    ensures Collect(db, m, ids) == Closure(db, Rows(m, ids))
  {
    match m
    case UserModel => UserClosure(db, ids);
    case ListingModel => ListingClosure(db, ids);
    case BookingModel => BookingClosure(db, ids);
    case PaymentModel => LeafClosure(db, m, ids);
    case ReviewModel => LeafClosure(db, m, ids);
    case MessageModel => LeafClosure(db, m, ids);
  }

  lemma UserClosure(db: Db, ids: set<Uuid>)
    ensures Collect(db, UserModel, ids) == Closure(db, Rows(UserModel, ids))
  {
    var t := Rows(UserModel, ids);
    var c := Collect(db, UserModel, ids);
    var cl := Closure(db, t);
    forall r | r in t ensures r.model == UserModel { InRows(UserModel, ids, r); }
    forall k | k in db.users ensures DependsOn(db, Row(UserModel, k), t) <==> k in ids {
      DependsOnUser(db, k, t);
      InRows(UserModel, ids, Row(UserModel, k));
    }
    assert c.users == cl.users;
    var ls := set k | k in db.listings && db.listings[k].host in ids;
    forall k | k in db.listings ensures DependsOn(db, Row(ListingModel, k), t) <==> k in ls {
      ListingDoomedAsCollected(db, k, t, ids, ls);
    }
    assert c.listings == cl.listings;
    forall k | k in db.bookings ensures k in c.bookings <==> DependsOn(db, Row(BookingModel, k), t) {
      DependsOnBooking(db, k, t);
      ListingDoomedAsCollected(db, db.bookings[k].listing, t, ids, ls);
    }
    assert c.bookings == cl.bookings;
    PaymentsFollowBookings(db, t, c.bookings);
    forall k | k in db.reviews ensures k in c.reviews <==> DependsOn(db, Row(ReviewModel, k), t) {
      DependsOnReview(db, k, t);
      ListingDoomedAsCollected(db, db.reviews[k].listing, t, ids, ls);
    }
    assert c.reviews == cl.reviews;
    forall k | k in db.messages ensures k in c.messages <==> DependsOn(db, Row(MessageModel, k), t) {
      DependsOnMessage(db, k, t);
    }
    assert c.messages == cl.messages;
  }

  lemma ListingClosure(db: Db, ids: set<Uuid>)
    ensures Collect(db, ListingModel, ids) == Closure(db, Rows(ListingModel, ids))
  {
    var m := ListingModel;
    var t := Rows(m, ids);
    var c := Collect(db, m, ids);
    var cl := Closure(db, t);
    forall r | r in t ensures r.model == m { InRows(m, ids, r); }
    forall k | k in db.users ensures !DependsOn(db, Row(UserModel, k), t) { DependsOnUser(db, k, t); }
    assert c.users == cl.users;
    forall l ensures DependsOn(db, Row(ListingModel, l), t) <==> l in ids {
      InRows(m, ids, Row(ListingModel, l));
      if l in db.listings { DependsOnListing(db, l, t); } else { DependsOnAbsent(db, Row(ListingModel, l), t); }
    }
    assert c.listings == cl.listings;
    forall k | k in db.bookings ensures k in c.bookings <==> DependsOn(db, Row(BookingModel, k), t) {
      DependsOnBooking(db, k, t);
    }
    assert c.bookings == cl.bookings;
    PaymentsFollowBookings(db, t, c.bookings);
    forall k | k in db.reviews ensures k in c.reviews <==> DependsOn(db, Row(ReviewModel, k), t) {
      DependsOnReview(db, k, t);
    }
    assert c.reviews == cl.reviews;
    forall k | k in db.messages ensures !DependsOn(db, Row(MessageModel, k), t) {
      DependsOnMessage(db, k, t);
    }
    assert c.messages == cl.messages;
  }

  lemma BookingClosure(db: Db, ids: set<Uuid>)
    ensures Collect(db, BookingModel, ids) == Closure(db, Rows(BookingModel, ids))
  {
    var m := BookingModel;
    var t := Rows(m, ids);
    var c := Collect(db, m, ids);
    var cl := Closure(db, t);
    forall r | r in t ensures r.model == m { InRows(m, ids, r); }
    forall k | k in db.users ensures !DependsOn(db, Row(UserModel, k), t) { DependsOnUser(db, k, t); }
    assert c.users == cl.users;
    forall l ensures !DependsOn(db, Row(ListingModel, l), t) {
      if l in db.listings { DependsOnListing(db, l, t); } else { DependsOnAbsent(db, Row(ListingModel, l), t); }
    }
    assert c.listings == cl.listings;
    forall b ensures DependsOn(db, Row(BookingModel, b), t) <==> b in ids {
      InRows(m, ids, Row(BookingModel, b));
      if b in db.bookings { DependsOnBooking(db, b, t); } else { DependsOnAbsent(db, Row(BookingModel, b), t); }
    }
    assert c.bookings == cl.bookings;
    forall k | k in db.payments ensures k in c.payments <==> DependsOn(db, Row(PaymentModel, k), t) {
      DependsOnPayment(db, k, t);
    }
    assert c.payments == cl.payments;
    forall k | k in db.reviews ensures !DependsOn(db, Row(ReviewModel, k), t) {
      DependsOnReview(db, k, t);
    }
    assert c.reviews == cl.reviews;
    forall k | k in db.messages ensures !DependsOn(db, Row(MessageModel, k), t) {
      DependsOnMessage(db, k, t);
    }
    assert c.messages == cl.messages;
  }

  /** Targets that nothing references: exactly the stored targets are doomed. */
  lemma LeafClosure(db: Db, m: Model, ids: set<Uuid>)
    requires m == PaymentModel || m == ReviewModel || m == MessageModel
    ensures Collect(db, m, ids) == Closure(db, Rows(m, ids))
  {
    var t := Rows(m, ids);
    var c := Collect(db, m, ids);
    forall r | r in t ensures r.model == m { InRows(m, ids, r); }
    forall k | k in db.users ensures !DependsOn(db, Row(UserModel, k), t) { DependsOnUser(db, k, t); }
    forall l ensures !DependsOn(db, Row(ListingModel, l), t) {
      if l in db.listings { DependsOnListing(db, l, t); } else { DependsOnAbsent(db, Row(ListingModel, l), t); }
    }
    forall b ensures !DependsOn(db, Row(BookingModel, b), t) {
      if b in db.bookings { DependsOnBooking(db, b, t); } else { DependsOnAbsent(db, Row(BookingModel, b), t); }
    }
    forall k | k in db.payments ensures k in c.payments <==> DependsOn(db, Row(PaymentModel, k), t) {
      DependsOnPayment(db, k, t);
      InRows(m, ids, Row(PaymentModel, k));
    }
    forall k | k in db.reviews ensures k in c.reviews <==> DependsOn(db, Row(ReviewModel, k), t) {
      DependsOnReview(db, k, t);
      InRows(m, ids, Row(ReviewModel, k));
    }
    forall k | k in db.messages ensures k in c.messages <==> DependsOn(db, Row(MessageModel, k), t) {
      DependsOnMessage(db, k, t);
      InRows(m, ids, Row(MessageModel, k));
    }
  }

  /** Removing rows keeps every other row unchanged. */
  lemma RemoveIsSubStore(db: Db, d: Doomed)
    ensures SubStore(Remove(db, d), db)
  {
  }

  /** Keys that match and unique emails survive dropping rows. */
  lemma SubStoreKeepsKeysAndEmails(a: Db, b: Db)
    requires SubStore(a, b) && KeysMatch(b) && EmailsUnique(b)
    ensures KeysMatch(a) && EmailsUnique(a)
  {
  }

  /** After a cascading delete every foreign key still resolves. */
  lemma CascadeKeepsReferences(db: Db, t: set<Row>)
    requires ReferencesResolve(db)
    ensures ReferencesResolve(Cascade(db, t))
  {
    var r := Cascade(db, t);
    var cl := Closure(db, t);
    assert r == Remove(db, cl);
    forall k | k in r.listings ensures r.listings[k].host in r.users {
      DependsOnListing(db, k, t);
    }
    forall k | k in r.bookings
      ensures r.bookings[k].listing in r.listings && r.bookings[k].user in r.users
    {
      DependsOnBooking(db, k, t);
    }
    forall k | k in r.payments ensures r.payments[k].booking in r.bookings {
      DependsOnPayment(db, k, t);
    }
    forall k | k in r.reviews
      ensures r.reviews[k].listing in r.listings && r.reviews[k].user in r.users
    {
      DependsOnReview(db, k, t);
    }
    forall k | k in r.messages
      ensures r.messages[k].sender in r.users && r.messages[k].recipient in r.users
    {
      DependsOnMessage(db, k, t);
    }
  }

  /** After a cascading delete keys still match, emails stay unique and every foreign key resolves. */
  lemma CascadePreservesValid(db: Db, t: set<Row>)
    requires Valid(db)
    ensures Valid(Cascade(db, t)) && SubStore(Cascade(db, t), db)
  {
    RemoveIsSubStore(db, Closure(db, t));
    SubStoreKeepsKeysAndEmails(Cascade(db, t), db);
    CascadeKeepsReferences(db, t);
  }

  /** A row survives a cascading delete exactly when it was stored and does not depend on a target. */
  lemma CascadeKeepsIndependentRows(db: Db, t: set<Row>, row: Row)
    ensures row.key in Keys(Cascade(db, t), row.model) <==>
            row.key in Keys(db, row.model) && !DependsOn(db, row, t)
  {
    var c := Closure(db, t);
    assert Cascade(db, t) == Remove(db, c);
    match row.model
    case UserModel => assert Keys(Remove(db, c), UserModel) == db.users.Keys - c.users;
    case ListingModel => assert Keys(Remove(db, c), ListingModel) == db.listings.Keys - c.listings;
    case BookingModel => assert Keys(Remove(db, c), BookingModel) == db.bookings.Keys - c.bookings;
    case PaymentModel => assert Keys(Remove(db, c), PaymentModel) == db.payments.Keys - c.payments;
    case ReviewModel => assert Keys(Remove(db, c), ReviewModel) == db.reviews.Keys - c.reviews;
    case MessageModel => assert Keys(Remove(db, c), MessageModel) == db.messages.Keys - c.messages;
  }

  /** Deleting through the collector keeps the store valid and changes nothing but the doomed rows. */
  lemma DeletePreservesValid(db: Db, m: Model, ids: set<Uuid>)
    requires Valid(db)
    ensures Delete(db, m, ids) == Cascade(db, Rows(m, ids))
    ensures Valid(Delete(db, m, ids)) && SubStore(Delete(db, m, ids), db)
  {
    CollectIsClosure(db, m, ids);
    CascadePreservesValid(db, Rows(m, ids));
  }

  /** Deleting a user removes them, the listings they host and the messages they sent or received. */
  lemma DeleteUserRemovesOwnRows(db: Db, u: Uuid)
    ensures var r := Delete(db, UserModel, {u});
      && u !in r.users
      && (forall k :: k in db.users && k != u ==> k in r.users)
      && (forall k :: k in r.listings ==> r.listings[k].host != u)
      && (forall k :: k in db.listings && db.listings[k].host != u ==> k in r.listings)
      && (forall k :: k in r.messages ==> r.messages[k].sender != u && r.messages[k].recipient != u)
  {
  }

  /**
   * Deleting a user removes their bookings and the bookings of their listings:
   * every booking left has a stored listing hosted by someone else.
   */
  lemma DeleteUserRemovesBookings(db: Db, u: Uuid)
    requires Valid(db)
    ensures var r := Delete(db, UserModel, {u});
      forall k :: k in r.bookings ==>
        r.bookings[k].user != u && r.bookings[k].listing in r.listings && r.listings[r.bookings[k].listing].host != u
  {
    var r := Delete(db, UserModel, {u});
    forall k | k in r.bookings
      ensures r.bookings[k].user != u && r.bookings[k].listing in r.listings && r.listings[r.bookings[k].listing].host != u
    {
      assert r.bookings[k] == db.bookings[k];
      assert db.bookings[k].listing in db.listings;
    }
  }

  /** Deleting a user removes the payments of every booking that goes: each payment left has a stored booking. */
  lemma DeleteUserRemovesPayments(db: Db, u: Uuid)
    requires Valid(db)
    ensures var r := Delete(db, UserModel, {u});
      forall k :: k in r.payments ==> r.payments[k].booking in r.bookings && r.bookings[r.payments[k].booking].user != u
  {
    var r := Delete(db, UserModel, {u});
    forall k | k in r.payments
      ensures r.payments[k].booking in r.bookings && r.bookings[r.payments[k].booking].user != u
    {
      assert r.payments[k] == db.payments[k];
      assert db.payments[k].booking in db.bookings;
    }
  }

  /** Deleting a user removes their reviews and the reviews of their listings. */
  lemma DeleteUserRemovesReviews(db: Db, u: Uuid)
    requires Valid(db)
    ensures var r := Delete(db, UserModel, {u});
      forall k :: k in r.reviews ==>
        r.reviews[k].user != u && r.reviews[k].listing in r.listings && r.listings[r.reviews[k].listing].host != u
  {
    var r := Delete(db, UserModel, {u});
    forall k | k in r.reviews
      ensures r.reviews[k].user != u && r.reviews[k].listing in r.listings && r.listings[r.reviews[k].listing].host != u
    {
      assert r.reviews[k] == db.reviews[k];
      assert db.reviews[k].listing in db.listings;
    }
  }

  /** Deleting a listing removes its bookings and its reviews, and no user or message. */
  lemma DeleteListingRemovesDependents(db: Db, l: Uuid)
    ensures var r := Delete(db, ListingModel, {l});
      && l !in r.listings
      && r.users == db.users && r.messages == db.messages
      && (forall k :: k in r.bookings ==> r.bookings[k].listing != l)
      && (forall k :: k in db.bookings && db.bookings[k].listing != l ==> k in r.bookings)
      && (forall k :: k in r.reviews ==> r.reviews[k].listing != l)
  {
    var r := Delete(db, ListingModel, {l});
    assert r.users == db.users - {};
    assert r.messages == db.messages - {};
  }

  /** Deleting a listing removes the payments of its bookings: each payment left has a stored booking of another listing. */
  lemma DeleteListingRemovesPayments(db: Db, l: Uuid)
    requires Valid(db)
    ensures var r := Delete(db, ListingModel, {l});
      forall k :: k in r.payments ==> r.payments[k].booking in r.bookings && r.bookings[r.payments[k].booking].listing != l
  {
    var r := Delete(db, ListingModel, {l});
    forall k | k in r.payments
      ensures r.payments[k].booking in r.bookings && r.bookings[r.payments[k].booking].listing != l
    {
      assert r.payments[k] == db.payments[k];
      assert db.payments[k].booking in db.bookings;
    }
  }

  /** Deleting a booking removes exactly its payments and touches no other model. */
  lemma DeleteBookingRemovesPayments(db: Db, b: Uuid)
    ensures var r := Delete(db, BookingModel, {b});
      && b !in r.bookings
      && (forall k :: k in db.bookings && k != b ==> k in r.bookings && r.bookings[k] == db.bookings[k])
      && r.users == db.users && r.listings == db.listings
      && r.reviews == db.reviews && r.messages == db.messages
      && (forall k :: k in r.payments ==> r.payments[k].booking != b)
      && (forall k :: k in db.payments && db.payments[k].booking != b ==> k in r.payments)
  {
    var c := Collect(db, BookingModel, {b});
    assert c.users == {} && c.listings == {} && c.reviews == {} && c.messages == {};
    var r := Delete(db, BookingModel, {b});
    assert r == Remove(db, c);
    assert r.users == db.users - {};
    assert r.listings == db.listings - {};
    assert r.reviews == db.reviews - {};
    assert r.messages == db.messages - {};
  }

  lemma ClearingLeafTable(db: Db, m: Model)
    requires m == PaymentModel || m == ReviewModel || m == MessageModel
    ensures Delete(db, m, Keys(db, m)) ==
      match m
      case PaymentModel => db.(payments := map[])
      case ReviewModel => db.(reviews := map[])
      case _ => db.(messages := map[])
  {
    var r := Delete(db, m, Keys(db, m));
    assert Keys(r, m) == {};
  }

  /** Deleting every booking removes every payment as well. */
  lemma ClearingBookingsClearsPayments(db: Db)
    requires forall k :: k in db.payments ==> db.payments[k].booking in db.bookings
    ensures Delete(db, BookingModel, db.bookings.Keys) == db.(bookings := map[], payments := map[])
  {
    var r := Delete(db, BookingModel, db.bookings.Keys);
    assert r.bookings.Keys == {};
    assert r.payments.Keys == {};
  }

  /** Deleting every listing removes every booking, payment and review, and no user or message. */
  lemma ClearingListingsClearsBookings(db: Db)
    requires ReferencesResolve(db)
    ensures Delete(db, ListingModel, db.listings.Keys) ==
      db.(listings := map[], bookings := map[], payments := map[], reviews := map[])
  {
    var r := Delete(db, ListingModel, db.listings.Keys);
    assert r.bookings.Keys == {};
    assert r.payments.Keys == {};
    assert r.reviews.Keys == {};
    assert r.listings.Keys == {};
  }

  lemma ClearingUsersOfUserOnlyStore(db: Db)
    requires db == EmptyDb.(users := db.users)
    ensures Delete(db, UserModel, db.users.Keys) == EmptyDb
  {
    var r := Delete(db, UserModel, db.users.Keys);
    assert r.users.Keys == {};
  }

  /**
   * Deleting every message, review, payment, booking, listing and user, in
   * that order, leaves every table empty.
   */
  lemma ClearingAllTablesEmptiesStore(db: Db)
    requires Valid(db)
    ensures var d1 := Delete(db, MessageModel, db.messages.Keys);
            var d2 := Delete(d1, ReviewModel, d1.reviews.Keys);
            var d3 := Delete(d2, PaymentModel, d2.payments.Keys);
            var d4 := Delete(d3, BookingModel, d3.bookings.Keys);
            var d5 := Delete(d4, ListingModel, d4.listings.Keys);
            Delete(d5, UserModel, d5.users.Keys) == EmptyDb
  {
    ClearingLeafTable(db, MessageModel);
    var d1 := db.(messages := map[]);
    ClearingLeafTable(d1, ReviewModel);
    var d2 := d1.(reviews := map[]);
    ClearingLeafTable(d2, PaymentModel);
    var d3 := d2.(payments := map[]);
    ClearingBookingsClearsPayments(d3);
    var d4 := d3.(bookings := map[]);
    ClearingListingsClearsBookings(d4);
    var d5 := d4.(listings := map[]);
    ClearingUsersOfUserOnlyStore(d5);
  }
}
