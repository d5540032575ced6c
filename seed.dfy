/**
 * The fixture-seeding command: clear the six tables, create five users,
 * split them into hosts and guests, stop when either group is empty, and
 * otherwise create five listings, ten bookings each with one payment and one
 * review, and ten messages.
 *
 * Every random or fabricated value is an input (`Draws`): a uniform choice
 * from a list is an arbitrary index reduced modulo the list's length; a
 * uniform integer, price or date is a value in its documented range; a
 * fresh identifier or a unique email is a value distinct from the others of
 * its kind; a sample of two users is two distinct positions. `Expected` is
 * the store the command leaves, as a function of the draws; `Handle` is
 * proved to leave exactly that, and the lemmas state what that store holds.
 */
module Seed {
  import opened Models
  import opened Database
  import opened ObjectStore

  const UserCount: nat := 5
  const ListingCount: nat := 5
  const BookingCount: nat := 10
  const MessageCount: nat := 10

  /** Price per night in cents, drawn uniformly from 40.00 to 300.00. */
  const MinPrice: Cents := 4000
  const MaxPrice: Cents := 30000
  const MinNights: int := 2
  const MaxNights: int := 5
  /** The start date is drawn from tomorrow up to ten days ahead. */
  const FirstStartOffset: int := 1
  const LastStartOffset: int := 10
  const MinRating: int := 1
  const MaxRating: int := 5

  const RoleChoices: seq<Role> := [Guest, Host]
  const StatusChoices: seq<Status> := [Pending, Confirmed, Canceled]
  const MethodChoices: seq<PaymentMethod> := [CreditCard, PayPal, Stripe]

  datatype UserDraw = UserDraw(
    id: Uuid, firstName: string, lastName: string, email: string,
    passwordHash: string, phoneNumber: string, roleChoice: nat)

  datatype ListingDraw = ListingDraw(
    id: Uuid, hostChoice: nat, name: string, description: string,
    location: string, pricePerNight: Cents)

  /** What one round of the booking loop draws: a booking, its payment and its review. */
  datatype StayDraw = StayDraw(
    bookingId: Uuid, guestChoice: nat, listingChoice: nat, startDate: Day, nights: int,
    statusChoice: nat, paymentId: Uuid, methodChoice: nat, reviewId: Uuid, rating: int, comment: string)

  /** `senderIndex` and `recipientIndex` are the positions of a two-user sample. */
  datatype MessageDraw = MessageDraw(id: Uuid, senderIndex: nat, recipientIndex: nat, messageBody: string)

  datatype Draws = Draws(
    users: seq<UserDraw>, listings: seq<ListingDraw>,
    stays: seq<StayDraw>, messages: seq<MessageDraw>)

  datatype SeedOutcome = Seeded | NeedHostAndGuest

  /** The number of draws each loop consumes, and two-user samples of distinct positions. */
  predicate Sized(d: Draws) {
    && |d.users| == UserCount && |d.listings| == ListingCount
    && |d.stays| == BookingCount && |d.messages| == MessageCount
    && forall i :: 0 <= i < |d.messages| ==>
         d.messages[i].senderIndex < UserCount && d.messages[i].recipientIndex < UserCount
         && d.messages[i].senderIndex != d.messages[i].recipientIndex
  }

  /** Identifiers are pairwise distinct per model, and so are the users' emails. */
  predicate Fresh(d: Draws) {
    && (forall i, j :: 0 <= i < j < |d.users| ==> d.users[i].id != d.users[j].id && d.users[i].email != d.users[j].email)
    && (forall i, j :: 0 <= i < j < |d.listings| ==> d.listings[i].id != d.listings[j].id)
    && (forall i, j :: 0 <= i < j < |d.stays| ==>
          && d.stays[i].bookingId != d.stays[j].bookingId
          && d.stays[i].paymentId != d.stays[j].paymentId
          && d.stays[i].reviewId != d.stays[j].reviewId)
    && (forall i, j :: 0 <= i < j < |d.messages| ==> d.messages[i].id != d.messages[j].id)
  }

  /** Every drawn number lies in its documented range. */
  predicate InRange(d: Draws, today: Day) {
    && (forall i :: 0 <= i < |d.listings| ==> MinPrice <= d.listings[i].pricePerNight <= MaxPrice)
    && (forall i :: 0 <= i < |d.stays| ==>
          && today + FirstStartOffset <= d.stays[i].startDate <= today + LastStartOffset
          && MinNights <= d.stays[i].nights <= MaxNights
          && MinRating <= d.stays[i].rating <= MaxRating)
  }

  predicate WellFormed(d: Draws, today: Day) {
    Sized(d) && Fresh(d) && InRange(d, today)
  }

  // Choosing and filtering

  /** A uniform choice from a non-empty list, driven by the index `k`. */
  function Choice<T>(xs: seq<T>, k: nat): (x: T)
    requires |xs| > 0
    ensures x in xs
  {
    xs[k % |xs|]
  }

  /** Every element of the list is a possible choice. */
  lemma ChoiceReachesEveryElement<T>(xs: seq<T>, x: T)
    requires x in xs
    ensures exists k: nat :: Choice(xs, k) == x
  {
    var i :| 0 <= i < |xs| && xs[i] == x;
    assert i % |xs| == i;
    assert Choice(xs, i) == x;
  }

  /** The users with the given role, in their original order. */
  function WithRole(us: seq<User>, role: Role): (r: seq<User>)
    ensures |r| <= |us|
  {
    if us == [] then []
    else (if us[0].role == role then [us[0]] else []) + WithRole(us[1..], role)
  }

  /** The filter keeps exactly the users of that role. */
  lemma {:induction false} WithRoleSelects(us: seq<User>, role: Role, u: User)
    ensures u in WithRole(us, role) <==> u in us && u.role == role
  {
    if us != [] {
      WithRoleSelects(us[1..], role, u);
      assert us == [us[0]] + us[1..];
    }
  }

  /** When no user is an admin, hosts and guests together are exactly the users. */
  lemma {:induction false} RolesPartition(us: seq<User>)
    requires forall i :: 0 <= i < |us| ==> us[i].role != Admin
    ensures multiset(WithRole(us, Host)) + multiset(WithRole(us, Guest)) == multiset(us)
    ensures |WithRole(us, Host)| + |WithRole(us, Guest)| == |us|
  {
    if us != [] {
      var rest := us[1..];
      RolesPartition(rest);
      var h, g := WithRole(rest, Host), WithRole(rest, Guest);
      if us[0].role == Host {
        assert WithRole(us, Host) == [us[0]] + h && WithRole(us, Guest) == g;
      } else {
        assert WithRole(us, Host) == h && WithRole(us, Guest) == [us[0]] + g;
      }
      assert us == [us[0]] + rest;
      assert multiset(us) == multiset([us[0]]) + multiset(rest);
    }
  }

  // Building one record from its draws

  function SeedUser(u: UserDraw): User {
    User(u.id, u.firstName, u.lastName, u.email, u.passwordHash, u.phoneNumber,
         Choice(RoleChoices, u.roleChoice))
  }

  function SeedListing(l: ListingDraw, hosts: seq<User>): Listing
    requires |hosts| > 0
  {
    Listing(l.id, Choice(hosts, l.hostChoice).id, l.name, l.description, l.location, l.pricePerNight)
  }

  /** A stay's total: the nightly price times the number of days from start to end. */
  function StayPrice(pricePerNight: Cents, startDate: Day, endDate: Day): Cents {
    pricePerNight * (endDate - startDate)
  }

  datatype Stay = Stay(booking: Booking, payment: Payment, review: Review)

  /**
   * One round of the booking loop: the stay length is the drawn number of
   * nights, the total is the nightly price times the days between start and
   * end, and the payment and the review take the booking's total, listing
   * and guest.
   */
  function SeedStay(s: StayDraw, guests: seq<User>, listings: seq<Listing>): Stay
    requires |guests| > 0 && |listings| > 0
  {
    var guest := Choice(guests, s.guestChoice);
    var listing := Choice(listings, s.listingChoice);
    var endDate := s.startDate + s.nights;
    var totalPrice := StayPrice(listing.pricePerNight, s.startDate, endDate);
    var booking := NewBooking(s.bookingId, listing.id, guest.id, s.startDate, endDate, totalPrice,
                              Some(Choice(StatusChoices, s.statusChoice)));
    Stay(booking,
         Payment(s.paymentId, booking.id, totalPrice, Choice(MethodChoices, s.methodChoice)),
         Review(s.reviewId, listing.id, guest.id, s.rating, s.comment))
  }

  function SeedMessage(m: MessageDraw, users: seq<User>): Message
    requires m.senderIndex < |users| && m.recipientIndex < |users|
  {
    Message(m.id, users[m.senderIndex].id, users[m.recipientIndex].id, m.messageBody)
  }

  // Tables keyed by primary key

  function UserKey(u: User): Uuid { u.id }
  function ListingKey(l: Listing): Uuid { l.id }
  function BookingKey(b: Booking): Uuid { b.id }
  function PaymentKey(p: Payment): Uuid { p.id }
  function ReviewKey(r: Review): Uuid { r.id }
  function MessageKey(m: Message): Uuid { m.id }

  /** The table holding the records `rs`, created in order. */
  function Index<T>(rs: seq<T>, key: T -> Uuid): map<Uuid, T> {
    if rs == [] then map[]
    else Index(rs[..|rs| - 1], key)[key(rs[|rs| - 1]) := rs[|rs| - 1]]
  }

  ghost predicate KeysDistinct<T>(rs: seq<T>, key: T -> Uuid) {
    forall i, j :: 0 <= i < j < |rs| ==> key(rs[i]) != key(rs[j])
  }

  lemma IndexAppend<T>(rs: seq<T>, x: T, key: T -> Uuid)
    ensures Index(rs + [x], key) == Index(rs, key)[key(x) := x]
  {
    assert (rs + [x])[..|rs|] == rs;
  }

  /** Every stored record is one of the created ones, under its own key. */
  lemma {:induction false} IndexHoldsOnlyCreated<T>(rs: seq<T>, key: T -> Uuid, k: Uuid)
    requires k in Index(rs, key)
    ensures exists j :: 0 <= j < |rs| && key(rs[j]) == k && Index(rs, key)[k] == rs[j]
  {
    var n := |rs| - 1;
    if k != key(rs[n]) {
      IndexHoldsOnlyCreated(rs[..n], key, k);
      var j :| 0 <= j < n && key(rs[..n][j]) == k && Index(rs[..n], key)[k] == rs[..n][j];
      assert rs[..n][j] == rs[j];
    }
  }

  /** With distinct keys, every created record is stored under its key. */
  lemma {:induction false} IndexHoldsEveryCreated<T>(rs: seq<T>, key: T -> Uuid, j: nat)
    requires KeysDistinct(rs, key) && j < |rs|
    ensures key(rs[j]) in Index(rs, key) && Index(rs, key)[key(rs[j])] == rs[j]
  {
    var n := |rs| - 1;
    if j < n {
      assert KeysDistinct(rs[..n], key) by {
        forall a, b | 0 <= a < b < n ensures key(rs[..n][a]) != key(rs[..n][b]) {
          assert rs[..n][a] == rs[a] && rs[..n][b] == rs[b];
        }
      }
      IndexHoldsEveryCreated(rs[..n], key, j);
      assert rs[..n][j] == rs[j];
    }
  }

  /** A key not among the created records is not stored. */
  lemma IndexKeyFresh<T>(rs: seq<T>, key: T -> Uuid, k: Uuid)
    requires forall j :: 0 <= j < |rs| ==> key(rs[j]) != k
    ensures k !in Index(rs, key)
  {
    if k in Index(rs, key) {
      IndexHoldsOnlyCreated(rs, key, k);
    }
  }

  /** With distinct keys, the table holds as many rows as records were created. */
  lemma {:induction false} IndexSize<T>(rs: seq<T>, key: T -> Uuid)
    requires KeysDistinct(rs, key)
    ensures |Index(rs, key)| == |rs|
  {
    if rs != [] {
      var n := |rs| - 1;
      assert KeysDistinct(rs[..n], key) by {
        forall a, b | 0 <= a < b < n ensures key(rs[..n][a]) != key(rs[..n][b]) {
          assert rs[..n][a] == rs[a] && rs[..n][b] == rs[b];
        }
      }
      IndexSize(rs[..n], key);
      forall j | 0 <= j < |rs[..n]| ensures key(rs[..n][j]) != key(rs[n]) {
        assert rs[..n][j] == rs[j];
      }
      IndexKeyFresh(rs[..n], key, key(rs[n]));
    }
  }

  // The store the command leaves

  function SeededUsers(d: Draws): seq<User> {
    seq(|d.users|, i requires 0 <= i < |d.users| => SeedUser(d.users[i]))
  }

  function Hosts(d: Draws): seq<User> {
    WithRole(SeededUsers(d), Host)
  }

  function Guests(d: Draws): seq<User> {
    WithRole(SeededUsers(d), Guest)
  }

  /** The command goes past its guard: there is at least one host and one guest. */
  predicate CanSeed(d: Draws) {
    |Hosts(d)| > 0 && |Guests(d)| > 0
  }

  function SeededListings(d: Draws): seq<Listing>
    requires CanSeed(d)
  {
    seq(|d.listings|, i requires 0 <= i < |d.listings| => SeedListing(d.listings[i], Hosts(d)))
  }

  /** The i-th round of the booking loop. */
  function StayOf(d: Draws, i: nat): Stay
    requires Sized(d) && CanSeed(d) && i < BookingCount
  {
    SeedStay(d.stays[i], Guests(d), SeededListings(d))
  }

  function SeededBookings(d: Draws): seq<Booking>
    requires Sized(d) && CanSeed(d)
  {
    seq(BookingCount, i requires 0 <= i < BookingCount => StayOf(d, i).booking)
  }

  function SeededPayments(d: Draws): seq<Payment>
    requires Sized(d) && CanSeed(d)
  {
    seq(BookingCount, i requires 0 <= i < BookingCount => StayOf(d, i).payment)
  }

  function SeededReviews(d: Draws): seq<Review>
    requires Sized(d) && CanSeed(d)
  {
    seq(BookingCount, i requires 0 <= i < BookingCount => StayOf(d, i).review)
  }

  function SeededMessages(d: Draws): seq<Message>
    requires Sized(d)
  {
    var users := SeededUsers(d);
    seq(|d.messages|, i requires 0 <= i < |d.messages| => SeedMessage(d.messages[i], users))
  }

  /** Only the users when the guard stops the command; otherwise every table it fills. */
  function Expected(d: Draws): Db
    requires Sized(d)
  {
    var users := Index(SeededUsers(d), UserKey);
    if !CanSeed(d) then EmptyDb.(users := users)
    else Db(users,
            Index(SeededListings(d), ListingKey),
            Index(SeededBookings(d), BookingKey),
            Index(SeededPayments(d), PaymentKey),
            Index(SeededReviews(d), ReviewKey),
            Index(SeededMessages(d), MessageKey))
  }

  // Freshness of each created record

  lemma SeededUsersKeysDistinct(d: Draws)
    requires Fresh(d)
    ensures KeysDistinct(SeededUsers(d), UserKey)
  {
  }

  lemma SeededListingsKeysDistinct(d: Draws)
    requires Fresh(d) && CanSeed(d)
    ensures KeysDistinct(SeededListings(d), ListingKey)
  {
  }

  /** The i-th booking, payment and review are those of the i-th round, under the drawn keys. */
  lemma SeededStayAt(d: Draws, i: nat)
    requires Sized(d) && CanSeed(d) && i < BookingCount
    ensures |SeededBookings(d)| == |SeededPayments(d)| == |SeededReviews(d)| == BookingCount
    ensures SeededBookings(d)[i] == StayOf(d, i).booking && StayOf(d, i).booking.id == d.stays[i].bookingId
    ensures SeededPayments(d)[i] == StayOf(d, i).payment && StayOf(d, i).payment.id == d.stays[i].paymentId
    ensures SeededReviews(d)[i] == StayOf(d, i).review && StayOf(d, i).review.id == d.stays[i].reviewId
  {
  }

  lemma SeededStaysKeysDistinct(d: Draws)
    requires Sized(d) && Fresh(d) && CanSeed(d)
    ensures KeysDistinct(SeededBookings(d), BookingKey)
    ensures KeysDistinct(SeededPayments(d), PaymentKey)
    ensures KeysDistinct(SeededReviews(d), ReviewKey)
  {
    forall i, j | 0 <= i < j < BookingCount
      ensures SeededBookings(d)[i].id != SeededBookings(d)[j].id
      ensures SeededPayments(d)[i].id != SeededPayments(d)[j].id
      ensures SeededReviews(d)[i].id != SeededReviews(d)[j].id
    {
      SeededStayAt(d, i);
      SeededStayAt(d, j);
    }
  }

  lemma SeededMessagesKeysDistinct(d: Draws)
    requires Sized(d) && Fresh(d)
    ensures KeysDistinct(SeededMessages(d), MessageKey)
  {
  }

  /** A seeded user, host or guest is stored under its key. */
  lemma SeededUserStored(d: Draws, u: User)
    requires Fresh(d) && u in SeededUsers(d)
    ensures u.id in Index(SeededUsers(d), UserKey) && Index(SeededUsers(d), UserKey)[u.id] == u
  {
    var j :| 0 <= j < |SeededUsers(d)| && SeededUsers(d)[j] == u;
    SeededUsersKeysDistinct(d);
    IndexHoldsEveryCreated(SeededUsers(d), UserKey, j);
  }

  /** The i-th user neither reuses a key nor an email of the users created before it. */
  lemma SeededUserIsNew(d: Draws, i: nat)
    requires Fresh(d) && i < |d.users|
    ensures var db := EmptyDb.(users := Index(SeededUsers(d)[..i], UserKey));
      SeedUser(d.users[i]).id !in db.users && !EmailTaken(db, d.users[i].email)
  {
    var prefix := SeededUsers(d)[..i];
    var db := EmptyDb.(users := Index(prefix, UserKey));
    IndexKeyFresh(prefix, UserKey, d.users[i].id);
    if EmailTaken(db, d.users[i].email) {
      var k :| k in db.users && db.users[k].email == d.users[i].email;
      IndexHoldsOnlyCreated(prefix, UserKey, k);
      assert false;
    }
  }

  lemma SeededListingIsNew(d: Draws, i: nat)
    requires Fresh(d) && CanSeed(d) && i < |d.listings|
    ensures SeedListing(d.listings[i], Hosts(d)).id !in Index(SeededListings(d)[..i], ListingKey)
    ensures SeedListing(d.listings[i], Hosts(d)).host in Index(SeededUsers(d), UserKey)
  {
    IndexKeyFresh(SeededListings(d)[..i], ListingKey, d.listings[i].id);
    WithRoleSelects(SeededUsers(d), Host, Choice(Hosts(d), d.listings[i].hostChoice));
    SeededUserStored(d, Choice(Hosts(d), d.listings[i].hostChoice));
  }

  /** A seeded listing is stored under its key. */
  lemma SeededListingStored(d: Draws, l: Listing)
    requires Fresh(d) && CanSeed(d) && l in SeededListings(d)
    ensures l.id in Index(SeededListings(d), ListingKey) && Index(SeededListings(d), ListingKey)[l.id] == l
  {
    var j :| 0 <= j < |SeededListings(d)| && SeededListings(d)[j] == l;
    SeededListingsKeysDistinct(d);
    IndexHoldsEveryCreated(SeededListings(d), ListingKey, j);
  }

  lemma SeededStayIsNew(d: Draws, i: nat)
    requires Sized(d) && Fresh(d) && CanSeed(d) && i < |d.stays|
    ensures var st := StayOf(d, i);
      && st.booking.id !in Index(SeededBookings(d)[..i], BookingKey)
      && st.payment.id !in Index(SeededPayments(d)[..i], PaymentKey)
      && st.review.id !in Index(SeededReviews(d)[..i], ReviewKey)
      && st.booking.listing in Index(SeededListings(d), ListingKey)
      && st.booking.user in Index(SeededUsers(d), UserKey)
  {
    var s := d.stays[i];
    IndexKeyFresh(SeededBookings(d)[..i], BookingKey, s.bookingId);
    IndexKeyFresh(SeededPayments(d)[..i], PaymentKey, s.paymentId);
    IndexKeyFresh(SeededReviews(d)[..i], ReviewKey, s.reviewId);
    SeededListingStored(d, Choice(SeededListings(d), s.listingChoice));
    WithRoleSelects(SeededUsers(d), Guest, Choice(Guests(d), s.guestChoice));
    SeededUserStored(d, Choice(Guests(d), s.guestChoice));
  }

  lemma SeededMessageIsNew(d: Draws, i: nat)
    requires Sized(d) && Fresh(d) && i < |d.messages|
    ensures var m := SeededMessages(d)[i];
      && m.id !in Index(SeededMessages(d)[..i], MessageKey)
      && m.sender in Index(SeededUsers(d), UserKey)
      && m.recipient in Index(SeededUsers(d), UserKey)
  {
    var m := d.messages[i];
    IndexKeyFresh(SeededMessages(d)[..i], MessageKey, m.id);
    SeededUserStored(d, SeededUsers(d)[m.senderIndex]);
    SeededUserStored(d, SeededUsers(d)[m.recipientIndex]);
  }

  // The store after each round of each loop

  lemma PrefixStep<T>(xs: seq<T>, i: nat)
    requires i < |xs|
    ensures xs[..i + 1] == xs[..i] + [xs[i]]
  {
  }

  function AfterUsers(d: Draws, i: nat): Db
    requires i <= |d.users|
  {
    EmptyDb.(users := Index(SeededUsers(d)[..i], UserKey))
  }

  function AfterListings(d: Draws, i: nat): Db
    requires CanSeed(d) && i <= |d.listings|
  {
    EmptyDb.(users := Index(SeededUsers(d), UserKey), listings := Index(SeededListings(d)[..i], ListingKey))
  }

  function AfterStays(d: Draws, i: nat): Db
    requires Sized(d) && CanSeed(d) && i <= BookingCount
  {
    Db(Index(SeededUsers(d), UserKey), Index(SeededListings(d), ListingKey),
       Index(SeededBookings(d)[..i], BookingKey), Index(SeededPayments(d)[..i], PaymentKey),
       Index(SeededReviews(d)[..i], ReviewKey), map[])
  }

  function AfterMessages(d: Draws, i: nat): Db
    requires Sized(d) && CanSeed(d) && i <= MessageCount
  {
    AfterStays(d, BookingCount).(messages := Index(SeededMessages(d)[..i], MessageKey))
  }

  /** Round `i` of the user loop adds a user whose key and email are both new. */
  lemma UserStep(d: Draws, i: nat)
    requires Fresh(d) && i < |d.users|
    ensures var u, db := SeedUser(d.users[i]), AfterUsers(d, i);
      && u.id !in db.users && !EmailTaken(db, u.email)
      && AfterUsers(d, i + 1) == db.(users := db.users[u.id := u])
  {
    SeededUserIsNew(d, i);
    PrefixStep(SeededUsers(d), i);
    IndexAppend(SeededUsers(d)[..i], SeedUser(d.users[i]), UserKey);
  }

  /** Round `i` of the listing loop adds a listing with a new key, owned by a stored host. */
  lemma ListingStep(d: Draws, i: nat)
    requires Fresh(d) && CanSeed(d) && i < |d.listings|
    ensures var l, db := SeedListing(d.listings[i], Hosts(d)), AfterListings(d, i);
      && l.id !in db.listings && l.host in db.users
      && AfterListings(d, i + 1) == db.(listings := db.listings[l.id := l])
  {
    SeededListingIsNew(d, i);
    PrefixStep(SeededListings(d), i);
    IndexAppend(SeededListings(d)[..i], SeedListing(d.listings[i], Hosts(d)), ListingKey);
  }

  /** Round `i` of the booking loop adds the i-th stay's three records, under new keys, for a stored guest and listing. */
  lemma StayStep(d: Draws, i: nat)
    requires Sized(d) && Fresh(d) && CanSeed(d) && i < BookingCount
    ensures StayFits(AfterStays(d, i), d.stays[i], Guests(d), SeededListings(d))
    ensures AfterStays(d, i + 1) == WithStay(AfterStays(d, i), SeedStay(d.stays[i], Guests(d), SeededListings(d)))
  {
    var st := StayOf(d, i);
    SeededStayAt(d, i);
    SeededStayIsNew(d, i);
    PrefixStep(SeededBookings(d), i);
    PrefixStep(SeededPayments(d), i);
    PrefixStep(SeededReviews(d), i);
    IndexAppend(SeededBookings(d)[..i], st.booking, BookingKey);
    IndexAppend(SeededPayments(d)[..i], st.payment, PaymentKey);
    IndexAppend(SeededReviews(d)[..i], st.review, ReviewKey);
  }

  /** Round `i` of the message loop adds a message with a new key between two stored users. */
  lemma MessageStep(d: Draws, i: nat)
    requires Sized(d) && Fresh(d) && CanSeed(d) && i < MessageCount
    ensures MessageFits(AfterMessages(d, i), SeedMessage(d.messages[i], SeededUsers(d)))
    ensures AfterMessages(d, i + 1) == WithMessage(AfterMessages(d, i), SeedMessage(d.messages[i], SeededUsers(d)))
  {
    var m := SeedMessage(d.messages[i], SeededUsers(d));
    SeededMessageIsNew(d, i);
    PrefixStep(SeededMessages(d), i);
    IndexAppend(SeededMessages(d)[..i], m, MessageKey);
  }

  /** Where one loop ends the next one starts, and the last one ends in `Expected`. */
  lemma StagesMeet(d: Draws)
    requires Sized(d)
    ensures AfterUsers(d, UserCount) == Expected(d).(listings := map[], bookings := map[], payments := map[], reviews := map[], messages := map[])
    ensures !CanSeed(d) ==> AfterUsers(d, UserCount) == Expected(d)
    ensures CanSeed(d) ==> AfterListings(d, 0) == AfterUsers(d, UserCount)
    ensures CanSeed(d) ==> AfterStays(d, 0) == AfterListings(d, ListingCount)
    ensures CanSeed(d) ==> AfterMessages(d, 0) == AfterStays(d, BookingCount)
    ensures CanSeed(d) ==> AfterMessages(d, MessageCount) == Expected(d)
  {
    assert SeededUsers(d)[..UserCount] == SeededUsers(d);
    if CanSeed(d) {
      assert SeededListings(d)[..ListingCount] == SeededListings(d);
      assert SeededBookings(d)[..0] == [] && SeededPayments(d)[..0] == [] && SeededReviews(d)[..0] == [];
      assert SeededBookings(d)[..BookingCount] == SeededBookings(d);
      assert SeededPayments(d)[..BookingCount] == SeededPayments(d);
      assert SeededReviews(d)[..BookingCount] == SeededReviews(d);
      assert SeededMessages(d)[..MessageCount] == SeededMessages(d);
    }
  }

  /** `SeedStay` spelled out step by step, as the booking loop computes it. */
  lemma SeedStayUnfolds(s: StayDraw, guests: seq<User>, listings: seq<Listing>)
    requires |guests| > 0 && |listings| > 0
    ensures var guest := Choice(guests, s.guestChoice);
      var listing := Choice(listings, s.listingChoice);
      var startDate := s.startDate;
      var endDate := startDate + s.nights;
      var totalPrice := StayPrice(listing.pricePerNight, startDate, endDate);
      var booking := NewBooking(s.bookingId, listing.id, guest.id, startDate, endDate, totalPrice,
                                Some(Choice(StatusChoices, s.statusChoice)));
      var payment := Payment(s.paymentId, booking.id, totalPrice, Choice(MethodChoices, s.methodChoice));
      var review := Review(s.reviewId, listing.id, guest.id, s.rating, s.comment);
      SeedStay(s, guests, listings) == Stay(booking, payment, review)
  {
  }

  /** The keys of a booking round are new and its guest and listing are stored. */
  predicate StayFits(db: Db, s: StayDraw, guests: seq<User>, listings: seq<Listing>)
    requires |guests| > 0 && |listings| > 0
  {
    && s.bookingId !in db.bookings && s.paymentId !in db.payments && s.reviewId !in db.reviews
    && Choice(listings, s.listingChoice).id in db.listings && Choice(guests, s.guestChoice).id in db.users
  }

  function WithStay(db: Db, st: Stay): Db {
    db.(bookings := db.bookings[st.booking.id := st.booking],
        payments := db.payments[st.payment.id := st.payment],
        reviews := db.reviews[st.review.id := st.review])
  }

  /** The key of a message round is new and both users are stored. */
  predicate MessageFits(db: Db, m: Message) {
    m.id !in db.messages && m.sender in db.users && m.recipient in db.users
  }

  /** The stores the booking loop passes through; each round fits the store before it. */
  function StayStages(d: Draws): (r: seq<Db>)
    requires Sized(d) && Fresh(d) && CanSeed(d)
    ensures |r| == BookingCount + 1 && r[0] == AfterStays(d, 0) && r[BookingCount] == AfterStays(d, BookingCount)
    ensures forall i :: 0 <= i < BookingCount ==>
      && StayFits(r[i], d.stays[i], Guests(d), SeededListings(d))
      && r[i + 1] == WithStay(r[i], SeedStay(d.stays[i], Guests(d), SeededListings(d)))
  {
    var r := seq(BookingCount + 1, i requires 0 <= i <= BookingCount => AfterStays(d, i));
    assert forall i :: 0 <= i < BookingCount ==>
      && StayFits(r[i], d.stays[i], Guests(d), SeededListings(d))
      && r[i + 1] == WithStay(r[i], SeedStay(d.stays[i], Guests(d), SeededListings(d))) by {
      forall i | 0 <= i < BookingCount
        ensures StayFits(r[i], d.stays[i], Guests(d), SeededListings(d))
        ensures r[i + 1] == WithStay(r[i], SeedStay(d.stays[i], Guests(d), SeededListings(d)))
      {
        StayStep(d, i);
      }
    }
    r
  }

  function WithMessage(db: Db, m: Message): Db {
    db.(messages := db.messages[m.id := m])
  }

  /** The stores the message loop passes through; each round fits the store before it. */
  function MessageStages(d: Draws): (r: seq<Db>)
    requires Sized(d) && Fresh(d) && CanSeed(d)
    ensures |r| == MessageCount + 1 && r[0] == AfterMessages(d, 0) && r[MessageCount] == AfterMessages(d, MessageCount)
    ensures forall i :: 0 <= i < MessageCount ==>
      && MessageFits(r[i], SeedMessage(d.messages[i], SeededUsers(d)))
      && r[i + 1] == WithMessage(r[i], SeedMessage(d.messages[i], SeededUsers(d)))
  {
    var r := seq(MessageCount + 1, i requires 0 <= i <= MessageCount => AfterMessages(d, i));
    assert forall i :: 0 <= i < MessageCount ==>
      && MessageFits(r[i], SeedMessage(d.messages[i], SeededUsers(d)))
      && r[i + 1] == WithMessage(r[i], SeedMessage(d.messages[i], SeededUsers(d))) by {
      forall i | 0 <= i < MessageCount
        ensures MessageFits(r[i], SeedMessage(d.messages[i], SeededUsers(d)))
        ensures r[i + 1] == WithMessage(r[i], SeedMessage(d.messages[i], SeededUsers(d)))
      {
        MessageStep(d, i);
      }
    }
    r
  }

  // The command

  /** The six `all().delete()` calls, messages first and users last. */
  method ClearTables(store: Store)
    requires store.Valid()
    modifies store
    ensures store.Valid() && store.Snapshot() == EmptyDb
  {
    ghost var db := store.Snapshot();
    store.Delete(MessageModel, store.messages.Keys);
    store.Delete(ReviewModel, store.reviews.Keys);
    store.Delete(PaymentModel, store.payments.Keys);
    store.Delete(BookingModel, store.bookings.Keys);
    store.Delete(ListingModel, store.listings.Keys);
    store.Delete(UserModel, store.users.Keys);
    ClearingAllTablesEmptiesStore(db);
  }

  /** The user loop: five users with fabricated details and a role drawn from guest and host. */
  method CreateUsers(store: Store, d: Draws) returns (users: seq<User>)
    requires Sized(d) && Fresh(d) && store.Valid() && store.Snapshot() == EmptyDb
    modifies store
    ensures store.Valid() && store.Snapshot() == AfterUsers(d, UserCount)
    ensures users == SeededUsers(d)
  {
    users := [];
    assert SeededUsers(d)[..0] == [];
    for i := 0 to UserCount
      invariant users == SeededUsers(d)[..i]
      invariant store.Valid() && store.Snapshot() == AfterUsers(d, i)
    {
      var u := d.users[i];
      var user := User(u.id, u.firstName, u.lastName, u.email, u.passwordHash, u.phoneNumber,
                       Choice(RoleChoices, u.roleChoice));
      UserStep(d, i);
      var created := store.CreateUser(user);
      users := users + [user];
      PrefixStep(SeededUsers(d), i);
    }
    assert SeededUsers(d)[..UserCount] == SeededUsers(d);
  }

  /** The listing loop: five listings, each owned by a host chosen at random. */
  method CreateListings(store: Store, d: Draws, hosts: seq<User>) returns (listings: seq<Listing>)
    requires Sized(d) && Fresh(d) && CanSeed(d) && hosts == Hosts(d)
    requires store.Valid() && store.Snapshot() == AfterListings(d, 0)
    modifies store
    ensures store.Valid() && store.Snapshot() == AfterListings(d, ListingCount)
    ensures listings == SeededListings(d)
  {
    listings := [];
    assert SeededListings(d)[..0] == [];
    for i := 0 to ListingCount
      invariant listings == SeededListings(d)[..i]
      invariant store.Valid() && store.Snapshot() == AfterListings(d, i)
    {
      var l := d.listings[i];
      var listing := Listing(l.id, Choice(hosts, l.hostChoice).id, l.name, l.description, l.location, l.pricePerNight);
      ListingStep(d, i);
      var created := store.CreateListing(listing);
      listings := listings + [listing];
      PrefixStep(SeededListings(d), i);
    }
    assert SeededListings(d)[..ListingCount] == SeededListings(d);
  }

  /**
   * One round of the booking loop: pick a guest and a listing, price the
   * stay, then create the booking, its payment and its review.
   */
  method CreateStay(store: Store, s: StayDraw, guests: seq<User>, listings: seq<Listing>)
    requires |guests| > 0 && |listings| > 0
    requires store.Valid() && StayFits(store.Snapshot(), s, guests, listings)
    modifies store
    ensures store.Valid() && store.Snapshot() == WithStay(old(store.Snapshot()), SeedStay(s, guests, listings))
  {
    ghost var st := SeedStay(s, guests, listings);
    SeedStayUnfolds(s, guests, listings);
    var guest := Choice(guests, s.guestChoice);
    var listing := Choice(listings, s.listingChoice);
    var startDate := s.startDate;
    var endDate := startDate + s.nights;
    var totalPrice := StayPrice(listing.pricePerNight, startDate, endDate);
    var booking := NewBooking(s.bookingId, listing.id, guest.id, startDate, endDate, totalPrice,
                              Some(Choice(StatusChoices, s.statusChoice)));
    assert booking == st.booking;
    var bookingCreated := store.CreateBooking(booking);
    var payment := Payment(s.paymentId, booking.id, totalPrice, Choice(MethodChoices, s.methodChoice));
    assert payment == st.payment;
    var paymentCreated := store.CreatePayment(payment);
    var review := Review(s.reviewId, listing.id, guest.id, s.rating, s.comment);
    assert review == st.review;
    var reviewCreated := store.CreateReview(review);
  }

  /** The booking loop: one `CreateStay` round per draw, passing through the given stages. */
  method CreateStays(store: Store, stays: seq<StayDraw>, guests: seq<User>, listings: seq<Listing>,
                     ghost stages: seq<Db>)
    requires |guests| > 0 && |listings| > 0 && |stages| == |stays| + 1
    requires forall i :: 0 <= i < |stays| ==>
      StayFits(stages[i], stays[i], guests, listings)
      && stages[i + 1] == WithStay(stages[i], SeedStay(stays[i], guests, listings))
    requires store.Valid() && store.Snapshot() == stages[0]
    modifies store
    ensures store.Valid() && store.Snapshot() == stages[|stays|]
  {
    for i := 0 to |stays|
      invariant store.Valid() && store.Snapshot() == stages[i]
    {
      CreateStay(store, stays[i], guests, listings);
    }
  }

  /** The message loop: each message goes between two distinct users sampled from all of them. */
  method CreateMessages(store: Store, messages: seq<MessageDraw>, users: seq<User>, ghost stages: seq<Db>)
    requires |stages| == |messages| + 1
    requires forall i :: 0 <= i < |messages| ==> messages[i].senderIndex < |users| && messages[i].recipientIndex < |users|
    requires forall i :: 0 <= i < |messages| ==>
      && MessageFits(stages[i], SeedMessage(messages[i], users))
      && stages[i + 1] == WithMessage(stages[i], SeedMessage(messages[i], users))
    requires store.Valid() && store.Snapshot() == stages[0]
    modifies store
    ensures store.Valid() && store.Snapshot() == stages[|messages|]
  {
    for i := 0 to |messages|
      invariant store.Valid() && store.Snapshot() == stages[i]
    {
      var m := messages[i];
      var sender, recipient := users[m.senderIndex], users[m.recipientIndex];
      var message := Message(m.id, sender.id, recipient.id, m.messageBody);
      var created := store.CreateMessage(message);
    }
  }

  /**
   * The seeding command. It reports `NeedHostAndGuest` and stops, with only
   * the five users stored, when the users are all hosts or all guests;
   * otherwise it reports `Seeded`. Either way the store it leaves is
   * `Expected(draws)`, whatever the store held before.
   */
  method Handle(store: Store, d: Draws) returns (outcome: SeedOutcome)
    requires store.Valid() && Sized(d) && Fresh(d)
    modifies store
    ensures store.Valid()
    ensures outcome == (if CanSeed(d) then Seeded else NeedHostAndGuest)
    ensures store.Snapshot() == Expected(d)
  {
    ClearTables(store);
    var users := CreateUsers(store, d);
    StagesMeet(d);
    var hosts := WithRole(users, Host);
    var guests := WithRole(users, Guest);
    if |hosts| == 0 || |guests| == 0 {
      return NeedHostAndGuest;
    }
    var listings := CreateListings(store, d, hosts);
    CreateStays(store, d.stays, guests, listings, StayStages(d));
    CreateMessages(store, d.messages, users, MessageStages(d));
    outcome := Seeded;
  }
}
