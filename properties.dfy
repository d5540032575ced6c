/**
 * What the store left by the seeding command holds, stated over
 * `Seed.Expected`: how many rows each table has, which users are hosts and
 * guests, the early exit, and the ranges and agreements of every listing,
 * booking, payment, review and message. `Seed.Handle` is proved to leave
 * exactly `Expected(d)`, so each fact here is a fact about the seeded store.
 */
module SeedFacts {
  import opened Models
  import opened Database
  import opened Seed

  /** The position, among the records created, of the one stored under `k`. */
  lemma IndexFind<T>(rs: seq<T>, key: T -> Uuid, k: Uuid) returns (j: nat)
    requires k in Index(rs, key)
    ensures j < |rs| && key(rs[j]) == k && Index(rs, key)[k] == rs[j]
  {
    IndexHoldsOnlyCreated(rs, key, k);
    j :| 0 <= j < |rs| && key(rs[j]) == k && Index(rs, key)[k] == rs[j];
  }

  // Finding the round that created a stored row

  /** The tables of the seeded store, when the command goes past its guard. */
  lemma ExpectedTables(d: Draws)
    requires Sized(d) && CanSeed(d)
    ensures Expected(d).users == Index(SeededUsers(d), UserKey)
    ensures Expected(d).listings == Index(SeededListings(d), ListingKey)
    ensures Expected(d).bookings == Index(SeededBookings(d), BookingKey)
    ensures Expected(d).payments == Index(SeededPayments(d), PaymentKey)
    ensures Expected(d).reviews == Index(SeededReviews(d), ReviewKey)
    ensures Expected(d).messages == Index(SeededMessages(d), MessageKey)
  {
  }

  /** A stored user is one of the five created, under its own key. */
  lemma UserRound(d: Draws, k: Uuid) returns (i: nat)
    requires Sized(d) && k in Expected(d).users
    ensures i < UserCount && SeededUsers(d)[i].id == k && Expected(d).users[k] == SeededUsers(d)[i]
  {
    i := IndexFind(SeededUsers(d), UserKey, k);
  }

  /** A stored booking is the booking of one round of the booking loop. */
  lemma BookingRound(d: Draws, k: Uuid) returns (i: nat)
    requires Sized(d) && CanSeed(d) && k in Expected(d).bookings
    ensures i < BookingCount && d.stays[i].bookingId == k && Expected(d).bookings[k] == StayOf(d, i).booking
  {
    ExpectedTables(d);
    i := IndexFind(SeededBookings(d), BookingKey, k);
    SeededStayAt(d, i);
  }

  /** A stored payment is the payment of one round of the booking loop. */
  lemma PaymentRound(d: Draws, k: Uuid) returns (i: nat)
    requires Sized(d) && CanSeed(d) && k in Expected(d).payments
    ensures i < BookingCount && d.stays[i].paymentId == k && Expected(d).payments[k] == StayOf(d, i).payment
  {
    ExpectedTables(d);
    i := IndexFind(SeededPayments(d), PaymentKey, k);
    SeededStayAt(d, i);
  }

  /** A stored review is the review of one round of the booking loop. */
  lemma ReviewRound(d: Draws, k: Uuid) returns (i: nat)
    requires Sized(d) && CanSeed(d) && k in Expected(d).reviews
    ensures i < BookingCount && d.stays[i].reviewId == k && Expected(d).reviews[k] == StayOf(d, i).review
  {
    ExpectedTables(d);
    i := IndexFind(SeededReviews(d), ReviewKey, k);
    SeededStayAt(d, i);
  }

  /** Every round's booking, payment and review are stored under their keys. */
  lemma StayStored(d: Draws, i: nat)
    requires Sized(d) && Fresh(d) && CanSeed(d) && i < BookingCount
    ensures var st, r := StayOf(d, i), Expected(d);
      && st.booking.id in r.bookings && r.bookings[st.booking.id] == st.booking
      && st.payment.id in r.payments && r.payments[st.payment.id] == st.payment
      && st.review.id in r.reviews && r.reviews[st.review.id] == st.review
  {
    ExpectedTables(d);
    SeededStaysKeysDistinct(d);
    SeededStayAt(d, i);
    IndexHoldsEveryCreated(SeededBookings(d), BookingKey, i);
    IndexHoldsEveryCreated(SeededPayments(d), PaymentKey, i);
    IndexHoldsEveryCreated(SeededReviews(d), ReviewKey, i);
  }

  // One round of the booking loop

  /**
   * One round from its draws: the booking is for the chosen guest and listing,
   * ends the drawn number of nights after it starts and costs the listing's
   * nightly price times those nights; the payment is for that booking and
   * that total, and the review is of the same listing by the same guest.
   */
  lemma SeedStayAgrees(s: StayDraw, guests: seq<User>, listings: seq<Listing>)
    requires |guests| > 0 && |listings| > 0
    ensures var st := SeedStay(s, guests, listings);
      var b, guest, listing := st.booking, Choice(guests, s.guestChoice), Choice(listings, s.listingChoice);
      && b.id == s.bookingId && b.user == guest.id && b.listing == listing.id
      && b.startDate == s.startDate && b.endDate - b.startDate == s.nights
      && b.totalPrice == StayPrice(listing.pricePerNight, b.startDate, b.endDate)
      && b.totalPrice == listing.pricePerNight * s.nights
      && b.status == Choice(StatusChoices, s.statusChoice)
      && st.payment == Payment(s.paymentId, b.id, b.totalPrice, Choice(MethodChoices, s.methodChoice))
      && st.review == Review(s.reviewId, b.listing, b.user, s.rating, s.comment)
  {
    SeedStayUnfolds(s, guests, listings);
  }

  /** The guest of the i-th round is a stored guest and its listing a stored listing. */
  lemma StayParties(d: Draws, i: nat)
    requires Sized(d) && Fresh(d) && CanSeed(d) && i < BookingCount
    ensures var s, r := d.stays[i], Expected(d);
      var guest, listing := Choice(Guests(d), s.guestChoice), Choice(SeededListings(d), s.listingChoice);
      && guest.id in r.users && r.users[guest.id] == guest && guest.role == Guest
      && listing.id in r.listings && r.listings[listing.id] == listing
  {
    var s := d.stays[i];
    var guest := Choice(Guests(d), s.guestChoice);
    WithRoleSelects(SeededUsers(d), Guest, guest);
    SeededUserStored(d, guest);
    SeededListingStored(d, Choice(SeededListings(d), s.listingChoice));
    ExpectedTables(d);
  }

  /**
   * The i-th round books a stored guest into a stored listing, at the
   * listing's stored nightly price times the nights between start and end.
   */
  lemma StayBooksStoredParties(d: Draws, i: nat)
    requires Sized(d) && Fresh(d) && CanSeed(d) && i < BookingCount
    ensures var b, r := StayOf(d, i).booking, Expected(d);
      && b.user in r.users && r.users[b.user].role == Guest
      && b.listing in r.listings
      && b.totalPrice == StayPrice(r.listings[b.listing].pricePerNight, b.startDate, b.endDate)
  {
    var s := d.stays[i];
    var listing := Choice(SeededListings(d), s.listingChoice);
    var b := StayOf(d, i).booking;
    SeedStayAgrees(s, Guests(d), SeededListings(d));
    StayParties(d, i);
    assert Expected(d).listings[b.listing] == listing;
  }

  /** The i-th booking lasts two to five nights and starts one to ten days after `today`. */
  lemma StayDatesInRange(d: Draws, today: Day, i: nat)
    requires Sized(d) && CanSeed(d) && InRange(d, today) && i < BookingCount
    ensures var b := StayOf(d, i).booking;
      && MinNights <= b.endDate - b.startDate <= MaxNights
      && b.startDate < b.endDate
      && today + FirstStartOffset <= b.startDate <= today + LastStartOffset
  {
    SeedStayAgrees(d.stays[i], Guests(d), SeededListings(d));
  }

  /**
   * The i-th payment is for the i-th booking and its whole total; the i-th
   * review is of that booking's listing by that booking's guest.
   */
  lemma StayRecordsAgree(d: Draws, i: nat)
    requires Sized(d) && CanSeed(d) && i < BookingCount
    ensures var st := StayOf(d, i);
      && st.payment.booking == st.booking.id && st.payment.amount == st.booking.totalPrice
      && st.review.listing == st.booking.listing && st.review.user == st.booking.user
  {
    SeedStayAgrees(d.stays[i], Guests(d), SeededListings(d));
  }

  /** The i-th review is rated one to five. */
  lemma StayRatingInRange(d: Draws, today: Day, i: nat)
    requires Sized(d) && CanSeed(d) && InRange(d, today) && i < BookingCount
    ensures MinRating <= StayOf(d, i).review.rating <= MaxRating
  {
    SeedStayAgrees(d.stays[i], Guests(d), SeededListings(d));
  }

  // The users, and the split into hosts and guests

  /** Five users are stored, each a guest or a host, never an admin, and no two share an email. */
  lemma StoredUsers(d: Draws)
    requires Sized(d) && Fresh(d)
    ensures |Expected(d).users| == UserCount
    ensures forall k :: k in Expected(d).users ==> Expected(d).users[k].role in RoleChoices
    ensures forall a, b ::
      a in Expected(d).users && b in Expected(d).users && Expected(d).users[a].email == Expected(d).users[b].email
      ==> a == b
  {
    var r := Expected(d);
    SeededUsersKeysDistinct(d);
    IndexSize(SeededUsers(d), UserKey);
    forall k | k in r.users ensures r.users[k].role in RoleChoices {
      var i := UserRound(d, k);
    }
    forall a, b | a in r.users && b in r.users && r.users[a].email == r.users[b].email
      ensures a == b
    {
      var i := UserRound(d, a);
      var j := UserRound(d, b);
      assert i == j;
    }
  }

  /** No seeded user is an admin: the role is drawn from guest and host only. */
  lemma SeededUsersNotAdmin(d: Draws)
    ensures forall i :: 0 <= i < |SeededUsers(d)| ==> SeededUsers(d)[i].role != Admin
  {
    forall i | 0 <= i < |SeededUsers(d)| ensures SeededUsers(d)[i].role != Admin {
      assert SeededUsers(d)[i].role in RoleChoices;
    }
  }

  /** The hosts and the guests are the users filtered by role; together they are all the users. */
  lemma HostsAndGuestsPartition(d: Draws)
    ensures forall u :: u in Hosts(d) <==> u in SeededUsers(d) && u.role == Host
    ensures forall u :: u in Guests(d) <==> u in SeededUsers(d) && u.role == Guest
    ensures multiset(Hosts(d)) + multiset(Guests(d)) == multiset(SeededUsers(d))
    ensures |Hosts(d)| + |Guests(d)| == |d.users|
  {
    forall u ensures u in Hosts(d) <==> u in SeededUsers(d) && u.role == Host {
      WithRoleSelects(SeededUsers(d), Host, u);
    }
    forall u ensures u in Guests(d) <==> u in SeededUsers(d) && u.role == Guest {
      WithRoleSelects(SeededUsers(d), Guest, u);
    }
    SeededUsersNotAdmin(d);
    RolesPartition(SeededUsers(d));
  }

  /**
   * The command stops at its guard exactly when the five users all drew the
   * same role, and then the store holds the users and nothing else.
   */
  lemma EarlyExit(d: Draws)
    requires Sized(d)
    ensures !CanSeed(d) <==>
      (forall i :: 0 <= i < UserCount ==> SeededUsers(d)[i].role == Guest) ||
      (forall i :: 0 <= i < UserCount ==> SeededUsers(d)[i].role == Host)
    ensures !CanSeed(d) ==>
      && Expected(d).users == Index(SeededUsers(d), UserKey)
      && Expected(d).listings == map[] && Expected(d).bookings == map[] && Expected(d).payments == map[]
      && Expected(d).reviews == map[] && Expected(d).messages == map[]
  {
    var us := SeededUsers(d);
    SeededUsersNotAdmin(d);
    if |Hosts(d)| == 0 {
      forall i | 0 <= i < UserCount ensures us[i].role == Guest {
        WithRoleSelects(us, Host, us[i]);
      }
    } else {
      assert Hosts(d)[0] in Hosts(d);
      WithRoleSelects(us, Host, Hosts(d)[0]);
    }
    if |Guests(d)| == 0 {
      forall i | 0 <= i < UserCount ensures us[i].role == Host {
        WithRoleSelects(us, Guest, us[i]);
      }
    } else {
      assert Guests(d)[0] in Guests(d);
      WithRoleSelects(us, Guest, Guests(d)[0]);
    }
  }

  /** How many rows each table holds: five users, and past the guard 5, 10, 10, 10 and 10 more. */
  lemma SeededCounts(d: Draws)
    requires Sized(d) && Fresh(d)
    ensures |Expected(d).users| == UserCount
    ensures CanSeed(d) ==>
      && |Expected(d).listings| == ListingCount
      && |Expected(d).bookings| == BookingCount
      && |Expected(d).payments| == BookingCount
      && |Expected(d).reviews| == BookingCount
      && |Expected(d).messages| == MessageCount
    ensures !CanSeed(d) ==> Expected(d).listings == map[] && Expected(d).messages == map[]
  {
    SeededUsersKeysDistinct(d);
    IndexSize(SeededUsers(d), UserKey);
    if CanSeed(d) {
      ExpectedTables(d);
      SeededListingsKeysDistinct(d);
      IndexSize(SeededListings(d), ListingKey);
      SeededStaysKeysDistinct(d);
      IndexSize(SeededBookings(d), BookingKey);
      IndexSize(SeededPayments(d), PaymentKey);
      IndexSize(SeededReviews(d), ReviewKey);
      SeededMessagesKeysDistinct(d);
      IndexSize(SeededMessages(d), MessageKey);
    }
  }

  // Listings

  /** A stored listing is the listing of one round of the listing loop. */
  lemma ListingRound(d: Draws, k: Uuid) returns (i: nat)
    requires Sized(d) && CanSeed(d) && k in Expected(d).listings
    ensures i < ListingCount && Expected(d).listings[k] == SeedListing(d.listings[i], Hosts(d))
  {
    ExpectedTables(d);
    i := IndexFind(SeededListings(d), ListingKey, k);
  }

  /** Every stored listing belongs to a stored host and costs 40.00 to 300.00 a night. */
  lemma StoredListings(d: Draws, today: Day)
    requires WellFormed(d, today) && CanSeed(d)
    ensures forall k :: k in Expected(d).listings ==>
      && Expected(d).listings[k].host in Expected(d).users
      && Expected(d).users[Expected(d).listings[k].host].role == Host
      && MinPrice <= Expected(d).listings[k].pricePerNight <= MaxPrice
  {
    var r := Expected(d);
    forall k | k in r.listings
      ensures r.listings[k].host in r.users && r.users[r.listings[k].host].role == Host
      ensures MinPrice <= r.listings[k].pricePerNight <= MaxPrice
    {
      var i := ListingRound(d, k);
      var host := Choice(Hosts(d), d.listings[i].hostChoice);
      WithRoleSelects(SeededUsers(d), Host, host);
      SeededUserStored(d, host);
    }
  }

  // Bookings, payments and reviews

  /** A stored booking is by a stored guest for a stored listing, at its nightly price times the nights. */
  lemma StoredBookingParties(d: Draws, k: Uuid)
    requires Sized(d) && Fresh(d) && CanSeed(d) && k in Expected(d).bookings
    ensures var r := Expected(d);
      var b := r.bookings[k];
      && b.user in r.users && r.users[b.user].role == Guest
      && b.listing in r.listings
      && b.totalPrice == StayPrice(r.listings[b.listing].pricePerNight, b.startDate, b.endDate)
  {
    var i := BookingRound(d, k);
    StayBooksStoredParties(d, i);
  }

  /** Every stored booking lasts two to five nights and starts one to ten days after `today`. */
  lemma StoredBookingDates(d: Draws, today: Day)
    requires WellFormed(d, today) && CanSeed(d)
    ensures forall k :: k in Expected(d).bookings ==>
      && MinNights <= Expected(d).bookings[k].endDate - Expected(d).bookings[k].startDate <= MaxNights
      && today + FirstStartOffset <= Expected(d).bookings[k].startDate <= today + LastStartOffset
  {
    var r := Expected(d);
    forall k | k in r.bookings
      ensures MinNights <= r.bookings[k].endDate - r.bookings[k].startDate <= MaxNights
      ensures today + FirstStartOffset <= r.bookings[k].startDate <= today + LastStartOffset
    {
      var i := BookingRound(d, k);
      StayDatesInRange(d, today, i);
    }
  }

  /** Every stored payment is for a stored booking and for that booking's whole total. */
  lemma StoredPayments(d: Draws)
    requires Sized(d) && Fresh(d) && CanSeed(d)
    ensures forall k :: k in Expected(d).payments ==>
      && Expected(d).payments[k].booking in Expected(d).bookings
      && Expected(d).payments[k].amount == Expected(d).bookings[Expected(d).payments[k].booking].totalPrice
  {
    var r := Expected(d);
    forall k | k in r.payments
      ensures r.payments[k].booking in r.bookings
      ensures r.payments[k].amount == r.bookings[r.payments[k].booking].totalPrice
    {
      var i := PaymentRound(d, k);
      StayRecordsAgree(d, i);
      StayStored(d, i);
    }
  }

  /** Each stored booking has exactly one stored payment. */
  lemma OnePaymentPerBooking(d: Draws)
    requires Sized(d) && Fresh(d) && CanSeed(d)
    ensures forall b :: b in Expected(d).bookings ==>
      exists p :: p in Expected(d).payments && Expected(d).payments[p].booking == b
    ensures forall p, q ::
      p in Expected(d).payments && q in Expected(d).payments &&
      Expected(d).payments[p].booking == Expected(d).payments[q].booking
      ==> p == q
  {
    var r := Expected(d);
    forall b | b in r.bookings
      ensures exists p :: p in r.payments && r.payments[p].booking == b
    {
      var i := BookingRound(d, b);
      StayStored(d, i);
      StayRecordsAgree(d, i);
      var p := StayOf(d, i).payment.id;
      assert p in r.payments && r.payments[p].booking == b;
    }
    forall p, q | p in r.payments && q in r.payments && r.payments[p].booking == r.payments[q].booking
      ensures p == q
    {
      var i := PaymentRound(d, p);
      var j := PaymentRound(d, q);
      StayRecordsAgree(d, i);
      StayRecordsAgree(d, j);
      SeededStayAt(d, i);
      SeededStayAt(d, j);
      assert d.stays[i].bookingId == d.stays[j].bookingId;
      assert i == j;
    }
  }

  /** Every stored review is of the listing, and by the guest, of a stored booking. */
  lemma ReviewsMatchBookings(d: Draws)
    requires Sized(d) && Fresh(d) && CanSeed(d)
    ensures forall k :: k in Expected(d).reviews ==>
      exists b :: b in Expected(d).bookings &&
        Expected(d).bookings[b].listing == Expected(d).reviews[k].listing &&
        Expected(d).bookings[b].user == Expected(d).reviews[k].user
  {
    var r := Expected(d);
    forall k | k in r.reviews
      ensures exists b :: b in r.bookings && r.bookings[b].listing == r.reviews[k].listing && r.bookings[b].user == r.reviews[k].user
    {
      var i := ReviewRound(d, k);
      StayStored(d, i);
      StayRecordsAgree(d, i);
      var b := StayOf(d, i).booking.id;
      assert b in r.bookings && r.bookings[b].listing == r.reviews[k].listing;
    }
  }

  /** Every stored booking has a stored review of its listing by its guest. */
  lemma BookingsHaveReviews(d: Draws)
    requires Sized(d) && Fresh(d) && CanSeed(d)
    ensures forall k :: k in Expected(d).bookings ==>
      exists v :: v in Expected(d).reviews &&
        Expected(d).reviews[v].listing == Expected(d).bookings[k].listing &&
        Expected(d).reviews[v].user == Expected(d).bookings[k].user
  {
    var r := Expected(d);
    forall k | k in r.bookings
      ensures exists v :: v in r.reviews && r.reviews[v].listing == r.bookings[k].listing && r.reviews[v].user == r.bookings[k].user
    {
      var i := BookingRound(d, k);
      StayStored(d, i);
      StayRecordsAgree(d, i);
      var v := StayOf(d, i).review.id;
      assert v in r.reviews && r.reviews[v].listing == r.bookings[k].listing;
    }
  }

  /** Every stored review is rated one to five. */
  lemma StoredReviewRatings(d: Draws, today: Day)
    requires WellFormed(d, today) && CanSeed(d)
    ensures forall k :: k in Expected(d).reviews ==> MinRating <= Expected(d).reviews[k].rating <= MaxRating
  {
    var r := Expected(d);
    forall k | k in r.reviews ensures MinRating <= r.reviews[k].rating <= MaxRating {
      var i := ReviewRound(d, k);
      StayRatingInRange(d, today, i);
    }
  }

  // Messages

  /** A stored message is the message of one round of the message loop. */
  lemma MessageRound(d: Draws, k: Uuid) returns (i: nat)
    requires Sized(d) && CanSeed(d) && k in Expected(d).messages
    ensures i < MessageCount && Expected(d).messages[k] == SeedMessage(d.messages[i], SeededUsers(d))
  {
    ExpectedTables(d);
    i := IndexFind(SeededMessages(d), MessageKey, k);
  }

  /** Every stored message goes between two different stored users. */
  lemma StoredMessages(d: Draws)
    requires Sized(d) && Fresh(d) && CanSeed(d)
    ensures forall k :: k in Expected(d).messages ==>
      && Expected(d).messages[k].sender in Expected(d).users
      && Expected(d).messages[k].recipient in Expected(d).users
      && Expected(d).messages[k].sender != Expected(d).messages[k].recipient
  {
    var r := Expected(d);
    forall k | k in r.messages
      ensures r.messages[k].sender in r.users && r.messages[k].recipient in r.users
      ensures r.messages[k].sender != r.messages[k].recipient
    {
      var i := MessageRound(d, k);
      var m := d.messages[i];
      SeededUserStored(d, SeededUsers(d)[m.senderIndex]);
      SeededUserStored(d, SeededUsers(d)[m.recipientIndex]);
      if m.senderIndex < m.recipientIndex {
        assert d.users[m.senderIndex].id != d.users[m.recipientIndex].id;
      } else {
        assert d.users[m.recipientIndex].id != d.users[m.senderIndex].id;
      }
    }
  }
}
