# Booking marketplace: schema and fixture seeder, verified in Dafny

This project models the core of a small Django booking marketplace. It has two parts:

- The **schema**: the six models `User`, `Listing`, `Booking`, `Payment`, `Review` and `Message`. This covers their closed choice enumerations, the `pending` default of a booking's status, the unique user email, the cascade-on-delete foreign keys and the `__str__` labels.
- The **seeding command** (`Command.handle`). It clears the six tables and creates five users. It splits them into hosts and guests and stops when either group is empty. Otherwise it creates five listings, ten bookings (each with one payment and one review) and ten messages.

The files are:

- `models.dfy` (module `Models`): the record types, the enumerations with their stored texts, `NewBooking` and the labels.
- `database.dfy` (module `Database`): the relational store as a value `Db`, made of one map per table from primary key to record.
  - `Valid` holds when every row is under its own key, every foreign key resolves and no two users share an email.
  - `Insert*` gives the meaning of `objects.create`.
  - `Delete` is a cascading delete, collected model by model along each foreign key, the way the ORM collector does.
  - `Cascade` is an independent reference definition: "remove every stored row that transitively references a deleted row". The lemmas prove that the two agree and that deletion keeps the store valid.
- `store.dfy` (module `ObjectStore`): the store as an object (`class Store`) with six map fields updated in place.
  - Each `Create*` method either commits exactly the record or rejects it, leaving the tables unchanged, and keeps `Valid()`.
  - `Delete` removes exactly what `Database.Delete` removes.
- `seed.dfy` (module `Seed`): the command.
  - `Handle` is an imperative method over a `Store`, with one loop per `for` loop of the command and the early return.
  - Each random or fabricated value is an input (`Draws`).
  - `Expected(d)` is the store the command should leave, written as a function of the draws. `Handle` is proved to leave exactly that store and to report the matching outcome.
- `properties.dfy` (module `SeedFacts`): what `Expected(d)` holds. This covers the counts, roles, the early exit, prices, dates, the payment/booking and review/booking agreement, and messages between distinct users.

How randomness is modelled:

- A `random.choice` is a natural-number index reduced modulo the length of the list (`Seed.Choice`).
- `random.uniform`, `random.randint` and `fake.date_between` give values that `InRange` constrains to their documented ranges.
- `random.sample(users, 2)` gives two distinct positions, required by `Sized`.
- `uuid.uuid4()` and `fake.unique.email()` give pairwise-distinct values, required by `Fresh`.

Other representation choices:

- Money is an integer number of cents and a date is an integer day number.
- The console messages are modelled as the outcome value `Seeded` or `NeedHostAndGuest`.

Each review reuses the booking's `listing` and `guest` (listings/management/commands/seed.py:91-98); it does not draw a listing and a user of its own.

## Model

| member | source | states |
|---|---|---|
| Models.RoleChoicesClosed | listings/models.py:6-9 | a stored text is a role exactly when it is that role's value; any other text is no role |
| Models.StatusChoicesClosed | listings/models.py:39-42 | a stored text is a booking status exactly when it is that status's value; any other text is none |
| Models.PaymentMethodChoicesClosed | listings/models.py:58-61 | a stored text is a payment method exactly when it is that method's value; any other text is none |
| Models.NewBooking | listings/models.py:50 | a booking created without a status is `Pending`; a given status is kept; every other field is as given |
| Models.UserLabel | listings/models.py:20-21 | the label is the first name, then one space, then the last name |
| Models.UserLabelRecoversNames | listings/models.py:20-21 | when the first name holds no space, splitting the label at its first space gives back both names |
| Models.BookingLabel | listings/models.py:53-54 | the label is "Booking " followed by the booking's key |
| Models.BookingLabelsIdentify | listings/models.py:53-54 | two bookings have the same label exactly when they have the same key |
| Models.PaymentLabel | listings/models.py:69-70 | the label is "Payment " followed by the payment's key |
| Models.PaymentLabelsIdentify | listings/models.py:69-70 | two payments have the same label exactly when they have the same key |
| Models.ReviewLabelOf | listings/models.py:81-82 | the label is "Review by " followed by the author's user label |
| Models.MessageLabelOf | listings/models.py:92-93 | the label is "From ", the sender's label, " to ", then the recipient's label |
| Models.ReviewLabelsIdentifyAuthorLabel | listings/models.py:81-82 | two reviews have the same label exactly when their authors have the same user label |
| Models.MessageLabelIsAmbiguous | listings/models.py:92-93 | a message label does not determine its sender and recipient: two different pairs of users, one with " to " in a last name, give the same label |
| Database.InsertUser | listings/models.py:11-17 | accepted exactly when the key is new and no stored user has the email; otherwise `DuplicateKey` or `DuplicateEmail`; an accepted insert adds exactly that user and keeps the store valid |
| Database.UserInsertKeepsEmailsUnique | listings/models.py:14 | adding a user whose email is not taken keeps every email unique |
| Database.InsertListing | listings/models.py:25-26 | accepted exactly when the key is new and the host is a stored user; otherwise `DuplicateKey` or `MissingReference`; an accepted insert adds exactly the listing and keeps the store valid |
| Database.InsertBooking | listings/models.py:44-50 | accepted exactly when the key is new and both the listing and the guest are stored; error kinds; adds exactly the booking; keeps the store valid |
| Database.InsertPayment | listings/models.py:63-67 | accepted exactly when the key is new and the booking is stored; error kinds; adds exactly the payment; keeps the store valid |
| Database.InsertReview | listings/models.py:74-78 | accepted exactly when the key is new and both the listing and the user are stored; error kinds; adds exactly the review; keeps the store valid |
| Database.RatingIsNotValidated | listings/models.py:77 | whether a review is accepted does not depend on its rating: the schema bounds no rating |
| Database.InsertMessage | listings/models.py:86-89 | accepted exactly when the key is new and both sender and recipient are stored; error kinds; adds exactly the message; keeps the store valid |
| Database.SelfMessageAccepted | listings/models.py:87-88 | the schema accepts a message from a user to themselves |
| Database.CollectIsClosure | listings/models.py:26-88 | the rows the collector gathers along the cascade foreign keys are exactly the stored rows that transitively reference a deleted row |
| Database.CascadeKeepsReferences | listings/models.py:26-88 | after a cascading removal, every remaining foreign key still names a stored row |
| Database.CascadePreservesValid | listings/models.py:26-88 | a cascading removal keeps the store valid and only removes rows, changing none |
| Database.CascadeKeepsIndependentRows | listings/models.py:26-88 | a row survives a cascading delete exactly when it was stored and does not transitively reference a deleted row |
| Database.DeletePreservesValid | listings/models.py:26-88 | a delete equals the reference cascade, keeps the store valid and changes nothing but the removed rows |
| Database.DeleteUserRemovesOwnRows | listings/models.py:24-93 | deleting a user removes that user, every listing they host and every message they sent or received; other users and listings stay |
| Database.DeleteUserRemovesBookings | listings/models.py:45-46 | after deleting a user, every booking left is by someone else, for a stored listing that someone else hosts |
| Database.DeleteUserRemovesPayments | listings/models.py:64 | after deleting a user, every payment left belongs to a stored booking by someone else |
| Database.DeleteUserRemovesReviews | listings/models.py:75-76 | after deleting a user, every review left is by someone else, of a stored listing that someone else hosts |
| Database.DeleteListingRemovesDependents | listings/models.py:45-75 | deleting a listing removes it, its bookings and its reviews, keeps every other booking and changes no user or message |
| Database.DeleteListingRemovesPayments | listings/models.py:64 | after deleting a listing, every payment left belongs to a stored booking of another listing |
| Database.DeleteBookingRemovesPayments | listings/models.py:64 | deleting a booking removes exactly it and its payments; no other booking changes, and no user, listing, review or message |
| Database.ClearingLeafTable | listings/management/commands/seed.py:16-18 | deleting every message, every review or every payment empties exactly that table |
| Database.ClearingBookingsClearsPayments | listings/management/commands/seed.py:19 | deleting every booking of a store whose payments all have stored bookings empties both tables |
| Database.ClearingListingsClearsBookings | listings/management/commands/seed.py:20 | in a store whose references resolve, deleting every listing also empties bookings, payments and reviews |
| Database.ClearingUsersOfUserOnlyStore | listings/management/commands/seed.py:21 | deleting every user of a store that holds only users leaves it empty |
| Database.ClearingAllTablesEmptiesStore | listings/management/commands/seed.py:16-21 | the six deletes, in the command's order, leave every table of a valid store empty |
| ObjectStore.Store.CreateUser | listings/models.py:11-17 | commits or rejects exactly as `Database.InsertUser`; a rejected user leaves the store unchanged; the store stays valid |
| ObjectStore.Store.CreateListing | listings/models.py:25-26 | commits or rejects exactly as `Database.InsertListing`; the store stays valid |
| ObjectStore.Store.CreateBooking | listings/models.py:44-50 | commits or rejects exactly as `Database.InsertBooking`; the store stays valid |
| ObjectStore.Store.CreatePayment | listings/models.py:63-67 | commits or rejects exactly as `Database.InsertPayment`; the store stays valid |
| ObjectStore.Store.CreateReview | listings/models.py:74-78 | commits or rejects exactly as `Database.InsertReview`; the store stays valid |
| ObjectStore.Store.CreateMessage | listings/models.py:86-89 | commits or rejects exactly as `Database.InsertMessage`; the store stays valid |
| ObjectStore.Store.Delete | listings/models.py:26-88 | the new tables are `Database.Delete` of the old ones, which is the reference cascade; only rows are removed; the store stays valid |
| ObjectStore.Store.ReviewLabel | listings/models.py:81-82 | a stored review's user is stored, and the label is built from that user |
| ObjectStore.Store.MessageLabel | listings/models.py:92-93 | a stored message's sender and recipient are stored, and the label is built from both |
| Seed.Choice | listings/management/commands/seed.py:35 | a random choice is an element of the list |
| Seed.ChoiceReachesEveryElement | listings/management/commands/seed.py:35 | every element of the list can be the choice |
| Seed.WithRoleSelects | listings/management/commands/seed.py:41-42 | a user is in the role filter exactly when it is one of the users and has that role |
| Seed.RolesPartition | listings/management/commands/seed.py:41-42 | when no user is an admin, hosts and guests together are exactly the users, as a multiset and by count |
| Seed.ClearTables | listings/management/commands/seed.py:16-21 | after the six deletes the store is empty and valid |
| Seed.CreateUsers | listings/management/commands/seed.py:26-38 | the loop returns the five seeded users, and the store holds exactly them, under their keys |
| Seed.CreateListings | listings/management/commands/seed.py:49-61 | the loop returns the five seeded listings, and the store holds the users and exactly those listings |
| Seed.CreateStay | listings/management/commands/seed.py:65-98 | one round adds exactly the seeded booking, payment and review to the store |
| Seed.CreateStays | listings/management/commands/seed.py:64-98 | the booking loop passes through the given stores, round by round, and ends in the last |
| Seed.CreateMessages | listings/management/commands/seed.py:101-109 | the message loop passes through the given stores, round by round, and ends in the last |
| Seed.Handle | listings/management/commands/seed.py:14-111 | whatever the store held, it ends valid and equal to `Expected(draws)`; the outcome is `NeedHostAndGuest` exactly when hosts or guests are empty, and `Seeded` otherwise |
| SeedFacts.StoredUsers | listings/management/commands/seed.py:27-38 | five users are stored, each with role guest or host, and no two share an email |
| SeedFacts.HostsAndGuestsPartition | listings/management/commands/seed.py:41-42 | hosts and guests are exactly the users filtered by role, and together they partition the users |
| SeedFacts.EarlyExit | listings/management/commands/seed.py:44-46 | the command stops exactly when all five users drew the same role; then the store holds the users and every other table is empty |
| SeedFacts.SeededCounts | listings/management/commands/seed.py:14-111 | 5 users; past the guard 5 listings, 10 bookings, 10 payments, 10 reviews and 10 messages; otherwise no listings and no messages |
| SeedFacts.StoredListings | listings/management/commands/seed.py:50-61 | every stored listing's host is a stored user whose role is host, and its nightly price is 40.00 to 300.00 |
| SeedFacts.SeedStayAgrees | listings/management/commands/seed.py:64-98 | one round: the booking is for the chosen guest and listing; it ends the drawn nights after it starts and costs nightly price × nights; the payment is for that booking and total; the review has the same listing and guest |
| SeedFacts.StayBooksStoredParties | listings/management/commands/seed.py:65-70 | the i-th booking's guest is a stored guest, its listing is stored, and its total is that listing's nightly price times its days |
| SeedFacts.StayDatesInRange | listings/management/commands/seed.py:67-69 | the i-th booking lasts 2 to 5 days, ends after it starts, and starts 1 to 10 days after today |
| SeedFacts.StayRecordsAgree | listings/management/commands/seed.py:83-98 | the i-th payment is for the i-th booking and its total; the i-th review has that booking's listing and guest |
| SeedFacts.StayRatingInRange | listings/management/commands/seed.py:95 | the i-th review is rated 1 to 5 |
| SeedFacts.StayStored | listings/management/commands/seed.py:72-98 | every round's booking, payment and review are in the store under their keys |
| SeedFacts.StoredBookingParties | listings/management/commands/seed.py:65-81 | every stored booking is by a stored user whose role is guest, for a stored listing, at that listing's nightly price times its days |
| SeedFacts.StoredBookingDates | listings/management/commands/seed.py:67-69 | every stored booking lasts 2 to 5 days and starts 1 to 10 days after today |
| SeedFacts.StoredPayments | listings/management/commands/seed.py:83-89 | every stored payment is for a stored booking, with amount equal to that booking's total |
| SeedFacts.OnePaymentPerBooking | listings/management/commands/seed.py:83-89 | every stored booking has a stored payment, and no two stored payments share a booking |
| SeedFacts.ReviewsMatchBookings | listings/management/commands/seed.py:91-98 | every stored review has the listing and the guest of some stored booking |
| SeedFacts.BookingsHaveReviews | listings/management/commands/seed.py:72-98 | every stored booking has a stored review of its listing by its guest |
| SeedFacts.StoredReviewRatings | listings/management/commands/seed.py:95 | every stored review is rated 1 to 5 |
| SeedFacts.StoredMessages | listings/management/commands/seed.py:101-109 | every stored message goes between two stored users, and the sender is not the recipient |

## Left out

- listings/serializers.py is not part of this model. Its classes declare field lists only, and their output comes from the REST framework.
- Randomness and Faker are inputs (`Draws`), not generators:
  - a `random.choice` is an arbitrary index reduced modulo the list length;
  - `random.sample(users, 2)` is two distinct positions;
  - ranged draws are values that `InRange` bounds.
- Seed.Handle: requires `Fresh`, i.e. that the `uuid.uuid4()` keys of each model and the `fake.unique.email()` emails are pairwise distinct. The source relies on them not colliding and does not handle a collision.
- Seed.Handle: `InRange` is not required. The command creates the same rows whatever numbers are drawn; the ranges are needed only for the bounds stated in `SeedFacts`.
- Money is integer cents, not floating point:
  - `round(random.uniform(40, 300), 2)` is a cent amount from 4000 to 30000;
  - the total is computed exactly as price × days; the float rounding of `round(price * days, 2)` is not modelled.
- Dates are day numbers; `timedelta` and `date_between` are addition on integers.
- `timezone.now()`, `created_at`, `updated_at`, `payment_date`, `sent_at` and the `auto_now`/`auto_now_add` mechanics are not part of the records.
- Models.ListingLabel: a listing's label is its name, so there is no property to state beyond the definition.
- Field lengths (`max_length`), the `EmailField` format and decimal widths are not checked.
- The `choices=` of `role`, `status` and `payment_method` (listings/models.py:17, 50, 67) are checked only by `full_clean()`, which `objects.create()` does not call, and no database constraint enforces them: the source stores any text up to `max_length` in these fields. The model's closed `Role`, `Status` and `PaymentMethod` datatypes cannot represent such rows, so the `Insert*` contracts say nothing about a row with an undeclared role, status or method.
- The console output (`self.stdout.write`) is modelled only as the outcome value returned by `Handle`.
- A rejected `objects.create` raises an integrity error in the source; here it is a `Rejected` outcome with the tables unchanged. `Handle` proves that no create it makes is rejected.
- Persistence, transactions and concurrency are not modelled.
