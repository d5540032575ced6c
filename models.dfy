/**
 * The six record types of the booking marketplace, their closed choice
 * enumerations and their human-readable labels (`__str__`).
 *
 * Primary keys are opaque identifiers; a key is represented by its canonical
 * text so that the identifier-based labels can be written out. Money is an
 * integer number of cents and a date is an integer day number.
 */
module Models {

  datatype Option<T> = None | Some(value: T)

  type Uuid = string
  type Cents = int
  type Day = int

  /** The role choices of a user; `Value` is the stored text. */
  datatype Role = Guest | Host | Admin {
    function Value(): string {
      match this
      case Guest => "guest"
      case Host => "host"
      case Admin => "admin"
    }
  }

  /** The status choices of a booking; `Value` is the stored text. */
  datatype Status = Pending | Confirmed | Canceled {
    function Value(): string {
      match this
      case Pending => "pending"
      case Confirmed => "confirmed"
      case Canceled => "canceled"
    }
  }

  /** The payment-method choices of a payment; `Value` is the stored text. */
  datatype PaymentMethod = CreditCard | PayPal | Stripe {
    function Value(): string {
      match this
      case CreditCard => "credit_card"
      case PayPal => "paypal"
      case Stripe => "stripe"
    }
  }

  /** Reads a stored role text back; only the three declared choices are roles. */
  function ParseRole(s: string): Option<Role> {
    if s == "guest" then Some(Guest)
    else if s == "host" then Some(Host)
    else if s == "admin" then Some(Admin)
    else None
  }

  function ParseStatus(s: string): Option<Status> {
    if s == "pending" then Some(Pending)
    else if s == "confirmed" then Some(Confirmed)
    else if s == "canceled" then Some(Canceled)
    else None
  }

  function ParsePaymentMethod(s: string): Option<PaymentMethod> {
    if s == "credit_card" then Some(CreditCard)
    else if s == "paypal" then Some(PayPal)
    else if s == "stripe" then Some(Stripe)
    else None
  }

  /** A stored text denotes a role exactly when it is that role's value: the choices are closed. */
  lemma RoleChoicesClosed(s: string, r: Role)
    ensures ParseRole(s) == Some(r) <==> r.Value() == s
    ensures ParseRole(s) == None <==> s !in {"guest", "host", "admin"}
  {
    assert "guest"[0] != "host"[0] && "host"[0] != "admin"[0] && "guest"[0] != "admin"[0];
  }

  lemma StatusChoicesClosed(s: string, st: Status)
    ensures ParseStatus(s) == Some(st) <==> st.Value() == s
    ensures ParseStatus(s) == None <==> s !in {"pending", "confirmed", "canceled"}
  {
    assert "pending"[0] != "confirmed"[0] && "confirmed"[1] != "canceled"[1] && "pending"[0] != "canceled"[0];
  }

  lemma PaymentMethodChoicesClosed(s: string, m: PaymentMethod)
    ensures ParsePaymentMethod(s) == Some(m) <==> m.Value() == s
    ensures ParsePaymentMethod(s) == None <==> s !in {"credit_card", "paypal", "stripe"}
  {
    assert "credit_card"[0] != "paypal"[0] && "paypal"[0] != "stripe"[0] && "credit_card"[0] != "stripe"[0];
  }

  datatype User = User(
    id: Uuid,
    firstName: string,
    lastName: string,
    email: string,
    passwordHash: string,
    phoneNumber: string,
    role: Role)

  /** `host` is the key of the owning user. */
  datatype Listing = Listing(
    id: Uuid,
    host: Uuid,
    name: string,
    description: string,
    location: string,
    pricePerNight: Cents)

  /** `listing` and `user` (the guest) are keys. */
  datatype Booking = Booking(
    id: Uuid,
    listing: Uuid,
    user: Uuid,
    startDate: Day,
    endDate: Day,
    totalPrice: Cents,
    status: Status)

  datatype Payment = Payment(
    id: Uuid,
    booking: Uuid,
    amount: Cents,
    paymentMethod: PaymentMethod)

  /** The rating is a plain integer: the schema attaches no range to it. */
  datatype Review = Review(
    id: Uuid,
    listing: Uuid,
    user: Uuid,
    rating: int,
    comment: string)

  datatype Message = Message(
    id: Uuid,
    sender: Uuid,
    recipient: Uuid,
    messageBody: string)

  /** Builds a booking the way the model's constructor does: an omitted status is `Pending`. */
  function NewBooking(id: Uuid, listing: Uuid, user: Uuid, startDate: Day, endDate: Day,
                      totalPrice: Cents, status: Option<Status>): (b: Booking)
    ensures status.None? ==> b.status == Pending
    ensures status.Some? ==> b.status == status.value
    ensures b.id == id && b.listing == listing && b.user == user
    ensures b.startDate == startDate && b.endDate == endDate && b.totalPrice == totalPrice
  {
    Booking(id, listing, user, startDate, endDate, totalPrice,
            match status case Some(s) => s case None => Pending)
  }

  // Labels

  /** A user's label is the first name, one space, then the last name. */
  function UserLabel(u: User): (s: string)
    ensures |s| == |u.firstName| + 1 + |u.lastName|
    ensures s[..|u.firstName|] == u.firstName
    ensures s[|u.firstName|] == ' '
    ensures s[|u.firstName| + 1..] == u.lastName
  {
    u.firstName + " " + u.lastName
  }

  function ListingLabel(l: Listing): (s: string)
    ensures s == l.name
  {
    l.name
  }

  const BookingPrefix: string := "Booking "
  const PaymentPrefix: string := "Payment "
  const ReviewPrefix: string := "Review by "

  function BookingLabel(b: Booking): (s: string)
    ensures |s| == |BookingPrefix| + |b.id|
    ensures s[..|BookingPrefix|] == BookingPrefix && s[|BookingPrefix|..] == b.id
  {
    BookingPrefix + b.id
  }

  function PaymentLabel(p: Payment): (s: string)
    ensures |s| == |PaymentPrefix| + |p.id|
    ensures s[..|PaymentPrefix|] == PaymentPrefix && s[|PaymentPrefix|..] == p.id
  {
    PaymentPrefix + p.id
  }

  /** Two bookings share a label exactly when they share a key. */
  lemma BookingLabelsIdentify(a: Booking, b: Booking)
    ensures BookingLabel(a) == BookingLabel(b) <==> a.id == b.id
  {
    if BookingLabel(a) == BookingLabel(b) {
      assert a.id == BookingLabel(a)[|BookingPrefix|..];
    }
  }

  /** Two payments share a label exactly when they share a key. */
  lemma PaymentLabelsIdentify(a: Payment, b: Payment)
    ensures PaymentLabel(a) == PaymentLabel(b) <==> a.id == b.id
  {
    if PaymentLabel(a) == PaymentLabel(b) {
      assert a.id == PaymentLabel(a)[|PaymentPrefix|..];
    }
  }

  /** Splits a text at its first space (the whole text and "" when it has none). */
  function SplitAtSpace(s: string): (string, string) {
    if s == [] then ([], [])
    else if s[0] == ' ' then ([], s[1..])
    else
      var (a, b) := SplitAtSpace(s[1..]);
      ([s[0]] + a, b)
  }

  lemma {:induction false} SplitAtSpaceJoined(a: string, b: string)
    requires ' ' !in a
    ensures SplitAtSpace(a + " " + b) == (a, b)
  {
    if a == [] {
      assert a + " " + b == [' '] + b;
    } else {
      var s := a + " " + b;
      assert s[0] == a[0] && a[0] != ' ';
      assert s[1..] == a[1..] + " " + b;
      SplitAtSpaceJoined(a[1..], b);
      assert [a[0]] + a[1..] == a;
    }
  }

  /** A user label gives back both names when the first name holds no space. */
  lemma UserLabelRecoversNames(u: User)
    requires ' ' !in u.firstName
    ensures SplitAtSpace(UserLabel(u)) == (u.firstName, u.lastName)
  {
    SplitAtSpaceJoined(u.firstName, u.lastName);
  }

  /** A review's label: the prefix, then the label of its user. */
  function ReviewLabelOf(author: User): (s: string)
    ensures |s| == |ReviewPrefix| + |UserLabel(author)|
    ensures s[..|ReviewPrefix|] == ReviewPrefix && s[|ReviewPrefix|..] == UserLabel(author)
  {
    ReviewPrefix + UserLabel(author)
  }

  /** A message's label: "From ", the sender's label, " to ", the recipient's label. */
  function MessageLabelOf(sender: User, recipient: User): (s: string)
    ensures |s| == 5 + |UserLabel(sender)| + 4 + |UserLabel(recipient)|
    ensures s[..5] == "From " && s[5..5 + |UserLabel(sender)|] == UserLabel(sender)
    ensures s[5 + |UserLabel(sender)|..9 + |UserLabel(sender)|] == " to "
    ensures s[9 + |UserLabel(sender)|..] == UserLabel(recipient)
  {
    "From " + UserLabel(sender) + " to " + UserLabel(recipient)
  }

  /** Two reviews have the same label exactly when their authors have the same user label. */
  lemma ReviewLabelsIdentifyAuthorLabel(a: User, b: User)
    ensures ReviewLabelOf(a) == ReviewLabelOf(b) <==> UserLabel(a) == UserLabel(b)
  {
    if ReviewLabelOf(a) == ReviewLabelOf(b) {
      assert UserLabel(a) == ReviewLabelOf(a)[|ReviewPrefix|..];
    }
  }

  /**
   * A message's label does not determine its sender and recipient: a last
   * name may itself contain " to ", so two different pairs of users can give
   * the same label.
   */
  lemma MessageLabelIsAmbiguous() returns (s1: User, r1: User, s2: User, r2: User)
    ensures s1 != s2 && r1 != r2
    ensures MessageLabelOf(s1, r1) == MessageLabelOf(s2, r2)
  {
    s2 := User("1", "x", "y", "a@example.com", "", "", Guest);
    r1 := User("2", "p", "q", "b@example.com", "", "", Host);
    s1 := s2.(lastName := s2.lastName + " to z");
    r2 := r1.(firstName := "z", lastName := "to " + UserLabel(r1));
    assert |s1.lastName| != |s2.lastName|;
    assert r1.firstName[0] != r2.firstName[0];
    calc {
      MessageLabelOf(s1, r1);
      "From " + (s2.firstName + " " + (s2.lastName + " to z")) + " to " + UserLabel(r1);
      { assert s2.firstName + " " + (s2.lastName + " to z") == UserLabel(s2) + " to z"; }
      "From " + (UserLabel(s2) + " to z") + " to " + UserLabel(r1);
      "From " + UserLabel(s2) + " to " + ("z" + " " + ("to " + UserLabel(r1)));
      MessageLabelOf(s2, r2);
    }
  }

}
