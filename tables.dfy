/** The rows of the application's tables, the queries its handlers run, and
    the invariant the tables keep. Every table is a sequence in insertion
    order, which is also ascending key order; a `SELECT ... WHERE` answered by
    `fetchone()` yields the first matching row in that order. Each entity has
    one key (`userId`, `bookingId`), whichever column name a query uses. */
module Tables {
  import opened Text
  import opened Auth
  import TrackingIds

  datatype User = User(
    userId: nat,
    fullName: string,
    username: string,
    email: string,
    passwordHash: PasswordHash,
    role: string,
    status: string)

  /** A row of `customers` or of `employees`: the extension row of one user.
      Its other columns (phone, address, department, ...) are never written
      by the handlers modelled here. */
  datatype ProfileRow = ProfileRow(profileId: nat, userId: nat)

  /** What the booking form submits; a field the form lacks is None (NULL). */
  datatype CargoDetails = CargoDetails(
    senderName: Option<string>,
    senderAddress: Option<string>,
    senderPhone: Option<string>,
    recipientName: Option<string>,
    recipientAddress: Option<string>,
    recipientPhone: Option<string>,
    cargoDescription: Option<string>,
    weight: Option<string>,
    cargoValue: Option<string>)

  /** A row of `cargo_bookings`; dates are day numbers. */
  datatype Booking = Booking(
    bookingId: nat,
    trackingId: string,
    customerId: nat,
    details: CargoDetails,
    totalAmount: Option<string>,
    status: Option<string>,
    expectedDeliveryDate: int)

  /** A row of `tracking_updates`, an event in a booking's history. */
  datatype TrackingUpdate = TrackingUpdate(
    bookingId: nat,
    status: Option<string>,
    location: Option<string>,
    notes: Option<string>)

  datatype Invoice = Invoice(
    invoiceNumber: string,
    bookingId: nat,
    customerId: nat,
    subtotal: real,
    taxAmount: real,
    totalAmount: real,
    paymentStatus: string)

  /** All the tables, with the next AUTO_INCREMENT value of each keyed one. */
  datatype Db = Db(
    users: seq<User>,
    customers: seq<ProfileRow>,
    employees: seq<ProfileRow>,
    bookings: seq<Booking>,
    trackingUpdates: seq<TrackingUpdate>,
    invoices: seq<Invoice>,
    nextUserId: nat,
    nextCustomerId: nat,
    nextEmployeeId: nat,
    nextBookingId: nat)

  const EMPTY_DB := Db([], [], [], [], [], [], 1, 1, 1, 1)

  // ---------- queries ----------

  /** The index of the first row satisfying `p` (`fetchone()` of a SELECT). */
  function FirstIndex<T>(s: seq<T>, p: T -> bool): (r: Option<nat>)
    ensures r.Some? ==> r.value < |s| && p(s[r.value])
    ensures r.Some? ==> forall j :: 0 <= j < r.value ==> !p(s[j])
    ensures r.None? <==> forall j :: 0 <= j < |s| ==> !p(s[j])
  {
    if |s| == 0 then None
    else if p(s[0]) then Some(0)
    else match FirstIndex(s[1..], p)
      case None => None
      case Some(k) => Some(k + 1)
  }

  predicate Clashes(u: User, username: string, email: string) {
    u.username == username || u.email == email
  }

  /** `SELECT * FROM users WHERE username=%s OR email=%s`. */
  function FindIdentityClash(users: seq<User>, username: string, email: string): (r: Option<nat>)
    ensures r.Some? ==> r.value < |users| && Clashes(users[r.value], username, email)
    ensures r.Some? ==> forall j :: 0 <= j < r.value ==> !Clashes(users[j], username, email)
    ensures r.None? <==> forall j :: 0 <= j < |users| ==> !Clashes(users[j], username, email)
  {
    FirstIndex(users, (u: User) => Clashes(u, username, email))
  }

  /** `SELECT * FROM users WHERE username=%s AND role=%s`; a missing form
      field is NULL and matches no row. */
  function FindLoginUser(users: seq<User>, username: Option<string>, role: Option<string>): (r: Option<nat>)
    ensures r.Some? ==> r.value < |users| && Some(users[r.value].username) == username && Some(users[r.value].role) == role
    ensures r.None? <==> forall j :: 0 <= j < |users| ==> Some(users[j].username) != username || Some(users[j].role) != role
  {
    FirstIndex(users, (u: User) => Some(u.username) == username && Some(u.role) == role)
  }

  /** `SELECT ... FROM users WHERE user_id=%s`. */
  function FindUser(users: seq<User>, id: int): (r: Option<nat>)
    ensures r.Some? ==> r.value < |users| && users[r.value].userId == id
    ensures r.None? <==> forall j :: 0 <= j < |users| ==> users[j].userId != id
  {
    FirstIndex(users, (u: User) => u.userId == id)
  }

  /** `SELECT customer_id FROM customers WHERE user_id=%s`. */
  function FindProfileOf(rows: seq<ProfileRow>, userId: int): (r: Option<nat>)
    ensures r.Some? ==> r.value < |rows| && rows[r.value].userId == userId
    ensures r.None? <==> forall j :: 0 <= j < |rows| ==> rows[j].userId != userId
  {
    FirstIndex(rows, (c: ProfileRow) => c.userId == userId)
  }

  /** `SELECT ... FROM cargo_bookings WHERE booking_id=%s`. */
  function FindBooking(bookings: seq<Booking>, id: int): (r: Option<nat>)
    ensures r.Some? ==> r.value < |bookings| && bookings[r.value].bookingId == id
    ensures r.None? <==> forall j :: 0 <= j < |bookings| ==> bookings[j].bookingId != id
  {
    FirstIndex(bookings, (b: Booking) => b.bookingId == id)
  }

  /** `SELECT COUNT(*) FROM users WHERE role=%s`. */
  function CountRole(users: seq<User>, role: string): (n: nat)
    ensures n <= |users|
  {
    if |users| == 0 then 0
    else (if users[0].role == role then 1 else 0) + CountRole(users[1..], role)
  }

  // ---------- updates ----------

  /** `UPDATE users SET status=%s WHERE user_id=%s`. */
  function SetUserStatus(users: seq<User>, id: int, status: string): (r: seq<User>)
    ensures |r| == |users|
    ensures forall i :: 0 <= i < |r| ==> r[i] == users[i].(status := r[i].status)
    ensures forall i :: 0 <= i < |r| ==> r[i].status == if users[i].userId == id then status else users[i].status
  {
    seq(|users|, i requires 0 <= i < |users| =>
      if users[i].userId == id then users[i].(status := status) else users[i])
  }

  /** `UPDATE users SET password_hash=%s WHERE user_id=%s`. */
  function SetPasswordHash(users: seq<User>, id: int, h: PasswordHash): (r: seq<User>)
    ensures |r| == |users|
    ensures forall i :: 0 <= i < |r| ==> r[i] == users[i].(passwordHash := r[i].passwordHash)
    ensures forall i :: 0 <= i < |r| ==> r[i].passwordHash == if users[i].userId == id then h else users[i].passwordHash
  {
    seq(|users|, i requires 0 <= i < |users| =>
      if users[i].userId == id then users[i].(passwordHash := h) else users[i])
  }

  /** `UPDATE cargo_bookings SET status=%s WHERE booking_id=%s`. */
  function SetBookingStatus(bookings: seq<Booking>, id: int, status: Option<string>): (r: seq<Booking>)
    ensures |r| == |bookings|
    ensures forall i :: 0 <= i < |r| ==> r[i] == bookings[i].(status := r[i].status)
    ensures forall i :: 0 <= i < |r| ==> r[i].status == if bookings[i].bookingId == id then status else bookings[i].status
  {
    seq(|bookings|, i requires 0 <= i < |bookings| =>
      if bookings[i].bookingId == id then bookings[i].(status := status) else bookings[i])
  }

  // ---------- invariant ----------

  /** Keys are positive, ascending and below the next AUTO_INCREMENT value;
      usernames and emails are unique. */
  ghost predicate UsersWellFormed(users: seq<User>, next: nat) {
    && next >= 1
    && (forall i :: 0 <= i < |users| ==> 1 <= users[i].userId < next)
    && (forall i, j :: 0 <= i < j < |users| ==>
          users[i].userId < users[j].userId
          && users[i].username != users[j].username
          && users[i].email != users[j].email)
  }

  ghost predicate HasUserWithRole(users: seq<User>, id: nat, role: string) {
    exists j :: 0 <= j < |users| && users[j].userId == id && users[j].role == role
  }

  /** Extension rows have ascending keys and belong to a user of the role. */
  ghost predicate ProfilesWellFormed(rows: seq<ProfileRow>, next: nat, users: seq<User>, role: string) {
    && next >= 1
    && (forall i :: 0 <= i < |rows| ==> 1 <= rows[i].profileId < next)
    && (forall i, j :: 0 <= i < j < |rows| ==> rows[i].profileId < rows[j].profileId)
    && (forall i :: 0 <= i < |rows| ==> HasUserWithRole(users, rows[i].userId, role))
  }

  ghost predicate HasProfile(rows: seq<ProfileRow>, id: nat) {
    exists j :: 0 <= j < |rows| && rows[j].profileId == id
  }

  ghost predicate HasUpdate(updates: seq<TrackingUpdate>, bookingId: nat) {
    exists j :: 0 <= j < |updates| && updates[j].bookingId == bookingId
  }

  /** Bookings have ascending keys, a well-formed tracking identifier, an
      owning customer, and at least one tracking update. */
  ghost predicate BookingsWellFormed(bookings: seq<Booking>, next: nat, customers: seq<ProfileRow>, updates: seq<TrackingUpdate>) {
    && next >= 1
    && (forall i :: 0 <= i < |bookings| ==> 1 <= bookings[i].bookingId < next)
    && (forall i, j :: 0 <= i < j < |bookings| ==> bookings[i].bookingId < bookings[j].bookingId)
    && (forall i :: 0 <= i < |bookings| ==>
          TrackingIds.IsTrackingId(bookings[i].trackingId)
          && HasProfile(customers, bookings[i].customerId)
          && HasUpdate(updates, bookings[i].bookingId))
  }

  ghost predicate HasBookingOf(bookings: seq<Booking>, bookingId: nat, customerId: nat) {
    exists j :: 0 <= j < |bookings| && bookings[j].bookingId == bookingId && bookings[j].customerId == customerId
  }

  /** Every invoice bills an existing booking's customer, and its total is
      its subtotal plus its tax. */
  ghost predicate InvoicesWellFormed(invoices: seq<Invoice>, bookings: seq<Booking>) {
    forall i :: 0 <= i < |invoices| ==>
      HasBookingOf(bookings, invoices[i].bookingId, invoices[i].customerId)
      && invoices[i].totalAmount == invoices[i].subtotal + invoices[i].taxAmount
  }

  ghost predicate WellFormed(db: Db) {
    && UsersWellFormed(db.users, db.nextUserId)
    && ProfilesWellFormed(db.customers, db.nextCustomerId, db.users, "customer")
    && ProfilesWellFormed(db.employees, db.nextEmployeeId, db.users, "employee")
    && BookingsWellFormed(db.bookings, db.nextBookingId, db.customers, db.trackingUpdates)
    && InvoicesWellFormed(db.invoices, db.bookings)
  }

  // ---------- frame lemmas: what a row change leaves true ----------

  /** `users'` keeps the key and role of every row of `users`, in place. */
  ghost predicate KeepsUserRoles(users: seq<User>, users': seq<User>) {
    |users| <= |users'| && forall j :: 0 <= j < |users| ==> users'[j].userId == users[j].userId && users'[j].role == users[j].role
  }

  lemma ProfilesKept(rows: seq<ProfileRow>, next: nat, users: seq<User>, users': seq<User>, role: string)
    requires ProfilesWellFormed(rows, next, users, role)
    requires KeepsUserRoles(users, users')
    ensures ProfilesWellFormed(rows, next, users', role)
  {
    forall i | 0 <= i < |rows| ensures HasUserWithRole(users', rows[i].userId, role) {
      var j :| 0 <= j < |users| && users[j].userId == rows[i].userId && users[j].role == role;
      assert users'[j].userId == rows[i].userId && users'[j].role == role;
    }
  }

  /** `bookings'` keeps the key and customer of every row of `bookings`, in place. */
  ghost predicate KeepsBookingOwners(bookings: seq<Booking>, bookings': seq<Booking>) {
    |bookings| <= |bookings'| && forall j :: 0 <= j < |bookings| ==> bookings'[j].bookingId == bookings[j].bookingId && bookings'[j].customerId == bookings[j].customerId
  }

  lemma InvoicesKept(invoices: seq<Invoice>, bookings: seq<Booking>, bookings': seq<Booking>)
    requires InvoicesWellFormed(invoices, bookings)
    requires KeepsBookingOwners(bookings, bookings')
    ensures InvoicesWellFormed(invoices, bookings')
  {
    forall i | 0 <= i < |invoices| ensures HasBookingOf(bookings', invoices[i].bookingId, invoices[i].customerId) {
      var j :| 0 <= j < |bookings| && bookings[j].bookingId == invoices[i].bookingId && bookings[j].customerId == invoices[i].customerId;
      assert bookings'[j].bookingId == invoices[i].bookingId;
    }
  }

  /** Appending rows to `customers` or `tracking_updates` keeps every booking owned and tracked. */
  lemma BookingsKept(bookings: seq<Booking>, next: nat, customers: seq<ProfileRow>, newCustomers: seq<ProfileRow>,
                     updates: seq<TrackingUpdate>, newUpdates: seq<TrackingUpdate>)
    requires BookingsWellFormed(bookings, next, customers, updates)
    ensures BookingsWellFormed(bookings, next, customers + newCustomers, updates + newUpdates)
  {
    forall i | 0 <= i < |bookings|
      ensures HasProfile(customers + newCustomers, bookings[i].customerId)
      ensures HasUpdate(updates + newUpdates, bookings[i].bookingId)
    {
      var j :| 0 <= j < |customers| && customers[j].profileId == bookings[i].customerId;
      assert (customers + newCustomers)[j] == customers[j];
      var k :| 0 <= k < |updates| && updates[k].bookingId == bookings[i].bookingId;
      assert (updates + newUpdates)[k] == updates[k];
    }
  }

  // ---------- properties of the queries and updates ----------

  lemma {:induction false} CountRoleAppend(users: seq<User>, u: User, role: string)
    ensures CountRole(users + [u], role) == CountRole(users, role) + (if u.role == role then 1 else 0)
  {
    if |users| > 0 {
      assert (users + [u])[1..] == users[1..] + [u];
      CountRoleAppend(users[1..], u, role);
    } else {
      assert users + [u] == [u];
    }
  }

  /** Role counts only see roles, so a status or password update leaves the
      admin dashboard's figures as they were. */
  lemma {:induction false} CountRoleKept(users: seq<User>, users': seq<User>, role: string)
    requires |users'| == |users|
    requires forall i :: 0 <= i < |users| ==> users'[i].role == users[i].role
    ensures CountRole(users', role) == CountRole(users, role)
  {
    if |users| > 0 {
      CountRoleKept(users[1..], users'[1..], role);
    }
  }

  /** A second status write to the same user overrides the first; writing the
      same status twice is the same as writing it once. */
  lemma SetUserStatusLastWins(users: seq<User>, id: int, first: string, second: string)
    ensures SetUserStatus(SetUserStatus(users, id, first), id, second) == SetUserStatus(users, id, second)
  {
    var a := SetUserStatus(SetUserStatus(users, id, first), id, second);
    var b := SetUserStatus(users, id, second);
    forall i | 0 <= i < |users| ensures a[i] == b[i] {
      assert SetUserStatus(users, id, first)[i].userId == users[i].userId;
    }
  }

  /** Status writes to two different users do not interfere. */
  lemma SetUserStatusCommutes(users: seq<User>, id1: int, s1: string, id2: int, s2: string)
    requires id1 != id2
    ensures SetUserStatus(SetUserStatus(users, id1, s1), id2, s2) == SetUserStatus(SetUserStatus(users, id2, s2), id1, s1)
  {
    var a := SetUserStatus(SetUserStatus(users, id1, s1), id2, s2);
    var b := SetUserStatus(SetUserStatus(users, id2, s2), id1, s1);
    forall i | 0 <= i < |users| ensures a[i] == b[i] {
      assert SetUserStatus(users, id1, s1)[i].userId == users[i].userId;
      assert SetUserStatus(users, id2, s2)[i].userId == users[i].userId;
    }
  }

  /** On unique keys the first match is the only match. */
  lemma FindUserUnique(users: seq<User>, next: nat, k: nat)
    requires UsersWellFormed(users, next)
    requires k < |users|
    ensures FindUser(users, users[k].userId) == Some(k)
  {
  }
}
