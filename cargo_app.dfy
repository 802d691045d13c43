/** The request handlers of the cargo application over its tables. Each
    protected handler first runs the `login_required` guard for its role and
    changes nothing when the guard turns the request away. Writes run as one
    transaction: they are committed together, or a database error rolls them
    all back. */
module CargoApp {
  import opened Text
  import opened Web
  import opened Auth
  import opened TrackingIds
  import opened Tables
  import Reports

  const CUSTOMER := "customer"
  const EMPLOYEE := "employee"
  const ADMIN := "admin"

  // ---------- signup ----------

  /** The signup form; a field the form lacks is None. */
  datatype SignupForm = SignupForm(
    fullname: Option<string>,
    username: Option<string>,
    email: Option<string>,
    password: Option<string>,
    role: Option<string>)
  {
    /** `all([fullname, username, email, password])`. */
    predicate Complete() {
      Truthy(fullname) && Truthy(username) && Truthy(email) && Truthy(password)
    }

    /** `request.form.get("role", "customer")`. */
    function Role(): string {
      if role.Some? then role.value else CUSTOMER
    }
  }

  const USERNAME_TAKEN := "Username already exists."
  const EMAIL_TAKEN := "Email already registered."

  /** The duplicate check: the first user row with the username or the email
      decides, and the username message is chosen when that row holds the
      username. None when the username and the email are both free. */
  function DuplicateMessage(users: seq<User>, username: string, email: string): (m: Option<string>)
    ensures m.None? <==> forall j :: 0 <= j < |users| ==> users[j].username != username && users[j].email != email
    ensures m.Some? ==> m.value == USERNAME_TAKEN || m.value == EMAIL_TAKEN
    ensures m == Some(USERNAME_TAKEN) ==>
      exists j :: 0 <= j < |users| && users[j].username == username
        && forall i :: 0 <= i < j ==> users[i].username != username && users[i].email != email
    ensures m == Some(EMAIL_TAKEN) ==>
      exists j :: 0 <= j < |users| && users[j].email == email
        && forall i :: 0 <= i <= j ==> users[i].username != username
  {
    match FindIdentityClash(users, username, email)
    case None => None
    case Some(k) => Some(if users[k].username == username then USERNAME_TAKEN else EMAIL_TAKEN)
  }

  /** When the username is taken (by user `a`), the username message is shown
      exactly when no user registered before `a` holds the email. */
  lemma UsernameMessageWins(users: seq<User>, next: nat, username: string, email: string, a: nat)
    requires UsersWellFormed(users, next)
    requires a < |users| && users[a].username == username
    ensures DuplicateMessage(users, username, email) == Some(USERNAME_TAKEN)
            <==> forall b :: 0 <= b < a ==> users[b].email != email
  {
    var k := FindIdentityClash(users, username, email).value;
    assert k <= a;
    if forall b :: 0 <= b < a ==> users[b].email != email {
      assert k == a;
    } else {
      var b :| 0 <= b < a && users[b].email == email;
      assert k <= b;
      assert users[k].username != users[a].username;
      assert DuplicateMessage(users, username, email) == Some(EMAIL_TAKEN);
    }
  }

  /** Both taken, by different users, with the email's holder registered
      first: the email message is shown. */
  lemma EmailMessageCanWin(h: PasswordHash)
    ensures DuplicateMessage(
              [User(1, "Ann", "ann", "shared@example.com", h, CUSTOMER, "active"),
               User(2, "Bob", "bob", "bob@example.com", h, CUSTOMER, "active")],
              "bob", "shared@example.com") == Some(EMAIL_TAKEN)
  {
    var users := [User(1, "Ann", "ann", "shared@example.com", h, CUSTOMER, "active"),
                  User(2, "Bob", "bob", "bob@example.com", h, CUSTOMER, "active")];
    assert Clashes(users[0], "bob", "shared@example.com");
    assert users[0].username != "bob";
  }

  /** The signup transaction's writes that a fault can hit: the user insert,
      then the extension-row insert when the role has one. */
  predicate SignupFaultHits(role: string, fault: Fault) {
    fault.FailsAt(0) || ((role == CUSTOMER || role == EMPLOYEE) && fault.FailsAt(1))
  }

  /** The user row signup inserts. */
  function NewUser(form: SignupForm, id: nat, salt: string): (u: User)
    requires form.Complete()
    ensures u.status == "active" && u.role == form.Role()
    ensures forall q :: CheckPassword(u.passwordHash, q) <==> q == form.password.value
  {
    User(id, form.fullname.value, form.username.value, form.email.value,
         HashPassword(form.password.value, salt), form.Role(), "active")
  }

  /** The extension row signup adds to the table of `role`: one row keyed
      `next` when `u` has that role, none otherwise. */
  function AddedProfile(next: nat, u: User, role: string): seq<ProfileRow> {
    if u.role == role then [ProfileRow(next, u.userId)] else []
  }

  /** The tables after a committed signup of `u`. */
  function AfterSignup(db: Db, u: User): Db {
    db.(users := db.users + [u], nextUserId := db.nextUserId + 1,
        customers := db.customers + AddedProfile(db.nextCustomerId, u, CUSTOMER),
        nextCustomerId := db.nextCustomerId + |AddedProfile(db.nextCustomerId, u, CUSTOMER)|,
        employees := db.employees + AddedProfile(db.nextEmployeeId, u, EMPLOYEE),
        nextEmployeeId := db.nextEmployeeId + |AddedProfile(db.nextEmployeeId, u, EMPLOYEE)|)
  }

  lemma UserAppendWellFormed(users: seq<User>, next: nat, u: User)
    requires UsersWellFormed(users, next)
    requires u.userId == next
    requires forall j :: 0 <= j < |users| ==> users[j].username != u.username && users[j].email != u.email
    ensures UsersWellFormed(users + [u], next + 1)
  {
  }

  lemma ProfileAppendWellFormed(rows: seq<ProfileRow>, next: nat, users: seq<User>, u: User, role: string)
    requires ProfilesWellFormed(rows, next, users, role)
    ensures ProfilesWellFormed(rows + AddedProfile(next, u, role), next + |AddedProfile(next, u, role)|, users + [u], role)
  {
    var users' := users + [u];
    assert KeepsUserRoles(users, users');
    ProfilesKept(rows, next, users, users', role);
    assert HasUserWithRole(users', u.userId, u.role) by {
      assert users'[|users|] == u;
    }
    if u.role != role {
      assert rows + AddedProfile(next, u, role) == rows;
    }
  }

  /** A user whose username and email are free, keyed by the next user id,
      can be added with its extension row without breaking the invariant. */
  lemma SignupWellFormed(db: Db, u: User)
    requires WellFormed(db)
    requires u.userId == db.nextUserId
    requires forall j :: 0 <= j < |db.users| ==> db.users[j].username != u.username && db.users[j].email != u.email
    ensures WellFormed(AfterSignup(db, u))
  {
    UserAppendWellFormed(db.users, db.nextUserId, u);
    ProfileAppendWellFormed(db.customers, db.nextCustomerId, db.users, u, CUSTOMER);
    ProfileAppendWellFormed(db.employees, db.nextEmployeeId, db.users, u, EMPLOYEE);
    BookingsKept(db.bookings, db.nextBookingId, db.customers, AddedProfile(db.nextCustomerId, u, CUSTOMER), db.trackingUpdates, []);
    assert db.trackingUpdates + [] == db.trackingUpdates;
  }

  /** Right after signing up, a login with the same username and role finds
      the new row, since no earlier row holds the username. */
  lemma SignupThenLogin(users: seq<User>, u: User)
    requires forall j :: 0 <= j < |users| ==> users[j].username != u.username
    ensures FindLoginUser(users + [u], Some(u.username), Some(u.role)) == Some(|users|)
  {
    var users' := users + [u];
    assert users'[|users|] == u;
    var found := FindLoginUser(users', Some(u.username), Some(u.role));
    assert found.Some?;
    assert forall j :: 0 <= j < |users| ==> users'[j].username != u.username;
  }

  // ---------- bookings ----------

  /** The tables after a committed booking of `b` with its first update `t`. */
  function AfterBooking(db: Db, b: Booking, t: TrackingUpdate): Db {
    db.(bookings := db.bookings + [b], nextBookingId := db.nextBookingId + 1,
        trackingUpdates := db.trackingUpdates + [t])
  }

  /** A booking keyed by the next booking id, with a well-formed tracking id,
      an existing customer and its own tracking update, keeps the invariant. */
  lemma BookingWellFormed(db: Db, b: Booking, t: TrackingUpdate)
    requires WellFormed(db)
    requires b.bookingId == db.nextBookingId && t.bookingId == b.bookingId
    requires IsTrackingId(b.trackingId) && HasProfile(db.customers, b.customerId)
    ensures WellFormed(AfterBooking(db, b, t))
  {
    var db' := AfterBooking(db, b, t);
    BookingsKept(db.bookings, db.nextBookingId, db.customers, [], db.trackingUpdates, [t]);
    assert db.customers + [] == db.customers;
    assert HasUpdate(db'.trackingUpdates, b.bookingId) by {
      assert db'.trackingUpdates[|db.trackingUpdates|] == t;
    }
    assert db'.bookings[|db.bookings|] == b;
    InvoicesKept(db.invoices, db.bookings, db'.bookings);
  }

  // ---------- login ----------

  /** The session keys `login` writes for user `u`. */
  function SessionOf(u: User): (s: SessionData)
    ensures u.userId != 0 ==> SignedIn(s)
    ensures s.role == Some(u.role)
  {
    SessionData(Some(u.userId), Some(u.username), Some(u.role))
  }

  /** The dashboard a successful login redirects to. */
  function DashboardFor(role: string): (p: Page)
    ensures p == AdminDashboard <==> role == ADMIN
    ensures p == EmployeeDashboard <==> role == EMPLOYEE
    ensures p == CustomerDashboard <==> role != ADMIN && role != EMPLOYEE
  {
    if role == ADMIN then AdminDashboard
    else if role == EMPLOYEE then EmployeeDashboard
    else CustomerDashboard
  }

  /** A session set up by login passes the guard of exactly the user's own role. */
  lemma LoginSessionGuard(u: User, required: string)
    requires u.userId != 0 && required != ""
    ensures Guard(SessionOf(u), Some(required)).Allow? <==> required == u.role
  {
  }

  // ---------- invoices ----------

  const TAX_RATE: real := 0.18
  const TOTAL_RATE: real := 1.18

  /** The invoice row inserted for `amount` (`float(amount)` read exactly). */
  function NewInvoice(number: string, bookingId: nat, customerId: nat, amount: real): (inv: Invoice)
    ensures inv.subtotal == amount && inv.taxAmount == amount * 18.0 / 100.0
    ensures inv.totalAmount == amount * 118.0 / 100.0 && inv.totalAmount == inv.subtotal + inv.taxAmount
    ensures inv.invoiceNumber == number && inv.bookingId == bookingId && inv.customerId == customerId
    ensures inv.paymentStatus == "unpaid"
  {
    Invoice(number, bookingId, customerId, amount, amount * TAX_RATE, amount * TOTAL_RATE, "unpaid")
  }

  /** Rewriting columns of users that are neither key, username, email nor
      role keeps the invariant. */
  lemma UsersRewriteWellFormed(db: Db, users': seq<User>)
    requires WellFormed(db)
    requires |users'| == |db.users|
    requires forall i :: 0 <= i < |users'| ==>
      users'[i].userId == db.users[i].userId && users'[i].username == db.users[i].username
      && users'[i].email == db.users[i].email && users'[i].role == db.users[i].role
    ensures WellFormed(db.(users := users'))
  {
    ProfilesKept(db.customers, db.nextCustomerId, db.users, users', CUSTOMER);
    ProfilesKept(db.employees, db.nextEmployeeId, db.users, users', EMPLOYEE);
  }

  // ---------- reports ----------

  /** `admin_generate_reports` on the rows its query returns. */
  method AdminGenerateReports(ctx: SessionData, rows: seq<Reports.ReportRow>) returns (resp: Response)
    ensures Guard(ctx, Some(ADMIN)).Deny? ==> resp == Guard(ctx, Some(ADMIN)).response
    ensures Guard(ctx, Some(ADMIN)).Allow? ==> resp == CsvReport(Reports.Report(rows))
  {
    var decision := Guard(ctx, Some(ADMIN));
    if decision.Deny? {
      return decision.response;
    }
    var body := Reports.RenderReport(rows);
    resp := CsvReport(body);
  }

  /** The application's tables, one field per table plus the AUTO_INCREMENT
      counters, and the handlers that read and write them. */
  class CargoDb {
    var users: seq<User>
    var customers: seq<ProfileRow>
    var employees: seq<ProfileRow>
    var bookings: seq<Booking>
    var trackingUpdates: seq<TrackingUpdate>
    var invoices: seq<Invoice>
    var nextUserId: nat
    var nextCustomerId: nat
    var nextEmployeeId: nat
    var nextBookingId: nat

    function Snapshot(): Db
      reads this
    {
      Db(users, customers, employees, bookings, trackingUpdates, invoices,
         nextUserId, nextCustomerId, nextEmployeeId, nextBookingId)
    }

    ghost predicate Valid()
      reads this
    {
      WellFormed(Snapshot())
    }

    /** An empty database. */
    constructor ()
      ensures Valid() && Snapshot() == EMPTY_DB
    {
      users, customers, employees := [], [], [];
      bookings, trackingUpdates, invoices := [], [], [];
      nextUserId, nextCustomerId, nextEmployeeId, nextBookingId := 1, 1, 1, 1;
    }

    /** `conn.rollback()`: the tables return to the transaction's start. */
    method Rollback(saved: Db)
      modifies this
      ensures Snapshot() == saved
    {
      users, customers, employees := saved.users, saved.customers, saved.employees;
      bookings, trackingUpdates, invoices := saved.bookings, saved.trackingUpdates, saved.invoices;
      nextUserId, nextCustomerId := saved.nextUserId, saved.nextCustomerId;
      nextEmployeeId, nextBookingId := saved.nextEmployeeId, saved.nextBookingId;
    }

    /** The signup transaction: insert the user row `u`, then the extension
        row its role has (customers or employees), commit; a failing write
        rolls back everything the transaction wrote. */
    method SignupTransaction(u: User, fault: Fault) returns (failed: bool)
      requires u.userId == nextUserId
      modifies this
      ensures failed == SignupFaultHits(u.role, fault)
      ensures Snapshot() == if failed then old(Snapshot()) else AfterSignup(old(Snapshot()), u)
    {
      var saved := Snapshot();
      failed := fault.FailsAt(0);
      if !failed {
        users := users + [u];
        nextUserId := nextUserId + 1;
        if u.role == CUSTOMER {
          failed := fault.FailsAt(1);
          if !failed {
            customers := customers + [ProfileRow(nextCustomerId, u.userId)];
            nextCustomerId := nextCustomerId + 1;
          }
        } else if u.role == EMPLOYEE {
          failed := fault.FailsAt(1);
          if !failed {
            employees := employees + [ProfileRow(nextEmployeeId, u.userId)];
            nextEmployeeId := nextEmployeeId + 1;
          }
        }
      }
      if failed {
        Rollback(saved);
      }
    }

    /** `signup` (POST): validate, reject a taken username or email, insert the
        user as "active" and its role's extension row, commit. */
    method Signup(form: SignupForm, salt: string, fault: Fault) returns (resp: Response)
      requires Valid()
      modifies this
      ensures Valid()
      ensures !form.Complete() ==>
        && resp == Redirect(SignupPage, Flash(Warning, "Please fill all required fields"))
        && Snapshot() == old(Snapshot())
      ensures form.Complete() && DuplicateMessage(old(users), form.username.value, form.email.value).Some? ==>
        && resp == Redirect(SignupPage, Flash(Danger, DuplicateMessage(old(users), form.username.value, form.email.value).value))
        && Snapshot() == old(Snapshot())
      ensures form.Complete() && DuplicateMessage(old(users), form.username.value, form.email.value).None?
              && SignupFaultHits(form.Role(), fault) ==>
        && resp == Render(SignupPage, Flash(Danger, "Error: " + fault.reason))
        && Snapshot() == old(Snapshot())
      ensures form.Complete() && DuplicateMessage(old(users), form.username.value, form.email.value).None?
              && !SignupFaultHits(form.Role(), fault) ==>
        && resp == Redirect(LoginPage, Flash(Success, "Registration successful. Please login."))
        && Snapshot() == AfterSignup(old(Snapshot()), NewUser(form, old(nextUserId), salt))
        && FindLoginUser(users, form.username, Some(form.Role())) == Some(|old(users)|)
        && (forall role :: CountRole(users, role) == CountRole(old(users), role) + (if role == form.Role() then 1 else 0))
    {
      if !form.Complete() {
        resp := Redirect(SignupPage, Flash(Warning, "Please fill all required fields"));
        return;
      }
      var username, email, role := form.username.value, form.email.value, form.Role();
      var hashed := HashPassword(form.password.value, salt);
      var duplicate := DuplicateMessage(users, username, email);
      if duplicate.Some? {
        resp := Redirect(SignupPage, Flash(Danger, duplicate.value));
        return;
      }
      var saved := Snapshot();
      var u := User(nextUserId, form.fullname.value, username, email, hashed, role, "active");
      var failed := SignupTransaction(u, fault);
      if failed {
        resp := Render(SignupPage, Flash(Danger, "Error: " + fault.reason));
      } else {
        SignupWellFormed(saved, u);
        SignupThenLogin(saved.users, u);
        forall role | true
          ensures CountRole(users, role) == CountRole(saved.users, role) + (if role == u.role then 1 else 0)
        {
          CountRoleAppend(saved.users, u, role);
        }
        resp := Redirect(LoginPage, Flash(Success, "Registration successful. Please login."));
      }
    }

    /** `login` (POST): find the user by username and role, check the password,
        then write the session and go to the role's dashboard. */
    method Login(session: Session, username: Option<string>, password: string, role: Option<string>) returns (resp: Response)
      modifies session
      ensures var found := FindLoginUser(users, username, role);
        if found.Some? && CheckPassword(users[found.value].passwordHash, password) then
          && session.Data() == SessionOf(users[found.value])
          && resp == Redirect(DashboardFor(users[found.value].role), Flash(Success, "Logged in successfully"))
        else
          && session.Data() == old(session.Data())
          && resp == Render(LoginPage, Flash(Danger, "Invalid credentials or role"))
    {
      var found := FindLoginUser(users, username, role);
      if found.Some? && CheckPassword(users[found.value].passwordHash, password) {
        var user := users[found.value];
        session.userId := Some(user.userId);
        session.username := Some(user.username);
        session.role := Some(user.role);
        resp := Redirect(DashboardFor(user.role), Flash(Success, "Logged in successfully"));
      } else {
        resp := Render(LoginPage, Flash(Danger, "Invalid credentials or role"));
      }
    }

    /** `change_password`: the signed-in customer's hash is replaced only when
        the user exists, the current password checks and the two new ones agree. */
    method ChangePassword(ctx: SessionData, current: string, newPassword: string, confirm: string, salt: string,
                          fault: Fault)
      returns (resp: Response)
      requires Valid()
      modifies this
      ensures Valid()
      ensures Guard(ctx, Some(CUSTOMER)).Deny? ==>
        resp == Guard(ctx, Some(CUSTOMER)).response && Snapshot() == old(Snapshot())
      ensures Guard(ctx, Some(CUSTOMER)).Allow? ==>
        var k := FindUser(old(users), ctx.userId.value);
        if k.None? then
          resp == Redirect(CustomerProfile, Flash(Error, "User not found!")) && Snapshot() == old(Snapshot())
        else if !CheckPassword(old(users)[k.value].passwordHash, current) then
          resp == Redirect(CustomerProfile, Flash(Error, "Current password is incorrect")) && Snapshot() == old(Snapshot())
        else if newPassword != confirm then
          resp == Redirect(CustomerProfile, Flash(Error, "New passwords do not match")) && Snapshot() == old(Snapshot())
        else if fault.FailsAt(0) then
          resp == ServerError && Snapshot() == old(Snapshot())
        else
          && resp == Redirect(CustomerProfile, Flash(Success, "Password updated successfully!"))
          && Snapshot() == old(Snapshot()).(users := SetPasswordHash(old(users), ctx.userId.value, HashPassword(newPassword, salt)))
    {
      var decision := Guard(ctx, Some(CUSTOMER));
      if decision.Deny? {
        return decision.response;
      }
      var userId := ctx.userId.value;
      var k := FindUser(users, userId);
      if k.None? {
        return Redirect(CustomerProfile, Flash(Error, "User not found!"));
      }
      if !CheckPassword(users[k.value].passwordHash, current) {
        return Redirect(CustomerProfile, Flash(Error, "Current password is incorrect"));
      }
      if newPassword != confirm {
        return Redirect(CustomerProfile, Flash(Error, "New passwords do not match"));
      }
      if fault.FailsAt(0) {
        return ServerError;
      }
      var newHash := HashPassword(newPassword, salt);
      UsersRewriteWellFormed(Snapshot(), SetPasswordHash(users, userId, newHash));
      users := SetPasswordHash(users, userId, newHash);
      resp := Redirect(CustomerProfile, Flash(Success, "Password updated successfully!"));
    }

    /** `customer_book_cargo` (POST): resolve the customer, insert the booking
        and its first tracking update together, commit. */
    method BookCargo(ctx: SessionData, details: CargoDetails, picks: seq<Digit>, today: int, fault: Fault)
      returns (resp: Response)
      requires Valid()
      requires |picks| == DIGIT_COUNT
      modifies this
      ensures Valid()
      ensures Guard(ctx, Some(CUSTOMER)).Deny? ==>
        resp == Guard(ctx, Some(CUSTOMER)).response && Snapshot() == old(Snapshot())
      ensures Guard(ctx, Some(CUSTOMER)).Allow? && FindProfileOf(old(customers), ctx.userId.value).None? ==>
        resp == Redirect(CustomerDashboard, Flash(Danger, "Customer profile not found!")) && Snapshot() == old(Snapshot())
      ensures Guard(ctx, Some(CUSTOMER)).Allow? && FindProfileOf(old(customers), ctx.userId.value).Some?
              && (fault.FailsAt(0) || fault.FailsAt(1)) ==>
        resp == Render(BookCargoPage, Flash(Danger, "Error booking cargo: " + fault.reason)) && Snapshot() == old(Snapshot())
      ensures Guard(ctx, Some(CUSTOMER)).Allow? && FindProfileOf(old(customers), ctx.userId.value).Some?
              && !fault.FailsAt(0) && !fault.FailsAt(1) ==>
        var id := old(nextBookingId);
        var customerId := old(customers)[FindProfileOf(old(customers), ctx.userId.value).value].profileId;
        && resp == Redirect(CustomerDashboard, Flash(Success, "Cargo booked successfully! Tracking ID: " + TrackingId(picks)))
        && Snapshot() == old(Snapshot()).(
             bookings := old(bookings) + [Booking(id, TrackingId(picks), customerId, details, details.cargoValue, Some("pending"), today + 5)],
             trackingUpdates := old(trackingUpdates) + [TrackingUpdate(id, Some("pending"), Some("Shipment Booked"), Some("Shipment created by customer"))],
             nextBookingId := id + 1)
    {
      var decision := Guard(ctx, Some(CUSTOMER));
      if decision.Deny? {
        return decision.response;
      }
      var profile := FindProfileOf(customers, ctx.userId.value);
      if profile.None? {
        return Redirect(CustomerDashboard, Flash(Danger, "Customer profile not found!"));
      }
      var customerId := customers[profile.value].profileId;
      var trackingId := TrackingId(picks);
      var saved := Snapshot();
      var failed := fault.FailsAt(0);
      if !failed {
        var bookingId := nextBookingId;
        bookings := bookings + [Booking(bookingId, trackingId, customerId, details, details.cargoValue, Some("pending"), today + 5)];
        nextBookingId := nextBookingId + 1;
        failed := fault.FailsAt(1);
        if !failed {
          trackingUpdates := trackingUpdates + [TrackingUpdate(bookingId, Some("pending"), Some("Shipment Booked"), Some("Shipment created by customer"))];
        }
      }
      if failed {
        Rollback(saved);
        resp := Render(BookCargoPage, Flash(Danger, "Error booking cargo: " + fault.reason));
      } else {
        ghost var b := Booking(saved.nextBookingId, trackingId, customerId, details, details.cargoValue, Some("pending"), today + 5);
        ghost var t := TrackingUpdate(saved.nextBookingId, Some("pending"), Some("Shipment Booked"), Some("Shipment created by customer"));
        assert HasProfile(customers, customerId);
        assert Snapshot() == AfterBooking(saved, b, t);
        BookingWellFormed(saved, b, t);
        resp := Redirect(CustomerDashboard, Flash(Success, "Cargo booked successfully! Tracking ID: " + trackingId));
      }
    }

    /** `employee_update_status` (POST): set the booking's status and append a
        tracking update. There is no try block: a database error escapes as a
        server error and the uncommitted transaction is discarded. */
    method UpdateStatus(ctx: SessionData, bookingId: nat, status: Option<string>, location: Option<string>, fault: Fault)
      returns (resp: Response)
      requires Valid()
      modifies this
      ensures Valid()
      ensures Guard(ctx, Some(EMPLOYEE)).Deny? ==>
        resp == Guard(ctx, Some(EMPLOYEE)).response && Snapshot() == old(Snapshot())
      ensures Guard(ctx, Some(EMPLOYEE)).Allow? && (fault.FailsAt(0) || fault.FailsAt(1)) ==>
        resp == ServerError && Snapshot() == old(Snapshot())
      ensures Guard(ctx, Some(EMPLOYEE)).Allow? && !fault.FailsAt(0) && !fault.FailsAt(1) ==>
        && resp == Redirect(EmployeeDashboard, Flash(Success, "Status updated"))
        && Snapshot() == old(Snapshot()).(
             bookings := SetBookingStatus(old(bookings), bookingId, status),
             trackingUpdates := old(trackingUpdates) + [TrackingUpdate(bookingId, status, location, None)])
    {
      var decision := Guard(ctx, Some(EMPLOYEE));
      if decision.Deny? {
        return decision.response;
      }
      var saved := Snapshot();
      var failed := fault.FailsAt(0);
      if !failed {
        bookings := SetBookingStatus(bookings, bookingId, status);
        failed := fault.FailsAt(1);
        if !failed {
          trackingUpdates := trackingUpdates + [TrackingUpdate(bookingId, status, location, None)];
        }
      }
      if failed {
        Rollback(saved);
        resp := ServerError;
      } else {
        BookingsKept(saved.bookings, saved.nextBookingId, customers, [], saved.trackingUpdates, [trackingUpdates[|trackingUpdates| - 1]]);
        assert customers + [] == customers;
        forall i | 0 <= i < |bookings|
          ensures TrackingIds.IsTrackingId(bookings[i].trackingId)
          ensures HasProfile(customers, bookings[i].customerId)
          ensures HasUpdate(trackingUpdates, bookings[i].bookingId)
        {
          assert bookings[i].trackingId == saved.bookings[i].trackingId;
        }
        InvoicesKept(invoices, saved.bookings, bookings);
        resp := Redirect(EmployeeDashboard, Flash(Success, "Status updated"));
      }
    }

    /** `activate_customer`: set the user's status to "Active". There is no
        try block: a database error is a server error with nothing committed. */
    method ActivateCustomer(ctx: SessionData, id: nat, fault: Fault) returns (resp: Response)
      requires Valid()
      modifies this
      ensures Valid()
      ensures Guard(ctx, Some(ADMIN)).Deny? ==>
        resp == Guard(ctx, Some(ADMIN)).response && Snapshot() == old(Snapshot())
      ensures Guard(ctx, Some(ADMIN)).Allow? && fault.FailsAt(0) ==>
        resp == ServerError && Snapshot() == old(Snapshot())
      ensures Guard(ctx, Some(ADMIN)).Allow? && !fault.FailsAt(0) ==>
        && resp == Redirect(AdminManageCustomers, Flash(Success, "Customer activated"))
        && Snapshot() == old(Snapshot()).(users := SetUserStatus(old(users), id, "Active"))
    {
      var decision := Guard(ctx, Some(ADMIN));
      if decision.Deny? {
        return decision.response;
      }
      if fault.FailsAt(0) {
        return ServerError;
      }
      UsersRewriteWellFormed(Snapshot(), SetUserStatus(users, id, "Active"));
      users := SetUserStatus(users, id, "Active");
      resp := Redirect(AdminManageCustomers, Flash(Success, "Customer activated"));
    }

    /** `suspend_customer`: set the user's status to "Suspended". There is no
        try block: a database error is a server error with nothing committed. */
    method SuspendCustomer(ctx: SessionData, id: nat, fault: Fault) returns (resp: Response)
      requires Valid()
      modifies this
      ensures Valid()
      ensures Guard(ctx, Some(ADMIN)).Deny? ==>
        resp == Guard(ctx, Some(ADMIN)).response && Snapshot() == old(Snapshot())
      ensures Guard(ctx, Some(ADMIN)).Allow? && fault.FailsAt(0) ==>
        resp == ServerError && Snapshot() == old(Snapshot())
      ensures Guard(ctx, Some(ADMIN)).Allow? && !fault.FailsAt(0) ==>
        && resp == Redirect(AdminManageCustomers, Flash(Info, "Customer suspended"))
        && Snapshot() == old(Snapshot()).(users := SetUserStatus(old(users), id, "Suspended"))
    {
      var decision := Guard(ctx, Some(ADMIN));
      if decision.Deny? {
        return decision.response;
      }
      if fault.FailsAt(0) {
        return ServerError;
      }
      UsersRewriteWellFormed(Snapshot(), SetUserStatus(users, id, "Suspended"));
      users := SetUserStatus(users, id, "Suspended");
      resp := Redirect(AdminManageCustomers, Flash(Info, "Customer suspended"));
    }

    /** `admin_create_invoice`: look the booking up, then insert an unpaid
        invoice for its customer with 18% tax, commit. */
    method CreateInvoice(ctx: SessionData, bookingId: nat, amount: Option<real>, suffix: string, fault: Fault)
      returns (resp: Response)
      requires Valid()
      requires |suffix| == 6
      modifies this
      ensures Valid()
      ensures Guard(ctx, Some(ADMIN)).Deny? ==>
        resp == Guard(ctx, Some(ADMIN)).response && Snapshot() == old(Snapshot())
      ensures Guard(ctx, Some(ADMIN)).Allow? && FindBooking(old(bookings), bookingId).None? ==>
        resp == Redirect(AdminManageCargo, Flash(Danger, "Booking not found.")) && Snapshot() == old(Snapshot())
      ensures Guard(ctx, Some(ADMIN)).Allow? && FindBooking(old(bookings), bookingId).Some? && amount.None? ==>
        resp == ServerError && Snapshot() == old(Snapshot())
      ensures Guard(ctx, Some(ADMIN)).Allow? && FindBooking(old(bookings), bookingId).Some? && amount.Some?
              && fault.FailsAt(0) ==>
        resp == Redirect(AdminManageCargo, Flash(Danger, "Error creating invoice: " + fault.reason))
        && Snapshot() == old(Snapshot())
      ensures Guard(ctx, Some(ADMIN)).Allow? && FindBooking(old(bookings), bookingId).Some? && amount.Some?
              && !fault.FailsAt(0) ==>
        var customerId := old(bookings)[FindBooking(old(bookings), bookingId).value].customerId;
        && resp == Redirect(AdminManageCargo, Flash(Success, "Invoice created"))
        && Snapshot() == old(Snapshot()).(invoices := old(invoices) + [NewInvoice("INV" + suffix, bookingId, customerId, amount.value)])
        && |invoices[|invoices| - 1].invoiceNumber| == 9
    {
      var decision := Guard(ctx, Some(ADMIN));
      if decision.Deny? {
        return decision.response;
      }
      var k := FindBooking(bookings, bookingId);
      if k.None? {
        return Redirect(AdminManageCargo, Flash(Danger, "Booking not found."));
      }
      var customerId := bookings[k.value].customerId;
      if amount.None? {
        return ServerError;
      }
      if fault.FailsAt(0) {
        return Redirect(AdminManageCargo, Flash(Danger, "Error creating invoice: " + fault.reason));
      }
      assert HasBookingOf(bookings, bookingId, customerId);
      invoices := invoices + [NewInvoice("INV" + suffix, bookingId, customerId, amount.value)];
      resp := Redirect(AdminManageCargo, Flash(Success, "Invoice created"));
    }

    /** `admin_dashboard`: the three counts. */
    method AdminDashboardCounts(ctx: SessionData) returns (resp: Response)
      ensures Guard(ctx, Some(ADMIN)).Deny? ==> resp == Guard(ctx, Some(ADMIN)).response
      ensures Guard(ctx, Some(ADMIN)).Allow? ==>
        resp == DashboardCounts(CountRole(users, CUSTOMER), CountRole(users, EMPLOYEE), |bookings|)
    {
      var decision := Guard(ctx, Some(ADMIN));
      if decision.Deny? {
        return decision.response;
      }
      resp := DashboardCounts(CountRole(users, CUSTOMER), CountRole(users, EMPLOYEE), |bookings|);
    }
  }
}
