# Cargo management: a verified model of the request handlers

This project models the Flask + MySQL cargo management application (`app.py`)
in Dafny. It covers the part of the application that changes state or builds
data:

- the `login_required` role guard;
- signup, login and password change;
- cargo booking with its generated tracking id;
- the employee status update;
- customer activation and suspension;
- invoice creation;
- the admin dashboard counts;
- the CSV bookings report.

The six tables (`users`, `customers`, `employees`, `cargo_bookings`,
`tracking_updates`, `invoices`) are `seq` fields of the class
`CargoApp.CargoDb`, together with their AUTO_INCREMENT counters. Every write
handler is a method that changes those fields and returns the HTTP outcome
(`Web.Response`): a redirect or a rendered page with its flash message, the
dashboard counts, the CSV body, or a server error.

The invariant `Tables.WellFormed` is kept by every handler. Each protected
handler first runs `Auth.Guard`. When the guard denies the request, the
handler returns the guard's redirect and changes nothing.

Modules:

- `Text`: Python's `sep.join`, `str.split`, and `str(n)` for a natural number.
- `Web`: flash messages, pages, responses, and database faults.
- `Auth`: password hashes, the session, and the guard.
- `TrackingIds`: the `TRK` + 8 digits identifier.
- `Reports`: the CSV report.
- `Tables`: row types, queries and the table invariant.
- `CargoApp`: the handlers.

Abstractions:

- **Database errors.** A write can fail with `mysql.connector.Error`. This is
  a `Fault` parameter that names which write statement of the handler fails,
  and with what message. A commit applies all of a handler's writes. A
  rollback restores the tables as they were when the handler started.
- **Random and clock values.** The eight random digits of the tracking id, the
  six-character invoice-number suffix, the password salt, and today's date
  (a day number) are parameters.
- **Password hashing.** Werkzeug's `generate_password_hash` and
  `check_password_hash` are a stand-in with the one property the application
  relies on: a password checks against its own hash and against no other
  password (`Auth.CheckHashed`).
- **Query results.** `fetchone()` returns the first matching row in table
  order. Table order is insertion order, which is also ascending key order.
- **Keys.** The source names the same key in several ways: `users.user_id` is
  also `id`, `cargo_bookings.booking_id` is also `id`, and the booking owner
  is also `user_id` (`app.py:383`, 480, 494, 547). The model uses a single key
  for each entity.

## Model

| member | source | states |
|---|---|---|
| Auth.Guard | app.py:30-42 | The handler runs iff `user_id` is truthy (present, not 0) and, when the required role is a non-empty string, the session role equals it. Otherwise the response is a redirect to login: "Please login first." (warning) when signed out, "Access denied." (danger) when the role differs. |
| Auth.HashPassword | app.py:70 | (no ensures) stand-in for `generate_password_hash(password)` with the salt as a parameter. CheckHashed states its property. |
| Auth.CheckPassword | app.py:132 | (predicate, no ensures) stand-in for `check_password_hash(hash, candidate)`. CheckHashed states its property. |
| Auth.CheckHashed | app.py:338-344 | A password checks against the hash made from it, and against no other password, whatever the salt. |
| Auth.Session.constructor | app.py:133-135 | A fresh session holds none of the three keys `login` writes. |
| TrackingIds.TrackingId | app.py:179-180 | The id is "TRK" followed by the 8 drawn digits: length 11, and every character after index 2 is a decimal digit. |
| TrackingIds.ParseTrackingId | app.py:179-180 | Succeeds exactly on strings of the tracking-id shape, and then yields 8 digits. |
| TrackingIds.ParseTrackingIdRoundTrip | app.py:179-180 | Parsing a generated id gives back the digits it was made from. |
| TrackingIds.TrackingIdOfParse | app.py:179-180 | Every string of the tracking-id shape is generated by the digits parsing finds. |
| TrackingIds.TrackingIdInjective | app.py:179-180 | Different digit draws give different tracking ids. |
| Text.DigitChar | app.py:180 | The character for a digit is a decimal digit character whose code is '0' plus the digit. |
| Text.NatToDecimal | app.py:608 | `str(id)` is a non-empty string of decimal digits with no leading zero. |
| Text.DecimalRoundTrip | app.py:608 | `int(str(n)) == n`, so the printed id denotes the row's id. |
| Text.Join | app.py:607-618 | (no ensures) `sep.join(parts)`: the empty list gives "", one part gives itself, otherwise the first part, the separator, and the join of the rest. CountJoin and SplitJoin state its properties. |
| Text.Split | app.py:605-618 | Splitting on a separator always gives at least one piece, as Python's `split` does. |
| Text.CountJoin | app.py:607-616 | Joining k separator-free parts puts exactly k-1 separators into the result. |
| Text.SplitJoin | app.py:605-618 | Splitting `sep.join(parts)` on `sep` gives back `parts` when no part contains `sep`. |
| Reports.Fields | app.py:607-616 | Every row gives exactly as many fields as the header has columns (8). |
| Reports.RowLine | app.py:607-616 | (no ensures) one row's line: its 8 fields joined with ",". RowLineShape states its shape. |
| Reports.RowLines | app.py:606-616 | The closed form of the append loop: one line per row, in input order. Its two ensures only document the comprehension in its body; RenderReport's loop invariant, RowLinesSnoc and RowLinesShape carry the content. |
| Reports.RowLinesSnoc | app.py:606-616 | Appending a row appends its line at the end and leaves the earlier lines unchanged, as the loop's `append` does. |
| Reports.Report | app.py:605-618 | (no ensures) the body: the header line followed by the row lines, joined with "\n". RenderReport and ReportShape state its properties. |
| Reports.RenderReport | app.py:605-618 | The loop's output is the header line followed by one line per row, in input order, joined with newlines. Zero rows give exactly the header. |
| Reports.HeaderColumnsClean | app.py:605 | No header column contains a comma or a newline. |
| Reports.HeaderShape | app.py:605 | The header has no newline and has exactly 7 commas. |
| Reports.RowLineShape | app.py:607-616 | A row whose fields hold no comma or newline gives a line with no newline and exactly 7 commas, and splitting the line at its commas gives back the 8 fields. |
| Reports.RowLinesShape | app.py:607-616 | When no field holds a comma or newline, every row line has no newline and 7 commas, and splits back into its row's 8 fields. |
| Reports.ReportShape | app.py:605-618 | When no field holds a comma or newline, the report splits at newlines into exactly rows+1 lines. The first line is the header, line i+1 is row i's line, each line has 7 commas, and each row line splits back into its 8 fields. A NULL text column prints as "", and a NULL booking_date prints as "None". |
| CargoApp.AdminGenerateReports | app.py:588-623 | Admin only. The response body is the CSV report of the query's rows. |
| Tables.FindIdentityClash | app.py:76-77 | The row found holds the username or the email, no earlier row holds either, and there is none iff no row holds either. |
| Tables.FirstIndex | app.py:76-77 | `fetchone()`: the result satisfies the WHERE predicate, no earlier row does, and there is no result iff no row does. |
| Tables.FindLoginUser | app.py:126-127 | The row found has exactly the given username and role. There is none iff no row has both, and a missing form field (NULL) matches nothing. |
| Tables.FindUser | app.py:330-331 | The row found has the given user id. There is none iff no row has it. |
| Tables.FindProfileOf | app.py:201-202 | The customers row found belongs to the given user. There is none iff no row does. |
| Tables.FindBooking | app.py:547-548 | The booking found has the given id. There is none iff no booking has it. |
| Tables.CountRole | app.py:405-408 | `COUNT(*) ... WHERE role=r` is at most the number of users. |
| Tables.CountRoleAppend | app.py:405-408 | Adding a user raises the count of its role by one and leaves every other role's count unchanged. |
| Tables.CountRoleKept | app.py:405-408 | Rewriting users without changing their roles leaves every role count unchanged. |
| Tables.SetUserStatus | app.py:480-494 | Only the status column changes. The rows with the given id get the new status, and every other row is untouched. |
| Tables.SetUserStatusLastWins | app.py:480-494 | Two status writes to the same user equal the second alone, so activate and suspend are each idempotent. |
| Tables.SetUserStatusCommutes | app.py:480-494 | Status writes to different users commute. |
| Tables.SetPasswordHash | app.py:353 | Only the hash column changes, only for the given user id. |
| Tables.SetBookingStatus | app.py:383 | Only the status column changes, only for the given booking id. |
| Tables.FindUserUnique | app.py:330-331 | With unique keys, the lookup by a user's id finds that user's own row. |
| Tables.ProfilesKept | app.py:85-99 | An extension table stays well formed when the users keep their ids and roles. |
| Tables.InvoicesKept | app.py:383-384 | Invoices stay attached to their booking and customer when bookings keep their ids and owners. |
| Tables.BookingsKept | app.py:227-230 | Bookings keep their owner and their tracking history when rows are appended to `customers` and `tracking_updates`. |
| CargoApp.DuplicateMessage | app.py:75-83 | There is no message iff no user has the username or the email. "Username already exists." is shown only when some user holds the username and no earlier user holds the username or the email. "Email already registered." is shown only when some user holds the email and neither it nor any earlier user holds the username. |
| CargoApp.SignupForm.Complete | app.py:66-68 | (predicate, no ensures) `all([...])`: each of fullname, username, email and password is present and non-empty. |
| CargoApp.SignupForm.Role | app.py:64 | (no ensures) the submitted role, or "customer" when the form has no role field. |
| CargoApp.NewUser | app.py:85-92 | The inserted user is "active", has the form's role, and its stored hash checks exactly the submitted password. |
| CargoApp.SessionOf | app.py:133-135 | A session written for a user with a non-zero id is signed in, and it carries the user's role. |
| CargoApp.UsernameMessageWins | app.py:75-83 | When user `a` holds the username, the username message is shown exactly when no user before `a` holds the email. |
| CargoApp.EmailMessageCanWin | app.py:75-83 | With the email held by an earlier user and the username by a later one, the email message is shown. |
| CargoApp.UserAppendWellFormed | app.py:85-92 | A user with a free username and email, keyed by the next id, keeps the users invariant. |
| CargoApp.ProfileAppendWellFormed | app.py:95-99 | An extension table gains a row for the new user iff the user has that table's role, and stays well formed. |
| CargoApp.SignupWellFormed | app.py:85-101 | A committed signup keeps the whole table invariant. |
| CargoApp.SignupThenLogin | app.py:85-127 | After a signup, the login lookup by that username and role finds the new user. |
| CargoApp.BookingWellFormed | app.py:212-232 | A booking with a valid tracking id, an existing customer and its own first tracking update keeps the table invariant. |
| CargoApp.DashboardFor | app.py:138-144 | Login redirects to the admin dashboard iff the role is "admin", to the employee dashboard iff it is "employee", and to the customer dashboard otherwise. |
| CargoApp.LoginSessionGuard | app.py:30-42 | A session written by login passes the guard of a role iff that role is the user's own. |
| CargoApp.NewInvoice | app.py:554-557 | The invoice is "unpaid". Subtotal = amount, tax = amount·18/100, total = amount·118/100 = subtotal + tax. |
| CargoApp.UsersRewriteWellFormed | app.py:480-494 | A rewrite of users that keeps ids, usernames, emails and roles keeps the table invariant. |
| CargoApp.CargoDb.constructor | app.py:57-623 | The application starts with empty tables, which satisfy the invariant. |
| CargoApp.CargoDb.Rollback | app.py:105-107 | `conn.rollback()` restores every table and counter to the transaction's start. |
| CargoApp.CargoDb.SignupTransaction | app.py:85-107 | Both or nothing: the user row and its role's extension row are both committed, or a failing write leaves the tables unchanged. |
| CargoApp.CargoDb.Signup | app.py:57-112 | An incomplete form, a taken username or email, or a failing write leaves the tables unchanged, with the matching message. Otherwise exactly one "active" user is added with the form's role ("customer" by default) and the salted hash. A customers row is added iff the role is "customer", and an employees row iff it is "employee". The new user is what login by (username, role) then finds. Exactly that role's count rises by one. The invariant is kept. |
| CargoApp.CargoDb.Login | app.py:115-148 | Sets the session to the user's id, username and role, and redirects to the role's dashboard, iff the first user with exactly that username and role (the row `fetchone()` returns) has a hash the password checks against. Otherwise the session is unchanged and the login page shows "Invalid credentials or role". The tables are not written. |
| CargoApp.CargoDb.ChangePassword | app.py:318-360 | Customers only. "User not found!", a wrong current password, or mismatched new passwords each leave the tables unchanged. A failing UPDATE is a server error with nothing committed. Otherwise only that user's hash changes, to the hash of the new password. |
| CargoApp.CargoDb.BookCargo | app.py:182-243 | Customers only. Without a customer profile, or when either insert fails, the tables are unchanged. Otherwise exactly one booking is added: "TRK" id, the session's customer, total = cargo value, "pending", delivery date = today + 5. Exactly one tracking update is added for it: ("pending", "Shipment Booked", "Shipment created by customer"). The success message carries the tracking id. |
| CargoApp.CargoDb.UpdateStatus | app.py:375-387 | Employees only. Only the booking's status changes, and exactly one tracking update with the given status and location is appended after the unchanged earlier ones. A database error is a server error with nothing committed. |
| CargoApp.CargoDb.ActivateCustomer | app.py:475-486 | Admins only. A failing UPDATE is a server error with nothing committed. Otherwise that user's status becomes "Active", and no other column and no other user changes. |
| CargoApp.CargoDb.SuspendCustomer | app.py:489-500 | Admins only. A failing UPDATE is a server error with nothing committed. Otherwise that user's status becomes "Suspended", and no other column and no other user changes. |
| CargoApp.CargoDb.CreateInvoice | app.py:538-567 | Admins only. An unknown booking, an unreadable amount (server error) or a failing insert leaves the tables unchanged. Otherwise exactly one unpaid invoice for the booking's customer is appended, numbered "INV" plus 6 characters, with the 18% tax amounts. |
| CargoApp.CargoDb.AdminDashboardCounts | app.py:399-420 | Admins only. Reports the number of users with role "customer", the number with role "employee", and the number of bookings. |

## Left out

- Flask routing, templates, `url_for`, cookies and rendering are out. A response is only its target page and its flash message. GET branches that only render a form, and `logout`, are not modelled.
- The read-only pages (the dashboards' lists, `admin_manage_*`, `customer_view_invoices`, `customer_profile`, `view_customer`, `admin_track_shipments`) are single SELECTs with no logic of their own.
- `edit_customer` is a plain three-column UPDATE, and the support-ticket insert queries a column that does not exist. Neither is modelled.
- The UUID-based `generate_tracking_id` (app.py:46-47) is shadowed by the later definition and is never called.
- MySQL compares strings under the table collation, which is usually case-insensitive. The model compares strings exactly, and MySQL's unique constraints are modelled only by the duplicate check.
- Foreign-key and other constraint violations appear only through the `Fault` parameter. The model does not decide which inserts such constraints reject. For example, a status update for a missing booking violates a foreign key, but the model treats it as an ordinary write.
- Faults of the SELECT statements are not modelled. Every modelled INSERT and UPDATE carries a `Fault`, and every handler that writes takes one.
- InnoDB does not give back AUTO_INCREMENT values on rollback. In the model, `CargoApp.CargoDb.Rollback` restores the counters too, so a failed insert does not burn a key.
- Uniqueness of tracking ids is not checked, as in the source. A repeated 8-digit draw would give two bookings the same tracking id.
- Column defaults (`booking_date`, timestamps, `created_at`) and the report's `ORDER BY booking_date DESC` are not modelled. The report takes its rows, in order, as input.
- The report query selects `b.id`, `origin_city`, `destination_city` and joins on `b.user_id`. The booking insert writes none of these columns, so the report rows are a parameter rather than the result of a query over the modelled tables.
- `float(amount)` parsing and IEEE rounding are out: amounts are exact `real`s. An amount that `float()` rejects is a server error, because the `except Error` clause does not catch `ValueError` or `TypeError`.
- `change_password`, `employee_update_status`, `activate_customer` and `suspend_customer` have no error handling. The model gives a database error there as a server error with nothing committed. It does not model the error page itself.
- A missing `password` field at login, and missing password fields in `change_password`, make Werkzeug raise. The model takes these passwords as strings.
- A user signed up with role "admin", or with any other role string, is accepted, as in the source. Login does not look at the account status, and the status values "Active"/"Suspended" differ in case from the "active" that signup writes. These are kept as written.
- CargoApp.UsernameMessageWins: weaker than "when both are taken, the username message wins". As written, the first clashing row decides, so the username message is shown only when no earlier user holds the email. `CargoApp.EmailMessageCanWin` shows the other case. Either way the signup is rejected and nothing is written. Cursor behaviour is not modelled. When two different users hold the username and the email, the SELECT returns two rows, and with mysql.connector's default unbuffered cursor the `cursor.close()` in the `finally` block is likely to raise on the unread row. The deployed program would then give a server error rather than either message.
