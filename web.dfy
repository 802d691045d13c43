/** What a handler hands back to the browser once Flask's plumbing is taken
    away: the page it redirects to or renders, with the one flashed notice,
    the dashboard's figures, the CSV download, or an uncaught exception. */
module Web {

  /** The flash categories the handlers use ("success", "info", "warning",
      "danger", "error"). */
  datatype Category = Success | Info | Warning | Danger | Error

  datatype Flash = Flash(category: Category, message: string)

  /** The endpoints the handlers redirect to (`url_for`) or the templates
      they render. */
  datatype Page =
    | LoginPage
    | SignupPage
    | CustomerDashboard
    | EmployeeDashboard
    | AdminDashboard
    | CustomerProfile
    | BookCargoPage
    | AdminManageCustomers
    | AdminManageCargo

  datatype Response =
    | Redirect(target: Page, flash: Flash)
    | Render(page: Page, flash: Flash)
    | DashboardCounts(customers: nat, employees: nat, bookings: nat)
    | CsvReport(body: string)
    | ServerError

  /** A database error raised while a handler runs: `FailAt(k, reason)` makes
      the handler's k-th write (counted from 0) raise with message `reason`. */
  datatype Fault = NoFault | FailAt(statement: nat, reason: string) {
    predicate FailsAt(k: nat) {
      FailAt? && statement == k
    }
  }
}
