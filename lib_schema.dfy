/**
 * The rows of the `profiles` schema the `lib` side of the application works
 * with: roles shipper, carrier and admin.
 */
module LibSchema {
  import opened Common

  /** The roles of `user_role`. */
  const UserRoles: set<string> := {"shipper", "carrier", "admin"}

  /** A row of `profiles` (timestamps left out). */
  datatype Profile = Profile(
    id: string, email: string, fullName: Option<string>, role: string,
    companyName: Option<string>, phone: Option<string>)
}
