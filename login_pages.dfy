/**
 * The Dash login front end (main.py): a fixed table of accounts, the login
 * callback's decision, the page routing on the URL path and the two logout
 * buttons.
 */
module LoginPages {
  import opened Runtime

  datatype Role = Supervisor | Employee

  function RoleName(r: Role): string {
    match r
    case Supervisor => "Supervisor"
    case Employee => "Employee"
  }

  datatype Account = Account(password: string, role: Role)

  /** The accounts the front end knows. */
  const Accounts: map<string, Account> :=
    map["admin" := Account("admin123", Supervisor), "employee1" := Account("emp123", Employee)]

  datatype Layout = LoginLayout | SupervisorLayout | EmployeeLayout

  /** `display_page`: the layout for a URL path; anything unknown shows the login page. */
  function DisplayPage(pathname: Option<string>): (l: Layout)
    ensures l == SupervisorLayout <==> pathname == Some("/supervisor")
    ensures l == EmployeeLayout <==> pathname == Some("/employee")
  {
    if pathname == Some("/supervisor") then SupervisorLayout
    else if pathname == Some("/employee") then EmployeeLayout
    else LoginLayout
  }

  /** The home page of each role. */
  function HomePath(r: Role): string {
    match r
    case Supervisor => "/supervisor"
    case Employee => "/employee"
  }

  /** What the login callback does: nothing at all, or a new path (None: path unchanged) and a message. */
  datatype LoginOutcome = PreventUpdate | Update(path: Option<string>, message: string)

  const FillAllFields: string := "Please fill in all fields."
  const InvalidCredentials: string := "Invalid credentials or role mismatch."

  /** A text field counts as filled when it holds a non-empty text. */
  predicate Filled(field: Option<string>) {
    field.Some? && field.value != ""
  }

  /** The credentials name a known account with that password and role. */
  predicate Matches(userId: string, password: string, role: string) {
    userId in Accounts && Accounts[userId].password == password && RoleName(Accounts[userId].role) == role
  }

  /**
   * `validate_login`: no click, no update; an empty field, a request to fill
   * them all; matching credentials, the role's page with no message;
   * anything else, the invalid-credentials message and no navigation.
   */
  function ValidateLogin(nClicks: Option<int>, userId: Option<string>, password: Option<string>, role: Option<string>)
    : (r: LoginOutcome)
    ensures nClicks.None? <==> r.PreventUpdate?
    ensures nClicks.Some? && !(Filled(userId) && Filled(password) && Filled(role)) ==> r == Update(None, FillAllFields)
    ensures r.Update? && r.path.Some? <==>
              nClicks.Some? && Filled(userId) && Filled(password) && Filled(role)
              && Matches(userId.value, password.value, role.value)
    ensures r.Update? && r.path.Some? ==>
              r.path.value == HomePath(Accounts[userId.value].role) && r.message == ""
              && RoleName(Accounts[userId.value].role) == role.value
    ensures (nClicks.Some? && Filled(userId) && Filled(password) && Filled(role)
             && !Matches(userId.value, password.value, role.value)) ==> r == Update(None, InvalidCredentials)
  {
    if nClicks.None? then PreventUpdate
    else if !Filled(userId) || !Filled(password) || !Filled(role) then Update(None, FillAllFields)
    else if userId.value in Accounts && Accounts[userId.value].password == password.value
            && RoleName(Accounts[userId.value].role) == role.value then
      if role.value == "Supervisor" then Update(Some("/supervisor"), "")
      else if role.value == "Employee" then Update(Some("/employee"), "")
      else Update(None, InvalidCredentials)
    else Update(None, InvalidCredentials)
  }

  /** A successful login lands on the layout of the account's role. */
  lemma LoginLeadsToRolePage(nClicks: Option<int>, userId: Option<string>, password: Option<string>, role: Option<string>)
    requires ValidateLogin(nClicks, userId, password, role).Update?
    requires ValidateLogin(nClicks, userId, password, role).path.Some?
    ensures var page := DisplayPage(ValidateLogin(nClicks, userId, password, role).path);
            page == if Accounts[userId.value].role == Supervisor then SupervisorLayout else EmployeeLayout
  {
  }

  /** The two accounts get in with their own role and not with the other. */
  lemma KnownAccounts()
    ensures ValidateLogin(Some(1), Some("admin"), Some("admin123"), Some("Supervisor")) == Update(Some("/supervisor"), "")
    ensures ValidateLogin(Some(1), Some("employee1"), Some("emp123"), Some("Employee")) == Update(Some("/employee"), "")
    ensures ValidateLogin(Some(1), Some("admin"), Some("admin123"), Some("Employee")) == Update(None, InvalidCredentials)
  {
    assert Accounts["admin"] == Account("admin123", Supervisor);
    assert Accounts["employee1"] == Account("emp123", Employee);
  }

  /** `logout_supervisor` and `logout_employee`, the same callback on either page: back to the root path. */
  function Logout(nClicks: Option<int>): (path: string)
    ensures DisplayPage(Some(path)) == LoginLayout
  {
    "/"
  }
}
