/** The user management screen: the permission template of each role, the
    user dialog's role and permission edits, its PIN rules, and which rows
    offer a delete button. */
module UsersScreen {
  import opened Types

  const AllPermissions: set<Permission> := {
    CanAccessSales, CanGiveDiscount, CanAccessSalesHistory, CanCancelSales,
    CanAccessMenu, CanManageMenu, CanAccessInventory, CanManageInventory,
    CanAccessCustomers, CanManageCustomers, CanAccessSuppliers, CanManageSuppliers,
    CanAccessPurchases, CanManagePurchases, CanAccessPayments, CanManagePayments,
    CanAccessReports, CanAccessSettings, CanManageUsers, CanAccessShifts, CanManageShifts
  }

  /** getPermissionsForRole. */
  function RolePermissions(role: UserRole): set<Permission> {
    match role
    case Admin => AllPermissions
    case Manager => AllPermissions - {CanAccessSettings, CanManageUsers}
    case Cashier => {CanAccessSales, CanAccessSalesHistory, CanAccessShifts}
    case Custom => {}
  }

  /** An admin holds every permission; a manager every one but the settings
      and user management; a cashier exactly sales, sales history and
      shifts; a custom role starts with none. Each role's template contains
      the one below it. */
  lemma RoleTemplates(p: Permission)
    ensures p in RolePermissions(Admin)
    ensures p in RolePermissions(Manager) <==> p != CanAccessSettings && p != CanManageUsers
    ensures p in RolePermissions(Cashier) <==> p == CanAccessSales || p == CanAccessSalesHistory || p == CanAccessShifts
    ensures p !in RolePermissions(Custom)
    ensures RolePermissions(Custom) <= RolePermissions(Cashier) <= RolePermissions(Manager) <= RolePermissions(Admin)
  {
    match p
    case CanAccessSales =>
    case CanGiveDiscount =>
    case CanAccessSalesHistory =>
    case CanCancelSales =>
    case CanAccessMenu =>
    case CanManageMenu =>
    case CanAccessInventory =>
    case CanManageInventory =>
    case CanAccessCustomers =>
    case CanManageCustomers =>
    case CanAccessSuppliers =>
    case CanManageSuppliers =>
    case CanAccessPurchases =>
    case CanManagePurchases =>
    case CanAccessPayments =>
    case CanManagePayments =>
    case CanAccessReports =>
    case CanAccessSettings =>
    case CanManageUsers =>
    case CanAccessShifts =>
    case CanManageShifts =>
  }

  datatype UserForm = UserForm(name: string, pin: string, confirmPin: string, role: UserRole, permissions: set<Permission>)

  /** The role effect: whenever the role changes to one that is not
      `custom`, the permissions are reset to its template. */
  function AfterRoleChange(before: UserRole, form: UserForm): UserForm {
    if form.role != before && form.role != Custom then form.(permissions := RolePermissions(form.role)) else form
  }

  /** Opening the dialog over whatever state it was left in: an edited
      user's name, role and permissions with empty PIN fields, else a blank
      cashier; then the role effect runs if the role changed. */
  function OpenUserForm(prev: UserForm, editing: Option<User>): UserForm {
    var loaded :=
      if editing.Some? then UserForm(editing.value.name, "", "", editing.value.role, editing.value.permissions)
      else UserForm("", "", "", Cashier, RolePermissions(Cashier));
    AfterRoleChange(prev.role, loaded)
  }

  /** Choosing a role in the select. */
  function ChooseRole(form: UserForm, role: UserRole): UserForm {
    AfterRoleChange(form.role, form.(role := role))
  }

  /** handlePermissionChange: one box is set or cleared and the role becomes
      `custom`, which the role effect leaves alone. */
  function SetPermission(form: UserForm, key: Permission, value: bool): UserForm {
    var changed := form.(permissions := if value then form.permissions + {key} else form.permissions - {key}, role := Custom);
    AfterRoleChange(form.role, changed)
  }

  /** Choosing a role other than `custom` gives its template; choosing
      `custom` keeps the boxes as they are; ticking a box changes that one
      permission only and makes the role `custom`. */
  lemma RoleAndPermissionEdits(form: UserForm, role: UserRole, key: Permission, value: bool)
    ensures role != Custom && role != form.role ==> ChooseRole(form, role).permissions == RolePermissions(role)
    ensures role == Custom ==> ChooseRole(form, role).permissions == form.permissions
    ensures var f := SetPermission(form, key, value);
      && f.role == Custom
      && (key in f.permissions <==> value)
      && (forall p :: p != key ==> (p in f.permissions <==> p in form.permissions))
      && f.name == form.name && f.pin == form.pin && f.confirmPin == form.confirmPin
  {
  }

  /** A PIN the dialog accepts: four characters matching the confirmation. */
  predicate PinValid(pin: string, confirmPin: string) {
    |pin| == 4 && pin == confirmPin
  }

  datatype UserSave = PinRefused | AddUser(name: string, pin: string, role: UserRole, permissions: set<Permission>)
                    | UpdateUser(user: User)

  /** handleSubmit: a new user needs a valid PIN; an edit accepts an empty
      PIN, which keeps the old one, or a valid new one. */
  function SubmitUser(form: UserForm, editing: Option<User>): UserSave {
    if editing.Some? then
      if form.pin != "" && !PinValid(form.pin, form.confirmPin) then PinRefused
      else UpdateUser(User(editing.value.id, form.name, if form.pin != "" then form.pin else editing.value.pin,
                           form.role, form.permissions))
    else if !PinValid(form.pin, form.confirmPin) then PinRefused
    else AddUser(form.name, form.pin, form.role, form.permissions)
  }

  /** The PIN rules, both ways: a new user is saved exactly when its PIN is
      valid; an edit is saved exactly when the PIN is empty or valid, keeps
      the user's id, and keeps the old PIN when the field is empty. So every
      saved PIN has four characters when the edited user's had. */
  lemma PinRules(form: UserForm, editing: Option<User>)
    ensures editing.None? ==> (SubmitUser(form, editing) != PinRefused <==> PinValid(form.pin, form.confirmPin))
    ensures editing.Some? ==>
      (SubmitUser(form, editing) != PinRefused <==> form.pin == "" || PinValid(form.pin, form.confirmPin))
    ensures var r := SubmitUser(form, editing);
      r.UpdateUser? ==>
        && r.user.id == editing.value.id
        && r.user.pin == (if form.pin == "" then editing.value.pin else form.pin)
        && r.user.role == form.role && r.user.permissions == form.permissions
    ensures var r := SubmitUser(form, editing);
      && (r.AddUser? ==> |r.pin| == 4)
      && (r.UpdateUser? && |editing.value.pin| == 4 ==> |r.user.pin| == 4)
  {
  }

  /** The delete button: never on the signed-in user's own row, never on an
      admin. */
  predicate DeleteOffered(row: User, currentUser: Option<User>) {
    (currentUser.None? || row.id != currentUser.value.id) && row.role != Admin
  }

  /** Opening a user's dialog and saving it untouched keeps the user as it
      was, whatever role the dialog was last left on, when its role is
      `custom` or its permissions are its role's template. */
  lemma UntouchedEditKeepsUser(prev: UserForm, u: User)
    requires u.role == Custom || u.permissions == RolePermissions(u.role)
    ensures SubmitUser(OpenUserForm(prev, Some(u)), Some(u)) == UpdateUser(u)
  {
  }

  /** Opening an edit dialog left on another role resets a non-custom
      user's permissions to the role's template: a cashier who was granted
      discounts loses them on an untouched save. */
  lemma OpeningResetsNonCustomPermissions()
    ensures var u := User(7, "Sara", "1234", Cashier, {CanAccessSales, CanGiveDiscount});
      var prev := UserForm("", "", "", Manager, {});
      SubmitUser(OpenUserForm(prev, Some(u)), Some(u)) == UpdateUser(u.(permissions := RolePermissions(Cashier)))
  {
  }
}
