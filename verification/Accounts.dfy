/** The account hierarchy, and the five handlers that administer accounts. */
module Accounts {
  import opened Common
  import opened Permissions

  type Id = nat

  const CUSTOMER := "customer"
  const MANAGER := "manager"
  const SERVICE := "service"
  const LEGACY_ADMIN := "admin"

  datatype Class = Customer | Manager | Admin | Owner

  datatype Account = Account(accountType: string, permissions: seq<string>, active: bool, password: string)

  type Accounts = map<Id, Account>

  // --------------------------------------------------------------- hierarchy

  function NormalizeType(t: string): string {
    if t == LEGACY_ADMIN then MANAGER else t
  }

  predicate ValidType(t: string) {
    t == CUSTOMER || t == MANAGER || t == SERVICE
  }

  predicate AdminLevel(perms: seq<string>) {
    Has(perms, ADMIN_ALL) || (Has(perms, USER_READ) && Has(perms, USER_PERMISSIONS_UPDATE))
  }

  predicate ManagerLevel(perms: seq<string>) {
    Has(perms, USER_PASSWORD_UPDATE) && Has(perms, USER_STATUS_UPDATE)
  }

  function CallerClass(perms: seq<string>): Class {
    if Has(perms, ALL) then Owner
    else if AdminLevel(perms) then Admin
    else if ManagerLevel(perms) then Manager
    else Customer
  }

  /** The class of an account of this type and these permissions, stored or about to be. */
  function ClassOf(accountType: string, perms: seq<string>): Class {
    if Has(perms, ALL) then Owner
    else if NormalizeType(accountType) == MANAGER then (if AdminLevel(perms) then Admin else Manager)
    else Customer
  }

  function UserClass(a: Account): Class {
    ClassOf(a.accountType, a.permissions)
  }

  predicate CanManage(caller: Class, target: Class) {
    match caller
    case Owner => target != Owner
    case Admin => target == Manager || target == Customer
    case Manager => target == Customer
    case Customer => false
  }

  function Rank(c: Class): nat {
    match c
    case Customer => 0
    case Manager => 1
    case Admin => 2
    case Owner => 3
  }

  /** The rules spell out a strict order: each class manages exactly the classes below it. */
  lemma ManagesExactlyBelow(a: Class, b: Class)
    ensures CanManage(a, b) <==> Rank(a) > Rank(b)
  {
  }

  predicate RegistrarOnly(perms: seq<string>) {
    Has(perms, USER_CREATE) && !Has(perms, USER_PASSWORD_UPDATE) && !Has(perms, USER_STATUS_UPDATE)
    && !AdminLevel(perms) && !Has(perms, ALL)
  }

  predicate CanRegister(caller: Account, accountType: string, perms: seq<string>) {
    var t := NormalizeType(if accountType == "" then CUSTOMER else accountType);
    if RegistrarOnly(caller.permissions) then t == CUSTOMER && !Has(perms, ALL)
    else Has(caller.permissions, USER_CREATE) && CanManage(CallerClass(caller.permissions), ClassOf(t, perms))
  }

  predicate CanManageUser(m: Accounts, caller: Id, target: Id) {
    caller in m && target in m && caller != target
    && CanManage(CallerClass(m[caller].permissions), UserClass(m[target]))
  }

  predicate CanAssign(m: Accounts, caller: Id, target: Id, perms: seq<string>, accountType: string) {
    CanManageUser(m, caller, target)
    && var t := if accountType != "" then NormalizeType(accountType) else m[target].accountType;
       CanManage(CallerClass(m[caller].permissions), ClassOf(t, perms))
  }

  // ---------------------------------------------------------------- handlers

  /** One request, by a signed-in caller (or nobody, for open registration). */
  datatype Request =
    | Register(caller: Option<Id>, accountType: string, password: string)
    | SetPermissions(actor: Id, target: Id, perms: seq<string>, newType: string)
    | SetPassword(actor: Id, target: Id, newPassword: string)
    | SetStatus(actor: Id, target: Id, active: bool)
    | Delete(actor: Id, target: Id)

  predicate HasOwner(m: Accounts) {
    exists id :: id in m && Has(m[id].permissions, ALL)
  }

  /** The accounts after a request; a refused request changes nothing. known is the permission catalog. */
  function Handle(m: Accounts, openRegister: bool, known: set<string>, newId: Id, r: Request): Accounts {
    match r
    case Register(caller, accountType, password) =>
      var t := if caller == None || accountType == "" then CUSTOMER else accountType;
      if newId in m || |password| < 8 || !ValidType(t) then m
      else if caller == None && !openRegister then m
      else if caller.Some? && !(caller.value in m && CanRegister(m[caller.value], t, [])) then m
      else if ClassOf(t, []) == Owner && HasOwner(m) then m
      else m[newId := Account(t, Deduped([]), true, password)]
    case SetPermissions(actor, target, perms, newType) =>
      if perms == [] || (newType != "" && !ValidType(newType)) || target !in m then m
      else if !CanAssign(m, actor, target, perms, newType) then m
      else if Has(perms, ALL) && HasOwner(m) && !Has(m[target].permissions, ALL) then m
      else if exists p :: p in perms && !Valid(known, p) then m
      else m[target := m[target].(permissions := Deduped(perms),
                                  accountType := if newType != "" then newType else m[target].accountType)]
    case SetPassword(actor, target, newPassword) =>
      if !CanManageUser(m, actor, target) || |newPassword| < 8 then m
      else m[target := m[target].(password := newPassword)]
    case SetStatus(actor, target, active) =>
      if !CanManageUser(m, actor, target) then m else m[target := m[target].(active := active)]
    case Delete(actor, target) =>
      if !CanManageUser(m, actor, target) then m else m - {target}
  }

  function Owners(m: Accounts): set<Id> {
    set id | id in m && Has(m[id].permissions, ALL)
  }

  lemma ClassSurvivesDedupe(t: string, perms: seq<string>)
    ensures ClassOf(t, Deduped(perms)) == ClassOf(t, perms)
    ensures Has(Deduped(perms), ALL) == Has(perms, ALL)
  {
    DedupeKeepsGrants(perms, ALL);
    DedupeKeepsGrants(perms, ADMIN_ALL);
    DedupeKeepsGrants(perms, USER_READ);
    DedupeKeepsGrants(perms, USER_PERMISSIONS_UPDATE);
  }

  /** No single request changes who owns the shop, or touches an owner's account. */
  lemma OwnersUntouched(m: Accounts, openRegister: bool, known: set<string>, newId: Id, r: Request)
    ensures var m' := Handle(m, openRegister, known, newId, r);
            Owners(m') == Owners(m) && forall id :: id in Owners(m) ==> m'[id] == m[id]
  {
    hide Has, Deduped;
    assert !Has(Deduped([]), ALL) by {
      NothingGrantsNothing();
    }
    if r.SetPermissions? {
      ClassSurvivesDedupe("", r.perms);
    }
  }

  lemma NothingGrantsNothing()
    ensures !Has(Deduped([]), ALL)
  {
  }

  /** A whole sequence of requests, each with the id a new account would get. */
  function HandleAll(m: Accounts, openRegister: bool, known: set<string>, run: seq<(Id, Request)>): Accounts {
    if run == [] then m
    else Handle(HandleAll(m, openRegister, known, run[..|run| - 1]), openRegister, known,
                run[|run| - 1].0, run[|run| - 1].1)
  }

  /** Over every run of requests the set of owners never changes, and no owner is modified or removed. */
  lemma {:induction false} OwnersNeverChange(m: Accounts, openRegister: bool,
        known: set<string>, run: seq<(Id, Request)>)
    ensures var m' := HandleAll(m, openRegister, known, run);
            Owners(m') == Owners(m) && forall id :: id in Owners(m) ==> m'[id] == m[id]
  {
    hide Handle, Has;
    if run != [] {
      var init := run[..|run| - 1];
      OwnersNeverChange(m, openRegister, known, init);
      OwnersUntouched(HandleAll(m, openRegister, known, init), openRegister, known, run[|run| - 1].0, run[|run| - 1].1);
    }
  }

  /** A permission change leaves its target in the class that was authorized, strictly below the caller's. */
  lemma AssignmentsStayBelow(m: Accounts, openRegister: bool, known: set<string>, newId: Id, r: Request)
    requires r.SetPermissions? && r.actor in m && r.target in m
    ensures var m' := Handle(m, openRegister, known, newId, r);
            r.target in m' && (m'[r.target] != m[r.target] ==>
              Rank(CallerClass(m[r.actor].permissions)) > Rank(UserClass(m'[r.target]))
              && Rank(CallerClass(m[r.actor].permissions)) > Rank(UserClass(m[r.target])))
  {
    hide Has, Deduped, AdminLevel, ManagerLevel;
    var t := if r.newType != "" then r.newType else m[r.target].accountType;
    ClassSurvivesDedupe(t, r.perms);
    ManagesExactlyBelow(CallerClass(m[r.actor].permissions), ClassOf(t, r.perms));
    ManagesExactlyBelow(CallerClass(m[r.actor].permissions), UserClass(m[r.target]));
  }

  ghost predicate Granted(tokens: seq<string>, permission: string) {
    exists h :: h in tokens && TokenGrants(h, permission)
  }

  /** The rights that make an administrator. */
  ghost predicate AdminRights(tokens: seq<string>) {
    Granted(tokens, "admin.*") || (Granted(tokens, "user.read") && Granted(tokens, "user.permissions.update"))
  }

  /** What makes an account rank where it does, and what its caller's token. */
  lemma RanksFromTokens(accountType: string, tokens: seq<string>)
    ensures ClassOf(accountType, tokens) ==
            if Granted(tokens, "*") then Owner
            else if accountType != "manager" && accountType != "admin" then Customer
            else if AdminRights(tokens) then Admin
            else Manager
    ensures CallerClass(tokens) ==
            if Granted(tokens, "*") then Owner
            else if AdminRights(tokens) then Admin
            else if Granted(tokens, "user.password.update") && Granted(tokens, "user.status.update") then Manager
            else Customer
  {
    HasIsTokenwise(tokens, "*");
    HasIsTokenwise(tokens, "admin.*");
    HasIsTokenwise(tokens, "user.read");
    HasIsTokenwise(tokens, "user.permissions.update");
    HasIsTokenwise(tokens, "user.password.update");
    HasIsTokenwise(tokens, "user.status.update");
    hide Has, TokenGrants;
  }

  ghost predicate Above(m: Accounts, actor: Id, target: Id) {
    actor in m && target in m && actor != target
    && Rank(CallerClass(m[actor].permissions)) > Rank(UserClass(m[target]))
  }

  /** Whoever ranks above an account may change its password, close or reopen it and delete it, and nobody else. */
  lemma AdministrationTakesEffect(m: Accounts, openRegister: bool, known: set<string>, newId: Id, r: Request)
    requires r.SetPassword? || r.SetStatus? || r.Delete?
    ensures var m' := Handle(m, openRegister, known, newId, r);
      if !Above(m, r.actor, r.target) then m' == m
      else match r
           case SetPassword(_, target, given) =>
             m' == m[target := m[target].(password := if |given| >= 8 then given else m[target].password)]
           case SetStatus(_, target, active) => m' == m[target := m[target].(active := active)]
           case Delete(_, target) => m'.Keys == m.Keys - {target} && forall id :: id in m' ==> m'[id] == m[id]
  {
    if r.actor in m && r.target in m {
      ManagesExactlyBelow(CallerClass(m[r.actor].permissions), UserClass(m[r.target]));
    }
    hide CallerClass, UserClass;
  }

  /**
   * Whoever ranks above an account, and above what it is to become, may give it any valid permissions but the
   * star, and a valid type; they are stored cleaned.
   */
  lemma PermissionsTakeEffect(m: Accounts, openRegister: bool, known: set<string>, newId: Id, r: Request)
    requires r.SetPermissions?
    ensures var m' := Handle(m, openRegister, known, newId, r);
      var allowed := Above(m, r.actor, r.target) && r.perms != [] && (forall p :: p in r.perms ==> Valid(known, p))
        && r.newType in {"", "customer", "manager", "service"}
        && (var t := if r.newType == "" then m[r.target].accountType else r.newType;
            Rank(CallerClass(m[r.actor].permissions)) > Rank(ClassOf(t, r.perms)));
      m' == if !allowed then m
            else m[r.target := m[r.target].(permissions := Deduped(r.perms),
                                            accountType := if r.newType == "" then m[r.target].accountType
                                                           else r.newType)]
  {
    if r.actor in m && r.target in m {
      var t := if r.newType == "" then m[r.target].accountType else r.newType;
      ManagesExactlyBelow(CallerClass(m[r.actor].permissions), UserClass(m[r.target]));
      ManagesExactlyBelow(CallerClass(m[r.actor].permissions), ClassOf(t, r.perms));
      NoRankAboveOwners(m[r.actor].permissions, t, r.perms);
    }
    hide CallerClass, ClassOf, Has, Valid;
  }

  lemma NoRankAboveOwners(caller: seq<string>, t: string, perms: seq<string>)
    ensures Has(perms, ALL) ==> Rank(CallerClass(caller)) <= Rank(ClassOf(t, perms))
    ensures t == MANAGER ==> NormalizeType(t) == t
    ensures ClassOf(NormalizeType(t), perms) == ClassOf(t, perms)
  {
    hide Has, AdminLevel, ManagerLevel;
  }

  /** Someone who may create users and has none of the other rights over them. */
  ghost predicate Registrar(tokens: seq<string>) {
    Granted(tokens, "user.create") && !AdminRights(tokens) && !Granted(tokens, "*")
    && !Granted(tokens, "user.password.update") && !Granted(tokens, "user.status.update")
  }

  /**
   * A new account holds no permissions, so it ranks as a customer, or as a manager when it is to be one. Anybody
   * may register as a customer while registration is open, a registrar may register customers, and anybody
   * else who may create users whoever ranks below.
   */
  lemma RegistrationTakesEffect(m: Accounts, openRegister: bool, known: set<string>, newId: Id, r: Request)
    requires r.Register?
    ensures var m' := Handle(m, openRegister, known, newId, r);
      var t := if r.caller == None || r.accountType == "" then "customer" else r.accountType;
      var allowed := newId !in m && |r.password| >= 8 && t in {"customer", "manager", "service"}
        && if r.caller == None then openRegister
           else r.caller.value in m && Granted(m[r.caller.value].permissions, "user.create")
                && if Registrar(m[r.caller.value].permissions) then t == "customer"
                   else Rank(CallerClass(m[r.caller.value].permissions)) > (if t == "manager" then 1 else 0);
      m' == if allowed then m[newId := Account(t, [], true, r.password)] else m
  {
    NothingGrantsNothing();
    var t := if r.caller == None || r.accountType == "" then CUSTOMER else r.accountType;
    assert !Has([], ALL) && !AdminLevel([]) && Deduped([]) == [];
    assert Rank(ClassOf(t, [])) == if NormalizeType(t) == MANAGER then 1 else 0;
    if r.caller.Some? && r.caller.value in m {
      var perms := m[r.caller.value].permissions;
      RegistrarTokens(perms);
      ManagesExactlyBelow(CallerClass(perms), ClassOf(NormalizeType(t), []));
    }
    hide Has, CallerClass, Registrar, RegistrarOnly;
  }

  lemma RegistrarTokens(perms: seq<string>)
    ensures RegistrarOnly(perms) <==> Registrar(perms)
    ensures Has(perms, USER_CREATE) <==> Granted(perms, "user.create")
  {
    HasIsTokenwise(perms, "*");
    HasIsTokenwise(perms, "admin.*");
    HasIsTokenwise(perms, "user.read");
    HasIsTokenwise(perms, "user.permissions.update");
    HasIsTokenwise(perms, USER_CREATE);
    HasIsTokenwise(perms, "user.password.update");
    HasIsTokenwise(perms, "user.status.update");
    hide Has, TokenGrants;
  }
}
