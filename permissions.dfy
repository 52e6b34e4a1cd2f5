/**
 * The five-level role hierarchy of the user administration and the
 * decision functions built on it: who may see, edit, create and regroup
 * which users, and who may manage, edit, delete and grant permissions to
 * which groups.
 *
 * Source: user_management/permission_helpers.py.
 */
module Permissions {
  import opened Common

  const ADMINISTRADORES := "Administradores"
  const GERENTES := "Gerentes"
  const OPERADORES := "Operadores"
  const USUARIOS_BASICOS := "Usuários Básicos"

  /** The hierarchy, lowest first. */
  datatype Level = UsuarioBasico | Operador | Gerente | Administrador | AdminPrincipal

  function Rank(l: Level): nat
  {
    match l
    case UsuarioBasico => 0
    case Operador => 1
    case Gerente => 2
    case Administrador => 3
    case AdminPrincipal => 4
  }

  /**
   * The attributes of a Django user the rules read. `id` is None for the
   * anonymous user; `groups` are the names of the user's groups.
   */
  datatype User = User(id: Option<int>, authenticated: bool, superuser: bool, staff: bool, groups: seq<string>)

  /** A Django permission: `app_label`, `codename` and display name. */
  datatype Permission = Permission(appLabel: string, codename: string, name: string)

  // ---------------------------------------------------------------------
  // Levels
  // ---------------------------------------------------------------------

  function GetUserLevel(u: User): (l: Level)
    ensures l == AdminPrincipal <==> u.authenticated && u.id == Some(1) && u.superuser
    ensures l == Administrador ==> u.authenticated && (ADMINISTRADORES in u.groups || u.superuser)
    ensures l == Gerente ==> u.authenticated && GERENTES in u.groups
    ensures l == Operador ==> u.authenticated && OPERADORES in u.groups
    ensures !u.authenticated ==> l == UsuarioBasico
  {
    if !u.authenticated then UsuarioBasico
    else if u.id == Some(1) && u.superuser then AdminPrincipal
    else if ADMINISTRADORES in u.groups || u.superuser then Administrador
    else if GERENTES in u.groups then Gerente
    else if OPERADORES in u.groups then Operador
    else UsuarioBasico
  }

  /** Gerentes and above reach the user administration. */
  function CanAccessUserManagement(u: User): (r: bool)
    ensures r <==> Rank(GetUserLevel(u)) >= Rank(Gerente)
  {
    GetUserLevel(u) in {AdminPrincipal, Administrador, Gerente}
  }

  function CanViewUser(current: User, target: User): (r: bool)
    ensures r <==> CanAccessUserManagement(current)
                   && (GetUserLevel(current) == AdminPrincipal
                       || Rank(GetUserLevel(target)) < Rank(GetUserLevel(current)))
  {
    var cl, tl := GetUserLevel(current), GetUserLevel(target);
    if cl == AdminPrincipal then true
    else if cl == Administrador then tl in {Gerente, Operador, UsuarioBasico}
    else if cl == Gerente then tl in {Operador, UsuarioBasico}
    else false
  }

  /**
   * Nobody edits themselves or the principal administrator (id 1); each
   * level edits only strictly lower levels.
   */
  function CanEditUser(current: User, target: User): (r: bool)
    ensures r <==> current.id != target.id && target.id != Some(1)
                   && CanAccessUserManagement(current)
                   && Rank(GetUserLevel(target)) < Rank(GetUserLevel(current))
    ensures r ==> CanViewUser(current, target)
  {
    var cl, tl := GetUserLevel(current), GetUserLevel(target);
    if current.id == target.id then false
    else if target.id == Some(1) then false
    else if cl == AdminPrincipal then true
    else if cl == Administrador then tl in {Gerente, Operador, UsuarioBasico}
    else if cl == Gerente then tl in {Operador, UsuarioBasico}
    else false
  }

  function CanCreateUserWithLevel(current: User, level: Level): (r: bool)
    ensures r <==> GetUserLevel(current) == AdminPrincipal
                   || (CanAccessUserManagement(current) && Rank(level) < Rank(GetUserLevel(current)))
  {
    var cl := GetUserLevel(current);
    if cl == AdminPrincipal then true
    else if cl == Administrador then level in {Gerente, Operador, UsuarioBasico}
    else if cl == Gerente then level in {Operador, UsuarioBasico}
    else false
  }

  /**
   * The level a list of group names confers: the highest of administrador,
   * gerente and operador named in it, usuario_basico when none is.
   */
  function GroupsLevel(groups: seq<string>): Level
  {
    if ADMINISTRADORES in groups then Administrador
    else if GERENTES in groups then Gerente
    else if OPERADORES in groups then Operador
    else UsuarioBasico
  }

  /** The conferred level depends only on which names occur, not on their order or repetition. */
  lemma GroupsLevelOrderIndependent(a: seq<string>, b: seq<string>)
    requires forall g :: g in a <==> g in b
    ensures GroupsLevel(a) == GroupsLevel(b)
  {
  }

  /** The loop of `can_change_user_groups` that scans the new groups, stopping at Administradores. */
  method HighestNewLevel(groups: seq<string>) returns (level: Level)
    ensures level == GroupsLevel(groups)
    ensures Rank(level) <= Rank(Administrador)
  {
    level := UsuarioBasico;
    var i := 0;
    while i < |groups|
      invariant 0 <= i <= |groups|
      invariant level == GroupsLevel(groups[..i])
    {
      assert groups[..i + 1] == groups[..i] + [groups[i]];
      if groups[i] == ADMINISTRADORES {
        level := Administrador;
        break;
      } else if groups[i] == GERENTES && level != Administrador {
        level := Gerente;
      } else if groups[i] == OPERADORES && level != Administrador && level != Gerente {
        level := Operador;
      }
      i := i + 1;
    }
    assert i == |groups| ==> groups[..i] == groups;
  }

  /**
   * `target` is None when a user is being created. The principal
   * administrator's groups never change; otherwise the current user must be
   * allowed to create a user of the level the new groups confer.
   */
  method CanChangeUserGroups(current: User, target: Option<User>, groups: seq<string>) returns (r: bool)
    ensures r <==> (target.None? || target.value.id != Some(1))
                   && CanCreateUserWithLevel(current, GroupsLevel(groups))
    ensures target.Some? && target.value.id == Some(1) ==> !r
  {
    if target.None? {
      var highest := HighestNewLevel(groups);
      return CanCreateUserWithLevel(current, highest);
    }
    if target.value.id == Some(1) {
      return false;
    }
    var highest := HighestNewLevel(groups);
    r := CanCreateUserWithLevel(current, highest);
  }

  function CanToggleActiveStatus(current: User, target: User): (r: bool)
    ensures r == CanEditUser(current, target)
    ensures target.id == Some(1) ==> !r
  {
    if target.id == Some(1) then false else CanEditUser(current, target)
  }

  function CanChangePassword(current: User, target: User): (r: bool)
    ensures r ==> current.id != target.id && target.id != Some(1)
    ensures r ==> Rank(GetUserLevel(target)) < Rank(GetUserLevel(current))
  {
    CanEditUser(current, target)
  }

  /** Fields of the user form the validation reads; None means the key is absent. */
  datatype UserForm = UserForm(groups: Option<seq<string>>, isSuperuser: Option<bool>,
                               isStaff: Option<bool>, isActive: Option<bool>)

  datatype UserFormError =
    | CannotEditUser
    | CannotAssignGroups
    | OnlyPrincipalCreatesSuperusers
    | OnlyAdminsGrantStaff
    | PrincipalMustStaySuperuser
    | PrincipalMustStayActive

  function UserFormMessage(e: UserFormError): string
  {
    match e
    case CannotEditUser => "Você não tem permissão para editar este usuário."
    case CannotAssignGroups => "Você não pode atribuir esses grupos ao usuário."
    case OnlyPrincipalCreatesSuperusers => "Apenas o administrador principal pode criar superusuários."
    case OnlyAdminsGrantStaff => "Apenas administradores podem dar acesso ao painel admin."
    case PrincipalMustStaySuperuser => "O administrador principal deve manter o status de superusuário."
    case PrincipalMustStayActive => "O administrador principal deve permanecer ativo."
  }

  /**
   * `validate_user_form_submission`. The checks that protect the flags of
   * the principal administrator can never fire: a target with id 1 is not
   * editable, so the validation has already returned.
   */
  method ValidateUserFormSubmission(current: User, target: Option<User>, form: UserForm)
    returns (valid: bool, errors: seq<UserFormError>)
    ensures valid <==> errors == []
    ensures target.Some? && !CanEditUser(current, target.value) ==> errors == [CannotEditUser]
    ensures target.None? || CanEditUser(current, target.value) ==>
      && CannotEditUser !in errors
      && (CannotAssignGroups in errors <==>
            form.groups.Some? && !CanCreateUserWithLevel(current, GroupsLevel(form.groups.value)))
      && (OnlyPrincipalCreatesSuperusers in errors <==>
            form.isSuperuser == Some(true) && GetUserLevel(current) != AdminPrincipal)
      && (OnlyAdminsGrantStaff in errors <==>
            form.isStaff == Some(true) && Rank(GetUserLevel(current)) < Rank(Administrador))
    ensures PrincipalMustStaySuperuser !in errors && PrincipalMustStayActive !in errors
  {
    errors := [];
    var level := GetUserLevel(current);
    if target.Some? && !CanEditUser(current, target.value) {
      errors := errors + [CannotEditUser];
      return false, errors;
    }
    if form.groups.Some? {
      var ok := CanChangeUserGroups(current, target, form.groups.value);
      if !ok {
        errors := errors + [CannotAssignGroups];
      }
    }
    if form.isSuperuser == Some(true) && level != AdminPrincipal {
      errors := errors + [OnlyPrincipalCreatesSuperusers];
    }
    if form.isStaff == Some(true) && level !in {AdminPrincipal, Administrador} {
      errors := errors + [OnlyAdminsGrantStaff];
    }
    if target.Some? && target.value.id == Some(1) {
      if form.isSuperuser == Some(false) {
        errors := errors + [PrincipalMustStaySuperuser];
      }
      if form.isActive == Some(false) {
        errors := errors + [PrincipalMustStayActive];
      }
    }
    valid := |errors| == 0;
  }

  function IsProtectedUser(u: User): (r: bool)
    ensures u.authenticated ==> (r <==> GetUserLevel(u) == AdminPrincipal)
  {
    u.id == Some(1) && u.superuser
  }

  /**
   * The highest level `current` may create: one below its own for
   * administradores and gerentes. For everyone but the principal
   * administrator this bound is exact.
   */
  function GetMaxUserLevelCanCreate(current: User): (r: Option<Level>)
    ensures r.Some? <==> CanAccessUserManagement(current)
    ensures GetUserLevel(current) != AdminPrincipal ==>
      forall l :: CanCreateUserWithLevel(current, l) <==> r.Some? && Rank(l) <= Rank(r.value)
  {
    match GetUserLevel(current)
    case AdminPrincipal => Some(Administrador)
    case Administrador => Some(Gerente)
    case Gerente => Some(Operador)
    case _ => None
  }

  function CanAccessAdminPanel(u: User): (r: bool)
  {
    u.authenticated && u.staff
  }

  datatype GroupAssignmentError = OnlyPrincipalAssignsAdmins | OnlyAdminsAssignManagers | CannotAssignOperators

  /** Whether `level` may hand out the group called `name`, and the error if not. */
  function GroupAssignmentCheck(level: Level, name: string): Option<GroupAssignmentError>
  {
    if name == ADMINISTRADORES && level != AdminPrincipal then Some(OnlyPrincipalAssignsAdmins)
    else if name == GERENTES && level !in {AdminPrincipal, Administrador} then Some(OnlyAdminsAssignManagers)
    else if name == OPERADORES && level !in {AdminPrincipal, Administrador, Gerente} then Some(CannotAssignOperators)
    else None
  }

  /** The first group of the list that `level` may not hand out, with its error. */
  function FirstAssignmentError(level: Level, groups: seq<string>): (r: Option<GroupAssignmentError>)
    ensures r.None? <==> forall i :: 0 <= i < |groups| ==> GroupAssignmentCheck(level, groups[i]).None?
  {
    if groups == [] then None
    else if GroupAssignmentCheck(level, groups[0]).Some? then GroupAssignmentCheck(level, groups[0])
    else FirstAssignmentError(level, groups[1..])
  }

  /** `validate_group_assignment`: stops at the first group the user may not assign. */
  method ValidateGroupAssignment(current: User, groups: seq<string>)
    returns (valid: bool, error: Option<GroupAssignmentError>)
    ensures error == FirstAssignmentError(GetUserLevel(current), groups)
    ensures valid <==> error.None?
  {
    var level := GetUserLevel(current);
    var i := 0;
    while i < |groups|
      invariant 0 <= i <= |groups|
      invariant FirstAssignmentError(level, groups) == FirstAssignmentError(level, groups[i..])
    {
      var check := GroupAssignmentCheck(level, groups[i]);
      if check.Some? {
        return false, check;
      }
      assert groups[i..][1..] == groups[i + 1..];
      i := i + 1;
    }
    return true, None;
  }

  /**
   * For users who reach the user administration, validating a group
   * assignment agrees with asking whether they may create a user of the
   * level those groups confer.
   */
  lemma {:induction false} AssignmentAgreesWithCreation(current: User, groups: seq<string>)
    requires CanAccessUserManagement(current)
    ensures FirstAssignmentError(GetUserLevel(current), groups).None?
            <==> CanCreateUserWithLevel(current, GroupsLevel(groups))
  {
    var level := GetUserLevel(current);
    if ADMINISTRADORES in groups && level != AdminPrincipal {
      var i :| 0 <= i < |groups| && groups[i] == ADMINISTRADORES;
      assert GroupAssignmentCheck(level, groups[i]).Some?;
    } else if GERENTES in groups && level == Gerente {
      var i :| 0 <= i < |groups| && groups[i] == GERENTES;
      assert GroupAssignmentCheck(level, groups[i]).Some?;
    }
  }

  // ---------------------------------------------------------------------
  // Groups
  // ---------------------------------------------------------------------

  function IsProtectedGroup(name: string): (r: bool)
    ensures r <==> name in [ADMINISTRADORES, GERENTES, OPERADORES, USUARIOS_BASICOS]
  {
    name == ADMINISTRADORES || name == GERENTES || name == OPERADORES || name == USUARIOS_BASICOS
  }

  function CanManageGroup(current: User, name: string): (r: bool)
    ensures r ==> CanAccessUserManagement(current)
    ensures name == ADMINISTRADORES ==> (r <==> GetUserLevel(current) == AdminPrincipal)
  {
    var cl := GetUserLevel(current);
    if cl == AdminPrincipal then true
    else if cl == Administrador then name != ADMINISTRADORES
    else if cl == Gerente then name in [OPERADORES, USUARIOS_BASICOS]
    else false
  }

  function CanViewGroup(current: User, name: string): (r: bool)
    ensures r ==> CanAccessUserManagement(current)
  {
    CanManageGroup(current, name)
  }

  function CanCreateGroup(current: User): (r: bool)
    ensures r <==> CanAccessUserManagement(current)
  {
    GetUserLevel(current) in {AdminPrincipal, Administrador, Gerente}
  }

  /**
   * Editing needs management rights; protected groups are edited only by
   * administrators, and the Administradores group only by the principal.
   * As a consequence a gerente can edit no group at all.
   */
  function CanEditGroup(current: User, name: string): (r: bool)
    ensures r ==> CanManageGroup(current, name)
    ensures name == ADMINISTRADORES ==> (r <==> GetUserLevel(current) == AdminPrincipal)
    ensures r ==> Rank(GetUserLevel(current)) >= Rank(Administrador)
  {
    var cl := GetUserLevel(current);
    if !CanManageGroup(current, name) then false
    else if IsProtectedGroup(name) then
      if name == ADMINISTRADORES then cl == AdminPrincipal
      else cl in {AdminPrincipal, Administrador}
    else true
  }

  /**
   * Protected groups are never deleted; as with editing, a gerente can
   * delete no group.
   */
  function CanDeleteGroup(current: User, name: string): (r: bool)
    ensures IsProtectedGroup(name) ==> !r
    ensures r ==> CanManageGroup(current, name)
    ensures r ==> Rank(GetUserLevel(current)) >= Rank(Administrador)
  {
    var cl := GetUserLevel(current);
    if IsProtectedGroup(name) then false
    else if !CanManageGroup(current, name) then false
    else if cl == AdminPrincipal then true
    else if cl == Administrador then name !in [ADMINISTRADORES, GERENTES]
    else if cl == Gerente then name !in [ADMINISTRADORES, GERENTES, OPERADORES, USUARIOS_BASICOS]
    else false
  }

  /** `f"{app_label}.{codename}"`. */
  function QualifiedCodename(p: Permission): string
  {
    p.appLabel + "." + p.codename
  }

  const CRITICAL_PERMISSIONS: seq<string> := [
    "auth.add_user", "auth.change_user",
    "auth.add_group", "auth.change_group", "auth.delete_group",
    "auth.add_permission", "auth.change_permission", "auth.delete_permission"
  ]

  function CanAssignPermissionToGroup(current: User, name: string, p: Permission): (r: bool)
    ensures r ==> CanEditGroup(current, name)
    ensures r && GetUserLevel(current) != AdminPrincipal ==> QualifiedCodename(p) !in CRITICAL_PERMISSIONS
    ensures GetUserLevel(current) == AdminPrincipal ==> (r <==> CanEditGroup(current, name))
  {
    var cl := GetUserLevel(current);
    if !CanEditGroup(current, name) then false
    else if cl == AdminPrincipal then true
    else if QualifiedCodename(p) in CRITICAL_PERMISSIONS then false
    else if cl == Administrador then !(p.codename == "add_user" && name == ADMINISTRADORES)
    else if cl == Gerente then QualifiedCodename(p) in ["auth.view_user"]
    else false
  }

  /** The gerente branches of editing, deleting and granting are unreachable. */
  lemma GerenteManagesNoGroupContents(current: User, name: string, p: Permission)
    requires GetUserLevel(current) == Gerente
    ensures !CanEditGroup(current, name) && !CanDeleteGroup(current, name)
    ensures !CanAssignPermissionToGroup(current, name, p)
  {
  }

  /** Fields of the group form the validation reads; None means the key is absent. */
  datatype GroupForm = GroupForm(name: Option<string>, permissions: Option<seq<Permission>>)

  datatype GroupFormError = CannotEditGroup | CannotAssignPermission(p: Permission) | ProtectedName

  /** The name the permissions are checked against: the edited group, or the submitted name. */
  function GroupFormTargetName(target: Option<string>, form: GroupForm): string
  {
    if target.Some? then target.value
    else if form.name.Some? then form.name.value
    else ""
  }

  /** One error per permission that may not be granted, in submission order. */
  function PermissionErrors(current: User, name: string, perms: seq<Permission>): (r: seq<GroupFormError>)
    ensures |r| <= |perms|
    ensures forall e :: e in r ==> e.CannotAssignPermission? && e.p in perms
                                   && !CanAssignPermissionToGroup(current, name, e.p)
  {
    if perms == [] then []
    else
      var last := perms[|perms| - 1];
      PermissionErrors(current, name, perms[..|perms| - 1]) + PermissionError(current, name, last)
  }

  /** The error one selected permission raises: none when it may be granted. */
  function PermissionError(current: User, name: string, p: Permission): seq<GroupFormError>
  {
    if CanAssignPermissionToGroup(current, name, p) then [] else [CannotAssignPermission(p)]
  }

  lemma {:induction false} PermissionErrorsComplete(current: User, name: string, perms: seq<Permission>, p: Permission)
    requires p in perms && !CanAssignPermissionToGroup(current, name, p)
    ensures CannotAssignPermission(p) in PermissionErrors(current, name, perms)
  {
    if perms[|perms| - 1] != p {
      assert p in perms[..|perms| - 1];
      PermissionErrorsComplete(current, name, perms[..|perms| - 1], p);
    }
  }

  lemma PermissionErrorsSnoc(current: User, name: string, perms: seq<Permission>, i: nat)
    requires i < |perms|
    ensures PermissionErrors(current, name, perms[..i + 1])
            == PermissionErrors(current, name, perms[..i]) + PermissionError(current, name, perms[i])
  {
    assert perms[..i + 1][..i] == perms[..i];
  }

  /** The loop over the selected permissions: one error per permission the user may not assign, in order. */
  method CheckSelectedPermissions(current: User, name: string, perms: seq<Permission>) returns (errors: seq<GroupFormError>)
    ensures errors == PermissionErrors(current, name, perms)
  {
    errors := [];
    var i := 0;
    while i < |perms|
      invariant 0 <= i <= |perms|
      invariant errors == PermissionErrors(current, name, perms[..i])
    {
      PermissionErrorsSnoc(current, name, perms, i);
      errors := errors + PermissionError(current, name, perms[i]);
      i := i + 1;
    }
    assert perms[..i] == perms;
  }

  /** `validate_group_form_submission`. `target` is the name of the edited group, None on creation. */
  method ValidateGroupFormSubmission(current: User, target: Option<string>, form: GroupForm)
    returns (valid: bool, errors: seq<GroupFormError>)
    ensures valid <==> errors == []
    ensures target.Some? && !CanEditGroup(current, target.value) ==> errors == [CannotEditGroup]
    ensures target.None? || CanEditGroup(current, target.value) ==>
      errors == (if form.permissions.Some?
                 then PermissionErrors(current, GroupFormTargetName(target, form), form.permissions.value)
                 else [])
                + (if target.None? && IsProtectedGroup(GroupFormTargetName(target, form))
                      && GetUserLevel(current) != AdminPrincipal
                   then [ProtectedName] else [])
  {
    errors := [];
    var level := GetUserLevel(current);
    if target.Some? && !CanEditGroup(current, target.value) {
      errors := errors + [CannotEditGroup];
      return false, errors;
    }
    var name := GroupFormTargetName(target, form);
    if form.permissions.Some? {
      errors := CheckSelectedPermissions(current, name, form.permissions.value);
    }
    if target.None? {
      if IsProtectedGroup(name) && level != AdminPrincipal {
        errors := errors + [ProtectedName];
      }
    }
    valid := |errors| == 0;
  }

  function GetGroupCreationLevelLimit(current: User): (r: Option<Level>)
    ensures r == GetMaxUserLevelCanCreate(current)
  {
    match GetUserLevel(current)
    case AdminPrincipal => Some(Administrador)
    case Administrador => Some(Gerente)
    case Gerente => Some(Operador)
    case _ => None
  }
}
