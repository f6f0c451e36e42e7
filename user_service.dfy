/**
  The user service: list, read, create, update and delete user accounts,
  each gated by a `switch` on the name of the caller's role. Failures are the
  service's BadRequestException with its message key, or the
  NullPointerException the code runs into when a lookup comes back null.

  The caller (the account the security context names) is an explicit
  parameter. Repository queries whose SQL is not part of this model, the
  paging helpers, the password encoder and the message lookup are the fields
  of `Collaborators`: functions of the store and of their arguments that the
  model does not interpret.
*/
module Users {
  import opened Wrappers
  import Decimal

  /** The role names of SystemRole; `Other` stands for any further constant of that enum. */
  datatype RoleName = ADMIN | MANAGER | EMPLOYEE | Other(name: string)

  /** Enum constants have distinct names, so a further constant is not named like the three above. */
  type SystemRole = r: RoleName | !(r.Other? && r.name in ["ADMIN", "MANAGER", "EMPLOYEE"]) witness ADMIN

  datatype Role = Role(roleId: int, roleName: SystemRole)

  /** A row of the user table; `role` is the joined role row. */
  datatype User = User(userId: int, username: string, password: string, email: string, role: Role)

  /** The projection the custom queries return. */
  datatype UserModel = UserModel(userId: int, username: string, email: string, roleName: string)

  /** What callers get back: no password, no role object. */
  datatype UserResponse = UserResponse(userId: int, username: string, email: string, roleName: string)

  /** The request fields these operations read. */
  datatype UserRequest = UserRequest(username: string, password: string, email: string, roleId: int)

  datatype PageResponse = PageResponse(page: int, perPage: int, data: seq<UserResponse>, totalPage: int, totalRecord: int)

  datatype Failure = BadRequest(message: string) | NullPointer

  const ACCESS_DENIED_KEY := "warning.accessDenied"
  const NOT_FOUND_KEY := "error.notFound"
  const USER_NOT_FOUND := "User not found!"

  /**
    Every query whose SQL is not part of this model sees the whole store (the
    user table and the employee table's departments) and the caller of the
    security context, besides its own arguments, so a MANAGER query may
    narrow to the caller's department.
  */
  datatype Collaborators = Collaborators(
    countAllUsersWithConditionsForAdmin: (map<int, User>, map<int, int>, User, string) -> int,
    countAllUsersWithConditionsForManager: (map<int, User>, map<int, int>, User, string) -> int,
    findAllUsersWithConditionsForAdmin: (map<int, User>, map<int, int>, User, int, int, string) -> Option<seq<UserModel>>,
    findAllUsersWithConditionsForManager: (map<int, User>, map<int, int>, User, int, int, string) -> Option<seq<UserModel>>,
    findUserById: (map<int, User>, map<int, int>, User, int) -> Option<UserModel>,
    findUserByIdForManager: (map<int, User>, map<int, int>, User, int) -> Option<UserModel>,
    getOffset: (int, int) -> int,
    getTotalPage: (int, int) -> int,
    encode: string -> string,
    getMessage: string -> string)

  /** The enum's `name()`: the service's string `switch` picks the same case as matching on the enum. */
  function RoleLabel(r: SystemRole): (s: string)
    ensures s == "ADMIN" <==> r == ADMIN
    ensures s == "MANAGER" <==> r == MANAGER
    ensures s == "EMPLOYEE" <==> r == EMPLOYEE
  {
    match r
    case ADMIN => "ADMIN"
    case MANAGER => "MANAGER"
    case EMPLOYEE => "EMPLOYEE"
    case Other(n) => n
  }

  /** `responseBuilder`: a query projection as a response. */
  function ResponseBuilder(m: UserModel): (r: UserResponse)
    ensures r.userId == m.userId && r.username == m.username && r.email == m.email && r.roleName == m.roleName
  {
    UserResponse(m.userId, m.username, m.email, m.roleName)
  }

  /** A stored user as a response: its role appears by name and its password not at all. */
  function ToResponse(u: User): (r: UserResponse)
    ensures r.userId == u.userId && r.username == u.username && r.email == u.email
    ensures r.roleName == RoleLabel(u.role.roleName)
  {
    UserResponse(u.userId, u.username, u.email, RoleLabel(u.role.roleName))
  }

  /** The stored password, encoded or raw, never shows in a response. */
  lemma ResponseIgnoresPassword(u: User, p: string)
    ensures ToResponse(u.(password := p)) == ToResponse(u)
  {
  }

  /** `userList.stream().map(responseBuilder)`: element by element, in order. */
  function BuildResponses(list: seq<UserModel>): (r: seq<UserResponse>)
    ensures |r| == |list|
    ensures forall k :: 0 <= k < |list| ==> r[k] == ResponseBuilder(list[k])
  {
    if list == [] then [] else [ResponseBuilder(list[0])] + BuildResponses(list[1..])
  }

  /** The page's data: the mapped list, or nothing when the query returned null. */
  function PageData(list: Option<seq<UserModel>>): (r: seq<UserResponse>)
    ensures list.None? ==> r == []
    ensures list.Some? ==> (|r| == |list.value| &&
      forall k :: 0 <= k < |list.value| ==> r[k] == ResponseBuilder(list.value[k]))
  {
    match list
    case None => []
    case Some(l) => BuildResponses(l)
  }

  /** The message of a successful delete. */
  function DeleteSuccessMessage(id: int): (m: string)
    ensures m != USER_NOT_FOUND
  {
    "Delete user " + Decimal.IntToString(id) + " successfully!"
  }

  /** The success message names the deleted id: two deletes with the same message removed the same id. */
  lemma DeleteMessageIdentifiesUser(a: int, b: int)
    requires DeleteSuccessMessage(a) == DeleteSuccessMessage(b)
    ensures a == b
  {
    var ma, mb := DeleteSuccessMessage(a), DeleteSuccessMessage(b);
    assert Decimal.IntToString(a) == ma[12..|ma| - 14];
    assert Decimal.IntToString(b) == mb[12..|mb| - 14];
    Decimal.IntToStringInjective(a, b);
  }

  class UserService {
    /** The user repository, by id. */
    var users: map<int, User>
    /** The role repository, by id. */
    var roles: map<int, Role>
    /** The employee repository: the department of the employee row of each user id. */
    var departmentOf: map<int, int>
    /** The next id the database hands out on a new insert. */
    var nextId: int

    ghost predicate Valid()
      reads this
    {
      forall k :: k in users ==> users[k].userId == k && k < nextId
    }

    constructor (users: map<int, User>, roles: map<int, Role>, departmentOf: map<int, int>, nextId: int)
      requires forall k :: k in users ==> users[k].userId == k && k < nextId
      ensures Valid()
      ensures this.users == users && this.roles == roles && this.departmentOf == departmentOf && this.nextId == nextId
    {
      this.users := users;
      this.roles := roles;
      this.departmentOf := departmentOf;
      this.nextId := nextId;
    }

    /**
      `getAllUsersWithConditions`: ADMIN and MANAGER get a page from their own
      count and fetch queries; every other role is refused before either runs.
    */
    method GetAllUsersWithConditions(caller: User, env: Collaborators, page: int, perPage: int, search: string)
      returns (r: Result<PageResponse, Failure>)
      ensures r.Ok? <==> caller.role.roleName in {ADMIN, MANAGER}
      ensures r.Err? ==> r.error == BadRequest(env.getMessage(ACCESS_DENIED_KEY))
      ensures r.Ok? ==> (r.value.page == page && r.value.perPage == perPage &&
        r.value.totalPage == env.getTotalPage(r.value.totalRecord, perPage))
      ensures caller.role.roleName == ADMIN ==> (r.Ok? &&
        r.value.totalRecord == env.countAllUsersWithConditionsForAdmin(users, departmentOf, caller, search) &&
        r.value.data == PageData(env.findAllUsersWithConditionsForAdmin(users, departmentOf, caller, env.getOffset(page, perPage), perPage, search)))
      ensures caller.role.roleName == MANAGER ==> (r.Ok? &&
        r.value.totalRecord == env.countAllUsersWithConditionsForManager(users, departmentOf, caller, search) &&
        r.value.data == PageData(env.findAllUsersWithConditionsForManager(users, departmentOf, caller, env.getOffset(page, perPage), perPage, search)))
    {
      var currentUserRole := RoleLabel(caller.role.roleName);
      var totalRecord: int;
      var offset: int;
      var totalPage: int;
      var userList: Option<seq<UserModel>>;
      if currentUserRole == "ADMIN" {
        totalRecord := env.countAllUsersWithConditionsForAdmin(users, departmentOf, caller, search);
        offset := env.getOffset(page, perPage);
        totalPage := env.getTotalPage(totalRecord, perPage);
        userList := env.findAllUsersWithConditionsForAdmin(users, departmentOf, caller, offset, perPage, search);
      } else if currentUserRole == "MANAGER" {
        totalRecord := env.countAllUsersWithConditionsForManager(users, departmentOf, caller, search);
        offset := env.getOffset(page, perPage);
        totalPage := env.getTotalPage(totalRecord, perPage);
        userList := env.findAllUsersWithConditionsForManager(users, departmentOf, caller, offset, perPage, search);
      } else {
        // EMPLOYEE and every other role
        return Err(BadRequest(env.getMessage(ACCESS_DENIED_KEY)));
      }
      var response: seq<UserResponse> := [];
      if userList.Some? {
        response := BuildResponses(userList.value);
      }
      return Ok(PageResponse(page, perPage, response, totalPage, totalRecord));
    }

    /**
      `findUserById`. The EMPLOYEE case has no `break`: after its own-id test
      and its fetch it runs into `default`, which refuses. Only ADMIN and
      MANAGER can succeed; a null projection is dereferenced.
    */
    method FindUserById(caller: User, env: Collaborators, id: int) returns (r: Result<UserResponse, Failure>)
      ensures r.Ok? ==> caller.role.roleName in {ADMIN, MANAGER}
      ensures caller.role.roleName !in {ADMIN, MANAGER} ==> r == Err(BadRequest(ACCESS_DENIED_KEY))
      ensures caller.role.roleName == ADMIN ==>
        match env.findUserById(users, departmentOf, caller, id)
        case None => r == Err(NullPointer)
        case Some(m) => r == Ok(ResponseBuilder(m))
      ensures caller.role.roleName == MANAGER ==>
        match env.findUserByIdForManager(users, departmentOf, caller, id)
        case None => r == Err(NullPointer)
        case Some(m) => r == Ok(ResponseBuilder(m))
    {
      var currentUserRole := RoleLabel(caller.role.roleName);
      var user: Option<UserModel>;
      var fallsIntoDefault := false;
      if currentUserRole == "ADMIN" {
        user := env.findUserById(users, departmentOf, caller, id);
      } else if currentUserRole == "MANAGER" {
        user := env.findUserByIdForManager(users, departmentOf, caller, id);
      } else if currentUserRole == "EMPLOYEE" {
        if caller.userId != id {
          return Err(BadRequest(ACCESS_DENIED_KEY));
        }
        user := env.findUserById(users, departmentOf, caller, id);
        fallsIntoDefault := true;
      } else {
        fallsIntoDefault := true;
      }
      if fallsIntoDefault {
        return Err(BadRequest(ACCESS_DENIED_KEY));
      }
      if user.None? {
        return Err(NullPointer);
      }
      return Ok(ResponseBuilder(user.value));
    }

    /**
      `createUser`: EMPLOYEE callers are refused first, then the role is
      resolved, then the user is saved with the encoded password. The
      Employee row that follows is guarded by the EMPLOYEE test that already
      refused, so it is never written.
    */
    method CreateUser(caller: User, env: Collaborators, request: UserRequest) returns (r: Result<UserResponse, Failure>)
      requires Valid()
      modifies this`users, this`nextId
      ensures Valid()
      ensures departmentOf == old(departmentOf) && roles == old(roles)
      ensures caller.role.roleName == EMPLOYEE ==>
        r == Err(BadRequest(ACCESS_DENIED_KEY)) && users == old(users) && nextId == old(nextId)
      ensures caller.role.roleName != EMPLOYEE && request.roleId !in roles ==>
        r == Err(BadRequest(NOT_FOUND_KEY)) && users == old(users) && nextId == old(nextId)
      ensures caller.role.roleName != EMPLOYEE && request.roleId in roles ==>
        old(nextId) !in old(users) &&
        users == old(users)[old(nextId) := User(old(nextId), request.username, env.encode(request.password), request.email, roles[request.roleId])] &&
        r == Ok(ToResponse(users[old(nextId)])) &&
        r.value.roleName == RoleLabel(roles[request.roleId].roleName)
    {
      var currentUserRole := RoleLabel(caller.role.roleName);
      // the caller's employee row is fetched, but only the Employee branch below would use it
      var currentUserEmployee := if caller.userId in departmentOf then Some(departmentOf[caller.userId]) else None;
      if currentUserRole == "EMPLOYEE" {
        return Err(BadRequest(ACCESS_DENIED_KEY));
      }
      if request.roleId !in roles {
        return Err(BadRequest(NOT_FOUND_KEY));
      }
      var role := roles[request.roleId];
      var user := User(nextId, request.username, env.encode(request.password), request.email, role);
      users := users[nextId := user];
      nextId := nextId + 1;
      if currentUserRole == "EMPLOYEE" {
        // the save of an Employee row in the caller's department
        assert false;
      }
      return Ok(ToResponse(user));
    }

    /** The update check: ADMIN always passes; MANAGER passes when both employee rows are in one department. */
    predicate MayUpdate(caller: User, id: int)
      reads this
    {
      caller.role.roleName == ADMIN ||
      (caller.role.roleName == MANAGER && caller.userId in departmentOf && id in departmentOf &&
       departmentOf[caller.userId] == departmentOf[id])
    }

    /**
      `updateUserById`: the role check, then the role lookup, then the user
      lookup, and only then the save. The new password is stored as given.
    */
    method UpdateUserById(caller: User, id: int, request: UserRequest) returns (r: Result<UserResponse, Failure>)
      requires Valid()
      modifies this`users
      ensures Valid()
      ensures caller.role.roleName !in {ADMIN, MANAGER} ==> r == Err(BadRequest(ACCESS_DENIED_KEY))
      ensures caller.role.roleName == MANAGER && (caller.userId !in departmentOf || id !in departmentOf) ==>
        r == Err(NullPointer)
      ensures (caller.role.roleName == MANAGER && caller.userId in departmentOf && id in departmentOf &&
               departmentOf[caller.userId] != departmentOf[id]) ==> r == Err(BadRequest(ACCESS_DENIED_KEY))
      ensures MayUpdate(caller, id) && request.roleId !in roles ==> r == Err(BadRequest(NOT_FOUND_KEY))
      ensures MayUpdate(caller, id) && request.roleId in roles && id !in old(users) ==> r == Err(BadRequest(NOT_FOUND_KEY))
      ensures r.Err? ==> users == old(users)
      ensures r.Ok? <==> MayUpdate(caller, id) && request.roleId in roles && id in old(users)
      ensures r.Ok? ==>
        users == old(users)[id := old(users)[id].(username := request.username, password := request.password,
                                                   email := request.email, role := roles[request.roleId])] &&
        r.value == ToResponse(users[id])
    {
      var currentUserRole := RoleLabel(caller.role.roleName);
      if currentUserRole == "ADMIN" {
      } else if currentUserRole == "MANAGER" {
        if caller.userId !in departmentOf || id !in departmentOf {
          return Err(NullPointer);
        }
        if departmentOf[caller.userId] != departmentOf[id] {
          return Err(BadRequest(ACCESS_DENIED_KEY));
        }
      } else {
        return Err(BadRequest(ACCESS_DENIED_KEY));
      }
      if request.roleId !in roles {
        return Err(BadRequest(NOT_FOUND_KEY));
      }
      if id !in users {
        return Err(BadRequest(NOT_FOUND_KEY));
      }
      var user := users[id].(username := request.username, password := request.password,
                              email := request.email, role := roles[request.roleId]);
      users := users[id := user];
      return Ok(ToResponse(user));
    }

    /**
      `deleteUserById`: ADMIN only. A missing id is not an error, only a
      message; otherwise exactly that user is removed.
    */
    method DeleteUserById(caller: User, id: int) returns (r: Result<string, Failure>)
      requires Valid()
      modifies this`users
      ensures Valid()
      ensures caller.role.roleName != ADMIN ==> r == Err(BadRequest(ACCESS_DENIED_KEY)) && users == old(users)
      ensures caller.role.roleName == ADMIN && id !in old(users) ==> r == Ok(USER_NOT_FOUND) && users == old(users)
      ensures caller.role.roleName == ADMIN && id in old(users) ==>
        r == Ok(DeleteSuccessMessage(id)) && users == old(users) - {id}
    {
      if caller.role.roleName != ADMIN {
        return Err(BadRequest(ACCESS_DENIED_KEY));
      }
      if id !in users {
        return Ok(USER_NOT_FOUND);
      }
      users := users - {id};
      return Ok(DeleteSuccessMessage(id));
    }

    /**
      `getCurrentUser`: the account found under the login name is returned as a
      response; when none is found the code dereferences null.
    */
    method GetCurrentUser(username: string) returns (r: Result<UserResponse, Failure>)
      ensures r.Err? <==> forall k :: k in users ==> users[k].username != username
      ensures r.Err? ==> r.error == NullPointer
      ensures r.Ok? ==> exists k :: k in users && users[k].username == username && r.value == ToResponse(users[k])
      ensures r.Ok? ==> r.value.username == username
    {
      if k :| k in users && users[k].username == username {
        return Ok(ToResponse(users[k]));
      }
      return Err(NullPointer);
    }
  }
}
