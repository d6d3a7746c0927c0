/** User administration: password storage over an abstract hash, normalisation at load, and the requests
    that change the users map. */
module UserAdmin {
  import opened Text
  import opened Keyed

  /** bcrypt, by its contract alone: `generate` takes the password and a salt and may fail. */
  datatype Hasher = Hasher(generate: (string, nat) -> Option<string>, compare: (string, string) -> bool)

  /** Hashes carry the library's prefix and are matched by the password they were made from and no other. */
  ghost predicate Lawful(h: Hasher) {
    forall p, salt :: h.generate(p, salt).Some? ==>
      HasPrefix(h.generate(p, salt).value, "$2a$") && forall c :: h.compare(h.generate(p, salt).value, c) <==> c == p
  }

  predicate IsPasswordHashed(password: string) {
    HasPrefix(password, "$2a$") || HasPrefix(password, "$2b$") || HasPrefix(password, "$2y$")
  }

  /** None is an error: a blank password, or a failing library. */
  function HashPassword(h: Hasher, password: string, salt: nat): Option<string> {
    var trimmed := TrimSpace(password);
    if trimmed == "" then None else h.generate(trimmed, salt)
  }

  predicate CheckPassword(h: Hasher, candidate: string, stored: string) {
    if stored == "" then false
    else if IsPasswordHashed(stored) then h.compare(stored, candidate)
    else stored == candidate
  }

  /** What a stored hash accepts: the trimmed password, so the password as it was typed is accepted again
      exactly when it has no surrounding white space. */
  lemma HashThenCheck(h: Hasher, password: string, salt: nat, candidate: string)
    requires Lawful(h) && HashPassword(h, password, salt).Some?
    ensures var stored := HashPassword(h, password, salt).value;
            && IsPasswordHashed(stored)
            && (CheckPassword(h, candidate, stored) <==> candidate == TrimSpace(password))
            && (CheckPassword(h, password, stored) <==> Trimmed(password))
  {
    TrimSpaceTrims(password);
    var stored := h.generate(TrimSpace(password), salt).value;
    assert HasPrefix(stored, "$2a$");
  }

  // ---- accounts

  datatype Account = Account(password: string, role: string)

  type Users = map<string, Account>

  function NormalizeRole(role: string): string {
    var normalized := ToLower(TrimSpace(role));
    if normalized == "" then "technician" else normalized
  }

  predicate NormalRole(role: string) { role != "" && Trimmed(role) && ToLower(role) == role }

  lemma LowerKeepsTrimmed(s: string)
    requires Trimmed(s)
    ensures Trimmed(ToLower(s))
  {
  }

  lemma NormalizeRoleNormal(role: string)
    ensures NormalRole(NormalizeRole(role))
    ensures NormalizeRole(role) == role <==> NormalRole(role)
  {
    TrimSpaceTrims(role);
    LowerKeepsTrimmed(TrimSpace(role));
    ToLowerIdempotent(TrimSpace(role));
  }

  /** However a normal role is spelled, in any case and with white space around it, that role is read; a
      blank one is a technician's. */
  lemma NormalizeRoleSpelled(before: string, spelled: string, after: string)
    requires forall i :: 0 <= i < |before| ==> IsSpace(before[i])
    requires forall i :: 0 <= i < |after| ==> IsSpace(after[i])
    ensures NormalRole(ToLower(spelled)) && Trimmed(spelled) ==> NormalizeRole(before + spelled + after) == ToLower(spelled)
    ensures spelled == "" ==> NormalizeRole(before + spelled + after) == "technician"
  {
    if Trimmed(spelled) { TrimSpaceAround(before, spelled, after); }
  }

  /** None when the password cannot be hashed. */
  function Normalized(h: Hasher, a: Account, salt: nat): Option<Account> {
    if IsPasswordHashed(a.password) then Some(Account(a.password, NormalizeRole(a.role)))
    else
      match HashPassword(h, a.password, salt)
      case None => None
      case Some(hash) => Some(Account(hash, NormalizeRole(a.role)))
  }

  ghost predicate NormalAccount(a: Account) { NormalRole(a.role) && IsPasswordHashed(a.password) }

  /** A stored text with one of the library's three prefixes is compared by the library and never hashed
      again; any other is compared as it is. */
  lemma StoredHashKept(h: Hasher, a: Account, salt: nat, candidate: string)
    requires a.password != ""
    ensures var hashed := "$2a$" <= a.password || "$2b$" <= a.password || "$2y$" <= a.password;
            && (hashed ==> CheckPassword(h, candidate, a.password) == h.compare(a.password, candidate))
            && (hashed ==> Normalized(h, a, salt) == Some(Account(a.password, NormalizeRole(a.role))))
            && (!hashed ==> (CheckPassword(h, candidate, a.password) <==> candidate == a.password))
  {
  }

  lemma NormalizedNormal(h: Hasher, a: Account, salt: nat)
    requires Lawful(h)
    ensures Normalized(h, a, salt).Some? ==> NormalAccount(Normalized(h, a, salt).value)
    ensures Normalized(h, a, salt).Some? ==> Normalized(h, a, salt).value.role == NormalizeRole(a.role)
    ensures NormalAccount(a) ==> Normalized(h, a, salt) == Some(a)
  {
    NormalizeRoleNormal(a.role);
    if !IsPasswordHashed(a.password) && HashPassword(h, a.password, salt).Some? {
      HashThenCheck(h, a.password, salt, "");
    }
  }

  /** Normalising a stored plain password keeps what it accepts exactly when it has no surrounding white
      space. */
  lemma NormalizeKeepsPassword(h: Hasher, a: Account, salt: nat)
    requires Lawful(h) && Normalized(h, a, salt).Some? && !IsPasswordHashed(a.password)
    ensures (forall c :: CheckPassword(h, c, a.password) <==> CheckPassword(h, c, Normalized(h, a, salt).value.password))
            <==> Trimmed(a.password)
  {
    var stored := Normalized(h, a, salt).value.password;
    TrimSpaceTrims(a.password);
    forall c ensures CheckPassword(h, c, stored) <==> c == TrimSpace(a.password) {
      HashThenCheck(h, a.password, salt, c);
    }
    if !Trimmed(a.password) {
      assert CheckPassword(h, a.password, a.password) && !CheckPassword(h, a.password, stored);
    }
  }

  predicate IsSuperadmin(a: Account) { a.role == "superadmin" }

  /** As they are counted: without regard to case. */
  function Superadmins(users: Users): set<string> {
    set u | u in users && ToLower(users[u].role) == "superadmin"
  }

  ghost predicate Inv(users: Users) {
    && (forall u :: u in users ==> NormalAccount(users[u]))
    && (exists u :: u in users && IsSuperadmin(users[u]))
  }

  // ---- requests

  datatype Reply = Success | BadRequest | Unauthorized | NotFound | Conflict | SaveFailed

  /** `current` is the authenticated user. */
  datatype Request =
    | Create(username: string, password: string, role: string)
    | Update(username: string, password: string, role: string)
    | Delete(username: string)
    | ChangePassword(present: string, chosen: string)

  predicate KnownRole(role: string) { role == "superadmin" || role == "technician" }

  function RoleText(role: string): string { ToLower(TrimSpace(role)) }

  /** What a request writes: the changed users, or the reply that refuses it. */
  datatype Change = Refuse(reply: Reply) | Write(users: Users)

  function CreateChange(h: Hasher, users: Users, r: Request, salt: nat): Change
    requires r.Create?
  {
    var name, role := TrimSpace(r.username), RoleText(r.role);
    if name == "" || r.password == "" || (role != "" && !KnownRole(role)) then Refuse(BadRequest)
    else if name in users then Refuse(Conflict)
    else
      match HashPassword(h, r.password, salt)
      case None => Refuse(BadRequest)
      case Some(hash) => Write(users[name := Account(hash, if role == "" then "technician" else role)])
  }

  function UpdateChange(h: Hasher, users: Users, r: Request, salt: nat): Change
    requires r.Update?
  {
    var role := RoleText(r.role);
    if r.username == "" then Refuse(BadRequest)
    else if r.username !in users then Refuse(NotFound)
    else if (r.password == "" && role == "") || (role != "" && !KnownRole(role)) then Refuse(BadRequest)
    else
      var user := users[r.username];
      if role == "technician" && IsSuperadmin(user) && |Superadmins(users)| <= 1 then Refuse(BadRequest)
      else
        var hash := if r.password == "" then Some(user.password) else HashPassword(h, r.password, salt);
        if hash.None? then Refuse(BadRequest)
        else Write(users[r.username := Account(hash.value, if role == "" then user.role else role)])
  }

  function DeleteChange(users: Users, r: Request, current: string): Change
    requires r.Delete?
  {
    if r.username == "" || r.username == current then Refuse(BadRequest)
    else if r.username !in users then Refuse(NotFound)
    else if IsSuperadmin(users[r.username]) && |Superadmins(users)| <= 1 then Refuse(BadRequest)
    else Write(users - {r.username})
  }

  function PasswordChange(h: Hasher, users: Users, r: Request, current: string, salt: nat): Change
    requires r.ChangePassword?
  {
    if current == "" then Refuse(Unauthorized)
    else if TrimSpace(r.present) == "" || TrimSpace(r.chosen) == "" then Refuse(BadRequest)
    else if current !in users || !CheckPassword(h, r.present, users[current].password) then Refuse(Unauthorized)
    else
      match HashPassword(h, r.chosen, salt)
      case None => Refuse(BadRequest)
      case Some(hash) => Write(users[current := users[current].(password := hash)])
  }

  function ChangeOf(h: Hasher, users: Users, r: Request, current: string, salt: nat): Change {
    match r
    case Create(_, _, _) => CreateChange(h, users, r, salt)
    case Update(_, _, _) => UpdateChange(h, users, r, salt)
    case Delete(_) => DeleteChange(users, r, current)
    case ChangePassword(_, _) => PasswordChange(h, users, r, current, salt)
  }

  /** The users in memory change before they are saved, and stay changed when saving fails. */
  function UsersAfter(users: Users, c: Change): Users { if c.Write? then c.users else users }

  function ReplyTo(c: Change, saved: bool): Reply {
    match c
    case Refuse(reply) => reply
    case Write(_) => if saved then Success else SaveFailed
  }

  class UserHandler {
    var users: Users
    const hasher: Hasher

    constructor (hasher: Hasher, users: Users)
      ensures this.users == users && this.hasher == hasher
    {
      this.users := users;
      this.hasher := hasher;
    }

    /** Writes every account back normalised; an account that cannot be hashed ends the loop and leaves the
        accounts not yet reached as they were. `salts` are the library's random salts. */
    method NormalizeUsers(salts: string -> nat) returns (ok: bool)
      modifies this`users
      ensures ok <==> forall u :: u in old(users) ==> Normalized(hasher, old(users)[u], salts(u)).Some?
      ensures users.Keys == old(users).Keys
      ensures ok ==> forall u :: u in users ==> users[u] == Normalized(hasher, old(users)[u], salts(u)).value
      ensures forall u :: u in users ==> users[u] == old(users)[u] || Some(users[u]) == Normalized(hasher, old(users)[u], salts(u))
    {
      ghost var before := users;
      var rest := users.Keys;
      while rest != {}
        invariant rest <= before.Keys && users.Keys == before.Keys
        invariant forall u :: u in rest ==> users[u] == before[u]
        invariant forall u :: u in before.Keys - rest ==> Some(users[u]) == Normalized(hasher, before[u], salts(u))
      {
        var name, others := TakeKey(rest);
        var user := users[name];
        user := user.(role := NormalizeRole(user.role));
        if !IsPasswordHashed(user.password) {
          var hash := HashPassword(hasher, user.password, salts(name));
          if hash.None? {
            return false;
          }
          user := user.(password := hash.value);
        }
        users := users[name := user];
        rest := others;
      }
      return true;
    }

    method CountSuperadmins() returns (count: nat)
      ensures count == |Superadmins(users)|
      ensures count == |set u | u in users && ToLower(users[u].role) == "superadmin"|
    {
      count := 0;
      var rest := users.Keys;
      ghost var counted: set<string> := {};
      while rest != {}
        invariant rest <= users.Keys
        invariant counted == (set u | u in users.Keys - rest && ToLower(users[u].role) == "superadmin")
        invariant count == |counted|
      {
        var name, others := TakeKey(rest);
        if ToLower(users[name].role) == "superadmin" {
          count := count + 1;
          counted := counted + {name};
        }
        rest := others;
      }
      assert counted == Superadmins(users);
    }

    method CreateUser(r: Request, salt: nat, saved: bool) returns (reply: Reply)
      requires r.Create?
      modifies this`users
      ensures users == UsersAfter(old(users), CreateChange(hasher, old(users), r, salt))
      ensures reply == ReplyTo(CreateChange(hasher, old(users), r, salt), saved)
    {
      var name := TrimSpace(r.username);
      var role := ToLower(TrimSpace(r.role));
      if name == "" || r.password == "" {
        return BadRequest;
      }
      if role == "" {
        role := "technician";
      }
      if role != "superadmin" && role != "technician" {
        return BadRequest;
      }
      if name in users {
        return Conflict;
      }
      var hash := HashPassword(hasher, r.password, salt);
      if hash.None? {
        return BadRequest;
      }
      users := users[name := Account(hash.value, role)];
      if !saved {
        return SaveFailed;
      }
      return Success;
    }

    method UpdateUser(r: Request, salt: nat, saved: bool) returns (reply: Reply)
      requires r.Update?
      modifies this`users
      ensures users == UsersAfter(old(users), UpdateChange(hasher, old(users), r, salt))
      ensures reply == ReplyTo(UpdateChange(hasher, old(users), r, salt), saved)
    {
      if r.username == "" {
        return BadRequest;
      }
      var role := ToLower(TrimSpace(r.role));
      if r.username !in users {
        return NotFound;
      }
      var user := users[r.username];
      if r.password == "" && role == "" {
        return BadRequest;
      }
      if role != "" && role != "superadmin" && role != "technician" {
        return BadRequest;
      }
      if role == "technician" && user.role == "superadmin" {
        var count := CountSuperadmins();
        if count <= 1 {
          return BadRequest;
        }
      }
      if r.password != "" {
        var hash := HashPassword(hasher, r.password, salt);
        if hash.None? {
          return BadRequest;
        }
        user := user.(password := hash.value);
      }
      if role != "" {
        user := user.(role := role);
      }
      users := users[r.username := user];
      if !saved {
        return SaveFailed;
      }
      return Success;
    }

    method DeleteUser(r: Request, current: string, saved: bool) returns (reply: Reply)
      requires r.Delete?
      modifies this`users
      ensures users == UsersAfter(old(users), DeleteChange(old(users), r, current))
      ensures reply == ReplyTo(DeleteChange(old(users), r, current), saved)
    {
      if r.username == "" || r.username == current {
        return BadRequest;
      }
      if r.username !in users {
        return NotFound;
      }
      if users[r.username].role == "superadmin" {
        var count := CountSuperadmins();
        if count <= 1 {
          return BadRequest;
        }
      }
      users := users - {r.username};
      if !saved {
        return SaveFailed;
      }
      return Success;
    }

    method ChangeOwnPassword(r: Request, current: string, salt: nat, saved: bool) returns (reply: Reply)
      requires r.ChangePassword?
      modifies this`users
      ensures users == UsersAfter(old(users), PasswordChange(hasher, old(users), r, current, salt))
      ensures reply == ReplyTo(PasswordChange(hasher, old(users), r, current, salt), saved)
    {
      if current == "" {
        return Unauthorized;
      }
      if TrimSpace(r.present) == "" || TrimSpace(r.chosen) == "" {
        return BadRequest;
      }
      if current !in users || !CheckPassword(hasher, r.present, users[current].password) {
        return Unauthorized;
      }
      var hash := HashPassword(hasher, r.chosen, salt);
      if hash.None? {
        return BadRequest;
      }
      var user := users[current];
      users := users[current := user.(password := hash.value)];
      if !saved {
        return SaveFailed;
      }
      return Success;
    }
  }

  // ---- what requests keep

  lemma SuperadminsNormal(users: Users)
    requires forall u :: u in users ==> NormalAccount(users[u])
    ensures Superadmins(users) == set u | u in users && IsSuperadmin(users[u])
  {
  }

  lemma AnotherMember<T>(s: set<T>, x: T)
    requires |s| > 1
    ensures exists y :: y in s && y != x
  {
    var rest := s - {x};
    assert rest != {} by {
      if rest == {} {
        assert s <= {x};
        SubsetSize(s, {x});
      }
    }
    var _ := Inhabitant(rest);
  }

  lemma {:induction false} SubsetSize<T>(a: set<T>, b: set<T>)
    requires a <= b
    ensures |a| <= |b|
  {
    assert b == a + (b - a);
  }

  /** The guard on the last superadmin: where it lets a change through, another superadmin is left. */
  lemma GuardLeavesAnother(users: Users, name: string)
    requires Inv(users) && !(name in users && IsSuperadmin(users[name]) && |Superadmins(users)| <= 1)
    ensures exists u :: u in users && IsSuperadmin(users[u]) && u != name
  {
    SuperadminsNormal(users);
    var u :| u in users && IsSuperadmin(users[u]);
    if u == name {
      assert u in Superadmins(users);
      AnotherMember(Superadmins(users), name);
    }
  }

  lemma HashedAccount(h: Hasher, password: string, salt: nat)
    requires Lawful(h) && HashPassword(h, password, salt).Some?
    ensures IsPasswordHashed(HashPassword(h, password, salt).value)
  {
  }

  lemma KnownRoleNormal(role: string)
    requires KnownRole(role)
    ensures NormalRole(role)
  {
  }

  lemma CreateKeepsInv(h: Hasher, users: Users, r: Request, salt: nat)
    requires Lawful(h) && Inv(users) && r.Create?
    ensures Inv(UsersAfter(users, CreateChange(h, users, r, salt)))
  {
    var c := CreateChange(h, users, r, salt);
    if c.Write? {
      HashedAccount(h, r.password, salt);
      KnownRoleNormal("technician");
      if KnownRole(RoleText(r.role)) { KnownRoleNormal(RoleText(r.role)); }
      var u :| u in users && IsSuperadmin(users[u]);
      assert u in c.users && c.users[u] == users[u];
    }
  }

  lemma UpdateKeepsInv(h: Hasher, users: Users, r: Request, salt: nat)
    requires Lawful(h) && Inv(users) && r.Update?
    ensures Inv(UsersAfter(users, UpdateChange(h, users, r, salt)))
  {
    var c := UpdateChange(h, users, r, salt);
    if c.Write? {
      if r.password != "" { HashedAccount(h, r.password, salt); }
      var role := RoleText(r.role);
      if role != "" { KnownRoleNormal(role); }
      if role == "technician" {
        GuardLeavesAnother(users, r.username);
        var u :| u in users && IsSuperadmin(users[u]) && u != r.username;
        assert c.users[u] == users[u];
      } else {
        var u :| u in users && IsSuperadmin(users[u]);
        assert IsSuperadmin(c.users[u]);
      }
    }
  }

  lemma DeleteKeepsInv(users: Users, r: Request, current: string)
    requires Inv(users) && r.Delete?
    ensures Inv(UsersAfter(users, DeleteChange(users, r, current)))
  {
    var c := DeleteChange(users, r, current);
    if c.Write? {
      GuardLeavesAnother(users, r.username);
      var u :| u in users && IsSuperadmin(users[u]) && u != r.username;
      assert u in c.users && c.users[u] == users[u];
    }
  }

  lemma PasswordKeepsInv(h: Hasher, users: Users, r: Request, current: string, salt: nat)
    requires Lawful(h) && Inv(users) && r.ChangePassword?
    ensures Inv(UsersAfter(users, PasswordChange(h, users, r, current, salt)))
  {
    var c := PasswordChange(h, users, r, current, salt);
    if c.Write? {
      HashedAccount(h, r.chosen, salt);
      var u :| u in users && IsSuperadmin(users[u]);
      assert u in c.users && IsSuperadmin(c.users[u]);
    }
  }

  lemma RequestKeepsInv(h: Hasher, users: Users, r: Request, current: string, salt: nat)
    requires Lawful(h) && Inv(users)
    ensures Inv(UsersAfter(users, ChangeOf(h, users, r, current, salt)))
  {
    match r
    case Create(_, _, _) => CreateKeepsInv(h, users, r, salt);
    case Update(_, _, _) => UpdateKeepsInv(h, users, r, salt);
    case Delete(_) => DeleteKeepsInv(users, r, current);
    case ChangePassword(_, _) => PasswordKeepsInv(h, users, r, current, salt);
  }

  /** A request, who made it, and the salt its hash drew. */
  datatype Call = Call(request: Request, current: string, salt: nat)

  function UsersAfterAll(h: Hasher, users: Users, calls: seq<Call>): Users {
    if calls == [] then users
    else
      var before := UsersAfterAll(h, users, calls[..|calls| - 1]);
      var c := calls[|calls| - 1];
      UsersAfter(before, ChangeOf(h, before, c.request, c.current, c.salt))
  }

  /** Every run of requests, whoever makes them and whether or not saving works, leaves a superadmin,
      normalised roles and hashed passwords. */
  lemma {:induction false} AdministrationInvariant(h: Hasher, users: Users, calls: seq<Call>)
    requires Lawful(h) && Inv(users)
    ensures Inv(UsersAfterAll(h, users, calls))
    decreases |calls|
  {
    if calls != [] {
      var init, c := calls[..|calls| - 1], calls[|calls| - 1];
      AdministrationInvariant(h, users, init);
      RequestKeepsInv(h, UsersAfterAll(h, users, init), c.request, c.current, c.salt);
    }
  }

  lemma SuperadminsWithout(users: Users, name: string)
    ensures Superadmins(users - {name}) == Superadmins(users) - {name}
  {
  }

  /** What the guard is worth for any users at all: a deletion leaves nobody who counts as a superadmin
      exactly when it hits the only one and that one's role is not the spelling the guard compares with.
      Normalised users, the only ones that loading leaves, have no such role. */
  lemma DeleteGuardExact(users: Users, name: string, current: string)
    requires Superadmins(users) != {}
    ensures Superadmins(UsersAfter(users, DeleteChange(users, Delete(name), current))) == {}
            <==> name != "" && name != current && Superadmins(users) == {name} && !IsSuperadmin(users[name])
  {
    SuperadminsWithout(users, name);
    var c := DeleteChange(users, Delete(name), current);
    if c.Write? && Superadmins(users) - {name} == {} {
      assert Superadmins(users) == {name};
    }
  }

  // ---- which requests are granted, and what they leave

  ghost predicate OtherSuperadmin(users: Users, name: string) {
    exists u :: u in users && IsSuperadmin(users[u]) && u != name
  }

  /** The guard lets go of a superadmin exactly when there is another. */
  lemma GuardExact(users: Users, name: string)
    requires Inv(users)
    ensures name in users && IsSuperadmin(users[name]) && |Superadmins(users)| <= 1 <==> !OtherSuperadmin(users, name)
  {
    SuperadminsNormal(users);
    if OtherSuperadmin(users, name) && name in users && IsSuperadmin(users[name]) {
      var u :| u in users && IsSuperadmin(users[u]) && u != name;
      SubsetSize({u, name}, Superadmins(users));
    }
    if !(name in users && IsSuperadmin(users[name]) && |Superadmins(users)| <= 1) { GuardLeavesAnother(users, name); }
  }

  /** A user is created exactly when the name is not blank and not taken, the password is not blank and can
      be hashed, and the role is blank or known; a taken name is a conflict. */
  lemma CreateGranted(h: Hasher, users: Users, r: Request, salt: nat)
    requires r.Create?
    ensures CreateChange(h, users, r, salt).Write? <==>
            && TrimSpace(r.username) != "" && TrimSpace(r.username) !in users
            && TrimSpace(r.password) != "" && h.generate(TrimSpace(r.password), salt).Some?
            && ToLower(TrimSpace(r.role)) in {"", "superadmin", "technician"}
    ensures TrimSpace(r.username) in users ==> CreateChange(h, users, r, salt) in {Refuse(Conflict), Refuse(BadRequest)}
  {
  }

  /** An account is updated exactly when it exists, something is asked for, the role is blank or known, a
      password asked for can be hashed, and no last superadmin would be made a technician. */
  lemma UpdateGranted(h: Hasher, users: Users, r: Request, salt: nat)
    requires r.Update? && Inv(users)
    ensures UpdateChange(h, users, r, salt).Write? <==>
            && r.username != "" && r.username in users
            && (r.password != "" || TrimSpace(r.role) != "")
            && ToLower(TrimSpace(r.role)) in {"", "superadmin", "technician"}
            && (r.password != "" ==> TrimSpace(r.password) != "" && h.generate(TrimSpace(r.password), salt).Some?)
            && (ToLower(TrimSpace(r.role)) == "technician" ==> OtherSuperadmin(users, r.username))
  {
    GuardExact(users, r.username);
  }

  /** An account is deleted exactly when it exists, is not one's own, and another superadmin remains. */
  lemma DeleteGranted(users: Users, r: Request, current: string)
    requires r.Delete? && Inv(users)
    ensures DeleteChange(users, r, current).Write? <==>
            r.username != "" && r.username != current && r.username in users && OtherSuperadmin(users, r.username)
    ensures DeleteChange(users, r, current).Write? ==>
            r.username !in DeleteChange(users, r, current).users && DeleteChange(users, r, current).users == users - {r.username}
  {
    GuardExact(users, r.username);
  }

  /** One's own password is changed exactly when the present one is accepted and the new one is not blank
      and can be hashed. */
  lemma PasswordGranted(h: Hasher, users: Users, r: Request, current: string, salt: nat)
    requires r.ChangePassword?
    ensures PasswordChange(h, users, r, current, salt).Write? <==>
            && current != "" && current in users && TrimSpace(r.present) != "" && TrimSpace(r.chosen) != ""
            && CheckPassword(h, r.present, users[current].password) && h.generate(TrimSpace(r.chosen), salt).Some?
  {
  }

  /** A request is answered with success exactly when it was granted and saved; one that was granted but
      not saved is reported as such, and stays in memory. */
  lemma RepliesTell(h: Hasher, users: Users, r: Request, current: string, salt: nat, saved: bool)
    ensures var c := ChangeOf(h, users, r, current, salt);
            && (ReplyTo(c, saved) == Success <==> c.Write? && saved)
            && (ReplyTo(c, saved) == SaveFailed <==> c.Write? && !saved)
            && (!c.Write? ==> UsersAfter(users, c) == users)
  {
  }

  /** A created user can log in with the trimmed password and nothing else, has the role asked for, and
      every other account is as it was. */
  lemma CreateThenCheck(h: Hasher, users: Users, r: Request, salt: nat, candidate: string)
    requires Lawful(h) && r.Create? && CreateChange(h, users, r, salt).Write?
    ensures var after := CreateChange(h, users, r, salt).users;
            var name := TrimSpace(r.username);
            && name in after
            && (CheckPassword(h, candidate, after[name].password) <==> candidate == TrimSpace(r.password))
            && after[name].role == (if TrimSpace(r.role) == "" then "technician" else ToLower(TrimSpace(r.role)))
            && after - {name} == users
  {
  }

  /** After an update the account accepts exactly the trimmed new password, or what it accepted before if
      none was asked for; it has the role asked for, or the old one; and every other account is as it was. */
  lemma UpdateThenCheck(h: Hasher, users: Users, r: Request, salt: nat, candidate: string)
    requires Lawful(h) && r.Update? && UpdateChange(h, users, r, salt).Write?
    ensures var after := UpdateChange(h, users, r, salt).users;
            && r.username in users && after.Keys == users.Keys && after - {r.username} == users - {r.username}
            && (CheckPassword(h, candidate, after[r.username].password) <==>
                if r.password != "" then candidate == TrimSpace(r.password)
                else CheckPassword(h, candidate, users[r.username].password))
            && after[r.username].role == (if TrimSpace(r.role) == "" then users[r.username].role else ToLower(TrimSpace(r.role)))
  {
    if r.password != "" { HashThenCheck(h, r.password, salt, candidate); }
  }

  /** After a change of one's own password the account accepts exactly the trimmed new one and keeps its
      role, and every other account is as it was. */
  lemma ChangeThenCheck(h: Hasher, users: Users, r: Request, current: string, salt: nat, candidate: string)
    requires Lawful(h) && r.ChangePassword? && PasswordChange(h, users, r, current, salt).Write?
    ensures var after := PasswordChange(h, users, r, current, salt).users;
            && current in users && after.Keys == users.Keys && after - {current} == users - {current}
            && (CheckPassword(h, candidate, after[current].password) <==> candidate == TrimSpace(r.chosen))
            && after[current].role == users[current].role
  {
  }
}
