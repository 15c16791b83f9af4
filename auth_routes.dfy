/**
 * Registration and login for users and doctors (`/api/auth`). Signing a token is left abstract:
 * the body carries the claims `generateToken(id, type)` signs. `matchPassword` (bcrypt in the
 * account models) is a parameter comparing the stored password with the one offered.
 */
module AuthRoutes {
  import opened Common
  import opened Database
  import opened Http

  /** `generateToken(id, type)`: a token for exactly these claims. */
  function GenerateToken(id: nat, tokenType: string): (c: Claims)
    ensures c.id == id && c.tokenType == tokenType
  {
    Claims(id, tokenType)
  }

  /** Appending a fresh email keeps a collection's emails distinct. */
  lemma AppendFreshEmail(emails: seq<string>, email: string)
    requires DistinctEmails(emails)
    requires email !in emails
    ensures DistinctEmails(emails + [email])
  {
  }

  /** POST /user/register */
  method RegisterUser(db: Db, name: string, email: string, password: string) returns (resp: Response)
    requires db.Valid()
    modifies db
    ensures db.Valid()
    ensures db.doctors == old(db.doctors) && db.calls == old(db.calls)
    ensures email in old(UserEmails(db.users)) ==>
              resp == Fail(400, "User already exists") && db.users == old(db.users)
    ensures email !in old(UserEmails(db.users)) ==>
              var id := |old(db.users)|;
              && db.users == old(db.users) + [User(name, email, password, [])]
              && resp == Response(201, Account(id, name, email, None, GenerateToken(id, "user")))
  {
    var existing := FirstIndex(UserEmails(db.users), email);
    FirstIndexMisses(UserEmails(db.users), email);
    if existing < |db.users| {
      return Fail(400, "User already exists");
    }
    var id := |db.users|;
    AppendFreshEmail(UserEmails(db.users), email);
    db.users := db.users + [User(name, email, password, [])];
    assert UserEmails(db.users) == old(UserEmails(db.users)) + [email];
    resp := Response(201, Account(id, name, email, None, GenerateToken(id, "user")));
  }

  /** POST /user/login: the first user with that email, if its password matches. */
  function LoginUser(users: seq<User>, email: string, password: string,
                     matchPassword: (string, string) -> bool): (resp: Response)
    ensures resp.status == 200 || resp == Fail(401, "Invalid email or password")
    ensures resp.status == 200 ==> exists i :: 0 <= i < |users| && users[i].email == email
                                             && matchPassword(users[i].password, password)
                                             && resp.body == Account(i, users[i].name, email, None, Claims(i, "user"))
  {
    var k := FirstIndex(UserEmails(users), email);
    if k < |users| && matchPassword(users[k].password, password) then
      Response(200, Account(k, users[k].name, users[k].email, None, GenerateToken(k, "user")))
    else
      Fail(401, "Invalid email or password")
  }

  /** A login whose `findOne` lands on account `i` succeeds exactly when `i` accepts the password. */
  lemma LoginUserAt(users: seq<User>, email: string, password: string,
                     matchPassword: (string, string) -> bool, i: nat)
    requires i < |users| && FirstIndex(UserEmails(users), email) == i
    ensures LoginUser(users, email, password, matchPassword).status == 200 <==> matchPassword(users[i].password, password)
  {
  }

  /** With unique emails, a user login succeeds exactly when that email's account accepts the password. */
  lemma LoginUserSucceedsIff(users: seq<User>, email: string, password: string,
                             matchPassword: (string, string) -> bool, i: nat)
    requires DistinctEmails(UserEmails(users))
    requires i < |users| && users[i].email == email
    ensures LoginUser(users, email, password, matchPassword).status == 200 <==> matchPassword(users[i].password, password)
  {
    FirstIndexIsOnlyMatch(UserEmails(users), email, i);
    LoginUserAt(users, email, password, matchPassword, i);
  }

  /** An email no user has never logs in. */
  lemma LoginUserUnknownEmail(users: seq<User>, email: string, password: string,
                              matchPassword: (string, string) -> bool)
    requires email !in UserEmails(users)
    ensures LoginUser(users, email, password, matchPassword) == Fail(401, "Invalid email or password")
  {
    FirstIndexMisses(UserEmails(users), email);
  }

  /**
   * POST /doctor/register. `defaultAvailable` is the `isAvailable` default of the doctor schema,
   * which is not part of this model.
   */
  method RegisterDoctor(db: Db, name: string, email: string, password: string, specialty: string,
                        experience: int, ratePerMinute: int, defaultAvailable: bool) returns (resp: Response)
    requires db.Valid()
    modifies db
    ensures db.Valid()
    ensures db.users == old(db.users) && db.calls == old(db.calls)
    ensures email in old(DoctorEmails(db.doctors)) ==>
              resp == Fail(400, "Doctor already exists") && db.doctors == old(db.doctors)
    ensures email !in old(DoctorEmails(db.doctors)) ==>
              var id := |old(db.doctors)|;
              && db.doctors == old(db.doctors)
                               + [Doctor(name, email, password, specialty, experience, ratePerMinute, defaultAvailable)]
              && resp == Response(201, Account(id, name, email, Some(specialty), GenerateToken(id, "doctor")))
  {
    var existing := FirstIndex(DoctorEmails(db.doctors), email);
    FirstIndexMisses(DoctorEmails(db.doctors), email);
    if existing < |db.doctors| {
      return Fail(400, "Doctor already exists");
    }
    var id := |db.doctors|;
    AppendFreshEmail(DoctorEmails(db.doctors), email);
    db.doctors := db.doctors + [Doctor(name, email, password, specialty, experience, ratePerMinute, defaultAvailable)];
    assert DoctorEmails(db.doctors) == old(DoctorEmails(db.doctors)) + [email];
    resp := Response(201, Account(id, name, email, Some(specialty), GenerateToken(id, "doctor")));
  }

  /** POST /doctor/login: the first doctor with that email, if its password matches. */
  function LoginDoctor(doctors: seq<Doctor>, email: string, password: string,
                       matchPassword: (string, string) -> bool): (resp: Response)
    ensures resp.status == 200 || resp == Fail(401, "Invalid email or password")
    ensures resp.status == 200 ==> exists i :: 0 <= i < |doctors| && doctors[i].email == email
                                             && matchPassword(doctors[i].password, password)
                                             && resp.body == Account(i, doctors[i].name, email,
                                                                     Some(doctors[i].specialty), Claims(i, "doctor"))
  {
    var k := FirstIndex(DoctorEmails(doctors), email);
    if k < |doctors| && matchPassword(doctors[k].password, password) then
      Response(200, Account(k, doctors[k].name, doctors[k].email, Some(doctors[k].specialty), GenerateToken(k, "doctor")))
    else
      Fail(401, "Invalid email or password")
  }

  /** A login whose `findOne` lands on account `i` succeeds exactly when `i` accepts the password. */
  lemma LoginDoctorAt(doctors: seq<Doctor>, email: string, password: string,
                     matchPassword: (string, string) -> bool, i: nat)
    requires i < |doctors| && FirstIndex(DoctorEmails(doctors), email) == i
    ensures LoginDoctor(doctors, email, password, matchPassword).status == 200 <==> matchPassword(doctors[i].password, password)
  {
  }

  /** With unique emails, a doctor login succeeds exactly when that email's account accepts the password. */
  lemma LoginDoctorSucceedsIff(doctors: seq<Doctor>, email: string, password: string,
                               matchPassword: (string, string) -> bool, i: nat)
    requires DistinctEmails(DoctorEmails(doctors))
    requires i < |doctors| && doctors[i].email == email
    ensures LoginDoctor(doctors, email, password, matchPassword).status == 200 <==> matchPassword(doctors[i].password, password)
  {
    FirstIndexIsOnlyMatch(DoctorEmails(doctors), email, i);
    LoginDoctorAt(doctors, email, password, matchPassword, i);
  }

  /** An email no doctor has never logs in. */
  lemma LoginDoctorUnknownEmail(doctors: seq<Doctor>, email: string, password: string,
                                matchPassword: (string, string) -> bool)
    requires email !in DoctorEmails(doctors)
    ensures LoginDoctor(doctors, email, password, matchPassword) == Fail(401, "Invalid email or password")
  {
    FirstIndexMisses(DoctorEmails(doctors), email);
  }
}
