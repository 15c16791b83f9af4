/**
 * The `protect`, `doctorProtect` and `userProtect` middleware. Token verification is a parameter
 * (`verify`): it returns the token's claims, or `None` when `jwt.verify` would throw.
 */
module AuthMiddleware {
  import opened Common
  import opened Database
  import opened Http

  datatype Role = UserRole | DoctorRole

  /** `s.split(sep)` for a one-character separator: always at least one field, none holding `sep`. */
  function Split(s: string, sep: char): (fields: seq<string>)
    ensures |fields| >= 1
    ensures forall i :: 0 <= i < |fields| ==> sep !in fields[i]
    decreases |s|
  {
    if s == [] then [""]
    else
      var rest := Split(s[1..], sep);
      if s[0] == sep then [""] + rest else [[s[0]] + rest[0]] + rest[1..]
  }

  /** `fields.join(sep)`, the inverse of `Split`. */
  function Join(fields: seq<string>, sep: char): string
    requires |fields| >= 1
  {
    if |fields| == 1 then fields[0] else fields[0] + [sep] + Join(fields[1..], sep)
  }

  lemma JoinCons(c: char, rest: seq<string>, sep: char)
    requires |rest| >= 1
    ensures Join([[c] + rest[0]] + rest[1..], sep) == [c] + Join(rest, sep)
  {
    var fs := [[c] + rest[0]] + rest[1..];
    if |rest| > 1 {
      assert fs[1..] == rest[1..];
    }
  }

  /** Joining the fields back with the separator gives the original string. */
  lemma {:induction false} JoinSplit(s: string, sep: char)
    ensures Join(Split(s, sep), sep) == s
    decreases |s|
  {
    if s != [] {
      JoinSplit(s[1..], sep);
      var rest := Split(s[1..], sep);
      if s[0] == sep {
        assert ([""] + rest)[1..] == rest;
      } else {
        JoinCons(s[0], rest, sep);
      }
    }
  }

  /** There is a second field exactly when the separator occurs. */
  lemma {:induction false} SplitSingle(s: string, sep: char)
    ensures |Split(s, sep)| == 1 <==> sep !in s
    decreases |s|
  {
    if s != [] {
      SplitSingle(s[1..], sep);
    }
  }

  /** A joined string starts with its first field, followed by the separator when there are more. */
  lemma JoinHead(fields: seq<string>, sep: char)
    requires |fields| >= 1
    ensures fields[0] <= Join(fields, sep)
    ensures |fields| > 1 ==> |Join(fields, sep)| > |fields[0]| && Join(fields, sep)[|fields[0]|] == sep
  {
  }

  /**
   * `authorization.split(' ')[1]`: `undefined` (None) when the header has no space. The token holds
   * no space; the header is the first field, one space, the token, and then the end or another space.
   */
  function BearerToken(header: string): (token: Option<string>)
    ensures token.Some? <==> ' ' in header
    ensures token.Some? ==> ' ' !in token.value
    ensures token.Some? ==> ' ' !in Split(header, ' ')[0]
    ensures token.Some? ==> Split(header, ' ')[0] + " " + token.value <= header
    ensures token.Some? ==> var n := |Split(header, ' ')[0]| + 1 + |token.value|;
                            n < |header| ==> header[n] == ' '
  {
    var fields := Split(header, ' ');
    SplitSingle(header, ' ');
    if |fields| > 1 then
      JoinSplit(header, ' ');
      JoinHead(fields, ' ');
      JoinHead(fields[1..], ' ');
      assert header == fields[0] + " " + Join(fields[1..], ' ');
      Some(fields[1])
    else
      None
  }

  /** A string without the separator is a single field. */
  lemma {:induction false} SplitWithout(s: string, sep: char)
    requires sep !in s
    ensures Split(s, sep) == [s]
    decreases |s|
  {
    if s != [] {
      SplitWithout(s[1..], sep);
      assert [s[0]] + s[1..] == s;
    }
  }

  /** A field, the separator and a rest split into that field followed by the rest's fields. */
  lemma {:induction false} SplitAfterField(w: string, s: string, sep: char)
    requires sep !in w
    ensures Split(w + [sep] + s, sep) == [w] + Split(s, sep)
    decreases |w|
  {
    var t := w + [sep] + s;
    if w == [] {
      assert t[1..] == s;
    } else {
      assert t[1..] == w[1..] + [sep] + s;
      SplitAfterField(w[1..], s, sep);
      assert [w[0]] + w[1..] == w;
    }
  }

  /** The header a client sends, `Bearer <token>`, hands back exactly that token. */
  lemma BearerTokenOf(token: string)
    requires ' ' !in token
    ensures BearerToken("Bearer " + token) == Some(token)
  {
    assert "Bearer " + token == "Bearer" + [' '] + token;
    SplitAfterField("Bearer", token, ' ');
    SplitWithout(token, ' ');
  }

  /** `req.headers.authorization && req.headers.authorization.startsWith('Bearer')` */
  predicate HasBearer(authorization: Option<string>) {
    authorization.Some? && "Bearer" <= authorization.value
  }

  /** The local `token` once the header test passed; `undefined` otherwise. */
  function ExtractedToken(authorization: Option<string>): (token: Option<string>)
    ensures !HasBearer(authorization) ==> token.None?
  {
    if HasBearer(authorization) then BearerToken(authorization.value) else None
  }

  /** `jwt.verify(token)`: a missing or empty token throws before the signature is looked at. */
  function Decode(token: Option<string>, verify: string -> Option<Claims>): (decoded: Option<Claims>)
    ensures !Truthy(token) ==> decoded.None?
  {
    if Truthy(token) then verify(token.value) else None
  }

  /** `User.findById(id).select('-password')`; `null` for an unknown id. */
  function FindUser(users: seq<User>, id: nat): (p: Option<Principal>)
    ensures p.Some? <==> id < |users|
    ensures p.Some? ==> p.value.id == id && p.value.name == users[id].name && p.value.email == users[id].email
  {
    if id < |users| then Some(Principal(id, users[id].name, users[id].email)) else None
  }

  /** `Doctor.findById(id).select('-password')`; `null` for an unknown id. */
  function FindDoctor(doctors: seq<Doctor>, id: nat): (p: Option<Principal>)
    ensures p.Some? <==> id < |doctors|
    ensures p.Some? ==> p.value.id == id && p.value.name == doctors[id].name && p.value.email == doctors[id].email
  {
    if id < |doctors| then Some(Principal(id, doctors[id].name, doctors[id].email)) else None
  }

  /** The Express request as the middleware sees and decorates it. */
  class Request {
    const authorization: Option<string>
    var userType: Option<Role>
    var user: Option<Principal>
    var doctor: Option<Principal>

    constructor (authorization: Option<string>)
      ensures this.authorization == authorization
      ensures userType.None? && user.None? && doctor.None?
    {
      this.authorization := authorization;
      userType, user, doctor := None, None, None;
    }
  }

  const NoToken := Fail(401, "Not authorized, no token")
  const TokenFailed := Fail(401, "Not authorized, token failed")
  const InvalidTokenType := Fail(401, "Not authorized, invalid token type")

  /**
   * `protect`. `resent` is set when, after the catch block already answered, the trailing
   * `if (!token)` answers a second time (a `Bearer` header whose token is missing or empty);
   * the client sees only the first answer, which `outcome` holds.
   */
  method Protect(req: Request, db: Db, verify: string -> Option<Claims>) returns (outcome: Outcome, resent: bool)
    modifies req
    ensures !HasBearer(req.authorization) ==> outcome == Respond(NoToken) && !resent && unchanged(req)
    ensures HasBearer(req.authorization) ==>
      var token := ExtractedToken(req.authorization);
      var decoded := Decode(token, verify);
      && (decoded.None? ==> outcome == Respond(TokenFailed) && resent == !Truthy(token) && unchanged(req))
      && (decoded.Some? && decoded.value.tokenType == "user" ==>
            outcome == Next && !resent && req.userType == Some(UserRole)
            && req.user == FindUser(db.users, decoded.value.id) && req.doctor == old(req.doctor))
      && (decoded.Some? && decoded.value.tokenType == "doctor" ==>
            outcome == Next && !resent && req.userType == Some(DoctorRole)
            && req.doctor == FindDoctor(db.doctors, decoded.value.id) && req.user == old(req.user))
      && (decoded.Some? && decoded.value.tokenType != "user" && decoded.value.tokenType != "doctor" ==>
            outcome == Respond(InvalidTokenType) && !resent && unchanged(req))
    ensures outcome == Next ==> req.userType.Some?
  {
    var token: Option<string> := None;
    outcome, resent := Respond(NoToken), false;
    var answered := false;
    if HasBearer(req.authorization) {
      token := BearerToken(req.authorization.value);
      var decoded := Decode(token, verify);
      if decoded.None? {
        outcome, answered := Respond(TokenFailed), true;
      } else if decoded.value.tokenType == "user" {
        req.user := FindUser(db.users, decoded.value.id);
        req.userType := Some(UserRole);
        outcome := Next;
      } else if decoded.value.tokenType == "doctor" {
        req.doctor := FindDoctor(db.doctors, decoded.value.id);
        req.userType := Some(DoctorRole);
        outcome := Next;
      } else {
        return Respond(InvalidTokenType), false;
      }
    }
    if !Truthy(token) {
      if answered {
        resent := true;
      } else {
        outcome := Respond(NoToken);
      }
    }
  }

  /** `doctorProtect`: passes on exactly the requests `protect` marked as a doctor's. */
  function DoctorProtect(userType: Option<Role>): (o: Outcome)
    ensures o == Next <==> userType == Some(DoctorRole)
    ensures o != Next ==> o.response == Fail(403, "Not authorized as a doctor")
  {
    if userType == Some(DoctorRole) then Next else Respond(Fail(403, "Not authorized as a doctor"))
  }

  /** `userProtect`: passes on exactly the requests `protect` marked as a user's. */
  function UserProtect(userType: Option<Role>): (o: Outcome)
    ensures o == Next <==> userType == Some(UserRole)
    ensures o != Next ==> o.response == Fail(403, "Not authorized as a user")
  {
    if userType == Some(UserRole) then Next else Respond(Fail(403, "Not authorized as a user"))
  }
}
