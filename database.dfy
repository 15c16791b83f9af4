/**
 * In-memory stand-in for the MongoDB collections the routes and the socket server share.
 * Every collection is a sequence in insertion order, and a document's id is its index:
 * ids are handed out by appending and nothing in the modelled code deletes a document.
 * The `User` and `Doctor` documents carry the fields the routes read and write.
 */
module Database {
  import opened Common
  import opened CallModel

  /** One element of `user.consultationHistory`. */
  datatype HistoryEntry = HistoryEntry(doctor: DoctorId, callDuration: int, billAmount: int, callDate: int)

  datatype User = User(name: string, email: string, password: string, consultationHistory: seq<HistoryEntry>)

  datatype Doctor = Doctor(
    name: string,
    email: string,
    password: string,
    specialty: string,
    experience: int,
    ratePerMinute: int,
    isAvailable: bool)

  /** A document read with `.select('-password')`. */
  datatype Principal = Principal(id: nat, name: string, email: string)

  function UserEmails(users: seq<User>): (r: seq<string>)
    ensures |r| == |users| && forall i :: 0 <= i < |users| ==> r[i] == users[i].email
  {
    seq(|users|, i requires 0 <= i < |users| => users[i].email)
  }

  function DoctorEmails(doctors: seq<Doctor>): (r: seq<string>)
    ensures |r| == |doctors| && forall i :: 0 <= i < |doctors| ==> r[i] == doctors[i].email
  {
    seq(|doctors|, i requires 0 <= i < |doctors| => doctors[i].email)
  }

  /**
   * `findOne({ email })`: the first document in natural (insertion) order whose email matches,
   * as an index; `|emails|` when there is none.
   */
  function FirstIndex(emails: seq<string>, email: string): (k: nat)
    ensures k <= |emails|
    ensures k < |emails| ==> emails[k] == email
    ensures forall j :: 0 <= j < k ==> emails[j] != email
  {
    if emails == [] then 0
    else if emails[0] == email then 0
    else 1 + FirstIndex(emails[1..], email)
  }

  /** `findOne` misses exactly when no document has that email. */
  lemma FirstIndexMisses(emails: seq<string>, email: string)
    ensures FirstIndex(emails, email) == |emails| <==> email !in emails
  {
  }

  /** No two documents of a collection share an email. */
  ghost predicate DistinctEmails(emails: seq<string>) {
    forall i, j :: 0 <= i < j < |emails| ==> emails[i] != emails[j]
  }

  /** With distinct emails, the document `findOne` returns is the only one with that email. */
  lemma FirstIndexIsOnlyMatch(emails: seq<string>, email: string, j: nat)
    requires DistinctEmails(emails)
    requires j < |emails| && emails[j] == email
    ensures FirstIndex(emails, email) == j
  {
  }

  /** Each user has at most one call whose status is `active`. */
  ghost predicate OneActiveCallPerUser(calls: seq<Call>) {
    forall i, j ::
      (0 <= i < |calls| && 0 <= j < |calls| && i != j && calls[i].status == Active && calls[j].status == Active)
      ==> calls[i].user != calls[j].user
  }

  /** `Call.findOne({ user, status: 'active' })` finds a document. */
  predicate HasActiveCall(calls: seq<Call>, user: UserId) {
    exists i :: 0 <= i < |calls| && calls[i].user == user && calls[i].status == Active
  }

  class Db {
    var users: seq<User>
    var doctors: seq<Doctor>
    var calls: seq<Call>

    /** The registration routes are the only writers of accounts and keep emails unique per collection. */
    ghost predicate Valid()
      reads this`users, this`doctors
    {
      DistinctEmails(UserEmails(users)) && DistinctEmails(DoctorEmails(doctors))
    }

    constructor ()
      ensures Valid()
      ensures users == [] && doctors == [] && calls == []
    {
      users, doctors, calls := [], [], [];
    }
  }
}
