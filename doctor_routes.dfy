/** Doctor listing, profile and availability (`/api/doctors`). */
module DoctorRoutes {
  import opened Common
  import opened Database
  import opened Http

  /** The error a handler answers with when it reads `_id` of a `null` `req.doctor`. */
  const NullDoctor := Fail(500, "Cannot read properties of null (reading '_id')")

  /** A doctor document with its password field removed. */
  function Public(id: DoctorId, d: Doctor): (p: PublicDoctor)
    ensures p.id == id && p.name == d.name && p.email == d.email && p.specialty == d.specialty
    ensures p.experience == d.experience && p.ratePerMinute == d.ratePerMinute && p.isAvailable == d.isAvailable
  {
    PublicDoctor(id, d.name, d.email, d.specialty, d.experience, d.ratePerMinute, d.isAvailable)
  }

  /** GET /: every doctor, in store order, each without its password. */
  function ListDoctors(doctors: seq<Doctor>): (resp: Response)
    ensures resp.status == 200 && resp.body.DoctorList?
    ensures |resp.body.doctors| == |doctors|
    ensures forall i :: 0 <= i < |doctors| ==> resp.body.doctors[i] == Public(i, doctors[i])
  {
    Response(200, DoctorList(seq(|doctors|, i requires 0 <= i < |doctors| => Public(i, doctors[i]))))
  }

  /** GET /profile, behind `protect` and `doctorProtect`. */
  function Profile(doctor: Option<Principal>, doctors: seq<Doctor>): (resp: Response)
    ensures doctor.None? ==> resp == NullDoctor
    ensures doctor.Some? && doctor.value.id >= |doctors| ==> resp == Fail(404, "Doctor not found")
    ensures doctor.Some? && doctor.value.id < |doctors| ==>
              resp == Response(200, DoctorProfile(Public(doctor.value.id, doctors[doctor.value.id])))
  {
    if doctor.None? then NullDoctor
    else if doctor.value.id < |doctors| then Response(200, DoctorProfile(Public(doctor.value.id, doctors[doctor.value.id])))
    else Fail(404, "Doctor not found")
  }

  /** PUT /availability, behind `protect` and `doctorProtect`: only that doctor's `isAvailable` changes. */
  method UpdateAvailability(db: Db, doctor: Option<Principal>, isAvailable: bool) returns (resp: Response)
    requires db.Valid()
    modifies db
    ensures db.Valid()
    ensures db.users == old(db.users) && db.calls == old(db.calls)
    ensures doctor.None? ==> resp == NullDoctor && db.doctors == old(db.doctors)
    ensures doctor.Some? && doctor.value.id >= |old(db.doctors)| ==>
              resp == Fail(404, "Doctor not found") && db.doctors == old(db.doctors)
    ensures doctor.Some? && doctor.value.id < |old(db.doctors)| ==>
              var id := doctor.value.id;
              var d := old(db.doctors)[id];
              && db.doctors == old(db.doctors)[id := d.(isAvailable := isAvailable)]
              && resp == Response(200, Availability(id, d.name, d.email, d.specialty, isAvailable))
  {
    if doctor.None? {
      return NullDoctor;
    }
    var id := doctor.value.id;
    if id < |db.doctors| {
      var d := db.doctors[id];
      db.doctors := db.doctors[id := d.(isAvailable := isAvailable)];
      ghost var emails := DoctorEmails(db.doctors);
      assert emails == old(DoctorEmails(db.doctors)) by {
        assert forall i :: 0 <= i < |emails| ==> emails[i] == old(DoctorEmails(db.doctors))[i];
      }
      var updated := db.doctors[id];
      resp := Response(200, Availability(id, updated.name, updated.email, updated.specialty, updated.isAvailable));
    } else {
      resp := Fail(404, "Doctor not found");
    }
  }
}
