/** The server's five collections held in memory, and one method per route that
    reads or changes them. Each route answers with a status and, where the
    server sends one, the record it created or found. */
module Store {
  import opened Records
  import opened Access
  import opened Listing
  import opened Ledger

  // ---- sort keys and filters ----------------------------------------------------

  function CreatedAt(d: Doc<Camp>): Option<int> { d.body.createdAt }
  function ParticipantCount(d: Doc<Camp>): Option<int> { d.body.participantCount }
  function RegisteredAt(d: Doc<Registration>): Option<int> { Some(d.body.registeredAt) }
  function PaidAt(d: Doc<Payment>): Option<int> { Some(d.body.paidAt) }
  function FeedbackCreatedAt(d: Doc<Feedback>): Option<int> { d.body.createdAt }

  function RegisteredBy(email: Option<string>): Doc<Registration> -> bool {
    (d: Doc<Registration>) => d.body.email == email
  }

  function PaidBy(email: string): Doc<Payment> -> bool {
    (d: Doc<Payment>) => d.body.email == email
  }

  /** `$set` of a camp patch: the patch's fields overwrite, the others stay. */
  function SetFields(doc: Camp, patch: Camp): (r: Camp)
    ensures r.fields.Keys == doc.fields.Keys + patch.fields.Keys
    ensures forall k :: k in patch.fields ==> r.fields[k] == patch.fields[k]
    ensures forall k :: k in doc.fields && k !in patch.fields ==> r.fields[k] == doc.fields[k]
    ensures r.participantCount == if patch.participantCount.Some? then patch.participantCount else doc.participantCount
    ensures r.createdAt == if patch.createdAt.Some? then patch.createdAt else doc.createdAt
    ensures r.updatedAt == if patch.updatedAt.Some? then patch.updatedAt else doc.updatedAt
  {
    Camp(doc.fields + patch.fields,
         if patch.participantCount.Some? then patch.participantCount else doc.participantCount,
         if patch.createdAt.Some? then patch.createdAt else doc.createdAt,
         if patch.updatedAt.Some? then patch.updatedAt else doc.updatedAt)
  }

  // ---- the store ----------------------------------------------------------------

  class Store {
    var users: map<string, User>
    var camps: map<string, Camp>
    var campOrder: seq<string>
    var registrations: map<string, Registration>
    var registrationOrder: seq<string>
    var payments: seq<Doc<Payment>>
    var feedbacks: seq<Doc<Feedback>>
    /** Every `_id` handed out so far; the driver never hands one out twice. */
    ghost var issued: set<string>

    ghost predicate Valid()
      reads this
    {
      StoreInvariant(users, camps, campOrder, registrations, registrationOrder, payments, issued)
    }

    /** The counter invariant, which holds only while callers keep to the discipline
        each route's contract names. */
    ghost predicate Coherent()
      reads this
    {
      CountsMatch(camps, registrations, issued)
    }

    /** `verifyUser` followed by `verifyOrganizer`: a request goes on only when its
        token verifies and its email belongs to a stored organizer. */
    function OrganizerGate(header: Option<string>, verify: Verifier): (g: Gate)
      reads this
      ensures g.Pass? <==> Authenticate(header, verify).Pass? && IsOrganizer(users, Authenticate(header, verify).email)
      ensures g.Pass? ==> g == Authenticate(header, verify)
      ensures Authenticate(header, verify).Deny? ==> g == Authenticate(header, verify)
      ensures Authenticate(header, verify).Pass? && !IsOrganizer(users, Authenticate(header, verify).email) ==>
        g == Deny(Forbidden)
    {
      RequireOrganizer(users, Authenticate(header, verify))
    }

    constructor ()
      ensures Valid() && Coherent()
      ensures users == map[] && camps == map[] && registrations == map[]
      ensures payments == [] && feedbacks == [] && issued == {}
    {
      users, camps, campOrder := map[], map[], [];
      registrations, registrationOrder := map[], [];
      payments, feedbacks := [], [];
      issued := {};
    }

    // ---- users ----

    /** POST /users: insert the user unless one with that email exists. */
    method PostUser(body: User) returns (status: Status, inserted: bool)
      requires Valid()
      modifies this
      ensures Valid()
      ensures status == Ok
      ensures inserted == (body.email !in old(users))
      ensures users == if inserted then old(users)[body.email := body] else old(users)
      ensures camps == old(camps) && campOrder == old(campOrder) && registrations == old(registrations)
      ensures registrationOrder == old(registrationOrder) && payments == old(payments) && feedbacks == old(feedbacks)
      ensures issued == old(issued) && (old(Coherent()) ==> Coherent())
    {
      if body.email in users {
        return Ok, false;
      }
      PutUser(users, camps, campOrder, registrations, registrationOrder, payments, issued, body);
      users := users[body.email := body];
      return Ok, true;
    }

    /** PATCH /users: set the last sign-in time of the user with that email, if any. */
    method TouchSignIn(email: Option<string>, time: Option<string>) returns (status: Status, matched: bool)
      requires Valid()
      modifies this
      ensures Valid()
      ensures status == Ok
      ensures matched == (email.Some? && email.value in old(users))
      ensures users == if matched then old(users)[email.value := old(users)[email.value].(lastSignIn := time)] else old(users)
      ensures camps == old(camps) && campOrder == old(campOrder) && registrations == old(registrations)
      ensures registrationOrder == old(registrationOrder) && payments == old(payments) && feedbacks == old(feedbacks)
      ensures issued == old(issued) && (old(Coherent()) ==> Coherent())
    {
      matched := email.Some? && email.value in users;
      if matched {
        var u := users[email.value].(lastSignIn := time);
        PutUser(users, camps, campOrder, registrations, registrationOrder, payments, issued, u);
        users := users[email.value := u];
      }
      status := Ok;
    }

    /** PATCH /users/profile-update: set whichever of name and photo is sent (truthy). */
    method UpdateProfile(email: Option<string>, name: Option<string>, photo: Option<string>)
      returns (status: Status, matched: bool)
      requires Valid()
      modifies this
      ensures Valid()
      ensures !Truthy(email) || (!Truthy(name) && !Truthy(photo)) ==>
        status == BadRequest && !matched && unchanged(this)
      ensures Truthy(email) && (Truthy(name) || Truthy(photo)) ==>
        && status == Ok
        && matched == (email.value in old(users))
        && users.Keys == old(users).Keys
        && (forall e :: e in old(users) && e != email.value ==> users[e] == old(users)[e])
        && (matched ==>
              var u, u' := old(users)[email.value], users[email.value];
              && u'.name == (if Truthy(name) then name else u.name)
              && u'.photo == (if Truthy(photo) then photo else u.photo)
              && u'.email == u.email && u'.role == u.role && u'.lastSignIn == u.lastSignIn)
        && camps == old(camps) && campOrder == old(campOrder) && registrations == old(registrations)
        && registrationOrder == old(registrationOrder) && payments == old(payments)
        && feedbacks == old(feedbacks) && issued == old(issued)
    {
      if !Truthy(email) {
        return BadRequest, false;
      }
      // the `$set` document, built field by field
      var setName: Option<string> := None;
      var setPhoto: Option<string> := None;
      if Truthy(name) {
        setName := name;
      }
      if Truthy(photo) {
        setPhoto := photo;
      }
      if setName.None? && setPhoto.None? {
        return BadRequest, false;
      }
      matched := email.value in users;
      if matched {
        var u := users[email.value];
        if setName.Some? {
          u := u.(name := setName);
        }
        if setPhoto.Some? {
          u := u.(photo := setPhoto);
        }
        PutUser(users, camps, campOrder, registrations, registrationOrder, payments, issued, u);
        users := users[email.value := u];
      }
      status := Ok;
    }

    /** GET /users/role: 400 without an email, 404 for an unknown user, else the
        stored role, "participant" when it is unset. */
    method GetRole(header: Option<string>, verify: Verifier, email: Option<string>)
      returns (status: Status, role: Option<string>)
      ensures var g := Authenticate(header, verify);
        && (g.Deny? ==> status == g.status && role == None)
        && (g.Pass? && !Truthy(email) ==> status == BadRequest && role == None)
        && (g.Pass? && Truthy(email) && email.value !in users ==> status == NotFound && role == None)
        && (g.Pass? && Truthy(email) && email.value in users ==>
              status == Ok && role.Some?
              && (Truthy(users[email.value].role) ==> role == users[email.value].role)
              && (!Truthy(users[email.value].role) ==> role == Some("participant")))
    {
      var g := Authenticate(header, verify);
      if g.Deny? {
        return g.status, None;
      }
      if !Truthy(email) {
        return BadRequest, None;
      }
      if email.value !in users {
        return NotFound, None;
      }
      return Ok, Some(RoleOf(users[email.value]));
    }

    // ---- camps ----

    /** POST /camps (organizer): stamp `created_at` and insert. */
    method CreateCamp(header: Option<string>, verify: Verifier, body: Camp, now: int, newId: string)
      returns (status: Status, insertedId: Option<string>)
      requires Valid()
      requires IsObjectId(newId) && newId !in issued
      modifies this
      ensures Valid()
      ensures var g := old(OrganizerGate(header, verify));
        if g.Deny? then status == g.status && insertedId == None && unchanged(this)
        else
          && status == Ok && insertedId == Some(newId)
          && camps == old(camps)[newId := body.(createdAt := Some(now))]
          && campOrder == old(campOrder) + [newId]
          && issued == old(issued) + {newId}
          && users == old(users) && registrations == old(registrations) && registrationOrder == old(registrationOrder)
          && payments == old(payments) && feedbacks == old(feedbacks)
      ensures old(Coherent()) && CountOf(body) == 0 ==> Coherent()
    {
      var g := OrganizerGate(header, verify);
      if g.Deny? {
        return g.status, None;
      }
      var camp := body.(createdAt := Some(now));
      if Coherent() && CountOf(body) == 0 {
        CreateKeepsCounts(camps, registrations, issued, newId, camp);
      }
      AddCamp(users, camps, campOrder, registrations, registrationOrder, payments, issued, newId, camp);
      camps := camps[newId := camp];
      campOrder := campOrder + [newId];
      issued := issued + {newId};
      return Ok, Some(newId);
    }

    /** GET /camps (organizer): every camp, in natural order. */
    method AllCamps(header: Option<string>, verify: Verifier) returns (status: Status, docs: seq<Doc<Camp>>)
      requires Valid()
      ensures var g := OrganizerGate(header, verify);
        && (g.Deny? ==> status == g.status && docs == [])
        && (g.Pass? ==>
              && status == Ok
              && |docs| == |camps|
              && (forall d :: d in docs <==> d.id in camps && d.body == camps[d.id]))
    {
      var g := OrganizerGate(header, verify);
      if g.Deny? {
        return g.status, [];
      }
      DocsOfAll(campOrder, camps);
      return Ok, DocsOf(campOrder, camps);
    }

    /** GET /camps/paginated: one page of the camps, newest first. */
    method PaginatedCamps(page: Option<int>, limit: Option<int>)
      returns (status: Status, result: Option<Page<Doc<Camp>>>)
      requires Valid()
      ensures var l := OrDefault(limit, 9); var skip := (OrDefault(page, 1) - 1) * l;
        && result == Paginate(DocsOf(campOrder, camps), CreatedAt, page, limit)
        && (status == Ok <==> result.Some?)
        && (status == ServerError <==> skip < 0)
        && (status == Ok || status == ServerError)
        && (result.Some? ==>
              && result.value.currentPage == OrDefault(page, 1)
              && result.value.totalPages == CeilDiv(|camps|, l)
              && |result.value.items| <= Abs(l)
              && (skip + Abs(l) <= |camps| ==> |result.value.items| == Abs(l))
              && SortedDesc(result.value.items, CreatedAt)
              && (forall d :: d in result.value.items ==> d.id in camps && d.body == camps[d.id]))
    {
      var all := DocsOf(campOrder, camps);
      DocsOfAll(campOrder, camps);
      result := Paginate(all, CreatedAt, page, limit);
      if result.None? {
        return ServerError, None;
      }
      PageContents(all, CreatedAt, page, limit);
      forall d | d in result.value.items ensures d.id in camps && d.body == camps[d.id] {
        assert d in multiset(all);
      }
      status := Ok;
    }

    /** GET /camps/popular: the six camps with the most participants. */
    method PopularCamps() returns (status: Status, docs: seq<Doc<Camp>>)
      requires Valid()
      ensures status == Ok
      ensures |docs| == if |camps| < 6 then |camps| else 6
      ensures SortedDesc(docs, ParticipantCount)
      ensures forall d :: d in docs ==> d.id in camps && d.body == camps[d.id]
      ensures multiset(docs) <= multiset(DocsOf(campOrder, camps))
      ensures forall x, y :: x in docs && y in multiset(DocsOf(campOrder, camps)) - multiset(docs) ==>
                KeyGe(x.body.participantCount, y.body.participantCount)
    {
      var all := DocsOf(campOrder, camps);
      DocsOfAll(campOrder, camps);
      status := Ok;
      docs := Popular(all, ParticipantCount);
      forall d | d in docs ensures d.id in camps && d.body == camps[d.id] {
        assert d in multiset(all);
      }
      forall x, y | x in docs && y in multiset(all) - multiset(docs)
        ensures KeyGe(x.body.participantCount, y.body.participantCount)
      {
        PopularIsTop(all, ParticipantCount, x, y);
      }
    }

    /** GET /camp-details/:campId. */
    method CampDetails(campId: string) returns (status: Status, camp: Option<Camp>)
      ensures !ValidId(campId) ==> status == BadRequest && camp == None
      ensures ValidId(campId) && ToObjectId(campId) !in camps ==> status == NotFound && camp == None
      ensures ValidId(campId) && ToObjectId(campId) in camps ==> status == Ok && camp == Some(camps[ToObjectId(campId)])
    {
      if !ValidId(campId) {
        return BadRequest, None;
      }
      var id := ToObjectId(campId);
      if id !in camps {
        return NotFound, None;
      }
      return Ok, Some(camps[id]);
    }

    /** DELETE /delete-camp/:campId (organizer): delete the camp; its registrations stay. */
    method DeleteCamp(header: Option<string>, verify: Verifier, campId: string) returns (status: Status, deleted: nat)
      requires Valid()
      requires OrganizerGate(header, verify).Pass? ==> ValidId(campId)
      modifies this
      ensures Valid()
      ensures var g := old(OrganizerGate(header, verify));
        if g.Deny? then status == g.status && deleted == 0 && unchanged(this)
        else
          var id := ToObjectId(campId);
          && status == Ok && deleted == (if id in old(camps) then 1 else 0)
          && camps == old(camps) - {id}
          && campOrder == Without(old(campOrder), id)
          && users == old(users) && registrations == old(registrations) && registrationOrder == old(registrationOrder)
          && payments == old(payments) && feedbacks == old(feedbacks) && issued == old(issued)
      ensures old(Coherent()) ==> Coherent()
    {
      var g := OrganizerGate(header, verify);
      if g.Deny? {
        return g.status, 0;
      }
      var id := ToObjectId(campId);
      deleted := if id in camps then 1 else 0;
      if Coherent() {
        DeleteKeepsCounts(camps, registrations, issued, id);
      }
      RemoveCamp(users, camps, campOrder, registrations, registrationOrder, payments, issued, id);
      camps := camps - {id};
      campOrder := Without(campOrder, id);
      status := Ok;
    }

    /** PATCH /update-camp/:campId (organizer): stamp `updated_at` on the patch and `$set` it. */
    method UpdateCamp(header: Option<string>, verify: Verifier, campId: string, patch: Camp, now: int)
      returns (status: Status, matched: bool)
      requires Valid()
      requires OrganizerGate(header, verify).Pass? ==> ValidId(campId)
      modifies this
      ensures Valid()
      ensures var g := old(OrganizerGate(header, verify));
        if g.Deny? then status == g.status && !matched && unchanged(this)
        else
          var id := ToObjectId(campId);
          && status == Ok && matched == (id in old(camps))
          && camps == (if matched then old(camps)[id := SetFields(old(camps)[id], patch.(updatedAt := Some(now)))]
                       else old(camps))
          && campOrder == old(campOrder)
          && users == old(users) && registrations == old(registrations) && registrationOrder == old(registrationOrder)
          && payments == old(payments) && feedbacks == old(feedbacks) && issued == old(issued)
      ensures old(Coherent()) && patch.participantCount.None? ==> Coherent()
    {
      var g := OrganizerGate(header, verify);
      if g.Deny? {
        return g.status, false;
      }
      var id := ToObjectId(campId);
      var stamped := patch.(updatedAt := Some(now));
      matched := id in camps;
      if matched {
        var camps' := camps[id := SetFields(camps[id], stamped)];
        ReplaceCamps(users, camps, campOrder, registrations, registrationOrder, payments, issued, camps');
        camps := camps';
      }
      status := Ok;
    }

    // ---- registrations ----

    /** POST /camp-registration: insert the registration as {unpaid, pending},
        then add one to the named camp's counter. A `campId` that is no ObjectId
        makes the second step throw after the first has happened: 500. */
    method RegisterCamp(header: Option<string>, verify: Verifier, form: RegistrationForm, now: int, newId: string)
      returns (status: Status, insertedId: Option<string>)
      requires Valid()
      requires IsObjectId(newId) && newId !in issued
      modifies this
      ensures Valid()
      ensures var g := Authenticate(header, verify);
        if g.Deny? then status == g.status && insertedId == None && unchanged(this)
        else if !Truthy(form.campId) then status == BadRequest && insertedId == None && unchanged(this)
        else
          var reg := Registration(form.campId.value, form.email, form.details, now, Unpaid, Pending);
          && registrations == old(registrations)[newId := reg]
          && registrationOrder == old(registrationOrder) + [newId]
          && issued == old(issued) + {newId}
          && users == old(users) && campOrder == old(campOrder) && payments == old(payments) && feedbacks == old(feedbacks)
          && (if ValidId(reg.campId)
              then status == Ok && insertedId == Some(newId) && camps == Bump(old(camps), ToObjectId(reg.campId), 1)
              else status == ServerError && insertedId == None && camps == old(camps))
      ensures old(Coherent()) && old(NamesLiveCamp(form.campId)) ==> Coherent()
    {
      var g := Authenticate(header, verify);
      if g.Deny? {
        return g.status, None;
      }
      if !Truthy(form.campId) {
        return BadRequest, None;
      }
      var reg := Registration(form.campId.value, form.email, form.details, now, Unpaid, Pending);
      if Coherent() && NamesLiveCamp(form.campId) {
        RegisterKeepsCounts(camps, registrations, issued, newId, reg);
      }
      // 1. insert the registration
      InsertRegistration(newId, reg);
      // 2. `new ObjectId(campId)` throws for a malformed id
      if !ValidId(reg.campId) {
        return ServerError, None;
      }
      BumpCount(ToObjectId(reg.campId), 1);
      return Ok, Some(newId);
    }

    /** Insert a new {unpaid, pending} registration under a fresh `_id`. */
    method InsertRegistration(id: string, reg: Registration)
      requires Valid()
      requires id !in issued && reg.paymentStatus == Unpaid && reg.confirmationStatus == Pending
      modifies this
      ensures Valid()
      ensures registrations == old(registrations)[id := reg]
      ensures registrationOrder == old(registrationOrder) + [id]
      ensures issued == old(issued) + {id}
      ensures users == old(users) && camps == old(camps) && campOrder == old(campOrder)
      ensures payments == old(payments) && feedbacks == old(feedbacks)
    {
      AddRegistration(users, camps, campOrder, registrations, registrationOrder, payments, issued, id, reg);
      registrations := registrations[id := reg];
      registrationOrder := registrationOrder + [id];
      issued := issued + {id};
    }

    /** `$inc` the participant counter of camp `id` by `delta`; nothing happens when no camp has that `_id`. */
    method BumpCount(id: string, delta: int)
      requires Valid()
      modifies this
      ensures Valid()
      ensures camps == Bump(old(camps), id, delta)
      ensures users == old(users) && campOrder == old(campOrder) && registrations == old(registrations)
      ensures registrationOrder == old(registrationOrder) && payments == old(payments)
      ensures feedbacks == old(feedbacks) && issued == old(issued)
    {
      var bumped := Bump(camps, id, delta);
      ReplaceCamps(users, camps, campOrder, registrations, registrationOrder, payments, issued, bumped);
      camps := bumped;
    }

    /** The registration discipline: a truthy `campId` names a stored camp. */
    ghost predicate NamesLiveCamp(campId: Option<string>)
      reads this
    {
      Truthy(campId) ==> ValidId(campId.value) && ToObjectId(campId.value) in camps
    }

    /** GET /camps-registered (organizer): every registration, newest first. */
    method AllRegistrations(header: Option<string>, verify: Verifier)
      returns (status: Status, docs: seq<Doc<Registration>>)
      requires Valid()
      ensures var g := OrganizerGate(header, verify);
        && (g.Deny? ==> status == g.status && docs == [])
        && (g.Pass? ==>
              && status == Ok
              && SortedDesc(docs, RegisteredAt)
              && |docs| == |registrations|
              && (forall d :: d in docs <==> d.id in registrations && d.body == registrations[d.id]))
    {
      var g := OrganizerGate(header, verify);
      if g.Deny? {
        return g.status, [];
      }
      var all := DocsOf(registrationOrder, registrations);
      DocsOfAll(registrationOrder, registrations);
      docs := SortDesc(all, RegisteredAt);
      assert |docs| == |all| by {
        assert |multiset(docs)| == |multiset(all)|;
      }
      forall d ensures d in docs <==> d in all {
        assert d in docs <==> d in multiset(docs);
      }
      status := Ok;
    }

    /** DELETE /cancel-registration/:id?campId=: delete the registration, then take
        one off the camp's counter whether or not a registration was deleted. */
    method CancelRegistration(header: Option<string>, verify: Verifier, id: string, campId: Option<string>)
      returns (status: Status, deleted: nat)
      requires Valid()
      modifies this
      ensures Valid()
      ensures var g := Authenticate(header, verify);
        if g.Deny? then status == g.status && deleted == 0 && unchanged(this)
        else if !ValidId(id) || !(campId.Some? && ValidId(campId.value)) then
          status == BadRequest && deleted == 0 && unchanged(this)
        else
          var rid, cid := ToObjectId(id), ToObjectId(campId.value);
          && status == Ok && deleted == (if rid in old(registrations) then 1 else 0)
          && registrations == old(registrations) - {rid}
          && registrationOrder == Without(old(registrationOrder), rid)
          && camps == Bump(old(camps), cid, -1)
          && users == old(users) && campOrder == old(campOrder) && payments == old(payments)
          && feedbacks == old(feedbacks) && issued == old(issued)
      ensures old(Coherent()) && old(CancelsOwnRegistration(id, campId)) ==> Coherent()
    {
      var g := Authenticate(header, verify);
      if g.Deny? {
        return g.status, 0;
      }
      if !ValidId(id) || !(campId.Some? && ValidId(campId.value)) {
        return BadRequest, 0;
      }
      var rid, cid := ToObjectId(id), ToObjectId(campId.value);
      if Coherent() && CancelsOwnRegistration(id, campId) {
        CancelKeepsCounts(camps, registrations, issued, rid, cid);
      }
      // 1. delete the registration
      deleted := if rid in registrations then 1 else 0;
      DeleteRegistration(rid);
      // 2. decrement the counter
      BumpCount(cid, -1);
      status := Ok;
    }

    /** Delete the registration with `_id` `id`, if there is one. */
    method DeleteRegistration(id: string)
      requires Valid()
      modifies this
      ensures Valid()
      ensures registrations == old(registrations) - {id}
      ensures registrationOrder == Without(old(registrationOrder), id)
      ensures users == old(users) && camps == old(camps) && campOrder == old(campOrder)
      ensures payments == old(payments) && feedbacks == old(feedbacks) && issued == old(issued)
    {
      RemoveRegistration(users, camps, campOrder, registrations, registrationOrder, payments, issued, id);
      registrations := registrations - {id};
      registrationOrder := Without(registrationOrder, id);
    }

    /** The cancellation discipline: two valid ids name a live registration of that camp. */
    ghost predicate CancelsOwnRegistration(id: string, campId: Option<string>)
      reads this
    {
      ValidId(id) && campId.Some? && ValidId(campId.value) ==>
        ToObjectId(id) in registrations && Names(registrations[ToObjectId(id)].campId, ToObjectId(campId.value))
    }

    /** GET /registered-camps?email=: the registrations carrying that email, newest first. */
    method RegistrationsOf(header: Option<string>, verify: Verifier, email: Option<string>)
      returns (status: Status, docs: seq<Doc<Registration>>)
      requires Valid()
      ensures var g := Authenticate(header, verify);
        && (g.Deny? ==> status == g.status && docs == [])
        && (g.Pass? ==>
              && status == Ok
              && SortedDesc(docs, RegisteredAt)
              && multiset(docs) == multiset(Filter(DocsOf(registrationOrder, registrations), RegisteredBy(email)))
              && (forall d :: d in docs <==>
                    d.id in registrations && d.body == registrations[d.id] && d.body.email == email))
    {
      var g := Authenticate(header, verify);
      if g.Deny? {
        return g.status, [];
      }
      var all := DocsOf(registrationOrder, registrations);
      DocsOfAll(registrationOrder, registrations);
      var mine := Filter(all, RegisteredBy(email));
      docs := SortDesc(mine, RegisteredAt);
      forall d ensures d in docs <==> d in all && d.body.email == email {
        assert d in docs <==> d in multiset(docs);
        assert d in mine <==> d in multiset(mine);
        assert d in all <==> d in multiset(all);
      }
      status := Ok;
    }

    /** GET /registered-camp/:campId: one registration, looked up by its own `_id`. */
    method GetRegistration(header: Option<string>, verify: Verifier, id: string)
      returns (status: Status, reg: Option<Registration>)
      ensures var g := Authenticate(header, verify);
        && (g.Deny? ==> status == g.status && reg == None)
        && (g.Pass? && !ValidId(id) ==> status == BadRequest && reg == None)
        && (g.Pass? && ValidId(id) && ToObjectId(id) !in registrations ==> status == NotFound && reg == None)
        && (g.Pass? && ValidId(id) && ToObjectId(id) in registrations ==>
              status == Ok && reg == Some(registrations[ToObjectId(id)]))
    {
      var g := Authenticate(header, verify);
      if g.Deny? {
        return g.status, None;
      }
      if !ValidId(id) {
        return BadRequest, None;
      }
      var rid := ToObjectId(id);
      if rid !in registrations {
        return NotFound, None;
      }
      return Ok, Some(registrations[rid]);
    }

    // ---- payments ----

    /** POST /payments: flip the registration whose `_id` is the body's `campId`
        to {paid, confirmed}; only when that changed the document, append one
        payment record and answer 201. */
    method RecordPayment(header: Option<string>, verify: Verifier, form: PaymentForm, now: int, newId: string)
      returns (status: Status, insertedId: Option<string>)
      requires Valid()
      requires IsObjectId(newId) && newId !in issued
      requires Authenticate(header, verify).Pass? && Truthy(form.campId) && Truthy(form.email) && TruthyAmount(form.amount)
               ==> ValidId(form.campId.value)
      modifies this
      ensures Valid()
      ensures var g := Authenticate(header, verify);
        if g.Deny? then status == g.status && insertedId == None && unchanged(this)
        else if !Truthy(form.campId) || !Truthy(form.email) || !TruthyAmount(form.amount) then
          status == BadRequest && insertedId == None && unchanged(this)
        else
          var rid := ToObjectId(form.campId.value);
          if rid !in old(registrations)
             || (old(registrations)[rid].paymentStatus == Paid && old(registrations)[rid].confirmationStatus == Confirmed)
          then status == NotFound && insertedId == None && unchanged(this)
          else
            && status == Created && insertedId == Some(newId)
            && registrations == old(registrations)[rid := old(registrations)[rid].(paymentStatus := Paid, confirmationStatus := Confirmed)]
            && payments == old(payments) + [Doc(newId, Payment(form.campId.value, form.campName, form.email.value,
                                                             form.amount.value, Paid, Confirmed, form.paymentMethod,
                                                             form.transactionId, now))]
            && issued == old(issued) + {newId}
            && users == old(users) && camps == old(camps) && campOrder == old(campOrder)
            && registrationOrder == old(registrationOrder) && feedbacks == old(feedbacks)
      ensures old(Coherent()) ==> Coherent()
    {
      var g := Authenticate(header, verify);
      if g.Deny? {
        return g.status, None;
      }
      if !Truthy(form.campId) || !Truthy(form.email) || !TruthyAmount(form.amount) {
        return BadRequest, None;
      }
      var rid := ToObjectId(form.campId.value);
      // `updateOne` reports modifiedCount 0 for a missing or already paid registration
      if rid !in registrations
         || (registrations[rid].paymentStatus == Paid && registrations[rid].confirmationStatus == Confirmed) {
        return NotFound, None;
      }
      var doc := Doc(newId, Payment(form.campId.value, form.campName, form.email.value, form.amount.value,
                                    Paid, Confirmed, form.paymentMethod, form.transactionId, now));
      if Coherent() {
        ConfirmKeepsCounts(camps, registrations, issued, rid, doc.id);
      }
      ConfirmAndRecord(rid, doc);
      return Created, Some(newId);
    }

    /** Flip registration `rid` to {paid, confirmed} and append the payment record `doc`. */
    method ConfirmAndRecord(rid: string, doc: Doc<Payment>)
      requires Valid()
      requires rid in registrations
      requires !(registrations[rid].paymentStatus == Paid && registrations[rid].confirmationStatus == Confirmed)
      requires Names(doc.body.campId, rid) && doc.id !in issued
      modifies this
      ensures Valid()
      ensures registrations == old(registrations)[rid := old(registrations)[rid].(paymentStatus := Paid, confirmationStatus := Confirmed)]
      ensures payments == old(payments) + [doc]
      ensures issued == old(issued) + {doc.id}
      ensures users == old(users) && camps == old(camps) && campOrder == old(campOrder)
      ensures registrationOrder == old(registrationOrder) && feedbacks == old(feedbacks)
    {
      var regs' := registrations[rid := registrations[rid].(paymentStatus := Paid, confirmationStatus := Confirmed)];
      ConfirmRegistration(users, camps, campOrder, registrations, registrationOrder, payments, issued, rid, doc);
      registrations, payments, issued := regs', payments + [doc], issued + {doc.id};
    }

    /** GET /payments?email=: the payments of that email, or all of them when no
        email is sent, most recent first. */
    method ListPayments(header: Option<string>, verify: Verifier, email: Option<string>)
      returns (status: Status, docs: seq<Doc<Payment>>)
      ensures var g := Authenticate(header, verify);
        && (g.Deny? ==> status == g.status && docs == [])
        && (g.Pass? ==>
              && status == Ok
              && SortedDesc(docs, PaidAt)
              && (!Truthy(email) ==> multiset(docs) == multiset(payments))
              && (Truthy(email) ==> forall d :: multiset(docs)[d] ==
                                      if d.body.email == email.value then multiset(payments)[d] else 0))
    {
      var g := Authenticate(header, verify);
      if g.Deny? {
        return g.status, [];
      }
      var chosen := if Truthy(email) then Filter(payments, PaidBy(email.value)) else payments;
      docs := SortDesc(chosen, PaidAt);
      status := Ok;
    }

    // ---- feedback ----

    /** POST /feedbacks: append the feedback as sent. */
    method PostFeedback(header: Option<string>, verify: Verifier, feedback: Feedback, newId: string)
      returns (status: Status, insertedId: Option<string>)
      requires Valid()
      requires IsObjectId(newId) && newId !in issued
      modifies this
      ensures Valid()
      ensures var g := Authenticate(header, verify);
        if g.Deny? then status == g.status && insertedId == None && unchanged(this)
        else
          && status == Ok && insertedId == Some(newId)
          && feedbacks == old(feedbacks) + [Doc(newId, feedback)]
          && issued == old(issued) + {newId}
          && users == old(users) && camps == old(camps) && campOrder == old(campOrder)
          && registrations == old(registrations) && registrationOrder == old(registrationOrder)
          && payments == old(payments)
      ensures old(Coherent()) ==> Coherent()
    {
      var g := Authenticate(header, verify);
      if g.Deny? {
        return g.status, None;
      }
      IssueId(users, camps, campOrder, registrations, registrationOrder, payments, issued, newId);
      feedbacks := feedbacks + [Doc(newId, feedback)];
      issued := issued + {newId};
      return Ok, Some(newId);
    }

    /** GET /feedbacks: every feedback, newest first. */
    method ListFeedbacks() returns (status: Status, docs: seq<Doc<Feedback>>)
      ensures status == Ok
      ensures SortedDesc(docs, FeedbackCreatedAt)
      ensures multiset(docs) == multiset(feedbacks)
    {
      docs := SortDesc(feedbacks, FeedbackCreatedAt);
      status := Ok;
    }
  }

  /** Posting the same user twice: the second post inserts nothing, so the users
      end exactly as the first post left them and no email is stored twice. */
  method PostUserTwice(store: Store, body: User) returns (first: bool, second: bool)
    requires store.Valid()
    modifies store
    ensures store.Valid() && !second
    ensures first == (body.email !in old(store.users))
    ensures store.users == if first then old(store.users)[body.email := body] else old(store.users)
  {
    var s1, s2;
    s1, first := store.PostUser(body);
    s2, second := store.PostUser(body);
  }

  /** A fresh store in which the route registered `email` once, under `regId`. */
  method RegisterOnce(header: Option<string>, verify: Verifier, campId: string, email: string, regId: string)
    returns (store: Store)
    requires Authenticate(header, verify).Pass?
    requires campId != "" && IsObjectId(regId)
    ensures fresh(store) && store.Valid()
    ensures store.payments == [] && store.issued == {regId}
    ensures store.registrations == map[regId := Registration(campId, Some(email), map[], 0, Unpaid, Pending)]
  {
    store := new Store();
    var registered, rid := store.RegisterCamp(header, verify, RegistrationForm(Some(campId), Some(email), map[]), 0, regId);
  }

  /** A fresh store in which the route registered `email` once, under `regId`,
      and a first payment for that registration was accepted. */
  method RegisterAndPay(header: Option<string>, verify: Verifier, campId: string, email: string, amount: real,
                        regId: string, paymentId: string)
    returns (store: Store, first: Status)
    requires Authenticate(header, verify).Pass?
    requires campId != "" && email != "" && amount != 0.0
    requires IsObjectId(regId) && IsObjectId(paymentId) && regId != paymentId
    ensures fresh(store) && store.Valid()
    ensures first == Created && |store.payments| == 1 && store.issued == {regId, paymentId}
    ensures store.registrations == map[regId := Registration(campId, Some(email), map[], 0, Paid, Confirmed)]
  {
    store := RegisterOnce(header, verify, campId, email, regId);
    var form := PaymentForm(Some(regId), None, Some(email), Some(amount), None, None);
    assert ToObjectId(regId) == regId && |regId| == 24;
    var paid;
    first, paid := store.RecordPayment(header, verify, form, 1, paymentId);
  }

  /** A second payment for the same registration is refused and records nothing:
      register once, pay twice, and exactly one payment record exists. */
  method PayTwice(header: Option<string>, verify: Verifier, campId: string, email: string, amount: real,
                  regId: string, firstPaymentId: string, secondPaymentId: string)
    returns (first: Status, second: Status, recorded: nat)
    requires Authenticate(header, verify).Pass?
    requires campId != "" && email != "" && amount != 0.0
    requires IsObjectId(regId) && IsObjectId(firstPaymentId) && IsObjectId(secondPaymentId)
    requires regId != firstPaymentId && regId != secondPaymentId && firstPaymentId != secondPaymentId
    ensures first == Created && second == NotFound && recorded == 1
  {
    var store;
    store, first := RegisterAndPay(header, verify, campId, email, amount, regId, firstPaymentId);
    var form := PaymentForm(Some(regId), None, Some(email), Some(amount), None, None);
    assert ToObjectId(regId) == regId && |regId| == 24;
    var refused;
    second, refused := store.RecordPayment(header, verify, form, 2, secondPaymentId);
    recorded := |store.payments|;
  }
}
