/** The booking and admin-account transitions. The store is two keyed
    collections; every dashboard handler is one partial update of one field of
    one record, sent without any check of the record's current state. The
    only guards are the dashboards' row filters (module Dashboards), so the
    forward-only life cycle of a booking holds for the actions the views
    offer, not for the raw updates. */
module Workflow {
  import opened Types
  import opened Auth
  import opened Routing
  import opened Dashboards

  /** The two collections the handlers touch, keyed by row id. */
  datatype State = State(bookings: map<Id, Booking>, profiles: map<Id, UserProfile>)

  /** Every row is stored under its own id. */
  predicate WellKeyed(s: State)
  {
    && (forall id :: id in s.bookings ==> s.bookings[id].id == id)
    && (forall id :: id in s.profiles ==> s.profiles[id].id == id)
  }

  /** The dashboard handlers, each with the ids it is called with. */
  datatype Action =
    | Approve(profileId: Id)
    | Deny(profileId: Id)
    | Assign(bookingId: Id, adminId: Id)
    | Clear(bookingId: Id)
    | Confirm(bookingId: Id)

  /** The update each handler sends: one field of the row with that id. An id
      that matches no row updates nothing (the store reports an error). No
      handler adds or removes a row. */
  function Step(s: State, a: Action): (t: State)
    ensures t.bookings.Keys == s.bookings.Keys && t.profiles.Keys == s.profiles.Keys
    ensures OnProfile(a) ==> t.bookings == s.bookings
    ensures !OnProfile(a) ==> t.profiles == s.profiles
  {
    match a
    case Approve(pid) =>
      if pid in s.profiles then s.(profiles := s.profiles[pid := s.profiles[pid].(status := Active)]) else s
    case Deny(pid) =>
      if pid in s.profiles then s.(profiles := s.profiles[pid := s.profiles[pid].(status := Revoked)]) else s
    case Assign(bid, aid) =>
      if bid in s.bookings then s.(bookings := s.bookings[bid := s.bookings[bid].(assignedAdminId := Some(aid))]) else s
    case Clear(bid) =>
      if bid in s.bookings then s.(bookings := s.bookings[bid := s.bookings[bid].(status := Cleared)]) else s
    case Confirm(bid) =>
      if bid in s.bookings then s.(bookings := s.bookings[bid := s.bookings[bid].(status := Confirmed)]) else s
  }

  /** The record an action writes to (a profile id for Approve and Deny). */
  function Target(a: Action): Id
  {
    match a
    case Approve(pid) => pid
    case Deny(pid) => pid
    case Assign(bid, _) => bid
    case Clear(bid) => bid
    case Confirm(bid) => bid
  }

  predicate OnProfile(a: Action)
  {
    a.Approve? || a.Deny?
  }

  /** Any action, offered or not, keeps every row other than its
      target, keeps the target's other fields, never changes a role, and
      keeps rows stored under their own ids. */
  lemma StepFrame(s: State, a: Action)
    ensures forall id :: id in s.bookings && (OnProfile(a) || id != Target(a)) ==> Step(s, a).bookings[id] == s.bookings[id]
    ensures forall id :: id in s.profiles && (!OnProfile(a) || id != Target(a)) ==> Step(s, a).profiles[id] == s.profiles[id]
    ensures forall id :: id in s.profiles ==>
              Step(s, a).profiles[id] == s.profiles[id].(status := Step(s, a).profiles[id].status)
    ensures forall id :: id in s.bookings && !a.Assign? ==>
              Step(s, a).bookings[id] == s.bookings[id].(status := Step(s, a).bookings[id].status)
    ensures forall id :: id in s.bookings && a.Assign? ==>
              Step(s, a).bookings[id] == s.bookings[id].(assignedAdminId := Step(s, a).bookings[id].assignedAdminId)
    ensures WellKeyed(s) ==> WellKeyed(Step(s, a))
  {
  }

  /** The action is on screen for the signed-in `actor`: the actor's routed
      view is the dashboard holding the button, and the target row (and, for
      Assign, the chosen admin) passes that table's filter. */
  predicate Offered(s: State, actor: Option<Id>, a: Action)
    ensures Offered(s, actor, a) ==>
              actor.Some? && actor.value in s.profiles && s.profiles[actor.value].status == Active
    ensures Offered(s, actor, a) ==> Target(a) in (if OnProfile(a) then s.profiles.Keys else s.bookings.Keys)
    ensures Offered(s, actor, a) && !a.Confirm? ==> s.profiles[actor.value].role == SuperAdmin
  {
    var view := ViewFor(actor, s.profiles);
    match a
    case Approve(pid) => view == SuperAdminDashboard && pid in s.profiles && CanApprove(s.profiles[pid])
    case Deny(pid) => view == SuperAdminDashboard && pid in s.profiles && CanApprove(s.profiles[pid])
    case Assign(bid, aid) =>
      view == SuperAdminDashboard && bid in s.bookings && aid in s.profiles && CanAssign(s.bookings[bid], s.profiles[aid])
    case Clear(bid) => view == SuperAdminDashboard && bid in s.bookings && CanClear(s.bookings[bid])
    case Confirm(bid) => view == AdminDashboard && bid in s.bookings && CanConfirm(s.bookings[bid], actor)
  }

  /** Position of a booking status in the life cycle. */
  function Rank(st: BookingStatus): nat
  {
    match st
    case Inquiry => 0
    case Confirmed => 1
    case Cleared => 2
  }

  /** One step of the booking life cycle: stay, or advance by exactly one stage. */
  predicate BookingStep(before: BookingStatus, after: BookingStatus)
  {
    after == before || Rank(after) == Rank(before) + 1
  }

  /** One step of the admin-account life cycle: stay, or leave pending_admin. */
  predicate ProfileStep(before: ProfileStatus, after: ProfileStatus)
  {
    after == before || before == PendingAdmin
  }

  /** An offered action moves a booking only inquiry -> confirmed or
      confirmed -> cleared, moves a profile only out of pending_admin, and
      assigns only to an active admin. */
  lemma OfferedStepForward(s: State, actor: Option<Id>, a: Action)
    requires Offered(s, actor, a)
    ensures forall id :: id in s.bookings ==>
              BookingStep(s.bookings[id].status, Step(s, a).bookings[id].status)
    ensures forall id :: id in s.profiles ==>
              ProfileStep(s.profiles[id].status, Step(s, a).profiles[id].status)
    ensures a.Assign? ==> a.adminId in s.profiles && IsAssignableAdmin(s.profiles[a.adminId])
  {
    StepFrame(s, a);
  }

  /** A sequence of actions, each by some signed-in (or not) actor. */
  function Run(s: State, steps: seq<(Option<Id>, Action)>): State
    decreases |steps|
  {
    if steps == [] then s else Run(Step(s, steps[0].1), steps[1..])
  }

  /** Every action of the sequence was on screen when it was taken. */
  predicate OfferedRun(s: State, steps: seq<(Option<Id>, Action)>)
    decreases |steps|
  {
    steps == [] || (Offered(s, steps[0].0, steps[0].1) && OfferedRun(Step(s, steps[0].1), steps[1..]))
  }

  /** Over any sequence of offered actions no booking goes backwards, no row
      appears or disappears, no role changes, and a profile that has left
      pending_admin keeps its status. */
  lemma {:induction false} OfferedRunMonotone(s: State, steps: seq<(Option<Id>, Action)>)
    requires OfferedRun(s, steps)
    ensures Run(s, steps).bookings.Keys == s.bookings.Keys
    ensures Run(s, steps).profiles.Keys == s.profiles.Keys
    ensures forall id :: id in s.bookings ==> Rank(s.bookings[id].status) <= Rank(Run(s, steps).bookings[id].status)
    ensures forall id :: id in s.profiles ==> Run(s, steps).profiles[id].role == s.profiles[id].role
    ensures forall id :: id in s.profiles && s.profiles[id].status != PendingAdmin ==>
              Run(s, steps).profiles[id].status == s.profiles[id].status
    decreases |steps|
  {
    if steps != [] {
      var s1 := Step(s, steps[0].1);
      OfferedStepForward(s, steps[0].0, steps[0].1);
      StepFrame(s, steps[0].1);
      OfferedRunMonotone(s1, steps[1..]);
    }
  }

  /** The intended life cycle is reachable through offered actions alone: the
      super-admin assigns an unassigned inquiry to an active admin, that admin
      confirms it, and the super-admin clears it. */
  lemma AssignConfirmClearScenario(b: Booking, admin: UserProfile, super: UserProfile)
    requires b.status == Inquiry && b.assignedAdminId.None?
    requires admin.id != "" && admin.role == Admin && admin.status == Active
    requires super.id != "" && super.role == SuperAdmin && super.status == Active
    requires admin.id != super.id
    ensures var s := State(map[b.id := b], map[admin.id := admin, super.id := super]);
            var steps := [(Some(super.id), Assign(b.id, admin.id)), (Some(admin.id), Confirm(b.id)), (Some(super.id), Clear(b.id))];
            OfferedRun(s, steps) && b.id in Run(s, steps).bookings &&
            Run(s, steps).bookings[b.id] == b.(status := Cleared, assignedAdminId := Some(admin.id))
  {
    var s0 := State(map[b.id := b], map[admin.id := admin, super.id := super]);
    var s1 := Step(s0, Assign(b.id, admin.id));
    var s2 := Step(s1, Confirm(b.id));
    var s3 := Step(s2, Clear(b.id));
    var steps := [(Some(super.id), Assign(b.id, admin.id)), (Some(admin.id), Confirm(b.id)), (Some(super.id), Clear(b.id))];
    assert Offered(s0, Some(super.id), Assign(b.id, admin.id));
    assert s1.bookings[b.id] == b.(assignedAdminId := Some(admin.id));
    assert Offered(s1, Some(admin.id), Confirm(b.id));
    assert Offered(s2, Some(super.id), Clear(b.id));
    assert steps[1..][1..][1..] == [];
    assert OfferedRun(s3, []);
    assert Run(s3, []) == s3;
    assert Run(s2, steps[1..][1..]) == s3;
    assert Run(s1, steps[1..]) == s3;
    assert Run(s0, steps) == s3;
  }

  /** The raw update checks nothing: Clear applied to an inquiry skips the
      confirmed stage, and Approve re-activates a revoked admin. Neither is
      ever offered, in any state and to any actor. */
  lemma UnguardedUpdatesSkipStages(b: Booking, p: UserProfile)
    requires b.status == Inquiry && p.status == Revoked
    ensures Step(State(map[b.id := b], map[]), Clear(b.id)).bookings[b.id].status == Cleared
    ensures Step(State(map[], map[p.id := p]), Approve(p.id)).profiles[p.id].status == Active
    ensures forall s: State, actor: Option<Id> ::
              b.id in s.bookings && s.bookings[b.id].status == Inquiry ==> !Offered(s, actor, Clear(b.id))
    ensures forall s: State, actor: Option<Id> ::
              p.id in s.profiles && s.profiles[p.id].status == Revoked ==> !Offered(s, actor, Approve(p.id))
  {
  }

  /** The dashboards draw their buttons from the lists fetched last, not from
      the store as it is now. Approve and Deny are both on screen for a pending
      row; clicking one and then the other before the lists are fetched again
      sends both, and the profile ends revoked after having been active, a
      step no single offered action makes. */
  lemma StaleViewApproveThenDeny(p: UserProfile, super: UserProfile)
    requires p.status == PendingAdmin && p.id != super.id
    requires super.id != "" && super.role == SuperAdmin && super.status == Active
    ensures var s := State(map[], map[p.id := p, super.id := super]);
            var s1 := Step(s, Approve(p.id));
            Offered(s, Some(super.id), Approve(p.id)) && Offered(s, Some(super.id), Deny(p.id)) &&
            s1.profiles[p.id].status == Active &&
            Step(s1, Deny(p.id)).profiles[p.id].status == Revoked &&
            !ProfileStep(s1.profiles[p.id].status, Step(s1, Deny(p.id)).profiles[p.id].status)
  {
    var s := State(map[], map[p.id := p, super.id := super]);
    assert s.profiles[super.id] == super;
    assert ViewFor(Some(super.id), s.profiles) == SuperAdminDashboard;
  }

  /** The persistent store the dashboards and the sign-up hook write to. Each
      update takes `storeAccepts`, the store's answer: an update it refuses,
      or one whose id matches no row, changes nothing and reports failure. */
  class Store {
    var bookings: map<Id, Booking>
    var profiles: map<Id, UserProfile>

    ghost predicate Valid()
      reads this
    {
      WellKeyed(State(bookings, profiles))
    }

    function Snapshot(): State
      reads this
    {
      State(bookings, profiles)
    }

    constructor ()
      ensures Valid() && bookings == map[] && profiles == map[]
    {
      bookings := map[];
      profiles := map[];
    }

    /** handleApproveAdmin: set the profile's status to active. */
    method ApproveAdmin(profileId: Id, storeAccepts: bool) returns (ok: bool)
      requires Valid()
      modifies this
      ensures Valid()
      ensures ok <==> profileId in old(profiles) && storeAccepts
      ensures bookings == old(bookings)
      ensures profiles == if ok then old(profiles)[profileId := old(profiles)[profileId].(status := Active)] else old(profiles)
      ensures Snapshot() == if storeAccepts then Step(old(Snapshot()), Approve(profileId)) else old(Snapshot())
    {
      ok := profileId in profiles && storeAccepts;
      if ok {
        profiles := profiles[profileId := profiles[profileId].(status := Active)];
      }
    }

    /** handleDenyAdmin: set the profile's status to revoked. */
    method DenyAdmin(profileId: Id, storeAccepts: bool) returns (ok: bool)
      requires Valid()
      modifies this
      ensures Valid()
      ensures ok <==> profileId in old(profiles) && storeAccepts
      ensures bookings == old(bookings)
      ensures profiles == if ok then old(profiles)[profileId := old(profiles)[profileId].(status := Revoked)] else old(profiles)
      ensures Snapshot() == if storeAccepts then Step(old(Snapshot()), Deny(profileId)) else old(Snapshot())
    {
      ok := profileId in profiles && storeAccepts;
      if ok {
        profiles := profiles[profileId := profiles[profileId].(status := Revoked)];
      }
    }

    /** handleAssignInquiry: set the booking's assigned admin. */
    method AssignInquiry(bookingId: Id, adminId: Id, storeAccepts: bool) returns (ok: bool)
      requires Valid()
      modifies this
      ensures Valid()
      ensures ok <==> bookingId in old(bookings) && storeAccepts
      ensures profiles == old(profiles)
      ensures bookings == if ok then old(bookings)[bookingId := old(bookings)[bookingId].(assignedAdminId := Some(adminId))] else old(bookings)
      ensures Snapshot() == if storeAccepts then Step(old(Snapshot()), Assign(bookingId, adminId)) else old(Snapshot())
    {
      ok := bookingId in bookings && storeAccepts;
      if ok {
        bookings := bookings[bookingId := bookings[bookingId].(assignedAdminId := Some(adminId))];
      }
    }

    /** handleClearEvent: set the booking's status to cleared. */
    method ClearEvent(bookingId: Id, storeAccepts: bool) returns (ok: bool)
      requires Valid()
      modifies this
      ensures Valid()
      ensures ok <==> bookingId in old(bookings) && storeAccepts
      ensures profiles == old(profiles)
      ensures bookings == if ok then old(bookings)[bookingId := old(bookings)[bookingId].(status := Cleared)] else old(bookings)
      ensures Snapshot() == if storeAccepts then Step(old(Snapshot()), Clear(bookingId)) else old(Snapshot())
    {
      ok := bookingId in bookings && storeAccepts;
      if ok {
        bookings := bookings[bookingId := bookings[bookingId].(status := Cleared)];
      }
    }

    /** handleConfirmBooking: set the booking's status to confirmed. */
    method ConfirmBooking(bookingId: Id, storeAccepts: bool) returns (ok: bool)
      requires Valid()
      modifies this
      ensures Valid()
      ensures ok <==> bookingId in old(bookings) && storeAccepts
      ensures profiles == old(profiles)
      ensures bookings == if ok then old(bookings)[bookingId := old(bookings)[bookingId].(status := Confirmed)] else old(bookings)
      ensures Snapshot() == if storeAccepts then Step(old(Snapshot()), Confirm(bookingId)) else old(Snapshot())
    {
      ok := bookingId in bookings && storeAccepts;
      if ok {
        bookings := bookings[bookingId := bookings[bookingId].(status := Confirmed)];
      }
    }

    /** The `/sign-up` after-hook: when the auth provider returned a user,
        insert one profile for it, with id and email copied from the user and
        role and status from `Provision`. `storeAccepts` is the store's answer
        to the insert (the hook does not look at it); a row under an existing
        id is refused by the store. */
    method AfterSignUp(path: string, returned: Option<AuthUser>, stamp: string, storeAccepts: bool)
      returns (inserted: bool)
      requires Valid()
      modifies this
      ensures Valid()
      ensures inserted <==> path == SignUpPath && returned.Some? && storeAccepts && returned.value.id !in old(profiles)
      ensures bookings == old(bookings)
      ensures profiles == if inserted then old(profiles)[returned.value.id := NewProfile(returned.value, stamp)] else old(profiles)
    {
      inserted := false;
      if path == SignUpPath {
        match returned
        case Some(user) =>
          if storeAccepts && user.id !in profiles {
            profiles := profiles[user.id := NewProfile(user, stamp)];
            inserted := true;
          }
        case None =>
      }
    }

    /** The store's insert of a submitted booking. The new row's id and both
        timestamps come from the store, and so do its initial status and
        empty assignee (column defaults). */
    method CreateBooking(data: BookingFormData, newId: Id, stamp: string, storeAccepts: bool)
      returns (ok: bool)
      requires Valid() && newId !in bookings
      modifies this
      ensures Valid()
      ensures ok == storeAccepts
      ensures profiles == old(profiles)
      ensures bookings == if ok then old(bookings)[newId := NewBooking(newId, data, stamp)] else old(bookings)
    {
      ok := storeAccepts;
      if ok {
        bookings := bookings[newId := NewBooking(newId, data, stamp)];
      }
    }
  }

  /** A freshly stored booking: the submitted fields, status inquiry, no assignee. */
  function NewBooking(id: Id, data: BookingFormData, stamp: string): (b: Booking)
    ensures FormOf(b) == data
    ensures b.id == id && b.status == Inquiry && b.assignedAdminId.None?
    ensures IsUnassignedInquiry(b)
  {
    Booking(id, data.clientName, data.clientEmail, data.eventType, data.eventDate, data.message,
            Inquiry, None, stamp, stamp)
  }

  /** A whole sign-up: the before-hook checks the request's `email`, the auth
      provider then creates the user `created` (with the e-mail it stores) or
      fails, and the after-hook provisions from that user. A request whose
      address is outside the allowed domains never gets a profile on
      `/sign-up`. */
  method SignUp(store: Store, path: string, email: string, created: Option<AuthUser>, stamp: string, storeAccepts: bool)
    returns (outcome: HookResult, inserted: bool)
    requires store.Valid()
    modifies store
    ensures store.Valid()
    ensures outcome == BeforeSignUp(path, email)
    ensures inserted <==> path == SignUpPath && Allowed(email) && created.Some? && storeAccepts &&
                          created.value.id !in old(store.profiles)
    ensures inserted ==> outcome.Continue? && created.Some?
    ensures path == SignUpPath && !Allowed(email) ==> !inserted && store.profiles == old(store.profiles)
    ensures inserted ==> store.profiles == old(store.profiles)[created.value.id := NewProfile(created.value, stamp)]
    ensures !inserted ==> store.profiles == old(store.profiles)
    ensures store.bookings == old(store.bookings)
  {
    outcome := BeforeSignUp(path, email);
    inserted := false;
    if outcome.Continue? {
      inserted := store.AfterSignUp(path, created, stamp, storeAccepts);
    }
  }
}
