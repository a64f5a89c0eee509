/** What the two dashboards compute from the booking and profile lists: the
    row filters that decide which record shows which action button (the only
    guards the workflow has), the summary counts and the conversion rate, and
    the admin dashboard's status badge. The lists arrive newest first. */
module Dashboards {
  import opened Types
  import opened Seqs

  // ---- Super-admin dashboard: rows and the actions they offer ----

  /** Approve and Deny are both offered on exactly the pending profiles; a
      pending profile is never in the list of admins to assign to. */
  predicate CanApprove(p: UserProfile)
    ensures CanApprove(p) ==> !IsAssignableAdmin(p)
  {
    p.status == PendingAdmin
  }

  /** An admin that may be picked as assignee: active, and an admin rather than
      the super-admin. */
  predicate IsAssignableAdmin(p: UserProfile)
  {
    p.status == Active && p.role == Admin
  }

  /** JavaScript truthiness of `assigned_admin_id`: null and "" are falsy. */
  predicate HasAssignee(b: Booking)
  {
    b.assignedAdminId.Some? && b.assignedAdminId.value != ""
  }

  /** A booking listed under "Assign Inquiries": an inquiry without an assignee. */
  predicate IsUnassignedInquiry(b: Booking)
  {
    b.status == Inquiry && !HasAssignee(b)
  }

  /** Assignment of booking `b` to profile `target` is offered: never on a
      booking that Clear is offered on, never to a pending profile. */
  predicate CanAssign(b: Booking, target: UserProfile)
    ensures CanAssign(b, target) ==> !CanClear(b) && !CanApprove(target) && target.role != SuperAdmin
  {
    IsUnassignedInquiry(b) && IsAssignableAdmin(target)
  }

  /** Clear is offered on exactly the confirmed bookings, which are never
      listed for assignment. */
  predicate CanClear(b: Booking)
    ensures CanClear(b) ==> !IsUnassignedInquiry(b)
  {
    b.status == Confirmed
  }

  function PendingAdmins(ps: seq<UserProfile>): seq<UserProfile>
  {
    Filter(ps, CanApprove)
  }

  function ActiveAdmins(ps: seq<UserProfile>): seq<UserProfile>
  {
    Filter(ps, IsAssignableAdmin)
  }

  function UnassignedInquiries(bs: seq<Booking>): seq<Booking>
  {
    Filter(bs, IsUnassignedInquiry)
  }

  function ConfirmedBookings(bs: seq<Booking>): seq<Booking>
  {
    Filter(bs, CanClear)
  }

  /** The rows of each table are exactly the records its guard admits, in the
      order the lists came in. */
  lemma SuperAdminRows(bs: seq<Booking>, ps: seq<UserProfile>)
    ensures forall p :: p in PendingAdmins(ps) <==> p in ps && p.status == PendingAdmin
    ensures forall p :: p in ActiveAdmins(ps) <==> p in ps && p.status == Active && p.role == Admin
    ensures forall b :: b in UnassignedInquiries(bs) <==> b in bs && b.status == Inquiry && !HasAssignee(b)
    ensures forall b :: b in ConfirmedBookings(bs) <==> b in bs && b.status == Confirmed
    ensures SubsequenceOf(PendingAdmins(ps), ps) && SubsequenceOf(ActiveAdmins(ps), ps)
    ensures SubsequenceOf(UnassignedInquiries(bs), bs) && SubsequenceOf(ConfirmedBookings(bs), bs)
  {
    FilterIsSubsequence(ps, CanApprove);
    FilterIsSubsequence(ps, IsAssignableAdmin);
    FilterIsSubsequence(bs, IsUnassignedInquiry);
    FilterIsSubsequence(bs, CanClear);
  }

  /** No row is lost or repeated: each admitted record appears in its table as
      often as in the input. */
  lemma SuperAdminRowCounts(bs: seq<Booking>, ps: seq<UserProfile>)
    ensures forall p :: multiset(PendingAdmins(ps))[p] == if CanApprove(p) then multiset(ps)[p] else 0
    ensures forall p :: multiset(ActiveAdmins(ps))[p] == if IsAssignableAdmin(p) then multiset(ps)[p] else 0
    ensures forall b :: multiset(UnassignedInquiries(bs))[b] == if IsUnassignedInquiry(b) then multiset(bs)[b] else 0
    ensures forall b :: multiset(ConfirmedBookings(bs))[b] == if CanClear(b) then multiset(bs)[b] else 0
  {
    FilterMultiplicity(ps, CanApprove);
    FilterMultiplicity(ps, IsAssignableAdmin);
    FilterMultiplicity(bs, IsUnassignedInquiry);
    FilterMultiplicity(bs, CanClear);
  }

  // ---- Super-admin dashboard: statistics ----

  function WithStatus(bs: seq<Booking>, s: BookingStatus): seq<Booking>
  {
    Filter(bs, (b: Booking) => b.status == s)
  }

  function CountStatus(bs: seq<Booking>, s: BookingStatus): nat
  {
    |WithStatus(bs, s)|
  }

  /** Bookings past the inquiry stage. */
  function Converted(bs: seq<Booking>): seq<Booking>
  {
    Filter(bs, (b: Booking) => b.status != Inquiry)
  }

  /** Every booking has exactly one of the three statuses, so the three counts
      add up to the number of bookings, and the converted ones are the
      confirmed plus the cleared. */
  lemma {:induction false} StatusCountsSum(bs: seq<Booking>)
    ensures CountStatus(bs, Inquiry) + CountStatus(bs, Confirmed) + CountStatus(bs, Cleared) == |bs|
    ensures |Converted(bs)| == CountStatus(bs, Confirmed) + CountStatus(bs, Cleared)
  {
    if bs != [] {
      StatusCountsSum(bs[1..]);
    }
  }

  /** `Math.round(k / n * 100)` for 0 <= k <= n, as exact half-up rounding of
      the percentage: the r with r - 1/2 <= 100k/n < r + 1/2; 0 when n is 0. */
  function RoundedPercent(k: nat, n: nat): (r: nat)
    requires k <= n
    ensures r <= 100
    ensures n == 0 ==> r == 0
    ensures n > 0 ==> 2 * n * r <= 200 * k + n < 2 * n * r + 2 * n
    ensures k == 0 ==> r == 0
    ensures 0 < n && k == n ==> r == 100
  {
    if n == 0 then 0
    else
      var r := (200 * k + n) / (2 * n);
      RoundingBounds(k, n, r);
      r
  }

  lemma RoundingBounds(k: nat, n: nat, r: nat)
    requires 0 < n && k <= n && r == (200 * k + n) / (2 * n)
    ensures 2 * n * r <= 200 * k + n < 2 * n * r + 2 * n
    ensures r <= 100
    ensures k == 0 ==> r == 0
    ensures k == n ==> r == 100
  {
    var d := 2 * n;
    DivBounds(200 * k + n, d);
    assert d * r <= 200 * k + n <= 201 * n < d * 101;
    MulLessMonotone(d, r, 101);
    if k == 0 {
      assert d * r < d * 1;
      MulLessMonotone(d, r, 1);
    }
    if k == n {
      assert d * 100 < d * r + d == d * (r + 1);
      MulLessMonotone(d, 100, r + 1);
    }
  }

  lemma DivBounds(a: nat, d: nat)
    requires d > 0
    ensures d * (a / d) <= a < d * (a / d) + d
  {
  }

  lemma MulLessMonotone(d: nat, x: nat, y: nat)
    requires d > 0 && d * x < d * y
    ensures x < y
  {
  }

  /** The rounded share of bookings past the inquiry stage: 0% when there are
      no bookings or none has left the inquiry stage, 100% when there are
      bookings and all have, and within 0..100 always. */
  function ConversionRate(bs: seq<Booking>): (r: nat)
    ensures r <= 100
    ensures |bs| == 0 || CountStatus(bs, Inquiry) == |bs| ==> r == 0
    ensures |bs| > 0 && CountStatus(bs, Inquiry) == 0 ==> r == 100
    ensures |bs| > 0 ==> 2 * |bs| * r <= 200 * |Converted(bs)| + |bs| < 2 * |bs| * r + 2 * |bs|
  {
    StatusCountsSum(bs);
    RoundedPercent(|Converted(bs)|, |bs|)
  }

  datatype Stats = Stats(totalInquiries: nat, totalConfirmed: nat, totalCleared: nat, conversionRate: nat)

  /** The four figures of the stats row: each total is the number of bookings
      in its status, the totals add up to all bookings, and the rate is the
      rounded converted share. */
  function SuperAdminStats(bs: seq<Booking>): (st: Stats)
    ensures st.totalInquiries == CountStatus(bs, Inquiry)
    ensures st.totalConfirmed == CountStatus(bs, Confirmed)
    ensures st.totalCleared == CountStatus(bs, Cleared)
    ensures st.totalInquiries + st.totalConfirmed + st.totalCleared == |bs|
    ensures st.conversionRate == ConversionRate(bs)
    ensures st.conversionRate <= 100
    ensures |bs| > 0 ==> 2 * |bs| * st.conversionRate <= 200 * (st.totalConfirmed + st.totalCleared) + |bs|
                                                       < 2 * |bs| * st.conversionRate + 2 * |bs|
  {
    StatusCountsSum(bs);
    Stats(CountStatus(bs, Inquiry), CountStatus(bs, Confirmed), CountStatus(bs, Cleared), ConversionRate(bs))
  }

  // ---- Admin dashboard ----

  /** `assigned_admin_id === session?.user?.id`: with no session user the
      right-hand side is undefined, which equals no stored value. */
  predicate AssignedTo(b: Booking, user: Option<Id>)
  {
    user.Some? && b.assignedAdminId == Some(user.value)
  }

  /** Confirm is offered on the signed-in admin's own bookings in inquiry:
      never without a session user, and never on a booking Clear is offered on. */
  predicate CanConfirm(b: Booking, user: Option<Id>)
    ensures CanConfirm(b, user) ==> user.Some? && b.assignedAdminId == Some(user.value) && !CanClear(b)
  {
    AssignedTo(b, user) && b.status == Inquiry
  }

  function AssignedBookings(bs: seq<Booking>, user: Option<Id>): seq<Booking>
  {
    Filter(bs, (b: Booking) => AssignedTo(b, user))
  }

  function AdminInquiries(bs: seq<Booking>, user: Option<Id>): seq<Booking>
  {
    WithStatus(AssignedBookings(bs, user), Inquiry)
  }

  function AdminConfirmed(bs: seq<Booking>, user: Option<Id>): seq<Booking>
  {
    WithStatus(AssignedBookings(bs, user), Confirmed)
  }

  /** The admin's tables: assigned bookings are exactly the user's own (none
      without a session user); inquiries and confirmed are disjoint parts of
      them, together no more than the total; all three keep the input order;
      and the inquiries are exactly the rows Confirm is offered on. */
  lemma AdminRows(bs: seq<Booking>, user: Option<Id>)
    ensures forall b :: b in AssignedBookings(bs, user) <==> b in bs && user.Some? && b.assignedAdminId == Some(user.value)
    ensures user.None? ==> AssignedBookings(bs, user) == []
    ensures forall b :: b in AdminInquiries(bs, user) <==> b in bs && CanConfirm(b, user)
    ensures forall b :: b in AdminConfirmed(bs, user) ==> b in AssignedBookings(bs, user) && b.status == Confirmed
    ensures forall b :: b in AdminInquiries(bs, user) ==> b !in AdminConfirmed(bs, user)
    ensures |AdminInquiries(bs, user)| + |AdminConfirmed(bs, user)| <= |AssignedBookings(bs, user)|
    ensures SubsequenceOf(AssignedBookings(bs, user), bs)
    ensures SubsequenceOf(AdminInquiries(bs, user), AssignedBookings(bs, user))
    ensures SubsequenceOf(AdminConfirmed(bs, user), AssignedBookings(bs, user))
  {
    var mine := AssignedBookings(bs, user);
    FilterIsSubsequence(bs, (b: Booking) => AssignedTo(b, user));
    FilterIsSubsequence(mine, (b: Booking) => b.status == Inquiry);
    FilterIsSubsequence(mine, (b: Booking) => b.status == Confirmed);
    FilterDisjointCounts(mine, (b: Booking) => b.status == Inquiry, (b: Booking) => b.status == Confirmed);
    if user.None? {
      FilterNone(bs, (b: Booking) => AssignedTo(b, user));
    }
  }

  /** The class of the admin dashboard's status badge, by status string: the
      gray default exactly for strings that are not a booking status. */
  function StatusBadge(status: string): (c: string)
    ensures c == GrayBadge <==> ParseStatus(status).None?
  {
    match status
    case "inquiry" => "bg-amber-100 text-amber-800"
    case "confirmed" => "bg-green-100 text-green-800"
    case "cleared" => "bg-purple-100 text-purple-800"
    case _ => GrayBadge
  }

  const GrayBadge := "bg-gray-100 text-gray-800"

  /** Each of the three statuses has its own badge. */
  lemma StatusBadgeDistinct()
    ensures StatusBadge(StatusName(Inquiry)) != StatusBadge(StatusName(Confirmed))
    ensures StatusBadge(StatusName(Confirmed)) != StatusBadge(StatusName(Cleared))
    ensures StatusBadge(StatusName(Inquiry)) != StatusBadge(StatusName(Cleared))
  {
  }
}
