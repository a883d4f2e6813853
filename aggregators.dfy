/** The reducers of src/experience.ts that turn result sets into the
    sub-metrics of an experience's statistics: enrolment and active-user
    counts per role, and the on-track ratio. */
module Aggregators {
  import opened Wrappers

  /** The four roles the counters are keyed by. */
  datatype Role = Admin | Coordinator | Mentor | Participant

  function RoleName(role: Role): string {
    match role
    case Admin => "admin"
    case Coordinator => "coordinator"
    case Mentor => "mentor"
    case Participant => "participant"
  }

  /** The counter a row's role selects; `None` for a role the counters do
      not own (the `hasOwnProperty` test). */
  function ParseRole(name: string): (r: Option<Role>)
    ensures r.Some? ==> RoleName(r.value) == name
    ensures r.None? ==> forall role: Role :: RoleName(role) != name
  {
    if name == "admin" then Some(Admin)
    else if name == "coordinator" then Some(Coordinator)
    else if name == "mentor" then Some(Mentor)
    else if name == "participant" then Some(Participant)
    else None
  }

  /** A counter object `{ admin, coordinator, mentor, participant }`. */
  datatype RoleCounts = RoleCounts(admin: int, coordinator: int, mentor: int, participant: int) {

    function Get(role: Role): int {
      match role
      case Admin => admin
      case Coordinator => coordinator
      case Mentor => mentor
      case Participant => participant
    }

    /** `counts[role] += n` */
    function Add(role: Role, n: int): (c: RoleCounts)
      ensures c.Get(role) == Get(role) + n
      ensures forall other: Role :: other != role ==> c.Get(other) == Get(other)
    {
      match role
      case Admin => this.(admin := admin + n)
      case Coordinator => this.(coordinator := coordinator + n)
      case Mentor => this.(mentor := mentor + n)
      case Participant => this.(participant := participant + n)
    }
  }

  /** Every counter starts from zero. */
  const NoCounts: RoleCounts := RoleCounts(0, 0, 0, 0)

  // ---------------------------------------------------------------------
  // Enrolment counts

  /** A row of the enrolment query: a role, a user state and how many
      enrolments have both (SQL `count`, never negative). */
  datatype EnrolmentRow = EnrolmentRow(role: string, state: string, count: nat)

  /** Whether a row adds to `role`'s counter; with `activeOnly`, only rows
      of active users do. */
  predicate CountsFor(row: EnrolmentRow, role: Role, activeOnly: bool) {
    ParseRole(row.role) == Some(role) && (!activeOnly || row.state == "active")
  }

  /** The sum of `count` over the rows that add to `role`'s counter. */
  function EnrolledSum(rows: seq<EnrolmentRow>, role: Role, activeOnly: bool): nat {
    if rows == [] then 0
    else
      var last := rows[|rows| - 1];
      EnrolledSum(rows[..|rows| - 1], role, activeOnly)
        + (if CountsFor(last, role, activeOnly) then last.count else 0)
  }

  /** The counter object the enrolment rows give. */
  function EnrolledCounts(rows: seq<EnrolmentRow>, activeOnly: bool): (c: RoleCounts)
    ensures forall role: Role :: c.Get(role) == EnrolledSum(rows, role, activeOnly)
  {
    RoleCounts(EnrolledSum(rows, Admin, activeOnly), EnrolledSum(rows, Coordinator, activeOnly),
               EnrolledSum(rows, Mentor, activeOnly), EnrolledSum(rows, Participant, activeOnly))
  }

  /** What one more row does to a counter object. */
  function EnrolledStep(c: RoleCounts, row: EnrolmentRow, activeOnly: bool): RoleCounts {
    match ParseRole(row.role)
    case Some(role) => if !activeOnly || row.state == "active" then c.Add(role, row.count) else c
    case None => c
  }

  /** `getEnrolmentCount`: both counter objects start at zero; each row of a
      known role adds its count to the enrolled counter and, when its user
      is active, to the registered counter. */
  method GetEnrolmentCount(rows: seq<EnrolmentRow>) returns (enrolled: RoleCounts, registered: RoleCounts)
    ensures enrolled == EnrolledCounts(rows, false)
    ensures registered == EnrolledCounts(rows, true)
    ensures forall role: Role :: 0 <= registered.Get(role) <= enrolled.Get(role)
  {
    enrolled, registered := NoCounts, NoCounts;
    for i := 0 to |rows|
      invariant forall role: Role :: enrolled.Get(role) == EnrolledSum(rows[..i], role, false)
      invariant forall role: Role :: registered.Get(role) == EnrolledSum(rows[..i], role, true)
    {
      assert rows[..i + 1][..i] == rows[..i];
      var row := rows[i];
      match ParseRole(row.role) {
        case Some(role) =>
          enrolled := enrolled.Add(role, row.count);
          if row.state == "active" {
            registered := registered.Add(role, row.count);
          }
        case None =>
      }
    }
    assert rows[..|rows|] == rows;
    assert enrolled == EnrolledCounts(rows, false) && registered == EnrolledCounts(rows, true);
    forall role: Role
      ensures registered.Get(role) <= enrolled.Get(role)
    {
      RegisteredAtMostEnrolled(rows, role);
    }
  }

  /** Registered (active) users of a role never outnumber its enrolments. */
  lemma {:induction false} RegisteredAtMostEnrolled(rows: seq<EnrolmentRow>, role: Role)
    ensures EnrolledSum(rows, role, true) <= EnrolledSum(rows, role, false)
  {
    if rows != [] {
      RegisteredAtMostEnrolled(rows[..|rows| - 1], role);
    }
  }

  /** Splitting the rows splits the sums. */
  lemma {:induction false} EnrolledSumAppend(a: seq<EnrolmentRow>, b: seq<EnrolmentRow>, role: Role, activeOnly: bool)
    ensures EnrolledSum(a + b, role, activeOnly) == EnrolledSum(a, role, activeOnly) + EnrolledSum(b, role, activeOnly)
  {
    if b == [] {
      assert a + b == a;
    } else {
      assert (a + b)[..|a + b| - 1] == a + b[..|b| - 1];
      EnrolledSumAppend(a, b[..|b| - 1], role, activeOnly);
    }
  }

  /** A row whose role is none of the four changes no counter, wherever it
      stands among the rows. */
  lemma UnknownEnrolmentRoleIgnored(a: seq<EnrolmentRow>, row: EnrolmentRow, b: seq<EnrolmentRow>, role: Role, activeOnly: bool)
    requires ParseRole(row.role).None?
    ensures EnrolledSum(a + [row] + b, role, activeOnly) == EnrolledSum(a + b, role, activeOnly)
  {
    EnrolledSumAppend(a + [row], b, role, activeOnly);
    EnrolledSumAppend(a, [row], role, activeOnly);
    EnrolledSumAppend(a, b, role, activeOnly);
    assert [row][..0] == [];
  }

  /** A role no row names keeps its counter at 0. */
  lemma {:induction false} UnmatchedRoleIsZero(rows: seq<EnrolmentRow>, role: Role, activeOnly: bool)
    requires forall i :: 0 <= i < |rows| ==> ParseRole(rows[i].role) != Some(role)
    ensures EnrolledSum(rows, role, activeOnly) == 0
  {
    if rows != [] {
      UnmatchedRoleIsZero(rows[..|rows| - 1], role, activeOnly);
    }
  }

  // ---------------------------------------------------------------------
  // Active user counts

  /** A row of the active-user query: a role and how many of its users
      logged in within the last 7 days. */
  datatype ActiveUserRow = ActiveUserRow(role: string, count: nat)

  function ActiveSum(rows: seq<ActiveUserRow>, role: Role): nat {
    if rows == [] then 0
    else
      var last := rows[|rows| - 1];
      ActiveSum(rows[..|rows| - 1], role) + (if ParseRole(last.role) == Some(role) then last.count else 0)
  }

  /** The counter object the active-user rows give. */
  function ActiveCounts(rows: seq<ActiveUserRow>): (c: RoleCounts)
    ensures forall role: Role :: c.Get(role) == ActiveSum(rows, role)
  {
    RoleCounts(ActiveSum(rows, Admin), ActiveSum(rows, Coordinator),
               ActiveSum(rows, Mentor), ActiveSum(rows, Participant))
  }

  /** `getActiveUserCount`: one counter object from zero; each row of a
      known role adds its count. */
  method GetActiveUserCount(rows: seq<ActiveUserRow>) returns (count: RoleCounts)
    ensures count == ActiveCounts(rows)
  {
    count := NoCounts;
    for i := 0 to |rows|
      invariant forall role: Role :: count.Get(role) == ActiveSum(rows[..i], role)
    {
      assert rows[..i + 1][..i] == rows[..i];
      match ParseRole(rows[i].role) {
        case Some(role) => count := count.Add(role, rows[i].count);
        case None =>
      }
    }
    assert rows[..|rows|] == rows;
    assert count.admin == count.Get(Admin) && count.coordinator == count.Get(Coordinator);
    assert count.mentor == count.Get(Mentor) && count.participant == count.Get(Participant);
  }

  /** Rows of unknown roles contribute nothing: the active count of a role
      equals the one computed from only the rows naming a known role. */
  lemma {:induction false} ActiveCountIgnoresUnknownRoles(rows: seq<ActiveUserRow>, role: Role)
    ensures ActiveSum(rows, role) == ActiveSum(KnownRoleRows(rows), role)
  {
    if rows != [] {
      var init, last := rows[..|rows| - 1], rows[|rows| - 1];
      ActiveCountIgnoresUnknownRoles(init, role);
      var known := KnownRoleRows(init);
      if ParseRole(last.role).Some? {
        ActiveSumSnoc(known, last, role);
      } else {
        assert KnownRoleRows(rows) == known + [] == known;
      }
    }
  }

  lemma ActiveSumSnoc(rows: seq<ActiveUserRow>, row: ActiveUserRow, role: Role)
    ensures ActiveSum(rows + [row], role) == ActiveSum(rows, role) + (if ParseRole(row.role) == Some(role) then row.count else 0)
  {
    assert (rows + [row])[..|rows|] == rows;
  }

  /** The rows whose role is one of the four, in order. */
  function KnownRoleRows(rows: seq<ActiveUserRow>): (known: seq<ActiveUserRow>)
    ensures |known| <= |rows|
    ensures forall i :: 0 <= i < |known| ==> ParseRole(known[i].role).Some?
    ensures forall r :: r in known <==> r in rows && ParseRole(r.role).Some?
  {
    if rows == [] then []
    else
      var init, last := rows[..|rows| - 1], rows[|rows| - 1];
      assert rows == init + [last];
      KnownRoleRows(init) + (if ParseRole(last.role).Some? then [last] else [])
  }

  /** A role no active-user row names counts 0. */
  lemma {:induction false} UnmatchedActiveRoleIsZero(rows: seq<ActiveUserRow>, role: Role)
    requires forall i :: 0 <= i < |rows| ==> ParseRole(rows[i].role) != Some(role)
    ensures ActiveSum(rows, role) == 0
  {
    if rows != [] {
      UnmatchedActiveRoleIsZero(rows[..|rows| - 1], role);
    }
  }

  // ---------------------------------------------------------------------
  // On-track ratio

  /** A row of the team-stat query: a user and one on/off-track reading. */
  datatype TeamStatRow = TeamStatRow(userId: int, statValue: string)

  /** One element of the `userStats` array. */
  datatype UserStat = UserStat(id: int, on: nat, off: nat)

  /** `userStats.findIndex(u => u.id === id)`. */
  function FindIndex(stats: seq<UserStat>, id: int): (k: int)
    ensures -1 <= k < |stats|
    ensures k >= 0 ==> stats[k].id == id && forall j :: 0 <= j < k ==> stats[j].id != id
    ensures k == -1 ==> forall j :: 0 <= j < |stats| ==> stats[j].id != id
  {
    if stats == [] then -1
    else if stats[0].id == id then 0
    else
      var k := FindIndex(stats[1..], id);
      if k == -1 then -1 else k + 1
  }

  /** One iteration of the `forEach`: a user already seen gains an `on` for
      the value '1' and an `off` for anything else; a new user is appended
      with `on` 1 only for '1' and `off` 1 only for '0'. */
  function TallyRow(stats: seq<UserStat>, row: TeamStatRow): (next: seq<UserStat>)
    ensures |next| == |stats| + (if FindIndex(stats, row.userId) >= 0 then 0 else 1)
    ensures forall j :: 0 <= j < |stats| ==> next[j].id == stats[j].id
    ensures FindIndex(stats, row.userId) < 0 ==> next[|stats|].id == row.userId
    ensures forall j :: 0 <= j < |stats| && stats[j].id != row.userId ==> next[j] == stats[j]
  {
    var k := FindIndex(stats, row.userId);
    if k >= 0 then
      var u := stats[k];
      stats[k := if row.statValue == "1" then u.(on := u.on + 1) else u.(off := u.off + 1)]
    else
      stats + [UserStat(row.userId, if row.statValue == "1" then 1 else 0, if row.statValue == "0" then 1 else 0)]
  }

  /** The `userStats` array after folding all rows. */
  function Tally(rows: seq<TeamStatRow>): (stats: seq<UserStat>)
    ensures |stats| <= |rows|
    ensures |rows| > 0 ==> |stats| > 0
  {
    if rows == [] then [] else TallyRow(Tally(rows[..|rows| - 1]), rows[|rows| - 1])
  }

  /** `u.on / (u.on + u.off) >= 0.8`, exactly: false for 0/0, which is NaN. */
  predicate OnTrack(u: UserStat): (b: bool)
    ensures b <==> u.on > 0 && u.on >= 4 * u.off
  {
    u.on + u.off > 0 && 5 * u.on >= 4 * (u.on + u.off)
  }

  /** The integer test is the source's real one: `on / (on + off) >= 0.8`,
      with `0 / 0` (NaN) never on track. */
  lemma OnTrackIsEightyPercent(u: UserStat)
    ensures OnTrack(u) <==> u.on + u.off > 0 && (u.on as real) / ((u.on + u.off) as real) >= 0.8
  {
    if u.on + u.off > 0 {
      RatioAtLeastFourFifths(u.on as real, (u.on + u.off) as real);
    }
  }

  lemma RatioAtLeastFourFifths(n: real, d: real)
    requires d > 0.0
    ensures n / d >= 0.8 <==> 5.0 * n >= 4.0 * d
  {
    var q := n / d;
    assert n == q * d;
    if q >= 0.8 {
      ScaleMonotone(0.8, q, d);
    } else {
      ScaleMonotone(q, 0.8, d);
    }
  }

  lemma ScaleMonotone(a: real, b: real, d: real)
    requires a <= b && d > 0.0
    ensures a * d <= b * d
    ensures a < b ==> a * d < b * d
  {
  }

  /** `userStats.filter(OnTrack).length` */
  function CountOnTrack(stats: seq<UserStat>): (n: nat)
    ensures n <= |stats|
  {
    if stats == [] then 0
    else CountOnTrack(stats[..|stats| - 1]) + (if OnTrack(stats[|stats| - 1]) then 1 else 0)
  }

  /** The on-track ratio before rounding: -1 for no rows, otherwise the
      share of distinct users that are on track. */
  function OnTrackRatio(rows: seq<TeamStatRow>): (ratio: real)
    ensures rows == [] <==> ratio == -1.0
    ensures rows != [] ==> 0.0 <= ratio <= 1.0
  {
    if |rows| == 0 then -1.0
    else
      var t := Tally(rows);
      RatioOfCountsBounds(CountOnTrack(t), |t|);
      (CountOnTrack(t) as real) / (|t| as real)
  }

  /** `getOnTrackRatio`: -1 for an empty row set; otherwise the rows are
      folded into per-user tallies and the on-track users are counted. */
  method GetOnTrackRatio(rows: seq<TeamStatRow>) returns (ratio: real)
    ensures ratio == OnTrackRatio(rows)
    ensures rows == [] <==> ratio == -1.0
    ensures rows != [] ==> 0.0 <= ratio <= 1.0
  {
    if |rows| == 0 {
      return -1.0;
    }
    var userStats: seq<UserStat> := [];
    for i := 0 to |rows|
      invariant userStats == Tally(rows[..i])
    {
      TallyPrefixStep(rows, i);
      var row := rows[i];
      ghost var next := TallyRow(userStats, row);
      var userIndex := FindIndex(userStats, row.userId);
      if userIndex >= 0 {
        if row.statValue == "1" {
          userStats := userStats[userIndex := userStats[userIndex].(on := userStats[userIndex].on + 1)];
        } else {
          userStats := userStats[userIndex := userStats[userIndex].(off := userStats[userIndex].off + 1)];
        }
      } else {
        userStats := userStats + [UserStat(row.userId, if row.statValue == "1" then 1 else 0, if row.statValue == "0" then 1 else 0)];
      }
      assert userStats == next;
    }
    assert rows[..|rows|] == rows;
    var onTrackUserCount: nat := 0;
    for j := 0 to |userStats|
      invariant onTrackUserCount == CountOnTrack(userStats[..j])
    {
      CountOnTrackPrefixStep(userStats, j);
      if OnTrack(userStats[j]) {
        onTrackUserCount := onTrackUserCount + 1;
      }
    }
    assert userStats[..|userStats|] == userStats;
    ratio := (onTrackUserCount as real) / (|userStats| as real);
  }

  lemma RatioOfCountsBounds(n: nat, d: nat)
    requires 0 < d && n <= d
    ensures 0.0 <= (n as real) / (d as real) <= 1.0
  {
    var x, y := n as real, d as real;
    assert x / y <= y / y;
  }

  // ---------------------------------------------------------------------
  // What the tallies mean

  /** How many rows are about user `u`. */
  function RowsOf(rows: seq<TeamStatRow>, u: int): nat {
    if rows == [] then 0
    else RowsOf(rows[..|rows| - 1], u) + (if rows[|rows| - 1].userId == u then 1 else 0)
  }

  /** How many rows about user `u` carry the value '1'. */
  function OnRowsOf(rows: seq<TeamStatRow>, u: int): (n: nat)
    ensures n <= RowsOf(rows, u)
  {
    if rows == [] then 0
    else
      var last := rows[|rows| - 1];
      OnRowsOf(rows[..|rows| - 1], u) + (if last.userId == u && last.statValue == "1" then 1 else 0)
  }

  /** The value of the first row about user `u`. */
  function FirstValue(rows: seq<TeamStatRow>, u: int): string
    requires RowsOf(rows, u) > 0
  {
    var init, last := rows[..|rows| - 1], rows[|rows| - 1];
    if RowsOf(init, u) > 0 then FirstValue(init, u) else last.statValue
  }

  /** 1 when the first row about `u` is neither '0' nor '1': that row
      counted neither `on` nor `off`. */
  function FirstRowUncounted(rows: seq<TeamStatRow>, u: int): nat {
    if RowsOf(rows, u) > 0 && FirstValue(rows, u) != "0" && FirstValue(rows, u) != "1" then 1 else 0
  }

  /** The user ids that occur in the rows. */
  function RowUsers(rows: seq<TeamStatRow>): (users: set<int>)
    ensures forall u :: u in users <==> RowsOf(rows, u) > 0
  {
    if rows == [] then {} else RowUsers(rows[..|rows| - 1]) + {rows[|rows| - 1].userId}
  }

  /** The ids of a `userStats` array. */
  function StatIds(stats: seq<UserStat>): (ids: set<int>)
    ensures forall u :: u in ids <==> FindIndex(stats, u) >= 0
  {
    if stats == [] then {}
    else
      var init := stats[..|stats| - 1];
      var ids := StatIds(init) + {stats[|stats| - 1].id};
      assert forall u :: FindIndex(stats, u) >= 0 <==> FindIndex(init, u) >= 0 || stats[|stats| - 1].id == u by {
        forall u ensures FindIndex(stats, u) >= 0 <==> FindIndex(init, u) >= 0 || stats[|stats| - 1].id == u {
          FindIndexSnoc(init, stats[|stats| - 1], u);
          assert init + [stats[|stats| - 1]] == stats;
        }
      }
      ids
  }

  predicate DistinctUsers(stats: seq<UserStat>) {
    forall i, j :: 0 <= i < j < |stats| ==> stats[i].id != stats[j].id
  }

  lemma FindIndexSameIds(a: seq<UserStat>, b: seq<UserStat>, u: int)
    requires |a| == |b|
    requires forall j :: 0 <= j < |a| ==> a[j].id == b[j].id
    ensures FindIndex(a, u) == FindIndex(b, u)
  {
    var ka, kb := FindIndex(a, u), FindIndex(b, u);
    if ka >= 0 && kb >= 0 {
      assert !(ka < kb) && !(kb < ka);
    }
  }

  lemma FindIndexSnoc(a: seq<UserStat>, x: UserStat, u: int)
    ensures FindIndex(a + [x], u) ==
      if FindIndex(a, u) >= 0 then FindIndex(a, u) else if x.id == u then |a| else -1
  {
    var s := a + [x];
    var k, ks := FindIndex(a, u), FindIndex(s, u);
    assert forall j :: 0 <= j < |a| ==> s[j] == a[j];
    if k >= 0 {
      assert s[k].id == u;
      assert !(ks < k) && !(k < ks);
    } else if x.id == u {
      assert s[|a|].id == u;
    }
  }

  /** Exactly the users that occur in `rows` have a tally in `stats`. */
  ghost predicate SameUsers(rows: seq<TeamStatRow>, stats: seq<UserStat>) {
    forall u :: FindIndex(stats, u) >= 0 <==> RowsOf(rows, u) > 0
  }

  /** Each tally counts its user's rows: `on` is the number of '1' rows,
      and `on + off` the number of rows less the first row when that row
      is neither '0' nor '1'. */
  ghost predicate CountsMatch(rows: seq<TeamStatRow>, stats: seq<UserStat>) {
    forall k :: 0 <= k < |stats| ==>
      && stats[k].on == OnRowsOf(rows, stats[k].id)
      && stats[k].on + stats[k].off + FirstRowUncounted(rows, stats[k].id) == RowsOf(rows, stats[k].id)
  }

  ghost predicate Tallies(rows: seq<TeamStatRow>, stats: seq<UserStat>) {
    DistinctUsers(stats) && SameUsers(rows, stats) && CountsMatch(rows, stats)
  }

  /** The fold computes exactly the tallies of its rows: one per distinct
      user, each counting that user's rows. */
  lemma {:induction false} TallyCharacterized(rows: seq<TeamStatRow>)
    ensures Tallies(rows, Tally(rows))
  {
    if rows != [] {
      var init, r := rows[..|rows| - 1], rows[|rows| - 1];
      assert rows == init + [r];
      TallyCharacterized(init);
      var t := Tally(init);
      var k := FindIndex(t, r.userId);
      if k >= 0 {
        var u := t[k];
        var u' := if r.statValue == "1" then u.(on := u.on + 1) else u.(off := u.off + 1);
        assert Tally(rows) == t[k := u'];
        SeenUserStep(init, r, t, k, u');
      } else {
        var x := UserStat(r.userId, if r.statValue == "1" then 1 else 0, if r.statValue == "0" then 1 else 0);
        assert Tally(rows) == t + [x];
        NewUserStep(init, r, t, x);
      }
    }
  }

  /** A row about a user already tallied bumps that user's tally only. */
  lemma SeenUserStep(init: seq<TeamStatRow>, r: TeamStatRow, t: seq<UserStat>, k: nat, u': UserStat)
    requires Tallies(init, t)
    requires k < |t| && t[k].id == r.userId
    requires u' == if r.statValue == "1" then t[k].(on := t[k].on + 1) else t[k].(off := t[k].off + 1)
    ensures Tallies(init + [r], t[k := u'])
  {
    var rows, t' := init + [r], t[k := u'];
    assert RowsOf(init, r.userId) > 0;
    SeenUserCounts(init, r);
    forall u ensures FindIndex(t', u) >= 0 <==> RowsOf(rows, u) > 0 {
      FindIndexSameIds(t', t, u);
      if u != r.userId {
        OtherUserUnchanged(init, r, u);
      }
    }
    forall j | 0 <= j < |t'| && j != k
      ensures && t'[j].on == OnRowsOf(rows, t'[j].id)
              && t'[j].on + t'[j].off + FirstRowUncounted(rows, t'[j].id) == RowsOf(rows, t'[j].id)
    {
      assert t'[j] == t[j] && t[j].id != r.userId;
      OtherUserUnchanged(init, r, t[j].id);
    }
    assert CountsMatch(rows, t');
  }

  /** A further row about a user already seen adds one row, an `on` row
      when its value is '1', and leaves the first row as it was. */
  lemma SeenUserCounts(init: seq<TeamStatRow>, r: TeamStatRow)
    requires RowsOf(init, r.userId) > 0
    ensures RowsOf(init + [r], r.userId) == RowsOf(init, r.userId) + 1
    ensures OnRowsOf(init + [r], r.userId) == OnRowsOf(init, r.userId) + (if r.statValue == "1" then 1 else 0)
    ensures FirstRowUncounted(init + [r], r.userId) == FirstRowUncounted(init, r.userId)
  {
    var rows := init + [r];
    assert rows[..|rows| - 1] == init;
    assert FirstValue(rows, r.userId) == FirstValue(init, r.userId);
  }

  lemma NewUserSameUsers(init: seq<TeamStatRow>, r: TeamStatRow, t: seq<UserStat>, x: UserStat)
    requires SameUsers(init, t)
    requires FindIndex(t, r.userId) < 0 && x.id == r.userId
    ensures SameUsers(init + [r], t + [x])
  {
    var rows := init + [r];
    forall u ensures FindIndex(t + [x], u) >= 0 <==> RowsOf(rows, u) > 0 {
      FindIndexSnoc(t, x, u);
      if u != r.userId {
        OtherUserUnchanged(init, r, u);
      } else {
        NewUserCounts(init, r);
      }
    }
  }

  /** A row about someone else changes nothing about user `u`. */
  lemma OtherUserUnchanged(init: seq<TeamStatRow>, r: TeamStatRow, u: int)
    requires r.userId != u
    ensures RowsOf(init + [r], u) == RowsOf(init, u)
    ensures OnRowsOf(init + [r], u) == OnRowsOf(init, u)
    ensures FirstRowUncounted(init + [r], u) == FirstRowUncounted(init, u)
  {
    var rows := init + [r];
    assert rows[..|rows| - 1] == init;
  }

  /** The first row about a new user is that row alone. */
  lemma NewUserCounts(init: seq<TeamStatRow>, r: TeamStatRow)
    requires RowsOf(init, r.userId) == 0
    ensures RowsOf(init + [r], r.userId) == 1
    ensures OnRowsOf(init + [r], r.userId) == if r.statValue == "1" then 1 else 0
    ensures FirstRowUncounted(init + [r], r.userId) == if r.statValue != "0" && r.statValue != "1" then 1 else 0
  {
    var rows := init + [r];
    assert rows[..|rows| - 1] == init;
    assert FirstValue(rows, r.userId) == r.statValue;
  }

  /** A row about a user not yet tallied appends a fresh tally. */
  lemma NewUserStep(init: seq<TeamStatRow>, r: TeamStatRow, t: seq<UserStat>, x: UserStat)
    requires Tallies(init, t)
    requires FindIndex(t, r.userId) < 0
    requires x == UserStat(r.userId, if r.statValue == "1" then 1 else 0, if r.statValue == "0" then 1 else 0)
    ensures Tallies(init + [r], t + [x])
  {
    var rows, t' := init + [r], t + [x];
    assert RowsOf(init, r.userId) == 0;
    NewUserCounts(init, r);
    NewUserSameUsers(init, r, t, x);
    forall j | 0 <= j < |t|
      ensures && t'[j].on == OnRowsOf(rows, t'[j].id)
              && t'[j].on + t'[j].off + FirstRowUncounted(rows, t'[j].id) == RowsOf(rows, t'[j].id)
    {
      assert t'[j] == t[j] && t[j].id != r.userId;
      OtherUserUnchanged(init, r, t[j].id);
    }
    assert CountsMatch(rows, t');
  }

  lemma {:induction false} DistinctUsersCount(stats: seq<UserStat>)
    requires DistinctUsers(stats)
    ensures |StatIds(stats)| == |stats|
  {
    if stats != [] {
      var init := stats[..|stats| - 1];
      DistinctUsersCount(init);
      var x := stats[|stats| - 1];
      assert x.id !in StatIds(init);
    }
  }

  /** No user is tallied for more rows than they have, and for exactly as
      many when every value is '0' or '1'. */
  lemma TallyBoundedByRows(rows: seq<TeamStatRow>, k: nat)
    requires k < |Tally(rows)|
    ensures Tally(rows)[k].on + Tally(rows)[k].off <= RowsOf(rows, Tally(rows)[k].id)
    ensures (forall i :: 0 <= i < |rows| ==> rows[i].statValue == "0" || rows[i].statValue == "1") ==>
      Tally(rows)[k].on + Tally(rows)[k].off == RowsOf(rows, Tally(rows)[k].id)
  {
    TallyCharacterized(rows);
    assert Tally(rows)[k].on + Tally(rows)[k].off + FirstRowUncounted(rows, Tally(rows)[k].id)
           == RowsOf(rows, Tally(rows)[k].id);
    if forall i :: 0 <= i < |rows| ==> rows[i].statValue == "0" || rows[i].statValue == "1" {
      OnlyBinaryValuesAllCounted(rows, Tally(rows)[k].id);
    }
  }

  lemma {:induction false} OnlyBinaryValuesAllCounted(rows: seq<TeamStatRow>, u: int)
    requires forall i :: 0 <= i < |rows| ==> rows[i].statValue == "0" || rows[i].statValue == "1"
    ensures FirstRowUncounted(rows, u) == 0
  {
    if rows != [] {
      OnlyBinaryValuesAllCounted(rows[..|rows| - 1], u);
    }
  }

  /** The index of the first row about `u` (`|rows|` when there is none). */
  function FirstRowIndex(rows: seq<TeamStatRow>, u: int): nat {
    if rows == [] then 0
    else
      var init := rows[..|rows| - 1];
      if RowsOf(init, u) > 0 then FirstRowIndex(init, u)
      else if rows[|rows| - 1].userId == u then |rows| - 1
      else |rows|
  }

  lemma {:induction false} FirstRowIndexBound(rows: seq<TeamStatRow>, u: int)
    requires RowsOf(rows, u) > 0
    ensures FirstRowIndex(rows, u) < |rows| && rows[FirstRowIndex(rows, u)].userId == u
  {
    var init := rows[..|rows| - 1];
    if RowsOf(init, u) > 0 {
      FirstRowIndexBound(init, u);
      assert rows[FirstRowIndex(init, u)] == init[FirstRowIndex(init, u)];
    }
  }

  /** One row more keeps every tally's user in place and appends at most
      one tally, for the row's user when that user is new. */
  lemma TallyStepIds(rows: seq<TeamStatRow>)
    requires rows != []
    ensures var t, t' := Tally(rows[..|rows| - 1]), Tally(rows);
      && |t| <= |t'| <= |t| + 1
      && (forall j :: 0 <= j < |t| ==> t'[j].id == t[j].id)
      && (|t'| == |t| + 1 ==> t'[|t|].id == rows[|rows| - 1].userId && FindIndex(t, rows[|rows| - 1].userId) < 0)
  {
  }

  /** Users tallied before the last row keep their first row. */
  lemma EarlierUsersFirstRow(rows: seq<TeamStatRow>)
    requires rows != []
    ensures var init := rows[..|rows| - 1]; var t := Tally(init);
      forall j :: 0 <= j < |t| ==> FirstRowIndex(rows, t[j].id) == FirstRowIndex(init, t[j].id) < |init|
  {
    var init := rows[..|rows| - 1];
    var t := Tally(init);
    assert SameUsers(init, t) by {
      TallyCharacterized(init);
    }
    forall j | 0 <= j < |t|
      ensures FirstRowIndex(rows, t[j].id) == FirstRowIndex(init, t[j].id) < |init|
    {
      assert FindIndex(t, t[j].id) >= 0;
      FirstRowIndexBound(init, t[j].id);
    }
  }

  /** A user first seen in the last row has the last row as first row. */
  lemma NewUserFirstRow(rows: seq<TeamStatRow>)
    requires rows != []
    requires FindIndex(Tally(rows[..|rows| - 1]), rows[|rows| - 1].userId) < 0
    ensures FirstRowIndex(rows, rows[|rows| - 1].userId) == |rows| - 1
  {
    var init := rows[..|rows| - 1];
    assert SameUsers(init, Tally(init)) by {
      TallyCharacterized(init);
    }
  }

  /** The tallies are in order of each user's first row. */
  lemma {:induction false} TallyInFirstAppearanceOrder(rows: seq<TeamStatRow>)
    ensures forall j, k :: 0 <= j < k < |Tally(rows)| ==>
      FirstRowIndex(rows, Tally(rows)[j].id) < FirstRowIndex(rows, Tally(rows)[k].id)
  {
    if rows != [] {
      var init := rows[..|rows| - 1];
      var t, t' := Tally(init), Tally(rows);
      TallyInFirstAppearanceOrder(init);
      TallyStepIds(rows);
      EarlierUsersFirstRow(rows);
      if |t'| == |t| + 1 {
        NewUserFirstRow(rows);
      }
      forall j, k | 0 <= j < k < |t'|
        ensures FirstRowIndex(rows, t'[j].id) < FirstRowIndex(rows, t'[k].id)
      {
        if k < |t| {
          assert FirstRowIndex(init, t[j].id) < FirstRowIndex(init, t[k].id);
        }
      }
    }
  }

  /** One tally per distinct user of the rows. */
  lemma TallyPerDistinctUser(rows: seq<TeamStatRow>)
    ensures |Tally(rows)| == |RowUsers(rows)|
  {
    var t := Tally(rows);
    assert DistinctUsers(t) && SameUsers(rows, t) by {
      TallyCharacterized(rows);
    }
    DistinctUsersCount(t);
    assert StatIds(t) == RowUsers(rows) by {
      forall u ensures u in StatIds(t) <==> u in RowUsers(rows) {
        assert FindIndex(t, u) >= 0 <==> RowsOf(rows, u) > 0;
      }
    }
  }

  /** With rows, the on-track ratio is the number of on-track tallies over
      the number of distinct users in the rows. */
  lemma OnTrackRatioOverDistinctUsers(rows: seq<TeamStatRow>)
    requires rows != []
    ensures |RowUsers(rows)| > 0
    ensures OnTrackRatio(rows) == (CountOnTrack(Tally(rows)) as real) / (|RowUsers(rows)| as real)
  {
    TallyPerDistinctUser(rows);
  }

  // ---------------------------------------------------------------------
  // The source's test vectors

  const ExampleEnrolments: seq<EnrolmentRow> := [
    EnrolmentRow("participant", "active", 3), EnrolmentRow("participant", "unverified", 5),
    EnrolmentRow("mentor", "active", 2), EnrolmentRow("mentor", "unverified", 6),
    EnrolmentRow("coordinator", "active", 4), EnrolmentRow("coordinator", "unverified", 7),
    EnrolmentRow("admin", "active", 1), EnrolmentRow("admin", "unverified", 3)]

  /** The participant and mentor rows enrol 8 of each. */
  lemma ExampleEnrolledCountsHalf()
    ensures EnrolledCounts(ExampleEnrolments[..4], false) == RoleCounts(0, 0, 8, 8)
  {
    var rows := ExampleEnrolments;
    assert rows[..0] == [];
    assert EnrolledCounts(rows[..1], false) == RoleCounts(0, 0, 0, 3) by {
      EnrolledPrefixStep(rows, 0, false);
    }
    assert EnrolledCounts(rows[..2], false) == RoleCounts(0, 0, 0, 8) by {
      EnrolledPrefixStep(rows, 1, false);
    }
    assert EnrolledCounts(rows[..3], false) == RoleCounts(0, 0, 2, 8) by {
      EnrolledPrefixStep(rows, 2, false);
    }
    assert EnrolledCounts(rows[..4], false) == RoleCounts(0, 0, 8, 8) by {
      EnrolledPrefixStep(rows, 3, false);
    }
  }

  /** The test's enrolment rows enrol 4 admins, 11 coordinators, 8 mentors
      and 8 participants. */
  lemma ExampleEnrolledCounts()
    ensures EnrolledCounts(ExampleEnrolments, false) == RoleCounts(4, 11, 8, 8)
  {
    var rows := ExampleEnrolments;
    assert rows[..|rows|] == rows;
    ExampleEnrolledCountsHalf();
    assert EnrolledCounts(rows[..5], false) == RoleCounts(0, 4, 8, 8) by {
      EnrolledPrefixStep(rows, 4, false);
    }
    assert EnrolledCounts(rows[..6], false) == RoleCounts(0, 11, 8, 8) by {
      EnrolledPrefixStep(rows, 5, false);
    }
    assert EnrolledCounts(rows[..7], false) == RoleCounts(1, 11, 8, 8) by {
      EnrolledPrefixStep(rows, 6, false);
    }
    assert EnrolledCounts(rows[..8], false) == RoleCounts(4, 11, 8, 8) by {
      EnrolledPrefixStep(rows, 7, false);
    }
  }

  /** Of the participant and mentor rows, 3 participants and 2 mentors are active. */
  lemma ExampleRegisteredCountsHalf()
    ensures EnrolledCounts(ExampleEnrolments[..4], true) == RoleCounts(0, 0, 2, 3)
  {
    var rows := ExampleEnrolments;
    assert rows[..0] == [];
    assert EnrolledCounts(rows[..1], true) == RoleCounts(0, 0, 0, 3) by {
      EnrolledPrefixStep(rows, 0, true);
    }
    assert EnrolledCounts(rows[..2], true) == RoleCounts(0, 0, 0, 3) by {
      EnrolledPrefixStep(rows, 1, true);
    }
    assert EnrolledCounts(rows[..3], true) == RoleCounts(0, 0, 2, 3) by {
      EnrolledPrefixStep(rows, 2, true);
    }
    assert EnrolledCounts(rows[..4], true) == RoleCounts(0, 0, 2, 3) by {
      EnrolledPrefixStep(rows, 3, true);
    }
  }

  /** Of those, 1 admin, 4 coordinators, 2 mentors and 3 participants are
      active. */
  lemma ExampleRegisteredCounts()
    ensures EnrolledCounts(ExampleEnrolments, true) == RoleCounts(1, 4, 2, 3)
  {
    var rows := ExampleEnrolments;
    assert rows[..|rows|] == rows;
    ExampleRegisteredCountsHalf();
    assert EnrolledCounts(rows[..5], true) == RoleCounts(0, 4, 2, 3) by {
      EnrolledPrefixStep(rows, 4, true);
    }
    assert EnrolledCounts(rows[..6], true) == RoleCounts(0, 4, 2, 3) by {
      EnrolledPrefixStep(rows, 5, true);
    }
    assert EnrolledCounts(rows[..7], true) == RoleCounts(1, 4, 2, 3) by {
      EnrolledPrefixStep(rows, 6, true);
    }
    assert EnrolledCounts(rows[..8], true) == RoleCounts(1, 4, 2, 3) by {
      EnrolledPrefixStep(rows, 7, true);
    }
  }

  const ExampleTeamStats: seq<TeamStatRow> := [
    TeamStatRow(1, "1"), TeamStatRow(1, "1"), TeamStatRow(1, "1"), TeamStatRow(1, "1"),
    TeamStatRow(1, "1"), TeamStatRow(1, "0"), TeamStatRow(2, "1"), TeamStatRow(2, "1"),
    TeamStatRow(2, "0"), TeamStatRow(3, "1"), TeamStatRow(3, "0"), TeamStatRow(4, "0")]

  /** Row 1 is a '1' about user 1, who is new. */
  lemma ExampleTallyPrefix1()
    ensures Tally(ExampleTeamStats[..1]) == [UserStat(1, 1, 0)]
  {
    assert ExampleTeamStats[..0] == [];
    TallyPrefixStep(ExampleTeamStats, 0);
    assert FindIndex([], 1) == -1;
  }

  /** Row 2 is a '1' about user 1. */
  lemma ExampleTallyPrefix2()
    ensures Tally(ExampleTeamStats[..2]) == [UserStat(1, 2, 0)]
  {
    ExampleTallyPrefix1();
    TallyPrefixStep(ExampleTeamStats, 1);
    assert FindIndex([UserStat(1, 1, 0)], 1) == 0;
  }

  /** Row 3 is a '1' about user 1. */
  lemma ExampleTallyPrefix3()
    ensures Tally(ExampleTeamStats[..3]) == [UserStat(1, 3, 0)]
  {
    ExampleTallyPrefix2();
    TallyPrefixStep(ExampleTeamStats, 2);
    assert FindIndex([UserStat(1, 2, 0)], 1) == 0;
  }

  /** Row 4 is a '1' about user 1. */
  lemma ExampleTallyPrefix4()
    ensures Tally(ExampleTeamStats[..4]) == [UserStat(1, 4, 0)]
  {
    ExampleTallyPrefix3();
    TallyPrefixStep(ExampleTeamStats, 3);
    assert FindIndex([UserStat(1, 3, 0)], 1) == 0;
  }

  /** Row 5 is a '1' about user 1. */
  lemma ExampleTallyPrefix5()
    ensures Tally(ExampleTeamStats[..5]) == [UserStat(1, 5, 0)]
  {
    ExampleTallyPrefix4();
    TallyPrefixStep(ExampleTeamStats, 4);
    assert FindIndex([UserStat(1, 4, 0)], 1) == 0;
  }

  /** Row 6 is a '0' about user 1. */
  lemma ExampleTallyPrefix6()
    ensures Tally(ExampleTeamStats[..6]) == [UserStat(1, 5, 1)]
  {
    ExampleTallyPrefix5();
    TallyPrefixStep(ExampleTeamStats, 5);
    assert FindIndex([UserStat(1, 5, 0)], 1) == 0;
  }

  /** Row 7 is a '1' about user 2, who is new. */
  lemma ExampleTallyPrefix7()
    ensures Tally(ExampleTeamStats[..7]) == [UserStat(1, 5, 1), UserStat(2, 1, 0)]
  {
    ExampleTallyPrefix6();
    TallyPrefixStep(ExampleTeamStats, 6);
    assert FindIndex([UserStat(1, 5, 1)], 2) == -1;
  }

  /** Row 8 is a '1' about user 2. */
  lemma ExampleTallyPrefix8()
    ensures Tally(ExampleTeamStats[..8]) == [UserStat(1, 5, 1), UserStat(2, 2, 0)]
  {
    ExampleTallyPrefix7();
    TallyPrefixStep(ExampleTeamStats, 7);
    assert FindIndex([UserStat(1, 5, 1), UserStat(2, 1, 0)], 2) == 1;
  }

  /** Row 9 is a '0' about user 2. */
  lemma ExampleTallyPrefix9()
    ensures Tally(ExampleTeamStats[..9]) == [UserStat(1, 5, 1), UserStat(2, 2, 1)]
  {
    ExampleTallyPrefix8();
    TallyPrefixStep(ExampleTeamStats, 8);
    assert FindIndex([UserStat(1, 5, 1), UserStat(2, 2, 0)], 2) == 1;
  }

  /** Row 10 is a '1' about user 3, who is new. */
  lemma ExampleTallyPrefix10()
    ensures Tally(ExampleTeamStats[..10]) == [UserStat(1, 5, 1), UserStat(2, 2, 1), UserStat(3, 1, 0)]
  {
    ExampleTallyPrefix9();
    TallyPrefixStep(ExampleTeamStats, 9);
    assert FindIndex([UserStat(1, 5, 1), UserStat(2, 2, 1)], 3) == -1;
  }

  /** Row 11 is a '0' about user 3. */
  lemma ExampleTallyPrefix11()
    ensures Tally(ExampleTeamStats[..11]) == [UserStat(1, 5, 1), UserStat(2, 2, 1), UserStat(3, 1, 1)]
  {
    ExampleTallyPrefix10();
    TallyPrefixStep(ExampleTeamStats, 10);
    assert FindIndex([UserStat(1, 5, 1), UserStat(2, 2, 1), UserStat(3, 1, 0)], 3) == 2;
  }

  /** Row 12 is a single '0' about user 4, who is new. */
  lemma ExampleTally()
    ensures Tally(ExampleTeamStats) == [UserStat(1, 5, 1), UserStat(2, 2, 1), UserStat(3, 1, 1), UserStat(4, 0, 1)]
  {
    ExampleTallyPrefix11();
    TallyPrefixStep(ExampleTeamStats, 11);
    assert FindIndex([UserStat(1, 5, 1), UserStat(2, 2, 1), UserStat(3, 1, 1)], 4) == -1;
    assert ExampleTeamStats[..12] == ExampleTeamStats;
  }

  /** Only user 1 (5/6) reaches 0.8, so the test's ratio is 1/4. */
  lemma ExampleOnTrackRatio()
    ensures OnTrackRatio(ExampleTeamStats) == 0.25
  {
    var t := Tally(ExampleTeamStats);
    ExampleTally();
    assert t[..3] == [UserStat(1, 5, 1), UserStat(2, 2, 1), UserStat(3, 1, 1)];
    assert t[..3][..2] == [UserStat(1, 5, 1), UserStat(2, 2, 1)];
    assert t[..3][..2][..1] == [UserStat(1, 5, 1)];
    assert t[..3][..2][..1][..0] == [];
    assert CountOnTrack(t[..3][..2][..1]) == 1;
    assert CountOnTrack(t[..3][..2]) == 1;
    assert CountOnTrack(t[..3]) == 1;
    assert CountOnTrack(t) == 1;
  }

  lemma TallyPrefixStep(rows: seq<TeamStatRow>, n: nat)
    requires n < |rows|
    ensures Tally(rows[..n + 1]) == TallyRow(Tally(rows[..n]), rows[n])
  {
    assert rows[..n + 1][..n] == rows[..n];
  }

  lemma CountOnTrackPrefixStep(stats: seq<UserStat>, n: nat)
    requires n < |stats|
    ensures CountOnTrack(stats[..n + 1]) == CountOnTrack(stats[..n]) + (if OnTrack(stats[n]) then 1 else 0)
  {
    assert stats[..n + 1][..n] == stats[..n];
  }

  lemma EnrolledPrefixStep(rows: seq<EnrolmentRow>, n: nat, activeOnly: bool)
    requires n < |rows|
    ensures EnrolledCounts(rows[..n + 1], activeOnly) == EnrolledStep(EnrolledCounts(rows[..n], activeOnly), rows[n], activeOnly)
  {
    assert rows[..n + 1][..n] == rows[..n];
  }
}
