/**
 * `GET /api/location/community-updates` (`app/api/location/community-updates/route.ts`):
 * the newest active alerts, each rendered as a community update with a relative time.
 * The database query is not run: its result is a parameter, and what the query promises
 * is stated as the predicate `QueryResult`. `Date.now()` is the `now` parameter and
 * times are whole milliseconds.
 */
module CommunityUpdatesRoute {
  import opened Wrappers
  import opened Strings
  import opened Payloads
  import opened ResponseHandler

  /** One `Alert` row with its `district` relation included. */
  datatype AlertRow = AlertRow(
    id: string, districtName: string, severity: string, title: string, message: string,
    issuedAt: int, status: string)

  const Active: string := "ACTIVE"
  const MaxUpdates: nat := 10

  /**
   * `Math.floor((Date.now() - date.getTime()) / 1000)`. The divisor is positive, so Dafny's
   * Euclidean division is the floor the source takes, for alerts in the future as well.
   */
  function SecondsAgo(now: int, issuedAt: int): int {
    (now - issuedAt) / 1000
  }

  /** `formatTimeAgo`: under a minute "Just now", then whole minutes, hours or days. */
  function FormatTimeAgo(now: int, issuedAt: int): (r: string)
    ensures SecondsAgo(now, issuedAt) < 60 <==> r == "Just now"
  {
    var sec := SecondsAgo(now, issuedAt);
    if sec < 60 then "Just now"
    else if sec < 3600 then Ago(sec / 60, " min ago")
    else if sec < 86400 then Ago(sec / 3600, " hr ago")
    else Ago(sec / 86400, " days ago")
  }

  /** `${n}` followed by a unit; it starts with a digit, unlike "Just now". */
  function Ago(n: nat, unit: string): (r: string)
    ensures r == NatToString(n) + unit && IsDigit(r[0])
  {
    NatToString(n) + unit
  }

  /** A relative time of the form `<n><unit>`, read back: the number written and its unit. */
  predicate Reads(r: string, n: nat, unit: string) {
    exists k | 0 < k <= |r| ::
      && r == r[..k] + unit
      && (forall i | 0 <= i < k :: IsDigit(r[i]))
      && DecimalValue(r[..k]) == n
  }

  /**
   * Each band writes the whole number of its unit that has elapsed: 1 to 59 minutes below
   * an hour, 1 to 23 hours below a day, and at least one day otherwise.
   */
  lemma TimeAgoBands(now: int, issuedAt: int)
    ensures var sec := SecondsAgo(now, issuedAt); var r := FormatTimeAgo(now, issuedAt);
      && (60 <= sec < 3600 ==> 1 <= sec / 60 <= 59 && Reads(r, sec / 60, " min ago"))
      && (3600 <= sec < 86400 ==> 1 <= sec / 3600 <= 23 && Reads(r, sec / 3600, " hr ago"))
      && (86400 <= sec ==> 1 <= sec / 86400 && Reads(r, sec / 86400, " days ago"))
  {
    var sec := SecondsAgo(now, issuedAt);
    var r := FormatTimeAgo(now, issuedAt);
    if 60 <= sec {
      var n: nat := if sec < 3600 then sec / 60 else if sec < 86400 then sec / 3600 else sec / 86400;
      var unit := if sec < 3600 then " min ago" else if sec < 86400 then " hr ago" else " days ago";
      var d := NatToString(n);
      assert r == Ago(n, unit);
      NatToStringValue(n);
      assert r[..|d|] == d;
      assert Reads(r, n, unit);
    }
  }

  predicate SortedNewestFirst(rows: seq<AlertRow>) {
    forall i, j | 0 <= i < j < |rows| :: rows[i].issuedAt >= rows[j].issuedAt
  }

  /**
   * What `prisma.alert.findMany({ where: { status: 'ACTIVE' }, orderBy: { issuedAt: 'desc' },
   * take: 10 })` returns from the table `table`: active rows of the table, each at most as
   * often as it is stored, newest first, ten of them or all there are, and no active row
   * left out is newer than the last one taken.
   */
  predicate QueryResult(table: seq<AlertRow>, rows: seq<AlertRow>) {
    && (forall i | 0 <= i < |rows| :: rows[i].status == Active)
    && multiset(rows) <= multiset(table)
    && SortedNewestFirst(rows)
    && |rows| == Min(MaxUpdates, |ActiveRows(table)|)
    && (forall a | a in ActiveRows(table) && a !in rows :: |rows| > 0 && a.issuedAt <= rows[|rows| - 1].issuedAt)
  }

  function Min(a: nat, b: nat): nat {
    if a <= b then a else b
  }

  function ActiveRows(table: seq<AlertRow>): (r: seq<AlertRow>)
    ensures forall a | a in r :: a in table && a.status == Active
    ensures forall a | a in table && a.status == Active :: a in r
  {
    if table == [] then []
    else (if table[0].status == Active then [table[0]] else []) + ActiveRows(table[1..])
  }

  /** One row of `alerts.map(...)`. */
  function ToUpdate(a: AlertRow, now: int): (u: CommunityUpdate)
    ensures u.id == a.id && u.district == a.districtName && u.severity == a.severity
    ensures u.title == a.title && u.message == a.message && u.status == a.status
    ensures u.time == FormatTimeAgo(now, a.issuedAt)
  {
    CommunityUpdate(a.id, a.districtName, a.severity, a.title, a.message, FormatTimeAgo(now, a.issuedAt), a.status)
  }

  /** `alerts.map(...)`: one update per alert, in the same order. */
  function Updates(rows: seq<AlertRow>, now: int): (us: seq<CommunityUpdate>)
    ensures |us| == |rows|
    ensures forall i | 0 <= i < |rows| :: us[i] == ToUpdate(rows[i], now)
  {
    seq(|rows|, i requires 0 <= i < |rows| => ToUpdate(rows[i], now))
  }

  /** The route: `lat`, `lng` and `radius` are read and then not used. */
  function Get(lat: Option<string>, lng: Option<string>, radius: Option<string>,
               rows: seq<AlertRow>, now: int, timestamp: string): (r: Response<CommunityUpdatesPayload>)
    ensures r.status == 200 && r.body.Success() && r.body.data.Some?
    ensures r.body.data.value.updates == Updates(rows, now)
  {
    SendSuccess(timestamp, Some(CommunityUpdatesPayload(Updates(rows, now))))
  }

  /** The query parameters do not affect the answer. */
  lemma ParametersIgnored(
    lat1: Option<string>, lng1: Option<string>, radius1: Option<string>,
    lat2: Option<string>, lng2: Option<string>, radius2: Option<string>,
    rows: seq<AlertRow>, now: int, timestamp: string)
    ensures Get(lat1, lng1, radius1, rows, now, timestamp) == Get(lat2, lng2, radius2, rows, now, timestamp)
  {
  }

  /**
   * Over a result the query can return: at most ten updates, all with status ACTIVE, each
   * the projection of an alert stored in the table, in newest-first order of `issuedAt`.
   */
  lemma UpdatesOfQuery(table: seq<AlertRow>, rows: seq<AlertRow>, now: int, timestamp: string)
    requires QueryResult(table, rows)
    ensures var us := Get(None, None, None, rows, now, timestamp).body.data.value.updates;
      && |us| <= MaxUpdates
      && (forall i | 0 <= i < |us| :: us[i].status == Active)
      && (forall i | 0 <= i < |us| :: exists a | a in table :: us[i] == ToUpdate(a, now))
      && (forall i, j | 0 <= i < j < |us| :: rows[i].issuedAt >= rows[j].issuedAt)
  {
    var us := Get(None, None, None, rows, now, timestamp).body.data.value.updates;
    forall i | 0 <= i < |us|
      ensures exists a | a in table :: us[i] == ToUpdate(a, now)
    {
      assert rows[i] in multiset(rows);
      assert rows[i] in table && us[i] == ToUpdate(rows[i], now);
    }
  }

  /** With ten or more active alerts stored, exactly ten updates come back. */
  lemma TenWhenEnough(table: seq<AlertRow>, rows: seq<AlertRow>, now: int, timestamp: string)
    requires QueryResult(table, rows) && |ActiveRows(table)| >= MaxUpdates
    ensures |Get(None, None, None, rows, now, timestamp).body.data.value.updates| == MaxUpdates
  {
  }
}
