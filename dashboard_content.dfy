/**
 * The display rules of the dashboard (`components/dashboard/DashboardContent.tsx`): the
 * "last updated" label, the badge of an alert's severity, the alerts panel and the active
 * alert count. `Date.now()` is the `now` parameter and `toLocaleTimeString()` the
 * `localeTime` parameter; times are whole milliseconds.
 */
module DashboardContent {
  import opened Wrappers
  import opened Strings
  import opened Payloads

  /** `formatTime`: a dash with no time, then "Just now", minutes, hours, and the clock time after a day. */
  function FormatTime(date: Option<int>, now: int, localeTime: string): (r: string)
    ensures date.None? ==> r == "\U{2014}"
    ensures date.Some? && (now - date.value) / 1000 < 60 ==> r == "Just now"
    ensures date.Some? && 60 <= (now - date.value) / 1000 < 3600 ==> r == NatToString((now - date.value) / 1000 / 60) + "m ago"
    ensures date.Some? && 3600 <= (now - date.value) / 1000 < 86400 ==> r == NatToString((now - date.value) / 1000 / 3600) + "h ago"
    ensures date.Some? && 86400 <= (now - date.value) / 1000 ==> r == localeTime
  {
    match date
    case None => "\U{2014}"
    case Some(t) =>
      var sec := (now - t) / 1000;
      if sec < 60 then "Just now"
      else if sec < 3600 then NatToString(sec / 60) + "m ago"
      else if sec < 86400 then NatToString(sec / 3600) + "h ago"
      else localeTime
  }

  /**
   * Under a minute the label is "Just now", under an hour it names a count of 1 to 59
   * minutes, under a day a count of 1 to 23 hours.
   */
  lemma FormatTimeBands(t: int, now: int, localeTime: string)
    ensures var sec := (now - t) / 1000; var r := FormatTime(Some(t), now, localeTime);
      && (sec < 60 ==> r == "Just now")
      && (60 <= sec < 3600 ==> exists m: nat :: 1 <= m <= 59 && r == NatToString(m) + "m ago")
      && (3600 <= sec < 86400 ==> exists h: nat :: 1 <= h <= 23 && r == NatToString(h) + "h ago")
  {
    var sec := (now - t) / 1000;
    var r := FormatTime(Some(t), now, localeTime);
    if 60 <= sec < 3600 {
      var m: nat := sec / 60;
      assert 1 <= m <= 59 && r == NatToString(m) + "m ago";
    } else if 3600 <= sec < 86400 {
      var h: nat := sec / 3600;
      assert 1 <= h <= 23 && r == NatToString(h) + "h ago";
    }
  }

  /** The dashboard's minute label differs from the community feed's only in its unit. */
  lemma MinutesLabelUnit(t: int, now: int, localeTime: string)
    requires 60 <= (now - t) / 1000 < 3600
    ensures var r := FormatTime(Some(t), now, localeTime);
      |r| > 5 && r[|r| - 5..] == "m ago" && IsDigit(r[0])
  {
  }

  datatype BadgeVariant = Danger | Warning | Info

  /** The severity badge: SEVERE and HIGH are danger, MODERATE a warning, anything else informational. */
  function SeverityBadge(severity: string): (v: BadgeVariant)
    ensures v == Danger <==> severity == "SEVERE" || severity == "HIGH"
    ensures v == Warning <==> severity == "MODERATE"
    ensures v == Info <==> severity !in {"SEVERE", "HIGH", "MODERATE"}
  {
    if severity == "SEVERE" || severity == "HIGH" then Danger
    else if severity == "MODERATE" then Warning
    else Info
  }

  const MaxShown: nat := 5

  /** One alert row: district, title, time, the severity badge and the status badge. */
  datatype AlertRow = AlertRow(district: string, title: string, time: string, severity: BadgeVariant, status: string)

  /** The alerts panel: a skeleton while loading, the rows, or the "No active alerts nearby." note. */
  datatype AlertsPanel = Skeleton | Rows(rows: seq<AlertRow>) | NoAlerts

  /** How many of `n` updates `slice(0, 5)` keeps. */
  function ShownCount(n: nat): nat {
    if n < MaxShown then n else MaxShown
  }

  function Row(u: CommunityUpdate): AlertRow {
    AlertRow(u.district, u.title, u.time, SeverityBadge(u.severity), u.status)
  }

  /** The panel for the community feed: `updates.slice(0, 5).map(...)` when there are any. */
  function Panel(loading: bool, community: Option<CommunityUpdatesPayload>): (p: AlertsPanel)
    ensures loading <==> p.Skeleton?
    ensures p.NoAlerts? <==> !loading && (community.None? || community.value.updates == [])
    ensures p.Rows? ==>
      && 1 <= |p.rows| <= MaxShown
      && |p.rows| == ShownCount(|community.value.updates|)
      && forall i | 0 <= i < |p.rows| :: p.rows[i] == Row(community.value.updates[i])
  {
    if loading then Skeleton
    else if community.None? || |community.value.updates| == 0 then NoAlerts
    else
      var shown := community.value.updates[..ShownCount(|community.value.updates|)];
      Rows(seq(|shown|, i requires 0 <= i < |shown| => Row(shown[i])))
  }

  /** `communityUpdates?.updates?.length?.toString() ?? '—'`: the count of all updates, not only those shown. */
  function ActiveAlertsStat(community: Option<CommunityUpdatesPayload>): (r: string)
    ensures community.None? <==> r == "\U{2014}"
    ensures community.Some? ==> (forall i | 0 <= i < |r| :: IsDigit(r[i])) && DecimalValue(r) == |community.value.updates|
  {
    match community
    case None => "\U{2014}"
    case Some(c) =>
      NatToStringValue(|c.updates|);
      NatToString(|c.updates|)
  }

  /** With more than five updates the stat counts them all while the panel shows the first five. */
  lemma StatCountsBeyondPanel(community: CommunityUpdatesPayload)
    requires |community.updates| > MaxShown
    ensures var p := Panel(false, Some(community));
      p.Rows? && |p.rows| == MaxShown && DecimalValue(ActiveAlertsStat(Some(community))) > |p.rows|
  {
  }
}
