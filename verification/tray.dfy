/** The desktop shell's reaction to the CPU loads the dashboard forwards:
    the tray icon for the load level, the Linux icon-size rule, and the
    high-load notification with its 30-second throttle. Loading images,
    setting them on the tray and showing notifications are effects whose
    outcome is an input here. */
module Tray {

  datatype Platform = Linux | MacOs | Windows

  /** A load above this many percent is high. */
  const HighLoadPercent: real := 70.0

  /** At least this many milliseconds separate two notifications. */
  const NotificationGapMs: int := 30000

  /** Icon sizes a Linux tray takes as they are. */
  const LinuxTraySizes: seq<int> := [22, 24, 16]

  function IsHighLoad(cpuLoad: real): bool { cpuLoad > HighLoadPercent }

  /** `getTrayIconFileName`: the icon depends on the platform family and
      the load level only. */
  function IconFileName(p: Platform, high: bool): (r: string)
    ensures p == Linux ==> r == (if high then "cpu-high-linux.png" else "cpu-normal-linux.png")
    ensures p != Linux ==> r == (if high then "cpu-high.png" else "cpu-normal.png")
  {
    if p == Linux then (if high then "cpu-high-linux.png" else "cpu-normal-linux.png")
    else if high then "cpu-high.png" else "cpu-normal.png"
  }

  /** The four icons are different files, so the icon always tells the load
      level and the platform family apart. */
  lemma IconNamesDistinct(p: Platform, q: Platform, a: bool, b: bool)
    ensures IconFileName(p, a) == IconFileName(q, b) <==> a == b && (p == Linux <==> q == Linux)
  {
  }

  /** `loadTrayIcon` on Linux: an image is scaled to 22x22 unless it is
      square with a side of 22, 24 or 16. */
  function NeedsResize(width: int, height: int): (r: bool)
    ensures !r <==> width == height && (width == 16 || width == 22 || width == 24)
  {
    width !in LinuxTraySizes || width != height
  }

  /** The shell state: whether the tray exists, the icon on it, and when
      the last notification was shown (0 before the first). */
  datatype Shell = Shell(hasTray: bool, icon: string, lastNotificationTime: int)

  /** The `cpu-load-update` handler. Without a tray nothing happens.
      Otherwise the icon for the load level is set when its file loads, and
      a high load raises a notification if more than 30 seconds have passed
      since the last one, which restarts the gap. The flag is whether a
      notification was raised. */
  function OnCpuLoad(s: Shell, p: Platform, cpuLoad: real, now: int, iconLoads: bool): (r: (Shell, bool))
    ensures !s.hasTray ==> r == (s, false)
    ensures r.1 <==> s.hasTray && IsHighLoad(cpuLoad) && now - s.lastNotificationTime > NotificationGapMs
    ensures r.0.lastNotificationTime == (if r.1 then now else s.lastNotificationTime)
    ensures s.hasTray && iconLoads ==> r.0.icon == IconFileName(p, IsHighLoad(cpuLoad))
    ensures !iconLoads ==> r.0.icon == s.icon
    ensures r.0.hasTray == s.hasTray
  {
    if !s.hasTray then (s, false)
    else
      var high := IsHighLoad(cpuLoad);
      var icon := if iconLoads then IconFileName(p, high) else s.icon;
      if high && now - s.lastNotificationTime > NotificationGapMs then (s.(icon := icon, lastNotificationTime := now), true)
      else (s.(icon := icon), false)
  }

  /** One forwarded load: its value, arrival time, and whether the icon file
      loads. */
  datatype Update = Update(cpuLoad: real, now: int, iconLoads: bool)

  /** The arrival times at which notifications are raised over a run of updates. */
  function NotificationTimes(s: Shell, p: Platform, updates: seq<Update>): seq<int>
    decreases |updates|
  {
    if |updates| == 0 then []
    else
      var u := updates[0];
      var (next, raised) := OnCpuLoad(s, p, u.cpuLoad, u.now, u.iconLoads);
      (if raised then [u.now] else []) + NotificationTimes(next, p, updates[1..])
  }

  /** The throttle: over any run of updates, every notification comes more
      than 30 seconds after the previous one (and after the time the run
      started from), whatever the order the times arrive in. */
  lemma {:induction false} NotificationsSpaced(s: Shell, p: Platform, updates: seq<Update>)
    ensures var t := NotificationTimes(s, p, updates);
      && (|t| > 0 ==> t[0] - s.lastNotificationTime > NotificationGapMs)
      && forall i :: 0 < i < |t| ==> t[i] - t[i - 1] > NotificationGapMs
    decreases |updates|
  {
    if |updates| > 0 {
      var u := updates[0];
      var (next, raised) := OnCpuLoad(s, p, u.cpuLoad, u.now, u.iconLoads);
      NotificationsSpaced(next, p, updates[1..]);
      var rest := NotificationTimes(next, p, updates[1..]);
      var t := NotificationTimes(s, p, updates);
      if raised {
        assert t == [u.now] + rest;
        assert forall i :: 0 < i < |t| ==> t[i] == rest[i - 1];
      } else {
        assert t == rest;
      }
    }
  }

  /** A load of exactly 70 % is not high: it neither raises a notification
      nor shows the high icon. */
  lemma SeventyIsNormal(s: Shell, p: Platform, now: int)
    requires s.hasTray
    ensures var r := OnCpuLoad(s, p, 70.0, now, true);
      !r.1 && r.0.icon == IconFileName(p, false)
  {
  }
}
