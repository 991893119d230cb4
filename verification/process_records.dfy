/** The process record the agent streams on the processes channel and the
    per-record derivations the process table uses: the unknown test, the
    clamped CPU figure, resident memory in MB, the active test and the row
    severity. */
module ProcessRecords {
  import opened Js
  import Text

  /** Bytes per megabyte in the table (1024 * 1024). */
  const BytesPerMb: real := 1048576.0

  /** The placeholder name the agent reports for processes it cannot name. */
  const PlaceholderName: string := "неизвестно"

  /** One process of a snapshot. Absent text fields are the empty string and
      an absent `createTime` is 0, which is how the frontend treats them. */
  datatype ProcessRecord = ProcessRecord(
    pid: int,
    name: string,
    exe: string,
    cmdline: string,
    username: string,
    status: string,
    createTime: int,
    parentPid: int,
    cpuPercent: Num,
    memoryPercent: real,
    memoryRss: Num,
    ports: seq<nat>)

  /** The name is missing or is the placeholder, compared case-insensitively. */
  function HasUnknownName(p: ProcessRecord): (r: bool)
    ensures r <==> p.name == "" || Text.Lower(p.name) == PlaceholderName
    ensures p.name == PlaceholderName ==> r
    ensures r ==> |p.name| == 0 || |p.name| == |PlaceholderName|
  {
    p.name == "" || Text.Lower(p.name) == PlaceholderName
  }

  /** Executable, command line, user and start time are all missing. */
  function HasEmptyMeta(p: ProcessRecord): (r: bool)
    ensures r <==> p.exe == "" && p.cmdline == "" && p.username == "" && p.createTime == 0
  {
    p.exe == "" && p.cmdline == "" && p.username == "" && p.createTime == 0
  }

  /** `isProcessUnknown`: either condition alone makes a record unknown. */
  function IsUnknown(p: ProcessRecord): (r: bool)
    ensures HasUnknownName(p) ==> r
    ensures HasEmptyMeta(p) ==> r
    ensures r ==> HasUnknownName(p) || HasEmptyMeta(p)
  {
    HasUnknownName(p) || HasEmptyMeta(p)
  }

  /** `getCpuPercentNumber`: the CPU figure, NaN read as 0, clamped below at 0. */
  function CpuPercent(p: ProcessRecord): (r: real)
    ensures r >= 0.0
    ensures p.cpuPercent.NaN? ==> r == 0.0
    ensures p.cpuPercent.Finite? && p.cpuPercent.value >= 0.0 ==> r == p.cpuPercent.value
    ensures p.cpuPercent.Finite? && p.cpuPercent.value < 0.0 ==> r == 0.0
  {
    match p.cpuPercent
    case NaN => 0.0
    case Finite(v) => Max(0.0, v)
  }

  /** `getMemoryMb`: resident bytes in MB; NaN and non-positive byte counts read as 0. */
  function MemoryMb(p: ProcessRecord): (r: real)
    ensures r >= 0.0
    ensures r > 0.0 <==> p.memoryRss.Finite? && p.memoryRss.value > 0.0
    ensures r > 0.0 ==> r * BytesPerMb == p.memoryRss.value
  {
    match p.memoryRss
    case NaN => 0.0
    case Finite(b) => if b <= 0.0 then 0.0 else b / BytesPerMb
  }

  /** `isActiveProcess`: some CPU or some resident memory. */
  predicate IsActive(p: ProcessRecord) {
    CpuPercent(p) > 0.0 || MemoryMb(p) > 0.0
  }

  datatype Severity = Normal | Elevated | Critical

  /** `getRowSeverity`: critical from 60 % CPU or 800 MB, elevated from 30 % or
      400 MB, otherwise normal. */
  function RowSeverity(p: ProcessRecord): (r: Severity)
    ensures r == Critical <==> CpuPercent(p) >= 60.0 || MemoryMb(p) >= 800.0
    ensures r == Elevated <==> !(CpuPercent(p) >= 60.0 || MemoryMb(p) >= 800.0)
                               && (CpuPercent(p) >= 30.0 || MemoryMb(p) >= 400.0)
    ensures r == Normal <==> CpuPercent(p) < 30.0 && MemoryMb(p) < 400.0
  {
    var cpu := CpuPercent(p);
    var mem := MemoryMb(p);
    if cpu >= 60.0 || mem >= 800.0 then Critical
    else if cpu >= 30.0 || mem >= 400.0 then Elevated
    else Normal
  }

  /** Severity only rises with load: a record with at least the CPU and
      memory of another is at least as severe. */
  lemma SeverityMonotone(p: ProcessRecord, q: ProcessRecord)
    requires CpuPercent(p) <= CpuPercent(q) && MemoryMb(p) <= MemoryMb(q)
    ensures RowSeverity(p) == Critical ==> RowSeverity(q) == Critical
    ensures RowSeverity(p) == Elevated ==> RowSeverity(q) != Normal
  {
  }

  /** An inactive record is always of normal severity. */
  lemma InactiveIsNormal(p: ProcessRecord)
    requires !IsActive(p)
    ensures RowSeverity(p) == Normal
  {
  }

  /** The unknown test is a disjunction: a record with a real name but no
      metadata is unknown, and so is a fully described record named with the
      placeholder in any letter case. */
  lemma UnknownIsDisjunction()
    ensures IsUnknown(ProcessRecord(42, "nginx", "", "", "", "S", 0, 1, Finite(0.5), 0.1, Finite(4096.0), []))
    ensures IsUnknown(ProcessRecord(7, "НЕИЗВЕСТНО", "/bin/x", "x", "root", "S", 1700000000, 1, Finite(1.0), 0.1, Finite(1.0), []))
    ensures !IsUnknown(ProcessRecord(7, "x", "/bin/x", "", "", "S", 0, 1, Finite(1.0), 0.1, Finite(1.0), []))
  {
    var upper := "НЕИЗВЕСТНО";
    assert Text.Lower(upper) == PlaceholderName;
    assert Text.Lower("x") != PlaceholderName;
  }
}
