/** The agent's memory reading: the operating system's figures in bytes
    turned into whole MiB, or zeros and the error when the reading fails. */
module MemoryMetrics {
  import opened Js

  /** Bytes per MiB. */
  const Mib: nat := 1048576

  /** What the system reports: total and used bytes (64-bit unsigned) and
      the used share in percent. */
  datatype VirtualMemory = VirtualMemory(total: nat, used: nat, usedPercent: real)

  /** The outcome of asking the system for its memory figures. */
  datatype Reading = Read(memory: VirtualMemory) | ReadError(err: string)

  /** `UsageMemory`'s four results, in its order: percent, total MiB, used
      MiB, error. */
  datatype Usage = Usage(percent: real, totalMib: nat, usedMib: nat, err: Option<string>)

  /** `UsageMemory`: a failed reading gives zeros and the error; otherwise
      the percentage as reported and both byte counts divided by 2^20,
      rounding down. */
  function UsageMemory(reading: Reading): (r: Usage)
    ensures reading.ReadError? ==> r == Usage(0.0, 0, 0, Some(reading.err))
    ensures reading.Read? ==> r.err.None? && r.percent == reading.memory.usedPercent
    ensures reading.Read? ==> r.totalMib * Mib <= reading.memory.total < (r.totalMib + 1) * Mib
    ensures reading.Read? ==> r.usedMib * Mib <= reading.memory.used < (r.usedMib + 1) * Mib
  {
    match reading
    case ReadError(e) => Usage(0.0, 0, 0, Some(e))
    case Read(m) => Usage(m.usedPercent, m.total / Mib, m.used / Mib, None)
  }

  /** Rounding down keeps the order of used and total: the used MiB never
      exceed the total MiB when the used bytes do not exceed the total. */
  lemma UsedWithinTotal(m: VirtualMemory)
    requires m.used <= m.total
    ensures UsageMemory(Read(m)).usedMib <= UsageMemory(Read(m)).totalMib
  {
  }

  /** Below one MiB a figure reads as 0; from one MiB on it does not. */
  lemma SubMibReadsAsZero(m: VirtualMemory)
    ensures UsageMemory(Read(m)).totalMib == 0 <==> m.total < Mib
  {
  }
}
