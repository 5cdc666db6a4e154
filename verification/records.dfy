/** The reporting schema of project/main.py: one datatype per dataclass,
    with the all-zero defaults the dataclasses declare. Python floats are
    modelled as `real`. */
module Records {
  import opened Json

  datatype DiskUsage = DiskUsage(total: real, used: real, free: real)

  datatype Ram = Ram(total: real, used: real, free: real)

  /** Load averages as percentages of the core count. */
  datatype UsageCpu = UsageCpu(lastMinute: real, lastFiveMinute: real, lastFifteenMinute: real)

  datatype TempCpu = TempCpu(current: real, high: real, critical: real)

  datatype Cpu = Cpu(count: nat, percentUsage: UsageCpu, sensorsTemperatures: TempCpu)

  /** The `State` block of one inspected container. The source copies each
      value as decoded, without checking its type, so the fields hold the
      decoded JSON value itself. */
  datatype DockerState = DockerState(
    status: Json,
    running: Json,
    paused: Json,
    restarting: Json,
    dead: Json,
    pid: Json,
    exitCode: Json,
    error: Json,
    startedAt: Json,
    finishedAt: Json)

  /** One container: its state, its name without any '/', its restart
      count as decoded, and the keys of its port mapping. */
  datatype Docker = Docker(state: DockerState, name: string, restartCount: Json, ports: set<string>)

  datatype ServerStats = ServerStats(cpu: Cpu, ram: Ram, disk: DiskUsage, docker: seq<Docker>)

  const DefaultDisk := DiskUsage(0.0, 0.0, 0.0)
  const DefaultRam := Ram(0.0, 0.0, 0.0)
  const DefaultUsage := UsageCpu(0.0, 0.0, 0.0)
  const DefaultTemp := TempCpu(0.0, 0.0, 0.0)
  const DefaultCpu := Cpu(0, DefaultUsage, DefaultTemp)
}
