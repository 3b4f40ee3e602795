/**
 Configuration of one monitor invocation, read once from the environment at
 start-up (SHM/monitor.py lines 13-29). Parsing of the environment strings is
 not modelled: a `Config` is the already-parsed value.
 */
module Config {

  /** The settings the modelled core consults. `cpuWarn` and `ramWarn` are
      parsed with `int()` in the source, `netWarnMbps` and `sampleSeconds`
      with `float()`. `emailTo` and `smtpHost` are already stripped. */
  datatype Config = Config(
    cpuWarn: int,
    ramWarn: int,
    netWarnMbps: real,
    sampleSeconds: real,
    emailTo: string,
    smtpHost: string,
    csvPath: string
  )

  /** The defaults used when no environment variable overrides them: CPU
      85 %, memory 90 %, network 200 Mbps, a two-second window, and neither
      a recipient nor an SMTP relay, so no e-mail is attempted. The log path
      depends on the user's home directory and is passed in. */
  function Defaults(csvPath: string): (c: Config)
    ensures c.cpuWarn == 85 && c.ramWarn == 90
    ensures c.netWarnMbps == 200.0 && c.sampleSeconds == 2.0
    ensures c.emailTo == [] && c.smtpHost == []
    ensures c.csvPath == csvPath
  {
    Config(85, 90, 200.0, 2.0, "", "", csvPath)
  }

  /** One sample: CPU and memory utilisation in percent, network throughput
      in megabits per second. */
  datatype Sample = Sample(cpu: real, ram: real, mbps: real)
}
