/** Both tools read the same thermal-zone source. */
module ThermalAgreement {

  import opened Wrappers
  import IioRotation
  import HardwareControl

  /** The rotation tool's verdict is "safe" exactly when the hardware tool's
      reading of the same source is at most 45 degrees, including when the
      source is missing (fail-open on one side, the -1 sentinel on the other). */
  lemma VerdictMatchesReading(src: Option<int>)
    ensures IioRotation.ThermalSafe(src) <==>
      HardwareControl.ReadCpuTemp(src) <= IioRotation.THERMAL_SAFETY_LIMIT
  {
  }
}
