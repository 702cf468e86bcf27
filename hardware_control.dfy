/** The hardware-control tool: sensor readers with sentinel and default
    fallbacks, the stepwise fan and keyboard-backlight tables, and the choice
    between continuous monitoring and a single reading. */
module HardwareControl {

  import opened Wrappers
  import opened CInt

  /** Light level assumed when the ambient sensor is absent. */
  const DEFAULT_AMBIENT := 50

  /** What the three sources hold: `None` when the source cannot be opened.
      The temperature source is in millidegrees Celsius. */
  datatype Sources = Sources(temp: Option<int>, fan: Option<int>, light: Option<int>)

  /** The status record rebuilt on every reading. */
  datatype Sensors = Sensors(cpuTemp: int, fanSpeed: int, ambientLight: int, batteryTemp: int)

  /** The two actuation writes: a fan PWM duty and a keyboard brightness. */
  datatype Write = FanPwm(pwm: int) | KbdBacklight(brightness: int)

  /** Whole degrees Celsius, truncated toward zero; -1 when unreadable. */
  function ReadCpuTemp(src: Option<int>): (t: int)
    ensures src.None? ==> t == -1
    ensures src.Some? && src.value >= 0 ==> t >= 0 && t * 1000 <= src.value < t * 1000 + 1000
    ensures src.Some? && src.value < 0 ==> t <= 0 && t * 1000 - 1000 < src.value <= t * 1000
  {
    match src
    case None => -1
    case Some(milli) => TruncDiv(milli, 1000)
  }

  /** The -1 sentinel is also a genuine reading: every source holding
      -1999 to -1000 millidegrees cannot be told apart from a missing one. */
  lemma TempSentinelAmbiguous(m: int)
    ensures ReadCpuTemp(Some(m)) == ReadCpuTemp(None) <==> -1999 <= m <= -1000
  {
  }

  /** Fan speed in RPM; -1 when unreadable. */
  function ReadFanSpeed(src: Option<int>): (rpm: int)
    ensures src.None? ==> rpm == -1
    ensures src.Some? ==> rpm == src.value
  {
    match src
    case None => -1
    case Some(v) => v
  }

  /** Ambient light in lux; the default 50 when the sensor is absent. */
  function ReadAmbientLight(src: Option<int>): (lux: int)
    ensures src.None? ==> lux == DEFAULT_AMBIENT
    ensures src.Some? ==> lux == src.value
  {
    match src
    case None => DEFAULT_AMBIENT
    case Some(v) => v
  }

  /** The fan PWM duty for a temperature, by the first matching band. */
  function FanLevel(temp: int): (pwm: int)
    ensures pwm in {80, 120, 180, 255}
    ensures pwm == 255 <==> temp > 85
    ensures pwm == 180 <==> 70 < temp <= 85
    ensures pwm == 120 <==> 50 < temp <= 70
    ensures pwm == 80 <==> temp <= 50
  {
    if temp > 85 then 255
    else if temp > 70 then 180
    else if temp > 50 then 120
    else 80
  }

  /** A hotter CPU never gets a slower fan. */
  lemma FanLevelMonotone(a: int, b: int)
    requires a <= b
    ensures FanLevel(a) <= FanLevel(b)
  {
  }

  /** The keyboard brightness for an ambient light level, by the first
      matching band. */
  function BacklightLevel(ambient: int): (brightness: int)
    ensures brightness in {60, 120, 180, 255}
    ensures 0 <= brightness <= 255
    ensures brightness == 255 <==> ambient < 10
    ensures brightness == 180 <==> 10 <= ambient < 50
    ensures brightness == 120 <==> 50 <= ambient < 200
    ensures brightness == 60 <==> ambient >= 200
  {
    if ambient < 10 then 255
    else if ambient < 50 then 180
    else if ambient < 200 then 120
    else 60
  }

  /** A brighter room never gets a brighter keyboard. */
  lemma BacklightLevelAntitone(a: int, b: int)
    requires a <= b
    ensures BacklightLevel(a) >= BacklightLevel(b)
  {
  }

  /** The fallbacks drive the actuators to fixed levels: an unreadable
      temperature gives the minimum fan duty, a missing light sensor the
      medium brightness. */
  lemma FallbackLevels()
    ensures FanLevel(ReadCpuTemp(None)) == 80
    ensures BacklightLevel(ReadAmbientLight(None)) == 120
  {
  }

  /** One status record from the three sources; battery temperature is
      never read and stays 0. */
  function Snapshot(src: Sources): (s: Sensors)
    ensures s.cpuTemp == ReadCpuTemp(src.temp)
    ensures s.fanSpeed == ReadFanSpeed(src.fan)
    ensures s.ambientLight == ReadAmbientLight(src.light)
    ensures s.batteryTemp == 0
  {
    Sensors(ReadCpuTemp(src.temp), ReadFanSpeed(src.fan), ReadAmbientLight(src.light), 0)
  }

  /** The writes one monitoring cycle issues: the fan duty, then the
      keyboard brightness. The fan-speed reading plays no part. */
  function CycleWrites(src: Sources): (w: seq<Write>)
    ensures |w| == 2
    ensures w[0] == FanPwm(FanLevel(ReadCpuTemp(src.temp)))
    ensures w[1] == KbdBacklight(BacklightLevel(ReadAmbientLight(src.light)))
  {
    var s := Snapshot(src);
    [FanPwm(FanLevel(s.cpuTemp)), KbdBacklight(BacklightLevel(s.ambientLight))]
  }

  /** The tool's entry point. In monitoring mode each cycle rebuilds the
      status record and issues both writes, with no memory of the previous
      cycle; the endless loop is cut to the given cycles. Otherwise one
      reading (the first) is taken and nothing is written. */
  method Control(monitor: bool, cycles: seq<Sources>) returns (reports: seq<Sensors>, writes: seq<Write>)
    requires monitor || |cycles| > 0
    ensures monitor ==> |reports| == |cycles| && |writes| == 2 * |cycles|
    ensures monitor ==> forall j :: 0 <= j < |cycles| ==>
      reports[j] == Snapshot(cycles[j]) &&
      writes[2 * j] == FanPwm(FanLevel(ReadCpuTemp(cycles[j].temp))) &&
      writes[2 * j + 1] == KbdBacklight(BacklightLevel(ReadAmbientLight(cycles[j].light)))
    ensures !monitor ==> reports == [Snapshot(cycles[0])] && writes == []
  {
    if !monitor {
      return [Snapshot(cycles[0])], [];
    }
    reports, writes := [], [];
    var k := 0;
    while k < |cycles|
      invariant 0 <= k <= |cycles|
      invariant |reports| == k && |writes| == 2 * k
      invariant forall j :: 0 <= j < k ==>
        reports[j] == Snapshot(cycles[j]) &&
        writes[2 * j] == FanPwm(FanLevel(ReadCpuTemp(cycles[j].temp))) &&
        writes[2 * j + 1] == KbdBacklight(BacklightLevel(ReadAmbientLight(cycles[j].light)))
    {
      var sensors := Snapshot(cycles[k]);
      reports := reports + [sensors];
      writes := writes + CycleWrites(cycles[k]);
      k := k + 1;
    }
  }
}
