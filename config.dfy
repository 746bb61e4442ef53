/** The evaluator's thresholds, fixed for the whole run. */
module Config {

  /** A half-open range of local clock hours, [start, stop). */
  datatype HourWindow = HourWindow(start: int, stop: int)

  datatype Thresholds = Thresholds(
    earlyMorning: HourWindow,      // spray window in the morning
    evening: HourWindow,           // spray window in the evening
    maxWindOk: real,               // m/s; above this the hour is RED
    maxPrecipOk: real,             // mm; above this the hour is RED
    maxTemp: real,                 // degrees C; above this the hour is YELLOW
    minTemp: real,                 // degrees C; below this the hour is YELLOW
    maxWindFoliar: real,           // m/s; below this foliar fertilizer is recommended
    highTempThreshold: real,       // degrees C; an hour at or above this is "hot"
    highTempDurationHours: nat,    // a run of this many hot hours triggers the heat warning
    rainAfterHours: int)           // look-back span, in hours, for recent rain

  const Default: Thresholds :=
    Thresholds(
      earlyMorning := HourWindow(4, 7),
      evening := HourWindow(16, 19),
      maxWindOk := 3.5,
      maxPrecipOk := 0.2,
      maxTemp := 30.0,
      minTemp := 5.0,
      maxWindFoliar := 0.5,
      highTempThreshold := 30.0,
      highTempDurationHours := 3,
      rainAfterHours := 6)
}
