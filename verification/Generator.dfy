/**
 The mock patient and alert generator.

 Every random draw of the generator is a parameter here: a value `u` with
 0 <= u < 1, as a uniform source returns it. The clock is a parameter too:
 the instant the alert is stamped with and the local hour of that instant.
 */
module Generator {
  import opened TimePatterns
  import opened Scoring

  datatype ActivityLevel = LowActivity | ModerateActivity | HighActivity

  datatype Patient = Patient(
    id: int,
    age: int,
    historicalFalsePositiveRate: real,
    activityLevel: ActivityLevel)

  datatype AlertType = AF | Pause | PVC

  /** One alert; `priority` is fixed when the alert is generated and never recomputed. */
  datatype Alert = Alert(
    id: string,
    timestamp: int,
    hour: Hour,
    patient: Patient,
    alertType: AlertType,
    reading: real,
    priority: Priority)

  /** A clock reading: an abstract instant and its local hour of day. */
  datatype Clock = Clock(timestamp: int, hour: Hour)

  /** The uniform draws one call of the generator consumes, in order of use. */
  datatype Draws = Draws(
    patientId: real,
    age: real,
    historicalRate: real,
    activity: real,
    alertType: real,
    reading: real,
    pattern: real)

  predicate Unit(u: real)
  {
    0.0 <= u < 1.0
  }

  predicate ValidDraws(d: Draws)
  {
    && Unit(d.patientId) && Unit(d.age) && Unit(d.historicalRate) && Unit(d.activity)
    && Unit(d.alertType) && Unit(d.reading) && Unit(d.pattern)
  }

  /** The ranges every generated patient falls in. */
  predicate ValidPatient(p: Patient)
  {
    && 0 <= p.id < 1000
    && 40 <= p.age < 85
    && 0.0 <= p.historicalFalsePositiveRate < 0.5
  }

  /** The ranges every generated alert falls in. */
  predicate ValidAlert(a: Alert)
  {
    ValidPatient(a.patient) && 0.0 <= a.reading < 100.0
  }

  /** Picks one of three choices by scaling a draw to an index in [0, 3). */
  function PickIndex(u: real): (i: int)
    requires Unit(u)
    ensures 0 <= i < 3
    ensures i == 0 <==> u < 1.0 / 3.0
    ensures i == 2 <==> 2.0 / 3.0 <= u
  {
    (u * 3.0).Floor
  }

  function GeneratePatientData(d: Draws): (p: Patient)
    requires ValidDraws(d)
    ensures ValidPatient(p)
    ensures p.id as real <= d.patientId * 1000.0 < p.id as real + 1.0
    ensures p.age as real <= d.age * 45.0 + 40.0 < p.age as real + 1.0
    ensures 2.0 * p.historicalFalsePositiveRate == d.historicalRate
  {
    Patient(
      (d.patientId * 1000.0).Floor,
      (d.age * (85.0 - 40.0) + 40.0).Floor,
      d.historicalRate * 0.5,
      [LowActivity, ModerateActivity, HighActivity][PickIndex(d.activity)])
  }

  /** The score the generator classifies, from the alert's hour and patient and the pattern draw. */
  function AlertScore(hour: int, patient: Patient, patternDraw: real): real
    requires Unit(patternDraw)
  {
    PriorityScore(hour, patient.historicalFalsePositiveRate, PatternBasedScore(patternDraw))
  }

  /**
   Builds one alert: a fresh patient, the clock's stamp, a random type and
   reading, and the priority class of the mean score.
   */
  function GenerateAlert(id: string, clock: Clock, d: Draws): (a: Alert)
    requires ValidDraws(d)
    ensures ValidAlert(a)
    ensures a.id == id && a.timestamp == clock.timestamp && a.hour == clock.hour
    ensures a.patient == GeneratePatientData(d)
    ensures a.priority == High <==> AlertScore(clock.hour, a.patient, d.pattern) > 0.8
    ensures a.priority == Low <==> AlertScore(clock.hour, a.patient, d.pattern) <= 0.5
    ensures a.priority == Low ==> CurrentTimePattern(clock.hour) == Night
    ensures CurrentTimePattern(clock.hour) == Night ==> a.priority != High
  {
    var patient := GeneratePatientData(d);
    var alertType := [AF, Pause, PVC][PickIndex(d.alertType)];
    var score := AlertScore(clock.hour, patient, d.pattern);
    ClassesByPeriod(clock.hour, patient.historicalFalsePositiveRate, PatternBasedScore(d.pattern));
    Alert(id, clock.timestamp, clock.hour, patient, alertType, d.reading * 100.0, Classify(score))
  }
}
