/** The records of the application, taken from its Mongoose schemas
    (models/User.js, models/GlucoseReading.js, models/Medication.js,
    models/alerts.js). A document identifier (an ObjectId) is a natural number,
    a Date is an integer timestamp. */
module Domain {
  import opened Common

  type Id = nat

  /** `userType` of a user (models/User.js:17-21). */
  datatype UserType = Patient | EmergencyContact

  function UserTypeName(t: UserType): string {
    match t
    case Patient => "patient"
    case EmergencyContact => "emergency_contact"
  }

  /** A low/high pair in mg/dL, both inclusive bounds of "outside the range". */
  datatype Thresholds = Thresholds(lowThreshold: int, highThreshold: int)

  /** Schema default of `User.dangerousLevels` and of `AlertSettings.thresholds`. */
  const DefaultThresholds := Thresholds(70, 180)

  /** A user document as stored. `userType` is optional because a stored
      document may lack the field; every document this model creates sets it,
      and a loaded one reads as the schema default (`UserController.LoadedRole`). */
  datatype User = User(
    id: Id,
    email: string,
    password: string,        // the bcrypt hash
    name: string,
    userType: Option<UserType>,
    emergencyContactId: Option<Id>,
    monitoringFor: seq<Id>,
    dangerousLevels: Thresholds)

  /** `mealStatus` enum (models/GlucoseReading.js:18-22). */
  datatype MealStatus = BeforeMeal | AfterMeal | Fasting | Other

  datatype Reading = Reading(
    id: Id,
    userId: Id,
    level: int,
    timestamp: int,
    mealStatus: MealStatus,
    notes: Option<string>)

  /** `daysOfWeek` enum (models/Medication.js:12-15). */
  datatype Day = Sunday | Monday | Tuesday | Wednesday | Thursday | Friday | Saturday

  datatype Schedule = Schedule(time: string, dosage: string, daysOfWeek: seq<Day>)

  const BlankSchedule := Schedule("", "", [])

  datatype Medication = Medication(
    id: Id,
    userId: Id,
    name: string,
    kind: string,            // the schema's `type` field
    schedules: seq<Schedule>,
    notes: Option<string>,
    active: bool)

  /** The contact details a patient submits. */
  datatype ContactInfo = ContactInfo(name: string, email: string, phone: string)

  /** The embedded `emergencyContact` of an AlertSettings document. */
  datatype ContactDescriptor = ContactDescriptor(
    name: string, email: string, phone: string, accountId: Option<Id>)

  datatype AlertSettings = AlertSettings(
    userId: Id,
    emergencyContact: Option<ContactDescriptor>,
    thresholds: Thresholds)

  /** The payload of a signed token, as the auth middleware hands it to a
      handler in `req.user`. */
  datatype Claims = Claims(userId: Id, userType: Option<UserType>)

  /** An outgoing e-mail: nodemailer's `from`, `to`, `subject` and `html`. */
  datatype Mail = Mail(from: string, to: string, subject: string, html: string)
}
