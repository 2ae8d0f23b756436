/**
 * The record types of the onboarding application (types.ts).
 *
 * An `Employee` is an opaque `id` together with a `Profile`, which holds
 * every other key of the record; a `Profile` is therefore exactly the
 * `Omit<Employee, 'id'>` that the form and the OCR mapper produce. A
 * `Patch` is `Partial<Employee>`: every key, `id` included, may be absent.
 * `Key`, `Value`, `Get` and `PatchGet` give a key-by-key view of profiles
 * and patches, in which the store's shallow merge and the OCR mapper are
 * specified.
 */
module Types {

  datatype Option<T> = None | Some(value: T)

  /** The value of `o`, or `default` when the key is absent. */
  function Pick<T>(o: Option<T>, default: T): T
  {
    match o
    case Some(v) => v
    case None => default
  }

  /** One row of the education table. */
  datatype Education = Education(
    school: string,
    major: string,
    startYear: string,
    endYear: string,
    status: string)

  /** One row of the employment-history table. */
  datatype Employment = Employment(
    company: string,
    position: string,
    description: string,
    years: string)

  datatype FamilyMember = FamilyMember(name: string, relationship: string)

  /** The three onboarding states; the program stores them as their labels. */
  datatype Status = Pending | Onboarding | Completed

  /** The literal string the program uses for each status. */
  function Label(s: Status): (t: string)
    ensures |t| == 3
  {
    match s
    case Pending => "待處理"
    case Onboarding => "入職中"
    case Completed => "已完成"
  }

  /** The status whose label is `t`, if `t` is one of the three labels. */
  function StatusOf(t: string): (r: Option<Status>)
    ensures r.Some? ==> Label(r.value) == t
  {
    if t == Label(Pending) then Some(Pending)
    else if t == Label(Onboarding) then Some(Onboarding)
    else if t == Label(Completed) then Some(Completed)
    else None
  }

  /** Each status has its own label, and a label names exactly one status. */
  lemma LabelRoundTrip(s: Status, t: string)
    ensures StatusOf(Label(s)) == Some(s)
    ensures StatusOf(t) == Some(s) <==> Label(s) == t
  {
    match s
    case Pending =>
    case Onboarding =>
      assert Label(Onboarding)[0] != Label(Pending)[0];
    case Completed =>
      assert Label(Completed)[0] != Label(Pending)[0];
      assert Label(Completed)[0] != Label(Onboarding)[0];
  }

  /** Every key of an employee record except `id`; `remarks` is the only optional one. */
  datatype Profile = Profile(
    // personal data
    name: string,
    idNumber: string,
    birthday: string,
    gender: string,
    bloodType: string,
    marriage: string,
    military: string,
    license: string,
    transportation: string,
    height: string,
    weight: string,
    // contact data
    phone: string,
    mobile: string,
    email: string,
    contactAddress: string,
    residentAddress: string,
    // emergency contact
    emergencyName: string,
    emergencyRelation: string,
    emergencyPhone: string,
    emergencyMobile: string,
    // education, experience and other
    education: seq<Education>,
    employment: seq<Employment>,
    family: seq<FamilyMember>,
    languages: string,
    // filled in by the personnel office
    employeeNumber: string,
    position: string,
    department: string,
    onboardingDate: string,
    insuranceDate: string,
    salary: string,
    status: Status,
    remarks: Option<string>)

  datatype Employee = Employee(id: string, profile: Profile)

  /** `Partial<Employee>`: `None` means the key is not supplied. */
  datatype Patch = Patch(
    id: Option<string>,
    name: Option<string>,
    idNumber: Option<string>,
    birthday: Option<string>,
    gender: Option<string>,
    bloodType: Option<string>,
    marriage: Option<string>,
    military: Option<string>,
    license: Option<string>,
    transportation: Option<string>,
    height: Option<string>,
    weight: Option<string>,
    phone: Option<string>,
    mobile: Option<string>,
    email: Option<string>,
    contactAddress: Option<string>,
    residentAddress: Option<string>,
    emergencyName: Option<string>,
    emergencyRelation: Option<string>,
    emergencyPhone: Option<string>,
    emergencyMobile: Option<string>,
    education: Option<seq<Education>>,
    employment: Option<seq<Employment>>,
    family: Option<seq<FamilyMember>>,
    languages: Option<string>,
    employeeNumber: Option<string>,
    position: Option<string>,
    department: Option<string>,
    onboardingDate: Option<string>,
    insuranceDate: Option<string>,
    salary: Option<string>,
    status: Option<Status>,
    remarks: Option<Option<string>>)

  /** The patch that supplies no key at all (`{}`). */
  function EmptyPatch(): (p: Patch)
    ensures p.id == None
    ensures forall k :: PatchGet(p, k) == None
  {
    Patch(None, None, None, None, None, None, None, None, None, None, None,
          None, None, None, None, None, None, None, None, None, None, None,
          None, None, None, None, None, None, None, None, None, None, None)
  }

  /** The keys of a `Profile`, in the order of types.ts. */
  datatype Key =
    | Name | IdNumber | Birthday | Gender | BloodType | Marriage | Military
    | License | Transportation | Height | Weight
    | Phone | Mobile | Email | ContactAddress | ResidentAddress
    | EmergencyName | EmergencyRelation | EmergencyPhone | EmergencyMobile
    | EducationList | EmploymentList | FamilyList | Languages
    | EmployeeNumber | Position | Department | OnboardingDate | InsuranceDate
    | Salary | StatusKey | Remarks

  /** A value stored under some key. */
  datatype Value =
    | Text(text: string)
    | Schooling(schooling: seq<Education>)
    | Jobs(jobs: seq<Employment>)
    | Relatives(relatives: seq<FamilyMember>)
    | StatusValue(state: Status)
    | Optional(optional: Option<string>)

  /** The value of key `k` in profile `p` (`p[k]`). */
  function Get(p: Profile, k: Key): Value
  {
    match k
    case Name => Text(p.name)
    case IdNumber => Text(p.idNumber)
    case Birthday => Text(p.birthday)
    case Gender => Text(p.gender)
    case BloodType => Text(p.bloodType)
    case Marriage => Text(p.marriage)
    case Military => Text(p.military)
    case License => Text(p.license)
    case Transportation => Text(p.transportation)
    case Height => Text(p.height)
    case Weight => Text(p.weight)
    case Phone => Text(p.phone)
    case Mobile => Text(p.mobile)
    case Email => Text(p.email)
    case ContactAddress => Text(p.contactAddress)
    case ResidentAddress => Text(p.residentAddress)
    case EmergencyName => Text(p.emergencyName)
    case EmergencyRelation => Text(p.emergencyRelation)
    case EmergencyPhone => Text(p.emergencyPhone)
    case EmergencyMobile => Text(p.emergencyMobile)
    case EducationList => Schooling(p.education)
    case EmploymentList => Jobs(p.employment)
    case FamilyList => Relatives(p.family)
    case Languages => Text(p.languages)
    case EmployeeNumber => Text(p.employeeNumber)
    case Position => Text(p.position)
    case Department => Text(p.department)
    case OnboardingDate => Text(p.onboardingDate)
    case InsuranceDate => Text(p.insuranceDate)
    case Salary => Text(p.salary)
    case StatusKey => StatusValue(p.status)
    case Remarks => Optional(p.remarks)
  }

  /** The value a patch supplies for key `k`, if it supplies one. */
  function PatchGet(p: Patch, k: Key): Option<Value>
  {
    match k
    case Name => Lift(p.name, v => Text(v))
    case IdNumber => Lift(p.idNumber, v => Text(v))
    case Birthday => Lift(p.birthday, v => Text(v))
    case Gender => Lift(p.gender, v => Text(v))
    case BloodType => Lift(p.bloodType, v => Text(v))
    case Marriage => Lift(p.marriage, v => Text(v))
    case Military => Lift(p.military, v => Text(v))
    case License => Lift(p.license, v => Text(v))
    case Transportation => Lift(p.transportation, v => Text(v))
    case Height => Lift(p.height, v => Text(v))
    case Weight => Lift(p.weight, v => Text(v))
    case Phone => Lift(p.phone, v => Text(v))
    case Mobile => Lift(p.mobile, v => Text(v))
    case Email => Lift(p.email, v => Text(v))
    case ContactAddress => Lift(p.contactAddress, v => Text(v))
    case ResidentAddress => Lift(p.residentAddress, v => Text(v))
    case EmergencyName => Lift(p.emergencyName, v => Text(v))
    case EmergencyRelation => Lift(p.emergencyRelation, v => Text(v))
    case EmergencyPhone => Lift(p.emergencyPhone, v => Text(v))
    case EmergencyMobile => Lift(p.emergencyMobile, v => Text(v))
    case EducationList => Lift(p.education, v => Schooling(v))
    case EmploymentList => Lift(p.employment, v => Jobs(v))
    case FamilyList => Lift(p.family, v => Relatives(v))
    case Languages => Lift(p.languages, v => Text(v))
    case EmployeeNumber => Lift(p.employeeNumber, v => Text(v))
    case Position => Lift(p.position, v => Text(v))
    case Department => Lift(p.department, v => Text(v))
    case OnboardingDate => Lift(p.onboardingDate, v => Text(v))
    case InsuranceDate => Lift(p.insuranceDate, v => Text(v))
    case Salary => Lift(p.salary, v => Text(v))
    case StatusKey => Lift(p.status, v => StatusValue(v))
    case Remarks => Lift(p.remarks, v => Optional(v))
  }

  function Lift<T>(o: Option<T>, wrap: T -> Value): Option<Value>
  {
    match o
    case Some(v) => Some(wrap(v))
    case None => None
  }

  /** The screens of the application. */
  datatype ViewState = Dashboard | Employees | Ocr | Analytics | Form | Print

  /** One slice of the department chart. */
  datatype DeptEntry = DeptEntry(name: string, value: nat)

  /** One bar of the hiring-trend chart. */
  datatype TrendEntry = TrendEntry(month: string, count: nat)

  /** The figures shown on the dashboard. */
  datatype DashboardStats = DashboardStats(
    totalEmployees: nat,
    onboardingProgress: real,
    departmentDistribution: seq<DeptEntry>,
    hiringTrends: seq<TrendEntry>)
}
