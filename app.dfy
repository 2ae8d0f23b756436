/**
 * The screen logic of App.tsx: the OCR result mapper (`handleOCRData`),
 * the submit routing between update and add (`handleFormSubmit`), and the
 * handlers that move between screens.
 *
 * The component becomes the class `App` with its three pieces of state
 * (`currentView`, `editingEmployee`, `printingEmployee`) and the store it
 * uses. The screens themselves, and the OCR call that produces the
 * extracted data, are not modelled.
 */
module App {
  import opened Types
  import HRStore

  /** The id that marks a draft made from an OCR result. */
  const TempId: string := "temp"

  /**
   * The object the OCR service returns (the `JSON.parse` of the model's
   * answer under its response schema). `None` is a key that is missing or
   * `null`.
   */
  datatype Extraction = Extraction(
    name: Option<string>,
    idNumber: Option<string>,
    birthday: Option<string>,
    gender: Option<string>,
    bloodType: Option<string>,
    marriage: Option<string>,
    military: Option<string>,
    license: Option<string>,
    transportation: Option<string>,
    height: Option<string>,
    weight: Option<string>,
    phone: Option<string>,
    mobile: Option<string>,
    email: Option<string>,
    contactAddress: Option<string>,
    residentAddress: Option<string>,
    emergencyName: Option<string>,
    emergencyRelation: Option<string>,
    emergencyPhone: Option<string>,
    emergencyMobile: Option<string>,
    education: Option<seq<Education>>,
    employment: Option<seq<Employment>>,
    employeeNumber: Option<string>,
    position: Option<string>,
    department: Option<string>,
    onboardingDate: Option<string>,
    insuranceDate: Option<string>,
    salary: Option<string>)

  /** JavaScript truthiness of an extracted string: present and non-empty. */
  predicate Truthy(o: Option<string>)
  {
    o.Some? && o.value != ""
  }

  /** `value || default` for an extracted string. */
  function OrDefault(o: Option<string>, default: string): string
  {
    if Truthy(o) then o.value else default
  }

  /** The draft `handleOCRData` builds from an extracted object. */
  function ToDraft(data: Extraction): Profile
  {
    Profile(
      name := OrDefault(data.name, ""),
      idNumber := OrDefault(data.idNumber, ""),
      birthday := OrDefault(data.birthday, ""),
      gender := OrDefault(data.gender, "女"),
      bloodType := OrDefault(data.bloodType, ""),
      marriage := OrDefault(data.marriage, ""),
      military := OrDefault(data.military, ""),
      license := OrDefault(data.license, ""),
      transportation := OrDefault(data.transportation, ""),
      height := OrDefault(data.height, ""),
      weight := OrDefault(data.weight, ""),
      phone := OrDefault(data.phone, ""),
      mobile := OrDefault(data.mobile, ""),
      email := OrDefault(data.email, ""),
      contactAddress := OrDefault(data.contactAddress, ""),
      residentAddress := OrDefault(data.residentAddress, ""),
      emergencyName := OrDefault(data.emergencyName, ""),
      emergencyRelation := OrDefault(data.emergencyRelation, ""),
      emergencyPhone := OrDefault(data.emergencyPhone, ""),
      emergencyMobile := OrDefault(data.emergencyMobile, ""),
      education := Pick(data.education, []),
      employment := Pick(data.employment, []),
      family := [],
      languages := "",
      employeeNumber := OrDefault(data.employeeNumber, ""),
      position := OrDefault(data.position, ""),
      department := OrDefault(data.department, ""),
      onboardingDate := OrDefault(data.onboardingDate, ""),
      insuranceDate := OrDefault(data.insuranceDate, ""),
      salary := OrDefault(data.salary, ""),
      status := Pending,
      remarks := Some(""))
  }

  /** The extracted value a key of the draft is copied from, for the 26 copied text keys. */
  function Extracted(data: Extraction, k: Key): Option<string>
  {
    match k
    case Name => data.name
    case IdNumber => data.idNumber
    case Birthday => data.birthday
    case Gender => data.gender
    case BloodType => data.bloodType
    case Marriage => data.marriage
    case Military => data.military
    case License => data.license
    case Transportation => data.transportation
    case Height => data.height
    case Weight => data.weight
    case Phone => data.phone
    case Mobile => data.mobile
    case Email => data.email
    case ContactAddress => data.contactAddress
    case ResidentAddress => data.residentAddress
    case EmergencyName => data.emergencyName
    case EmergencyRelation => data.emergencyRelation
    case EmergencyPhone => data.emergencyPhone
    case EmergencyMobile => data.emergencyMobile
    case EmployeeNumber => data.employeeNumber
    case Position => data.position
    case Department => data.department
    case OnboardingDate => data.onboardingDate
    case InsuranceDate => data.insuranceDate
    case Salary => data.salary
    case _ => None
  }

  /** The keys the mapper fills from the extracted object with the `|| default` rule. */
  predicate Copied(k: Key)
  {
    !(k.EducationList? || k.EmploymentList? || k.FamilyList? || k.Languages? || k.StatusKey? || k.Remarks?)
  }

  /** The fallback of a copied key: `'女'` for gender, the empty string otherwise. */
  function DefaultFor(k: Key): string
  {
    if k == Gender then "女" else ""
  }

  lemma ToDraftAt(data: Extraction, k: Key)
    requires Copied(k)
    ensures Get(ToDraft(data), k) == Text(OrDefault(Extracted(data, k), DefaultFor(k)))
  {
    match k
    case Name =>
    case IdNumber =>
    case Birthday =>
    case Gender =>
    case BloodType =>
    case Marriage =>
    case Military =>
    case License =>
    case Transportation =>
    case Height =>
    case Weight =>
    case Phone =>
    case Mobile =>
    case Email =>
    case ContactAddress =>
    case ResidentAddress =>
    case EmergencyName =>
    case EmergencyRelation =>
    case EmergencyPhone =>
    case EmergencyMobile =>
    case EducationList =>
    case EmploymentList =>
    case FamilyList =>
    case Languages =>
    case EmployeeNumber =>
    case Position =>
    case Department =>
    case OnboardingDate =>
    case InsuranceDate =>
    case Salary =>
    case StatusKey =>
    case Remarks =>
  }

  /**
   * The draft takes every copied key from the extracted value when that is
   * truthy and from its fallback otherwise; it copies the education and
   * employment lists as they are, or uses empty lists when they are
   * missing; and it sets family, languages, status and remarks to fixed
   * values whatever was extracted.
   */
  lemma ToDraftSpec(data: Extraction)
    ensures forall k :: Copied(k) && Truthy(Extracted(data, k)) ==>
      Get(ToDraft(data), k) == Text(Extracted(data, k).value)
    ensures forall k :: Copied(k) && !Truthy(Extracted(data, k)) ==>
      Get(ToDraft(data), k) == Text(DefaultFor(k))
    ensures ToDraft(data).education == (if data.education.Some? then data.education.value else [])
    ensures ToDraft(data).employment == (if data.employment.Some? then data.employment.value else [])
    ensures ToDraft(data).family == [] && ToDraft(data).languages == ""
    ensures ToDraft(data).status == Pending && ToDraft(data).remarks == Some("")
  {
    forall k | Copied(k) ensures Get(ToDraft(data), k) == Text(OrDefault(Extracted(data, k), DefaultFor(k))) {
      ToDraftAt(data, k);
    }
  }

  /** A full form object (`Omit<Employee, 'id'>`) passed where a `Partial<Employee>` is expected. */
  function AsPatch(d: Profile): Patch
  {
    Patch(
      id := None,
      name := Some(d.name),
      idNumber := Some(d.idNumber),
      birthday := Some(d.birthday),
      gender := Some(d.gender),
      bloodType := Some(d.bloodType),
      marriage := Some(d.marriage),
      military := Some(d.military),
      license := Some(d.license),
      transportation := Some(d.transportation),
      height := Some(d.height),
      weight := Some(d.weight),
      phone := Some(d.phone),
      mobile := Some(d.mobile),
      email := Some(d.email),
      contactAddress := Some(d.contactAddress),
      residentAddress := Some(d.residentAddress),
      emergencyName := Some(d.emergencyName),
      emergencyRelation := Some(d.emergencyRelation),
      emergencyPhone := Some(d.emergencyPhone),
      emergencyMobile := Some(d.emergencyMobile),
      education := Some(d.education),
      employment := Some(d.employment),
      family := Some(d.family),
      languages := Some(d.languages),
      employeeNumber := Some(d.employeeNumber),
      position := Some(d.position),
      department := Some(d.department),
      onboardingDate := Some(d.onboardingDate),
      insuranceDate := Some(d.insuranceDate),
      salary := Some(d.salary),
      status := Some(d.status),
      remarks := if d.remarks.Some? then Some(d.remarks) else None)
  }

  lemma AsPatchAt(d: Profile, k: Key)
    ensures PatchGet(AsPatch(d), k)
         == if k == Remarks && d.remarks.None? then None else Some(Get(d, k))
  {
    match k
    case Name =>
    case IdNumber =>
    case Birthday =>
    case Gender =>
    case BloodType =>
    case Marriage =>
    case Military =>
    case License =>
    case Transportation =>
    case Height =>
    case Weight =>
    case Phone =>
    case Mobile =>
    case Email =>
    case ContactAddress =>
    case ResidentAddress =>
    case EmergencyName =>
    case EmergencyRelation =>
    case EmergencyPhone =>
    case EmergencyMobile =>
    case EducationList =>
    case EmploymentList =>
    case FamilyList =>
    case Languages =>
    case EmployeeNumber =>
    case Position =>
    case Department =>
    case OnboardingDate =>
    case InsuranceDate =>
    case Salary =>
    case StatusKey =>
    case Remarks =>
  }

  /**
   * The submitted form supplies every key but `id`, and `remarks` only when
   * the form holds one.
   */
  lemma AsPatchSpec(d: Profile)
    ensures AsPatch(d).id == None
    ensures forall k :: k != Remarks ==> PatchGet(AsPatch(d), k) == Some(Get(d, k))
    ensures PatchGet(AsPatch(d), Remarks) == (if d.remarks.Some? then Some(Optional(d.remarks)) else None)
  {
    forall k ensures PatchGet(AsPatch(d), k) == if k == Remarks && d.remarks.None? then None else Some(Get(d, k)) {
      AsPatchAt(d, k);
    }
  }

  /**
   * Saving an edited record replaces its profile by the submitted one and
   * keeps its id; its old remarks survive only when the form has none.
   */
  lemma SubmitReplacesProfile(e: Employee, d: Profile)
    ensures HRStore.Merge(e, AsPatch(d))
         == Employee(e.id, d.(remarks := if d.remarks.Some? then d.remarks else e.profile.remarks))
  {
  }

  /** The state of the `App` component. */
  class App {
    var currentView: ViewState
    var editingEmployee: Option<Employee>
    var printingEmployee: Option<Employee>
    const store: HRStore.Store

    constructor ()
      ensures currentView == Dashboard && editingEmployee == None && printingEmployee == None
      ensures fresh(store) && store.employees == [HRStore.InitialEmployee()]
    {
      currentView := Dashboard;
      editingEmployee := None;
      printingEmployee := None;
      store := new HRStore.Store();
    }

    /**
     * Saves the form: updates the record being edited, unless there is none
     * or it is an OCR draft, in which case the data is added as a new record
     * under `newId`. Either way the form closes onto the employee list.
     */
    method HandleFormSubmit(data: Profile, newId: string)
      modifies this, store
      ensures var editing := old(editingEmployee);
        if editing.Some? && editing.value.id != TempId
        then store.employees == HRStore.Updated(old(store.employees), editing.value.id, AsPatch(data))
        else store.employees == old(store.employees) + [Employee(newId, data)]
      ensures editingEmployee == None && currentView == Employees
      ensures printingEmployee == old(printingEmployee)
    {
      if editingEmployee.Some? && editingEmployee.value.id != TempId {
        store.UpdateEmployee(editingEmployee.value.id, AsPatch(data));
      } else {
        var _ := store.AddEmployee(data, newId);
      }
      editingEmployee := None;
      currentView := Employees;
    }

    /** Opens the form on an existing record. */
    method HandleEditClick(emp: Employee)
      modifies this
      ensures editingEmployee == Some(emp) && currentView == Form
      ensures printingEmployee == old(printingEmployee) && store.employees == old(store.employees)
    {
      editingEmployee := Some(emp);
      currentView := Form;
    }

    /** Opens the print preview of a record. */
    method HandlePrintClick(emp: Employee)
      modifies this
      ensures printingEmployee == Some(emp) && currentView == Print
      ensures editingEmployee == old(editingEmployee) && store.employees == old(store.employees)
    {
      printingEmployee := Some(emp);
      currentView := Print;
    }

    /** Opens the form on a draft built from an OCR result, marked with `TempId`. */
    method HandleOCRData(data: Extraction)
      modifies this
      ensures editingEmployee == Some(Employee(TempId, ToDraft(data))) && currentView == Form
      ensures printingEmployee == old(printingEmployee) && store.employees == old(store.employees)
    {
      editingEmployee := Some(Employee(TempId, ToDraft(data)));
      currentView := Form;
    }

    /** The form's cancel button: drops the record being edited. */
    method CancelForm()
      modifies this
      ensures editingEmployee == None && currentView == Employees
      ensures printingEmployee == old(printingEmployee) && store.employees == old(store.employees)
    {
      editingEmployee := None;
      currentView := Employees;
    }

    /** The print preview's close button. */
    method ClosePrint()
      modifies this
      ensures printingEmployee == None && currentView == Employees
      ensures editingEmployee == old(editingEmployee) && store.employees == old(store.employees)
    {
      printingEmployee := None;
      currentView := Employees;
    }

    /** `setCurrentView`, as the sidebar and the mobile add button call it. */
    method Navigate(view: ViewState)
      modifies this
      ensures currentView == view
      ensures editingEmployee == old(editingEmployee) && printingEmployee == old(printingEmployee)
      ensures store.employees == old(store.employees)
    {
      currentView := view;
    }
  }
}
