/**
 * The account page: the pet list with its nested illness and visit records, the
 * pet-details toggles, the age and visit-type display helpers and the
 * password-confirmation step. Dates, prompts, confirmations, fresh ids and
 * backend replies are parameters.
 */
module Account {
  import opened Options
  import opened Js
  import opened Lists
  import opened Notifications
  import opened Backend

  // ---------------------------------------------------------------- records

  /** The pet form (`newPet`); a saved pet carries the same fields. */
  datatype PetForm = PetForm(name: string, breed: string, species: string, speciesLatin: string,
                             animalClass: int, photoUrl: string, dateOfBirth: string, weight: string)

  const EmptyPetForm: PetForm := PetForm("", "", "", "", 0, "", "", "")

  datatype Illness = Illness(id: int, name: string, description: string, dateDiagnosed: string)
  datatype IllnessForm = IllnessForm(name: string, description: string, dateDiagnosed: string)

  datatype Visit = Visit(id: int, visitType: int, start: string, end: string, location: string, price: real)
  datatype VisitForm = VisitForm(visitType: int, start: string, end: string, location: string, price: string)

  /** A pet; `illnesses` and `visits` are `None` when the record has no such property. */
  datatype Pet = Pet(id: int, info: PetForm, illnesses: Option<seq<Illness>>, visits: Option<seq<Visit>>)

  function PetId(p: Pet): int { p.id }
  function IllnessId(i: Illness): int { i.id }
  function VisitId(v: Visit): int { v.id }

  /** `{ ...newPet, id }`: a pet built from the form alone, without illness or visit lists. */
  function PetFromForm(id: int, form: PetForm): Pet
  {
    Pet(id, form, None, None)
  }

  /** `{ ...ill, ...newIllness }`: the form's fields over the record's, keeping its id. */
  function MergeIllness(ill: Illness, form: IllnessForm): Illness
  {
    ill.(name := form.name, description := form.description, dateDiagnosed := form.dateDiagnosed)
  }

  /** `{ ...vis, ...newVisit, price: parseFloat(newVisit.price) }`; the parsed price is given. */
  function MergeVisit(vis: Visit, form: VisitForm, parsedPrice: real): Visit
  {
    vis.(visitType := form.visitType, start := form.start, end := form.end, location := form.location, price := parsedPrice)
  }

  // ---------------------------------------------------------------- list transforms

  /** The pet list after a successful edit of pet `id`. */
  function EditedPets(pets: seq<Pet>, id: int, form: PetForm): (r: seq<Pet>)
    ensures |r| == |pets|
    ensures forall i :: 0 <= i < |pets| ==> r[i].id == pets[i].id
    ensures forall i :: 0 <= i < |pets| && pets[i].id != id ==> r[i] == pets[i]
    ensures forall i :: 0 <= i < |pets| && pets[i].id == id ==>
      r[i].info == form && r[i].illnesses.None? && r[i].visits.None?
  {
    ReplaceKey(pets, PetId, id, (p: Pet) => PetFromForm(id, form))
  }

  /** The new pet a successful add appends: the backend's record, else the form with id `length + 1`. */
  function AddedPet(pets: seq<Pet>, data: Option<Pet>, form: PetForm): (p: Pet)
    ensures data.Some? ==> p == data.value
    ensures data.None? ==> p.id == |pets| + 1 && p.info == form && p.illnesses.None? && p.visits.None?
  {
    data.GetOr(PetFromForm(|pets| + 1, form))
  }

  /** The length-based fallback id is fresh when every existing id lies in `1..|pets|`. */
  lemma AddedPetIdFresh(pets: seq<Pet>, form: PetForm)
    requires forall i :: 0 <= i < |pets| ==> 1 <= pets[i].id <= |pets|
    ensures forall i :: 0 <= i < |pets| ==> pets[i].id != AddedPet(pets, None, form).id
  {
  }

  /** The length-based fallback id can repeat an existing id once a pet has been removed. */
  lemma AddedPetIdCanRepeat()
    ensures AddedPet([PetFromForm(2, EmptyPetForm)], None, EmptyPetForm).id == 2
  {
  }

  /** The illnesses of a pet, `[]` when it has none (`pet.illnesses || []`). */
  function IllnessesOf(p: Pet): seq<Illness> { p.illnesses.GetOr([]) }

  /** The visits of a pet, `[]` when it has none (`pet.visits || []`). */
  function VisitsOf(p: Pet): seq<Visit> { p.visits.GetOr([]) }

  /** The illness list of one pet after saving the illness form: the edited record merged, or a new record appended. */
  function SavedIllnesses(ills: seq<Illness>, editing: Option<Illness>, form: IllnessForm, freshId: int): (r: seq<Illness>)
    ensures editing.None? ==> r == ills + [Illness(freshId, form.name, form.description, form.dateDiagnosed)]
    ensures editing.Some? ==> |r| == |ills|
    ensures editing.Some? ==> forall i :: 0 <= i < |ills| ==>
      r[i] == if ills[i].id == editing.value.id then MergeIllness(ills[i], form) else ills[i]
  {
    if editing.Some? then ReplaceKey(ills, IllnessId, editing.value.id, (ill: Illness) => MergeIllness(ill, form))
    else ills + [Illness(freshId, form.name, form.description, form.dateDiagnosed)]
  }

  /** The visit list of one pet after saving the visit form. */
  function SavedVisits(vs: seq<Visit>, editing: Option<Visit>, form: VisitForm, freshId: int, parsedPrice: real): (r: seq<Visit>)
    ensures editing.None? ==> r == vs + [Visit(freshId, form.visitType, form.start, form.end, form.location, parsedPrice)]
    ensures editing.Some? ==> |r| == |vs|
    ensures editing.Some? ==> forall i :: 0 <= i < |vs| ==>
      r[i] == if vs[i].id == editing.value.id then MergeVisit(vs[i], form, parsedPrice) else vs[i]
  {
    if editing.Some? then ReplaceKey(vs, VisitId, editing.value.id, (v: Visit) => MergeVisit(v, form, parsedPrice))
    else vs + [Visit(freshId, form.visitType, form.start, form.end, form.location, parsedPrice)]
  }

  /** Applies `f` to the pets whose id is `selected`; with no selection nothing matches. */
  function UpdateSelected(pets: seq<Pet>, selected: Option<int>, f: Pet -> Pet): (r: seq<Pet>)
    ensures |r| == |pets|
    ensures forall i :: 0 <= i < |pets| && (selected.None? || pets[i].id != selected.value) ==> r[i] == pets[i]
    ensures forall i :: 0 <= i < |pets| && selected.Some? && pets[i].id == selected.value ==> r[i] == f(pets[i])
  {
    if selected.None? then pets else ReplaceKey(pets, PetId, selected.value, f)
  }

  /** `handleSaveIllness`'s new pet list: only the selected pet's illness list changes. */
  function PetsWithIllnessSaved(pets: seq<Pet>, selected: Option<int>, editing: Option<Illness>,
                                form: IllnessForm, freshId: int): (r: seq<Pet>)
    ensures |r| == |pets|
    ensures forall i :: 0 <= i < |pets| && (selected.None? || pets[i].id != selected.value) ==> r[i] == pets[i]
    ensures forall i :: 0 <= i < |pets| && selected.Some? && pets[i].id == selected.value ==>
      r[i] == pets[i].(illnesses := Some(SavedIllnesses(IllnessesOf(pets[i]), editing, form, freshId)))
  {
    UpdateSelected(pets, selected, (p: Pet) => p.(illnesses := Some(SavedIllnesses(IllnessesOf(p), editing, form, freshId))))
  }

  /** `handleSaveVisit`'s new pet list: only the selected pet's visit list changes. */
  function PetsWithVisitSaved(pets: seq<Pet>, selected: Option<int>, editing: Option<Visit>,
                              form: VisitForm, freshId: int, parsedPrice: real): (r: seq<Pet>)
    ensures |r| == |pets|
    ensures forall i :: 0 <= i < |pets| && (selected.None? || pets[i].id != selected.value) ==> r[i] == pets[i]
    ensures forall i :: 0 <= i < |pets| && selected.Some? && pets[i].id == selected.value ==>
      r[i] == pets[i].(visits := Some(SavedVisits(VisitsOf(pets[i]), editing, form, freshId, parsedPrice)))
  {
    UpdateSelected(pets, selected, (p: Pet) => p.(visits := Some(SavedVisits(VisitsOf(p), editing, form, freshId, parsedPrice))))
  }

  /** `handleDeleteIllness`'s new pet list: the illness is filtered out of pet `petId` only. */
  function PetsWithoutIllness(pets: seq<Pet>, petId: int, illnessId: int): (r: seq<Pet>)
    ensures |r| == |pets|
    ensures forall i :: 0 <= i < |pets| && pets[i].id != petId ==> r[i] == pets[i]
    ensures forall i :: 0 <= i < |pets| && pets[i].id == petId ==>
      r[i] == pets[i].(illnesses := Some(WithoutKey(IllnessesOf(pets[i]), IllnessId, illnessId)))
  {
    ReplaceKey(pets, PetId, petId, (p: Pet) => p.(illnesses := Some(WithoutKey(IllnessesOf(p), IllnessId, illnessId))))
  }

  /** `handleDeleteVisit`'s new pet list: the visit is filtered out of pet `petId` only. */
  function PetsWithoutVisit(pets: seq<Pet>, petId: int, visitId: int): (r: seq<Pet>)
    ensures |r| == |pets|
    ensures forall i :: 0 <= i < |pets| && pets[i].id != petId ==> r[i] == pets[i]
    ensures forall i :: 0 <= i < |pets| && pets[i].id == petId ==>
      r[i] == pets[i].(visits := Some(WithoutKey(VisitsOf(pets[i]), VisitId, visitId)))
  {
    ReplaceKey(pets, PetId, petId, (p: Pet) => p.(visits := Some(WithoutKey(VisitsOf(p), VisitId, visitId))))
  }

  /** After deleting, the pet holds no illness with that id and keeps every other one in order. */
  lemma IllnessDeleted(pets: seq<Pet>, petId: int, illnessId: int, i: int)
    requires 0 <= i < |pets| && pets[i].id == petId
    ensures var ills := IllnessesOf(PetsWithoutIllness(pets, petId, illnessId)[i]);
      (forall j :: 0 <= j < |ills| ==> ills[j].id != illnessId) &&
      Subsequence(ills, IllnessesOf(pets[i])) &&
      (forall j :: 0 <= j < |IllnessesOf(pets[i])| && IllnessesOf(pets[i])[j].id != illnessId ==>
         IllnessesOf(pets[i])[j] in ills)
  {
  }

  // ---------------------------------------------------------------- expanded details

  /** `expandedPetDetails[petId]` read as a boolean; a missing key is `undefined`, hence false. */
  predicate IsExpanded(m: map<int, bool>, petId: int)
  {
    petId in m && m[petId]
  }

  /** `{ ...prev, [petId]: !prev[petId] }`. */
  function Toggled(m: map<int, bool>, petId: int): (r: map<int, bool>)
    ensures petId in r && IsExpanded(r, petId) == !IsExpanded(m, petId)
    ensures forall k :: k != petId ==> (k in r <==> k in m)
    ensures forall k :: k != petId && k in m ==> r[k] == m[k]
  {
    m[petId := !IsExpanded(m, petId)]
  }

  /** Toggling twice restores the flag (though the key is then present). */
  lemma ToggleTwice(m: map<int, bool>, petId: int, k: int)
    ensures IsExpanded(Toggled(Toggled(m, petId), petId), k) == IsExpanded(m, k)
  {
  }

  // ---------------------------------------------------------------- display helpers

  /** A calendar date as `getFullYear()`, `getMonth()` (0 to 11) and `getDate()` report it. */
  datatype CalendarDate = CalendarDate(year: int, month: int, day: int)

  predicate ValidDate(d: CalendarDate)
  {
    0 <= d.month <= 11 && 1 <= d.day <= 31
  }

  /** `a` is on or before `b` in calendar order. */
  predicate OnOrBefore(a: CalendarDate, b: CalendarDate)
  {
    a.year < b.year || (a.year == b.year && (a.month < b.month || (a.month == b.month && a.day <= b.day)))
  }

  /** The `k`-th birthday. */
  function Anniversary(birth: CalendarDate, k: int): CalendarDate
  {
    CalendarDate(birth.year + k, birth.month, birth.day)
  }

  /** The local `age` after its decrement: the year difference, less one when this year's
    * birthday (month, then day) is still ahead. It is the number of birthdays reached. */
  function CompletedYears(birth: CalendarDate, today: CalendarDate): (age: int)
    ensures OnOrBefore(Anniversary(birth, age), today)
    ensures !OnOrBefore(Anniversary(birth, age + 1), today)
  {
    var monthDiff := today.month - birth.month;
    var age := today.year - birth.year;
    if monthDiff < 0 || (monthDiff == 0 && today.day < birth.day) then age - 1 else age
  }

  /** The month count shown for an age of 0 years: `monthDiff`, or `12 + monthDiff` when negative.
    * It is the calendar-month difference modulo 12; days are not looked at. */
  function MonthsShown(birth: CalendarDate, today: CalendarDate): (months: int)
    requires ValidDate(birth) && ValidDate(today)
    ensures 0 <= months <= 11
    ensures months == (today.month - birth.month) % 12
  {
    var monthDiff := today.month - birth.month;
    if monthDiff < 0 then 12 + monthDiff else monthDiff
  }

  datatype Age = Unknown | Months(months: int) | Years(years: int)

  /** What `calculateAge` decides; the parsed birth date and today's date are given. */
  function AgeOf(dateOfBirth: string, birth: CalendarDate, today: CalendarDate): (a: Age)
    requires ValidDate(birth) && ValidDate(today)
    ensures a.Unknown? <==> dateOfBirth == ""
    ensures a.Years? ==> a.years == CompletedYears(birth, today) && a.years != 0
    ensures a.Months? ==> CompletedYears(birth, today) == 0 && a.months == MonthsShown(birth, today)
    ensures a.Months? ==> 0 <= a.months <= 11
  {
    if dateOfBirth == "" then Unknown
    else if CompletedYears(birth, today) == 0 then Months(MonthsShown(birth, today))
    else Years(CompletedYears(birth, today))
  }

  function AgeText(a: Age): string
  {
    match a
    case Unknown => "Nežinomas"
    case Months(m) => IntToString(m) + " mėn."
    case Years(y) => IntToString(y) + " m."
  }

  /** `calculateAge(dateOfBirth)`. */
  function CalculateAge(dateOfBirth: string, birth: CalendarDate, today: CalendarDate): (text: string)
    requires ValidDate(birth) && ValidDate(today)
    ensures dateOfBirth == "" ==> text == "Nežinomas"
    ensures dateOfBirth != "" && CompletedYears(birth, today) != 0 ==>
      text == IntToString(CompletedYears(birth, today)) + " m."
    ensures dateOfBirth != "" && CompletedYears(birth, today) == 0 ==>
      text == IntToString(MonthsShown(birth, today)) + " mėn."
  {
    AgeText(AgeOf(dateOfBirth, birth, today))
  }

  /** The `k`-th monthly anniversary of a date. */
  function MonthAnniversary(birth: CalendarDate, k: int): CalendarDate
  {
    CalendarDate(birth.year + (birth.month + k) / 12, (birth.month + k) % 12, birth.day)
  }

  lemma MonthAnniversaryIndex(birth: CalendarDate, k: int)
    requires ValidDate(birth)
    ensures var d := MonthAnniversary(birth, k); 12 * d.year + d.month == 12 * birth.year + birth.month + k
    ensures 0 <= MonthAnniversary(birth, k).month <= 11
  {
  }

  /** Dates order as their month index `12 * year + month`, then their day. */
  lemma OnOrBeforeByIndex(a: CalendarDate, b: CalendarDate)
    requires 0 <= a.month <= 11 && 0 <= b.month <= 11
    ensures OnOrBefore(a, b) <==>
      12 * a.year + a.month < 12 * b.year + b.month ||
      (12 * a.year + a.month == 12 * b.year + b.month && a.day <= b.day)
  {
  }

  /** The number of whole months from birth to today: the monthly anniversaries reached. */
  function FullMonths(birth: CalendarDate, today: CalendarDate): (m: int)
    requires ValidDate(birth) && ValidDate(today)
    ensures OnOrBefore(MonthAnniversary(birth, m), today)
    ensures !OnOrBefore(MonthAnniversary(birth, m + 1), today)
  {
    var m := 12 * (today.year - birth.year) + today.month - birth.month - (if today.day < birth.day then 1 else 0);
    MonthAnniversaryIndex(birth, m);
    MonthAnniversaryIndex(birth, m + 1);
    OnOrBeforeByIndex(MonthAnniversary(birth, m), today);
    OnOrBeforeByIndex(MonthAnniversary(birth, m + 1), today);
    m
  }

  /** As written, the month count ignores the day of the month: it is one ahead of the
    * whole months whenever today's day is before the birth day (wrapping 12 to 0). */
  lemma MonthsShownVersusFullMonths(birth: CalendarDate, today: CalendarDate)
    requires ValidDate(birth) && ValidDate(today)
    requires CompletedYears(birth, today) == 0
    ensures 0 <= FullMonths(birth, today) <= 11
    ensures today.day >= birth.day ==> MonthsShown(birth, today) == FullMonths(birth, today)
    ensures today.day < birth.day ==> MonthsShown(birth, today) == (FullMonths(birth, today) + 1) % 12
  {
  }

  /** A pet born on 20 March 2023 is shown as "0 mėn." on 10 March 2024, eleven whole months later. */
  lemma ElevenMonthOldShownAsZero()
    ensures CalculateAge("2023-03-20", CalendarDate(2023, 2, 20), CalendarDate(2024, 2, 10)) == "0 mėn."
    ensures FullMonths(CalendarDate(2023, 2, 20), CalendarDate(2024, 2, 10)) == 11
  {
  }

  /** The age text with whole months for a pet under one year old. */
  function AgeOfCorrected(dateOfBirth: string, birth: CalendarDate, today: CalendarDate): (a: Age)
    requires ValidDate(birth) && ValidDate(today)
    ensures a.Unknown? <==> dateOfBirth == ""
    ensures a.Years? ==> a.years == CompletedYears(birth, today) && a.years != 0
    ensures a.Months? ==> CompletedYears(birth, today) == 0 && a.months == FullMonths(birth, today)
    ensures a.Months? && OnOrBefore(birth, today) ==> 0 <= a.months <= 11
  {
    if dateOfBirth == "" then Unknown
    else if CompletedYears(birth, today) == 0 then Months(FullMonths(birth, today))
    else Years(CompletedYears(birth, today))
  }

  /** `calculateAge` with whole months under one year. */
  function CalculateAgeCorrected(dateOfBirth: string, birth: CalendarDate, today: CalendarDate): (text: string)
    requires ValidDate(birth) && ValidDate(today)
    ensures dateOfBirth == "" ==> text == "Nežinomas"
    ensures dateOfBirth != "" && CompletedYears(birth, today) != 0 ==>
      text == IntToString(CompletedYears(birth, today)) + " m."
    ensures dateOfBirth != "" && CompletedYears(birth, today) == 0 ==>
      text == IntToString(FullMonths(birth, today)) + " mėn."
  {
    AgeText(AgeOfCorrected(dateOfBirth, birth, today))
  }

  const VisitTypes: seq<string> := ["Profilaktinis", "Gydymo", "Chirurginis", "Diagnostinis", "Reabilitacinis"]

  /** `getVisitTypeName(type)`: `types[type] || "Nežinomas"`. */
  function VisitTypeName(t: int): (name: string)
    ensures 0 <= t < 5 ==> name == VisitTypes[t]
    ensures name == "Nežinomas" <==> !(0 <= t < 5)
  {
    if 0 <= t < |VisitTypes| && VisitTypes[t] != "" then VisitTypes[t] else "Nežinomas"
  }

  // ---------------------------------------------------------------- password

  datatype PasswordStep = Cancelled | Mismatch | Submitted(current: string, newPassword: string)

  /** The three prompts of `handleChangePassword` (`None` is a cancelled prompt). */
  function PasswordDecision(current: Option<string>, newPassword: Option<string>, confirm: Option<string>): (step: PasswordStep)
    ensures step.Cancelled? <==> current.None? || current.value == "" || newPassword.None? || newPassword.value == ""
    ensures step.Mismatch? <==> !step.Cancelled? && confirm != newPassword
    ensures step.Submitted? ==> Some(step.current) == current && Some(step.newPassword) == newPassword &&
                                confirm == newPassword && step.newPassword != ""
  {
    if current.None? || current.value == "" then Cancelled
    else if newPassword.None? || newPassword.value == "" then Cancelled
    else if newPassword != confirm then Mismatch
    else Submitted(current.value, newPassword.value)
  }

  // ---------------------------------------------------------------- the page

  class AccountPage {
    const sink: NotificationSink
    var pets: seq<Pet>
    var newPet: PetForm
    var showPetForm: bool
    var editingPet: Option<int>
    var expandedPetDetails: map<int, bool>
    var loading: bool
    var selectedPetForRecord: Option<int>
    var editingIllness: Option<Illness>
    var newIllness: IllnessForm
    var showIllnessForm: bool
    var editingVisit: Option<Visit>
    var newVisit: VisitForm
    var showVisitForm: bool

    constructor (sink: NotificationSink)
      ensures this.sink == sink && pets == [] && newPet == EmptyPetForm && !showPetForm
      ensures editingPet == None && expandedPetDetails == map[] && loading
      ensures selectedPetForRecord == None && editingIllness == None && editingVisit == None
      ensures !showIllnessForm && !showVisitForm
      ensures newIllness == IllnessForm("", "", "") && newVisit == VisitForm(0, "", "", "", "")
    {
      this.sink := sink;
      pets := [];
      newPet := EmptyPetForm;
      showPetForm := false;
      editingPet := None;
      expandedPetDetails := map[];
      loading := true;
      selectedPetForRecord := None;
      editingIllness := None;
      newIllness := IllnessForm("", "", "");
      showIllnessForm := false;
      editingVisit := None;
      newVisit := VisitForm(0, "", "", "", "");
      showVisitForm := false;
    }

    /** The pet form's state: its fields, whether it is shown and the pet being edited. */
    function PetFormState(): (PetForm, bool, Option<int>)
      reads this
    {
      (newPet, showPetForm, editingPet)
    }

    /** The illness form's state: the record being edited, its fields and whether it is shown. */
    function IllnessFormState(): (Option<Illness>, IllnessForm, bool)
      reads this
    {
      (editingIllness, newIllness, showIllnessForm)
    }

    /** The visit form's state: the record being edited, its fields and whether it is shown. */
    function VisitFormState(): (Option<Visit>, VisitForm, bool)
      reads this
    {
      (editingVisit, newVisit, showVisitForm)
    }

    /** `if (editingPet)`: a pet is being edited when the id is set and not 0. */
    predicate Editing()
      reads this
    {
      editingPet.Some? && editingPet.value != 0
    }

    /** `handleSavePet`: update or add through the backend; the form is reset unless the call threw. */
    method SavePet(reply: Reply<Pet>)
      modifies this
      ensures !loading
      ensures reply.Threw? ==>
        pets == old(pets) && newPet == old(newPet) && showPetForm == old(showPetForm) && editingPet == old(editingPet)
      ensures reply.Replied? ==> newPet == EmptyPetForm
      ensures !reply.Succeeded() ==> pets == old(pets) && showPetForm == old(showPetForm) && editingPet == old(editingPet)
      ensures reply.Succeeded() && old(Editing()) ==>
        pets == EditedPets(old(pets), old(editingPet).value, old(newPet)) && !showPetForm && editingPet == None
      ensures reply.Succeeded() && !old(Editing()) ==>
        pets == old(pets) + [AddedPet(old(pets), reply.data, old(newPet))] && !showPetForm && editingPet == old(editingPet)
      ensures expandedPetDetails == old(expandedPetDetails) && selectedPetForRecord == old(selectedPetForRecord)
      ensures IllnessFormState() == old(IllnessFormState()) && VisitFormState() == old(VisitFormState())
    {
      loading := true;
      if reply.Threw? {
        loading := false;
        return;
      }
      if Editing() {
        if reply.success {
          pets := EditedPets(pets, editingPet.value, newPet);
          showPetForm := false;
          editingPet := None;
        }
      } else {
        if reply.success {
          pets := pets + [AddedPet(pets, reply.data, newPet)];
          showPetForm := false;
        }
      }
      newPet := EmptyPetForm;
      loading := false;
    }

    /** `handleDeletePet`: after confirmation, removes every pet with that id when the backend reports success. */
    method DeletePet(petId: int, confirmed: bool, reply: Reply<()>)
      modifies this
      ensures confirmed && reply.Succeeded() ==> pets == WithoutKey(old(pets), PetId, petId)
      ensures !(confirmed && reply.Succeeded()) ==> pets == old(pets)
      ensures loading == (if confirmed then false else old(loading))
      ensures PetFormState() == old(PetFormState()) && expandedPetDetails == old(expandedPetDetails)
      ensures selectedPetForRecord == old(selectedPetForRecord)
      ensures IllnessFormState() == old(IllnessFormState()) && VisitFormState() == old(VisitFormState())
    {
      if !confirmed {
        return;
      }
      loading := true;
      if reply.Succeeded() {
        pets := WithoutKey(pets, PetId, petId);
      }
      loading := false;
    }

    /** `togglePetDetails`: flips the flag of one pet. */
    method TogglePetDetails(petId: int)
      modifies this
      ensures expandedPetDetails == Toggled(old(expandedPetDetails), petId)
      ensures pets == old(pets) && PetFormState() == old(PetFormState()) && loading == old(loading)
      ensures selectedPetForRecord == old(selectedPetForRecord)
      ensures IllnessFormState() == old(IllnessFormState()) && VisitFormState() == old(VisitFormState())
    {
      expandedPetDetails := Toggled(expandedPetDetails, petId);
    }

    /** `handleSaveIllness`: edits or appends on the selected pet, closes the form and reports one success. */
    method SaveIllness(freshId: int)
      modifies this, sink
      ensures pets == PetsWithIllnessSaved(old(pets), old(selectedPetForRecord), old(editingIllness), old(newIllness), freshId)
      ensures !showIllnessForm && editingIllness == None && newIllness == old(newIllness)
      ensures PetFormState() == old(PetFormState()) && expandedPetDetails == old(expandedPetDetails) && loading == old(loading)
      ensures selectedPetForRecord == old(selectedPetForRecord) && VisitFormState() == old(VisitFormState())
      ensures sink.entries == old(sink.entries) +
        [Plain(Success, if old(editingIllness).Some? then "Liga atnaujinta" else "Liga sėkmingai pridėta")]
    {
      var wasEditing := editingIllness;
      pets := PetsWithIllnessSaved(pets, selectedPetForRecord, editingIllness, newIllness, freshId);
      showIllnessForm := false;
      editingIllness := None;
      sink.Add(Plain(Success, if wasEditing.Some? then "Liga atnaujinta" else "Liga sėkmingai pridėta"));
    }

    /** `handleSaveVisit`: edits or appends on the selected pet, closes the form and reports one success. */
    method SaveVisit(freshId: int, parsedPrice: real)
      modifies this, sink
      ensures pets == PetsWithVisitSaved(old(pets), old(selectedPetForRecord), old(editingVisit), old(newVisit), freshId, parsedPrice)
      ensures !showVisitForm && editingVisit == None && newVisit == old(newVisit)
      ensures PetFormState() == old(PetFormState()) && expandedPetDetails == old(expandedPetDetails) && loading == old(loading)
      ensures selectedPetForRecord == old(selectedPetForRecord) && IllnessFormState() == old(IllnessFormState())
      ensures sink.entries == old(sink.entries) +
        [Plain(Success, if old(editingVisit).Some? then "Vizitas atnaujintas" else "Vizitas sėkmingai pridėtas")]
    {
      var wasEditing := editingVisit;
      pets := PetsWithVisitSaved(pets, selectedPetForRecord, editingVisit, newVisit, freshId, parsedPrice);
      showVisitForm := false;
      editingVisit := None;
      sink.Add(Plain(Success, if wasEditing.Some? then "Vizitas atnaujintas" else "Vizitas sėkmingai pridėtas"));
    }

    /** `handleDeleteIllness`: after confirmation, removes the illness from that pet and reports one success. */
    method DeleteIllness(petId: int, illnessId: int, confirmed: bool)
      modifies this, sink
      ensures confirmed ==>
        pets == PetsWithoutIllness(old(pets), petId, illnessId) &&
        sink.entries == old(sink.entries) + [Plain(Success, "Liga pašalinta")]
      ensures !confirmed ==> pets == old(pets) && sink.entries == old(sink.entries)
      ensures PetFormState() == old(PetFormState()) && expandedPetDetails == old(expandedPetDetails) && loading == old(loading)
      ensures selectedPetForRecord == old(selectedPetForRecord)
      ensures IllnessFormState() == old(IllnessFormState()) && VisitFormState() == old(VisitFormState())
    {
      if !confirmed {
        return;
      }
      pets := PetsWithoutIllness(pets, petId, illnessId);
      sink.Add(Plain(Success, "Liga pašalinta"));
    }

    /** `handleDeleteVisit`: after confirmation, removes the visit from that pet and reports one success. */
    method DeleteVisit(petId: int, visitId: int, confirmed: bool)
      modifies this, sink
      ensures confirmed ==>
        pets == PetsWithoutVisit(old(pets), petId, visitId) &&
        sink.entries == old(sink.entries) + [Plain(Success, "Vizitas pašalintas")]
      ensures !confirmed ==> pets == old(pets) && sink.entries == old(sink.entries)
      ensures PetFormState() == old(PetFormState()) && expandedPetDetails == old(expandedPetDetails) && loading == old(loading)
      ensures selectedPetForRecord == old(selectedPetForRecord)
      ensures IllnessFormState() == old(IllnessFormState()) && VisitFormState() == old(VisitFormState())
    {
      if !confirmed {
        return;
      }
      pets := PetsWithoutVisit(pets, petId, visitId);
      sink.Add(Plain(Success, "Vizitas pašalintas"));
    }

    /** `handleChangePassword` up to the backend call: a mismatch reports one error; the
      * returned step says whether the change is submitted. */
    method ChangePassword(current: Option<string>, newPassword: Option<string>, confirm: Option<string>)
      returns (step: PasswordStep)
      modifies sink
      ensures step == PasswordDecision(current, newPassword, confirm)
      ensures step.Mismatch? ==> sink.entries == old(sink.entries) + [Plain(Error, "Slaptažodžiai nesutampa")]
      ensures !step.Mismatch? ==> sink.entries == old(sink.entries)
    {
      step := PasswordDecision(current, newPassword, confirm);
      if step.Mismatch? {
        sink.Add(Plain(Error, "Slaptažodžiai nesutampa"));
      }
    }
  }
}
