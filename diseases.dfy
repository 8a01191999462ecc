/**
 * The disease catalogue page: the search and category filter, the category and
 * severity caption tables, and the admin's save and delete of catalogue entries.
 */
module Diseases {
  import opened Options
  import opened Js
  import opened Text
  import opened Lists
  import opened Backend

  // ---------------------------------------------------------------- records

  /** A category selector value: `"all"` or a category number. */
  datatype CategoryValue = AllCategories | Category(n: int)

  datatype CategoryOption = CategoryOption(value: CategoryValue, caption: string)

  /** The `categories` table, in its order. */
  const Categories: seq<CategoryOption> := [
    CategoryOption(AllCategories, "Visos kategorijos"),
    CategoryOption(Category(0), "Infekcija (Infection)"),
    CategoryOption(Category(1), "Ne infekcija (Not_Infection)"),
    CategoryOption(Category(2), "Genetinė (Genetic)"),
    CategoryOption(Category(3), "Elgesio (Behavioral)"),
    CategoryOption(Category(4), "Organų sistemos (Organ_system)")
  ]

  /** A catalogue entry; `symptoms` is `None` and `severity` is `Undefined` when the record lacks them. */
  datatype Disease = Disease(id: int, name: string, latinName: string, category: int, description: string,
                             symptoms: Option<seq<string>>, severity: JsValue)

  /** The admin form. It has no `symptoms` property unless one is put there (`None`). */
  datatype DiseaseForm = DiseaseForm(name: string, latinName: string, category: int, description: string,
                                     symptoms: Option<string>)

  const EmptyForm: DiseaseForm := DiseaseForm("", "", 0, "", None)

  function DiseaseId(d: Disease): int { d.id }

  // ---------------------------------------------------------------- filter

  /** The lower-cased name or description contains the lower-cased search term. */
  predicate MatchesSearch(d: Disease, term: string)
  {
    Includes(Lower(d.name), Lower(term)) || Includes(Lower(d.description), Lower(term))
  }

  predicate MatchesCategory(d: Disease, selected: CategoryValue)
  {
    selected == AllCategories || selected == Category(d.category)
  }

  predicate Shown(d: Disease, term: string, selected: CategoryValue)
  {
    MatchesSearch(d, term) && MatchesCategory(d, selected)
  }

  /** `filteredDiseases`: the diseases matching both the search and the category, in catalogue order. */
  function FilteredDiseases(diseases: seq<Disease>, term: string, selected: CategoryValue): (r: seq<Disease>)
    ensures forall i :: 0 <= i < |r| ==> r[i] in diseases && Shown(r[i], term, selected)
    ensures forall i :: 0 <= i < |diseases| && Shown(diseases[i], term, selected) ==> diseases[i] in r
    ensures Subsequence(r, diseases)
  {
    var keep := (d: Disease) => Shown(d, term, selected);
    FilterIsSubsequence(diseases, keep);
    Filter(diseases, keep)
  }

  /** An empty search with every category selected shows the whole catalogue. */
  lemma EmptySearchShowsAll(diseases: seq<Disease>)
    ensures FilteredDiseases(diseases, "", AllCategories) == diseases
  {
    var keep := (d: Disease) => Shown(d, "", AllCategories);
    forall i | 0 <= i < |diseases|
      ensures keep(diseases[i])
    {
      assert StartsWith(Lower(diseases[i].name), "");
    }
    FilterKeepsAll(diseases, keep);
  }

  /** The search does not depend on the case of the term. */
  lemma SearchIgnoresTermCase(diseases: seq<Disease>, term: string, selected: CategoryValue)
    ensures FilteredDiseases(diseases, Lower(term), selected) == FilteredDiseases(diseases, term, selected)
  {
    LowerIdempotent(term);
    FilterSameTests(diseases, (d: Disease) => Shown(d, Lower(term), selected), (d: Disease) => Shown(d, term, selected));
  }

  /** Narrowing to one category never shows more than every category does. */
  lemma CategoryNarrows(diseases: seq<Disease>, term: string, n: int)
    ensures |FilteredDiseases(diseases, term, Category(n))| <= |FilteredDiseases(diseases, term, AllCategories)|
  {
    FilterSubset(diseases, (d: Disease) => Shown(d, term, Category(n)), (d: Disease) => Shown(d, term, AllCategories));
  }

  lemma {:induction false} FilterSubset(s: seq<Disease>, f: Disease -> bool, g: Disease -> bool)
    requires forall i :: 0 <= i < |s| ==> f(s[i]) ==> g(s[i])
    ensures |Filter(s, f)| <= |Filter(s, g)|
  {
    if s != [] {
      FilterSubset(s[1..], f, g);
    }
  }

  // ---------------------------------------------------------------- labels

  /** `categories.find(c => c.value === value)` as a position: the first match, or the table length. */
  function FindCategory(options: seq<CategoryOption>, value: CategoryValue): (k: nat)
    ensures k <= |options|
    ensures forall j :: 0 <= j < k ==> options[j].value != value
    ensures k < |options| ==> options[k].value == value
  {
    if options == [] then 0
    else if options[0].value == value then 0
    else 1 + FindCategory(options[1..], value)
  }

  /** `getCategoryLabel`: the caption of the first table entry with that value, else "Nežinoma". */
  function CategoryLabel(value: CategoryValue): (caption: string)
    ensures value == AllCategories ==> caption == "Visos kategorijos"
    ensures value == Category(0) ==> caption == "Infekcija (Infection)"
    ensures value == Category(1) ==> caption == "Ne infekcija (Not_Infection)"
    ensures value == Category(2) ==> caption == "Genetinė (Genetic)"
    ensures value == Category(3) ==> caption == "Elgesio (Behavioral)"
    ensures value == Category(4) ==> caption == "Organų sistemos (Organ_system)"
    ensures value.Category? && !(0 <= value.n <= 4) ==> caption == "Nežinoma"
  {
    var k := FindCategory(Categories, value);
    if k < |Categories| then Categories[k].caption else "Nežinoma"
  }

  /** `getSeverityColor`. */
  function SeverityColor(severity: JsValue): (color: string)
    ensures severity == Str("low") ==> color == "#28a745"
    ensures severity == Str("moderate") ==> color == "#ffc107"
    ensures severity == Str("high") ==> color == "#dc3545"
    ensures color == "#6c757d" <==> severity !in {Str("low"), Str("moderate"), Str("high")}
  {
    match severity
    case Str("low") => "#28a745"
    case Str("moderate") => "#ffc107"
    case Str("high") => "#dc3545"
    case _ => "#6c757d"
  }

  /** `getSeverityLabel`. */
  function SeverityLabel(severity: JsValue): (caption: string)
    ensures severity == Str("low") ==> caption == "Lengva"
    ensures severity == Str("moderate") ==> caption == "Vidutinė"
    ensures severity == Str("high") ==> caption == "Sunki"
    ensures caption == "Nežinoma" <==> severity !in {Str("low"), Str("moderate"), Str("high")}
  {
    match severity
    case Str("low") => "Lengva"
    case Str("moderate") => "Vidutinė"
    case Str("high") => "Sunki"
    case _ => "Nežinoma"
  }

  // ---------------------------------------------------------------- save and delete

  /** `text.split(",").map(s => s.trim()).filter(Boolean)`: every symptom is a non-empty,
    * trimmed piece between commas. Which pieces, and in what order: `SymptomListCounts`
    * and `SymptomListInOrder`. */
  function SymptomList(text: string): (r: seq<string>)
    ensures forall i :: 0 <= i < |r| ==> r[i] != "" && ',' !in r[i]
    ensures forall i :: 0 <= i < |r| ==> !IsJsWhitespace(r[i][0]) && !IsJsWhitespace(r[i][|r[i]| - 1])
  {
    var pieces := Split(text);
    var trimmed := Map(pieces, Trim);
    var nonEmpty := (s: string) => s != "";
    forall i | 0 <= i < |trimmed|
      ensures ',' !in trimmed[i]
    {
      TrimKeepsCharsOut(pieces[i], ',');
    }
    Filter(trimmed, nonEmpty)
  }

  /** Every non-empty trimmed piece of the text is a symptom, as often as it occurs, and
    * nothing else is. */
  lemma SymptomListCounts(text: string, x: string)
    ensures multiset(SymptomList(text))[x] == if x == "" then 0 else multiset(Map(Split(text), Trim))[x]
  {
    FilterCounts(Map(Split(text), Trim), (s: string) => s != "", x);
  }

  /** The symptoms keep the order of their pieces in the text. */
  lemma SymptomListInOrder(text: string)
    ensures Subsequence(SymptomList(text), Map(Split(text), Trim))
  {
    FilterIsSubsequence(Map(Split(text), Trim), (s: string) => s != "");
  }

  /** `{ ...data, id }` where `data` is the form with its symptom list. */
  function RecordOf(id: int, form: DiseaseForm, symptoms: seq<string>): Disease
  {
    Disease(id, form.name, form.latinName, form.category, form.description, Some(symptoms), Undefined)
  }

  /** `if (editingId)`: an entry is being edited when the id is set and not 0. */
  predicate EditingEntry(editingId: Option<int>)
  {
    editingId.Some? && editingId.value != 0
  }

  /** The catalogue after a save that did not throw: the edited entry rewritten regardless of the
    * reply (`res.success || true`), or one entry appended: the backend's record on success when it
    * sent one, else the form with the next id. */
  function SavedDiseases(diseases: seq<Disease>, editingId: Option<int>, form: DiseaseForm,
                         symptoms: seq<string>, reply: Reply<Disease>): (r: seq<Disease>)
    requires reply.Replied?
    ensures EditingEntry(editingId) ==> |r| == |diseases|
    ensures EditingEntry(editingId) ==>
      forall i :: 0 <= i < |diseases| ==>
        r[i] == if diseases[i].id == editingId.value then RecordOf(editingId.value, form, symptoms) else diseases[i]
    ensures !EditingEntry(editingId) ==> |r| == |diseases| + 1 && r[..|diseases|] == diseases
    ensures !EditingEntry(editingId) && reply.success && reply.data.Some? ==> r[|diseases|] == reply.data.value
    ensures !EditingEntry(editingId) && !(reply.success && reply.data.Some?) ==>
      r[|diseases|] == RecordOf(NextId(diseases, DiseaseId), form, symptoms)
  {
    if EditingEntry(editingId) then
      ReplaceKey(diseases, DiseaseId, editingId.value, (d: Disease) => RecordOf(editingId.value, form, symptoms))
    else
      var fallback := RecordOf(NextId(diseases, DiseaseId), form, symptoms);
      var created := if reply.success then reply.data.GetOr(fallback) else fallback;
      assert (diseases + [created])[..|diseases|] == diseases;
      diseases + [created]
  }

  class DiseasesPage {
    var diseases: seq<Disease>
    var selectedDisease: Option<Disease>
    var showForm: bool
    var editingId: Option<int>
    var form: DiseaseForm

    constructor ()
      ensures diseases == [] && selectedDisease == None && !showForm && editingId == None && form == EmptyForm
    {
      diseases := [];
      selectedDisease := None;
      showForm := false;
      editingId := None;
      form := EmptyForm;
    }

    /** `startCreate`. */
    method StartCreate()
      modifies this
      ensures editingId == None && form == EmptyForm && showForm
      ensures diseases == old(diseases) && selectedDisease == old(selectedDisease)
    {
      editingId := None;
      form := EmptyForm;
      showForm := true;
    }

    /** `startEdit(disease)`: the form is filled from the entry, still without symptoms. */
    method StartEdit(d: Disease)
      modifies this
      ensures editingId == Some(d.id) && showForm && selectedDisease == None
      ensures form == DiseaseForm(d.name, d.latinName, d.category, d.description, None)
      ensures diseases == old(diseases)
    {
      editingId := Some(d.id);
      form := DiseaseForm(d.name, d.latinName, d.category, d.description, None);
      showForm := true;
      selectedDisease := None;
    }

    /** `saveDisease` as written: reading `form.symptoms.split` on a form without symptoms throws,
      * and the catch leaves the page as it was. */
    method SaveDisease(reply: Reply<Disease>)
      modifies this
      ensures old(form).symptoms.None? || reply.Threw? ==>
        diseases == old(diseases) && showForm == old(showForm) && form == old(form)
      ensures old(form).symptoms.Some? && reply.Replied? ==>
        diseases == SavedDiseases(old(diseases), old(editingId), old(form), SymptomList(old(form).symptoms.value), reply) &&
        !showForm && form == EmptyForm
      ensures editingId == old(editingId) && selectedDisease == old(selectedDisease)
    {
      if form.symptoms.None? || reply.Threw? {
        return;
      }
      var symptoms := SymptomList(form.symptoms.value);
      diseases := SavedDiseases(diseases, editingId, form, symptoms, reply);
      showForm := false;
      form := EmptyForm;
    }

    /** `saveDisease` with a missing symptom text read as empty, so that the save goes through. */
    method SaveDiseaseCorrected(reply: Reply<Disease>)
      modifies this
      ensures reply.Threw? ==> diseases == old(diseases) && showForm == old(showForm) && form == old(form)
      ensures reply.Replied? ==>
        diseases == SavedDiseases(old(diseases), old(editingId), old(form), SymptomList(old(form).symptoms.GetOr("")), reply) &&
        !showForm && form == EmptyForm
      ensures editingId == old(editingId) && selectedDisease == old(selectedDisease)
    {
      if reply.Threw? {
        return;
      }
      var symptoms := SymptomList(form.symptoms.GetOr(""));
      diseases := SavedDiseases(diseases, editingId, form, symptoms, reply);
      showForm := false;
      form := EmptyForm;
    }

    /** `deleteDisease(id)`: once confirmed and the call returns, every entry with that id is
      * removed whatever the reply said, and the detail view is closed. */
    method DeleteDisease(id: int, confirmed: bool, reply: Reply<()>)
      modifies this
      ensures confirmed && reply.Replied? ==> diseases == WithoutKey(old(diseases), DiseaseId, id) && selectedDisease == None
      ensures !(confirmed && reply.Replied?) ==> diseases == old(diseases) && selectedDisease == old(selectedDisease)
      ensures showForm == old(showForm) && form == old(form) && editingId == old(editingId)
    {
      if !confirmed || reply.Threw? {
        return;
      }
      diseases := WithoutKey(diseases, DiseaseId, id);
      selectedDisease := None;
    }
  }

  /** Creating an entry through the page as written saves nothing: the list stays empty and the form stays open. */
  method CreateScenario(name: string, reply: Reply<Disease>) returns (saved: seq<Disease>, formOpen: bool)
    ensures saved == [] && formOpen
  {
    var page := new DiseasesPage();
    page.StartCreate();
    page.form := page.form.(name := name);
    page.SaveDisease(reply);
    saved, formOpen := page.diseases, page.showForm;
  }

  /** The same creation through the corrected save appends one entry with id 1 and closes the form. */
  method CreateScenarioCorrected(name: string) returns (saved: seq<Disease>, formOpen: bool)
    ensures saved == [Disease(1, name, "", 0, "", Some([]), Undefined)] && !formOpen
  {
    var page := new DiseasesPage();
    page.StartCreate();
    page.form := page.form.(name := name);
    page.SaveDiseaseCorrected(Replied(false, None));
    saved, formOpen := page.diseases, page.showForm;
    assert Split("") == [""];
    assert Trim("") == "";
    assert Map([""], Trim) == [""];
  }
}
