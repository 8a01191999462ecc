/**
 * The veterinarian administration page: loading the list (with a fixed fallback
 * list), saving the form as an update or a new entry, and removing an entry.
 */
module AdminVets {
  import opened Options
  import opened Lists
  import opened Backend

  /** The form fields; a veterinarian record is the same fields with an id. */
  datatype VetForm = VetForm(firstName: string, lastName: string, email: string, phone: string,
                             specialty: string, licenseNumber: string)

  datatype Vet = Vet(id: int, info: VetForm)

  const EmptyForm: VetForm := VetForm("", "", "", "", "", "")

  function VetId(v: Vet): int { v.id }

  /** `mockVets()`: the fixed two-entry list shown when loading fails. */
  const MockVets: seq<Vet> := [
    Vet(1, VetForm("Petras", "Petraitis", "vet1@email.com", "+37060000001", "Chirurgas", "LIC-001")),
    Vet(2, VetForm("Ana", "Kazlienė", "vet2@email.com", "+37060000002", "Kardiologas", "LIC-002"))
  ]

  /** `load`'s new list: the backend's list on success (`[]` when it sent none), else the fixed list. */
  function LoadedVets(reply: Reply<seq<Vet>>): (vets: seq<Vet>)
    ensures reply.Succeeded() ==> vets == reply.data.GetOr([])
    ensures !reply.Succeeded() ==> vets == MockVets && |vets| == 2
  {
    match reply
    case Threw => MockVets
    case Replied(success, data) => if success then data.GetOr([]) else MockVets
  }

  /** `{ ...form, id: editingId }` over every entry with that id, after a successful update. */
  function UpdatedVets(vets: seq<Vet>, id: int, form: VetForm): (r: seq<Vet>)
    ensures |r| == |vets|
    ensures forall i :: 0 <= i < |vets| && vets[i].id != id ==> r[i] == vets[i]
    ensures forall i :: 0 <= i < |vets| && vets[i].id == id ==> r[i] == Vet(id, form)
  {
    ReplaceKey(vets, VetId, id, (v: Vet) => Vet(id, form))
  }

  /** The entry a create appends: the backend's record on success when it sent one, else the
    * form with the next id. */
  function CreatedVet(vets: seq<Vet>, form: VetForm, reply: Reply<Vet>): (v: Vet)
    requires reply.Replied?
    ensures reply.success && reply.data.Some? ==> v == reply.data.value
    ensures !(reply.success && reply.data.Some?) ==> v == Vet(NextId(vets, VetId), form)
  {
    var fallback := Vet(NextId(vets, VetId), form);
    if reply.success then reply.data.GetOr(fallback) else fallback
  }

  /** The list a create builds keeps increasing ids increasing when the fallback id is used. */
  lemma CreatedVetKeepsIdsIncreasing(vets: seq<Vet>, form: VetForm)
    requires KeysIncreasing(vets, VetId)
    ensures KeysIncreasing(vets + [CreatedVet(vets, form, Replied(false, None))], VetId)
  {
    NextIdKeepsIncreasing(vets, VetId, CreatedVet(vets, form, Replied(false, None)));
  }

  class AdminVetsPage {
    var vets: seq<Vet>
    var loading: bool
    var showForm: bool
    var editingId: Option<int>
    var form: VetForm

    constructor ()
      ensures vets == [] && loading && !showForm && editingId == None && form == EmptyForm
    {
      vets := [];
      loading := true;
      showForm := false;
      editingId := None;
      form := EmptyForm;
    }

    /** `if (editingId)`: an entry is being edited when the id is set and not 0. */
    predicate Editing()
      reads this
    {
      editingId.Some? && editingId.value != 0
    }

    /** `load`. */
    method Load(reply: Reply<seq<Vet>>)
      modifies this
      ensures vets == LoadedVets(reply) && !loading
      ensures showForm == old(showForm) && editingId == old(editingId) && form == old(form)
    {
      loading := true;
      vets := LoadedVets(reply);
      loading := false;
    }

    /** `save`: an update changes the list only on success, a create always appends; unless the
      * call threw, the form is then closed and reset. */
    method Save(reply: Reply<Vet>)
      modifies this
      ensures reply.Threw? ==>
        vets == old(vets) && showForm == old(showForm) && editingId == old(editingId) && form == old(form)
      ensures reply.Replied? && old(Editing()) && reply.success ==> vets == UpdatedVets(old(vets), old(editingId).value, old(form))
      ensures reply.Replied? && old(Editing()) && !reply.success ==> vets == old(vets)
      ensures reply.Replied? && !old(Editing()) ==> vets == old(vets) + [CreatedVet(old(vets), old(form), reply)]
      ensures reply.Replied? ==> !showForm && editingId == None && form == EmptyForm
      ensures loading == old(loading)
    {
      if reply.Threw? {
        return;
      }
      if Editing() {
        if reply.success {
          vets := UpdatedVets(vets, editingId.value, form);
        }
      } else {
        vets := vets + [CreatedVet(vets, form, reply)];
      }
      showForm := false;
      editingId := None;
      form := EmptyForm;
    }

    /** `removeVet(id)`: once confirmed and the call returns, every entry with that id is removed,
      * whatever the reply said. */
    method RemoveVet(id: int, confirmed: bool, reply: Reply<()>)
      modifies this
      ensures confirmed && reply.Replied? ==> vets == WithoutKey(old(vets), VetId, id)
      ensures !(confirmed && reply.Replied?) ==> vets == old(vets)
      ensures showForm == old(showForm) && editingId == old(editingId) && form == old(form) && loading == old(loading)
    {
      if !confirmed || reply.Threw? {
        return;
      }
      vets := WithoutKey(vets, VetId, id);
    }
  }
}
