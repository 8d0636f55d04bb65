/**
 * The "my vehicles" screen: the list loaded from the server with its gaps filled in,
 * deletion by id, and the create/edit dialog with the vehicle it was opened for.
 */
module VehiclesPage {
  import opened JsRuntime
  import opened VehicleTypes
  import opened Subsequences
  import VehicleFormDialog

  const LoadError: string := "Error al cargar los vehículos"
  const Deleted: string := "Vehículo eliminado correctamente"
  const DeleteError: string := "Error al eliminar el vehículo"
  const Updated: string := "Vehículo actualizado correctamente"
  const Created: string := "Vehículo creado correctamente"
  const SaveError: string := "Error al guardar el vehículo"

  /**
   * The defaults applied to a vehicle from the server: `isDefault` false, `transmission`
   * and `fuelType` '' and `engineSize` 0 when falsy; everything else is kept.
   */
  function Normalize(v: Vehicle): (w: Vehicle)
    ensures w.isDefault == Some(v.isDefault == Some(true))
    ensures w.transmission == Some(OrText(v.transmission, ""))
    ensures w.fuelType == Some(OrText(v.fuelType, ""))
    ensures w.engineSize == Some(OrReal(v.engineSize, 0.0))
    ensures w.id == v.id && w.userId == v.userId && w.model == v.model && w.brand == v.brand
    ensures w.year == v.year && w.plate == v.plate && w.consumption == v.consumption
    ensures w.createdAt == v.createdAt
  {
    v.(isDefault := Some(OrFalse(v.isDefault)),
       transmission := Some(OrText(v.transmission, "")),
       fuelType := Some(OrText(v.fuelType, "")),
       engineSize := Some(OrReal(v.engineSize, 0.0)))
  }

  /** Filling in the defaults a second time changes nothing. */
  lemma {:induction false} NormalizeIdempotent(v: Vehicle)
    ensures Normalize(Normalize(v)) == Normalize(v)
  {
    var w := Normalize(v);
    assert OrText(w.transmission, "") == OrText(v.transmission, "");
    assert OrText(w.fuelType, "") == OrText(v.fuelType, "");
    assert OrReal(w.engineSize, 0.0) == OrReal(v.engineSize, 0.0);
  }

  /** A normalised vehicle seeds the edit dialog exactly as the raw one would. */
  lemma {:induction false} DialogSeesThroughNormalize(v: Vehicle, currentYear: int, now: int)
    ensures VehicleFormDialog.InitialForm(Some(Normalize(v)), currentYear, now)
         == VehicleFormDialog.InitialForm(Some(v), currentYear, now)
  {
    var w := Normalize(v);
    assert OrText(w.transmission, "") == OrText(v.transmission, "");
    assert OrText(w.fuelType, "") == OrText(v.fuelType, "");
    assert OrReal(w.engineSize, 0.0) == OrReal(v.engineSize, 0.0);
  }

  /** `response.data.map(...)`: every vehicle normalised, in the same order. */
  function NormalizeAll(vs: seq<Vehicle>): (ws: seq<Vehicle>)
    ensures |ws| == |vs|
    ensures forall i :: 0 <= i < |vs| ==> ws[i] == Normalize(vs[i])
  {
    seq(|vs|, i requires 0 <= i < |vs| => Normalize(vs[i]))
  }

  lemma {:induction false} NormalizeAllIdempotent(vs: seq<Vehicle>)
    ensures NormalizeAll(NormalizeAll(vs)) == NormalizeAll(vs)
  {
    forall i | 0 <= i < |vs|
      ensures NormalizeAll(NormalizeAll(vs))[i] == NormalizeAll(vs)[i]
    {
      NormalizeIdempotent(vs[i]);
    }
  }

  /** `vehicles.filter(vehicle => vehicle._id !== id)`. */
  function DeleteById(vs: seq<Vehicle>, id: string): (kept: seq<Vehicle>)
    ensures |kept| <= |vs|
  {
    if vs == [] then []
    else if vs[0].id != id then [vs[0]] + DeleteById(vs[1..], id)
    else DeleteById(vs[1..], id)
  }

  /** A vehicle survives the deletion exactly when it was listed and has another id. */
  lemma {:induction false} DeleteByIdMembership(vs: seq<Vehicle>, id: string, v: Vehicle)
    ensures v in DeleteById(vs, id) <==> v in vs && v.id != id
  {
    if vs != [] {
      DeleteByIdMembership(vs[1..], id, v);
      assert v in vs <==> v == vs[0] || v in vs[1..];
    }
  }

  /** The survivors keep their order. */
  lemma {:induction false} DeleteByIdKeepsOrder(vs: seq<Vehicle>, id: string)
    ensures IsSubsequence(DeleteById(vs, id), vs)
  {
    if vs != [] {
      DeleteByIdKeepsOrder(vs[1..], id);
      var rest := DeleteById(vs[1..], id);
      if vs[0].id != id {
        assert DeleteById(vs, id)[1..] == rest;
      } else {
        SubsequenceOfTail(rest, vs);
      }
    }
  }

  /** The request the dialog's save sends. */
  datatype SaveCall = Update(id: string, data: VehicleFormDialog.VehicleForm)
                    | Create(data: VehicleFormDialog.VehicleForm)

  /** Update when the selected vehicle has an id, create otherwise. */
  function SaveCallFor(selected: Option<Vehicle>, data: VehicleFormDialog.VehicleForm): (call: SaveCall)
    ensures call.Update? <==> selected.Some? && selected.value.id != ""
    ensures call.Update? ==> call.id == selected.value.id
    ensures call.data == data
  {
    if selected.Some? && selected.value.id != "" then Update(selected.value.id, data) else Create(data)
  }

  /** Saving after "edit" on a vehicle with an id updates that vehicle; after "add", it creates. */
  lemma {:induction false} EditUpdatesAddCreates(v: Vehicle, data: VehicleFormDialog.VehicleForm)
    ensures v.id != "" ==> SaveCallFor(Some(Normalize(v)), data) == Update(v.id, data)
    ensures SaveCallFor(None, data) == Create(data)
  {
  }

  /**
   * The dialog as the page drives it: the form it holds, the vehicle it was opened for
   * (its `initialData`) and whether it shows. The dialog is mounted once, with the page,
   * so its form lives as long as the page does.
   */
  datatype DialogSession = DialogSession(form: VehicleFormDialog.VehicleForm, selected: Option<Vehicle>, open: bool)

  /**
   * `handleOpenDialog` and `handleEditVehicle` as written: the vehicle is selected and the
   * dialog shown, but the form keeps whatever it held, because the dialog reads its
   * `initialData` only when it is first mounted.
   */
  function OpenAsWritten(s: DialogSession, vehicle: Option<Vehicle>): (next: DialogSession)
    ensures next.open && next.selected == vehicle
    ensures next.form == s.form
  {
    DialogSession(s.form, vehicle, true)
  }

  /** The evidently intended opening: the form is seeded from the vehicle, as at the first mount. */
  function OpenReseeded(s: DialogSession, vehicle: Option<Vehicle>, currentYear: int, now: int): (next: DialogSession)
    ensures next.open && next.selected == vehicle
    ensures next.form == VehicleFormDialog.InitialForm(vehicle, currentYear, now)
  {
    DialogSession(VehicleFormDialog.InitialForm(vehicle, currentYear, now), vehicle, true)
  }

  /** `handleCloseDialog`: hidden and nothing selected; the form is not touched. */
  function CloseDialog(s: DialogSession): (next: DialogSession)
    ensures !next.open && next.selected == None && next.form == s.form
  {
    DialogSession(s.form, None, false)
  }

  /** The dialog right after the page is mounted: nothing selected, so seeded with no vehicle. */
  function Mounted(currentYear: int, now: int): (s: DialogSession)
    ensures s.form == VehicleFormDialog.InitialForm(None, currentYear, now) && s.selected == None && !s.open
  {
    DialogSession(VehicleFormDialog.InitialForm(None, currentYear, now), None, false)
  }

  /** What the user does with the dialog: open it for a vehicle or for a new one, type into it, close it. */
  datatype PageStep = OpenFor(vehicle: Option<Vehicle>) | Typed(input: VehicleFormDialog.FieldInput) | CloseStep

  /** One step as the code runs it (opening for a card's "edit" passes the normalised vehicle). */
  function StepAsWritten(s: DialogSession, step: PageStep): (next: DialogSession)
    ensures step.OpenFor? ==> next == OpenAsWritten(s, step.vehicle)
    ensures step.Typed? ==> next == s.(form := VehicleFormDialog.ApplyInput(s.form, step.input))
    ensures step.CloseStep? ==> next == CloseDialog(s)
  {
    match step
    case OpenFor(v) => OpenAsWritten(s, v)
    case Typed(i) => s.(form := VehicleFormDialog.ApplyInput(s.form, i))
    case CloseStep => CloseDialog(s)
  }

  function RunAsWritten(s: DialogSession, steps: seq<PageStep>): DialogSession
    decreases |steps|
  {
    if steps == [] then s else RunAsWritten(StepAsWritten(s, steps[0]), steps[1..])
  }

  /** Every step the page offers keeps the dialog's plate. */
  lemma {:induction false} RunAsWrittenKeepsPlate(s: DialogSession, steps: seq<PageStep>)
    requires forall k :: 0 <= k < |steps| && steps[k].Typed? ==> VehicleFormDialog.Rendered(steps[k].input)
    ensures RunAsWritten(s, steps).form.plate == s.form.plate
    decreases |steps|
  {
    if steps != [] {
      RunAsWrittenKeepsPlate(StepAsWritten(s, steps[0]), steps[1..]);
    }
  }

  /**
   * As written, the page's dialog can never save: its form is seeded once, with no vehicle,
   * and no input reaches the plate, so after any openings, typing and closings the plate is
   * still empty and the save only raises the required-fields notice.
   */
  lemma {:induction false} StaleDialogNeverSaves(currentYear: int, now: int, steps: seq<PageStep>)
    requires forall k :: 0 <= k < |steps| && steps[k].Typed? ==> VehicleFormDialog.Rendered(steps[k].input)
    ensures RunAsWritten(Mounted(currentYear, now), steps).form.plate == ""
    ensures VehicleFormDialog.MissingRequired(RunAsWritten(Mounted(currentYear, now), steps).form)
  {
    RunAsWrittenKeepsPlate(Mounted(currentYear, now), steps);
  }

  /**
   * As written, "edit" on a Toyota / Corolla / XY34 right after the page loads opens the
   * dialog on the mount-time form: empty brand, model and plate instead of the Toyota's.
   */
  lemma {:induction false} EditShowsMountedForm(currentYear: int, now: int)
    ensures var toyota := Vehicle("v2", "u1", Some("Corolla"), Some("Toyota"), Some(2020), Some("XY34"),
                                  Some(1.8), Some("Gasolina"), Some("Manual"), Some(false), None, 0);
            var editing := OpenAsWritten(Mounted(currentYear, now), Some(Normalize(toyota)));
            && editing.selected == Some(Normalize(toyota))
            && editing.form.brand == "" && editing.form.model == "" && editing.form.plate == ""
            && editing.form != VehicleFormDialog.InitialForm(Some(toyota), currentYear, now)
            && VehicleFormDialog.MissingRequired(editing.form)
  {
    var toyota := Vehicle("v2", "u1", Some("Corolla"), Some("Toyota"), Some(2020), Some("XY34"),
                          Some(1.8), Some("Gasolina"), Some("Manual"), Some(false), None, 0);
    assert VehicleFormDialog.InitialForm(Some(toyota), currentYear, now).brand == "Toyota";
  }

  /**
   * With the form seeded on every opening, "edit" shows the vehicle's own fields (normalised
   * or not, the seeded form is the same), a vehicle with a brand, a model and a plate can be
   * saved at once, saving it unchanged sends those fields as that vehicle's update, and "add"
   * always starts from a form that cannot be saved as it is.
   */
  lemma {:induction false} ReseededDialogShowsVehicle(s: DialogSession, v: Vehicle, currentYear: int, now: int)
    requires v.id != ""
    ensures var editing := OpenReseeded(s, Some(Normalize(v)), currentYear, now);
            && editing.form == VehicleFormDialog.InitialForm(Some(v), currentYear, now)
            && SaveCallFor(editing.selected, editing.form) == Update(v.id, VehicleFormDialog.InitialForm(Some(v), currentYear, now))
    ensures OrText(v.brand, "") != "" && OrText(v.model, "") != "" && OrText(v.plate, "") != "" ==>
              !VehicleFormDialog.MissingRequired(OpenReseeded(s, Some(Normalize(v)), currentYear, now).form)
    ensures VehicleFormDialog.MissingRequired(OpenReseeded(s, None, currentYear, now).form)
  {
    DialogSeesThroughNormalize(v, currentYear, now);
    VehicleFormDialog.NewDialogNeedsInput(currentYear, now);
  }

  class VehiclesPage {
    var vehicles: seq<Vehicle>
    var loading: bool
    var error: Option<string>
    var openDialog: bool
    var selected: Option<Vehicle>
    /** The create/edit dialog, rendered unconditionally and so mounted once with the page. */
    const dialog: VehicleFormDialog.VehicleFormDialog

    function Session(): DialogSession
      reads this, dialog
    {
      DialogSession(dialog.formData, selected, openDialog)
    }

    /** The page's first render: nothing loaded yet, and the dialog mounted with no vehicle. */
    constructor (currentYear: int, now: int)
      ensures vehicles == [] && loading && error == None
      ensures Session() == DialogSession(VehicleFormDialog.InitialForm(None, currentYear, now), None, false)
    {
      vehicles, loading, error, openDialog, selected := [], true, None, false, None;
      dialog := new VehicleFormDialog.VehicleFormDialog(None, currentYear, now);
    }

    /** `loadVehicles` before the reply arrives. */
    method BeginLoad()
      modifies this
      ensures loading
      ensures vehicles == old(vehicles) && error == old(error)
      ensures Session() == old(Session())
    {
      loading := true;
    }

    /**
     * `loadVehicles` once the reply arrives (`None` for a failed request): the normalised
     * list and no error, or the error message and the old list; loading is over either way.
     */
    method FinishLoad(reply: Option<seq<Vehicle>>) returns (notice: Option<string>)
      modifies this
      ensures !loading
      ensures reply.Some? ==> vehicles == NormalizeAll(reply.value) && error == None && notice == None
      ensures reply.None? ==> vehicles == old(vehicles) && error == Some(LoadError) && notice == Some(LoadError)
      ensures Session() == old(Session())
    {
      if reply.Some? {
        vehicles := NormalizeAll(reply.value);
        error := None;
        notice := None;
      } else {
        error := Some(LoadError);
        notice := Some(LoadError);
      }
      loading := false;
    }

    /**
     * "Agregar" calls it with no vehicle: select nothing and show the dialog. The
     * vehicle case is reached only through HandleEditVehicle, which the cards call.
     */
    method HandleOpenDialog(vehicle: Option<Vehicle>)
      modifies this
      ensures Session() == OpenAsWritten(old(Session()), vehicle)
      ensures vehicles == old(vehicles) && loading == old(loading) && error == old(error)
    {
      selected := vehicle;
      openDialog := true;
    }

    method HandleCloseDialog()
      modifies this
      ensures Session() == CloseDialog(old(Session()))
      ensures vehicles == old(vehicles) && loading == old(loading) && error == old(error)
    {
      openDialog := false;
      selected := None;
    }

    /** `handleDelete` with the server's answer: only a confirmed deletion changes the list. */
    method HandleDelete(id: string, deleted: bool) returns (notice: string)
      modifies this
      ensures deleted ==> vehicles == DeleteById(old(vehicles), id) && notice == Deleted
      ensures !deleted ==> vehicles == old(vehicles) && notice == DeleteError
      ensures loading == old(loading) && error == old(error)
      ensures Session() == old(Session())
    {
      if deleted {
        vehicles := DeleteById(vehicles, id);
        notice := Deleted;
      } else {
        notice := DeleteError;
      }
    }

    /**
     * `handleEditVehicle`: the vehicle, with its defaults filled in, is selected and the
     * dialog shown; the dialog's form is left as it was.
     */
    method HandleEditVehicle(vehicle: Vehicle)
      modifies this
      ensures Session() == OpenAsWritten(old(Session()), Some(Normalize(vehicle)))
      ensures vehicles == old(vehicles) && loading == old(loading) && error == old(error)
    {
      selected := Some(Normalize(vehicle));
      openDialog := true;
    }

    /**
     * The dialog's save button. With brand, model or plate empty the dialog raises its notice
     * and nothing else happens. Otherwise the request is chosen from the selection as it was
     * and carries the dialog's form; the dialog closes at once (it calls `onClose` right after
     * `onSubmit`), and a successful save also starts a reload.
     */
    method SubmitDialog(saved: bool) returns (call: Option<SaveCall>, notice: string)
      modifies this
      ensures VehicleFormDialog.MissingRequired(dialog.formData) ==>
                && call == None && notice == VehicleFormDialog.RequiredFieldsMessage
                && Session() == old(Session()) && loading == old(loading)
      ensures !VehicleFormDialog.MissingRequired(dialog.formData) ==>
                && call == Some(SaveCallFor(old(selected), dialog.formData))
                && Session() == CloseDialog(old(Session()))
                && (saved ==> loading && notice == (if call.value.Update? then Updated else Created))
                && (!saved ==> loading == old(loading) && notice == SaveError)
      ensures dialog.formData == old(dialog.formData)
      ensures vehicles == old(vehicles) && error == old(error)
    {
      var events := dialog.HandleSubmit();
      if events == [VehicleFormDialog.Notice(VehicleFormDialog.RequiredFieldsMessage)] {
        call := None;
        notice := VehicleFormDialog.RequiredFieldsMessage;
      } else {
        var request := SaveCallFor(selected, events[0].form);
        call := Some(request);
        if saved {
          notice := if request.Update? then Updated else Created;
          HandleCloseDialog();
          BeginLoad();
        } else {
          notice := SaveError;
        }
        HandleCloseDialog();
      }
    }
  }
}
