/**
 * The "My Addresses" page: the add/edit dialog, its form values, and the
 * handlers that pass them to the address directory.
 */
module AddressesPage {
  import opened Wrappers
  import opened Seqs
  import opened AddressDirectory

  /** The dialog's form fields. */
  datatype FormValues = FormValues(
    name: string,
    street: string,
    city: string,
    state: string,
    zipCode: string,
    country: string,
    isDefault: bool)

  /** The form's `defaultValues`: blank fields, country "India", not default. */
  const BlankForm := FormValues("", "", "", "", "", "India", false)

  /** `addAddress(values)`: the form as an insert payload, column for column. */
  function InputOf(f: FormValues): (r: AddressInput)
    ensures r.isDefault == f.isDefault && r.country == f.country
  {
    AddressInput(f.name, f.street, f.city, f.state, f.zipCode, f.country, f.isDefault)
  }

  /** `updateAddress(id, values)`: the form as a patch that supplies every column. */
  function PatchOf(f: FormValues): (p: AddressPatch)
    ensures p.isDefault == Some(f.isDefault)
    ensures p.name.Some? && p.street.Some? && p.city.Some? && p.state.Some?
            && p.zipCode.Some? && p.country.Some?
  {
    AddressPatch(Some(f.name), Some(f.street), Some(f.city), Some(f.state),
                 Some(f.zipCode), Some(f.country), Some(f.isDefault))
  }

  /** `openAddDialog`: the blank form, pre-ticked as default exactly when the user has no addresses. */
  function AddDialogForm(addresses: seq<Address>): (f: FormValues)
    ensures f.isDefault <==> |addresses| == 0
    ensures f.(isDefault := false) == BlankForm
  {
    BlankForm.(isDefault := |addresses| == 0)
  }

  /** `openEditDialog`: the form filled from the chosen row; submitting it unchanged rewrites the row as it was. */
  function EditDialogForm(a: Address): (f: FormValues)
    ensures f.isDefault == a.isDefault
    ensures Apply(a, PatchOf(f)) == a
  {
    FormValues(a.name, a.street, a.city, a.state, a.zipCode, a.country, a.isDefault)
  }

  /** A row shows "Set as Default" exactly when it is not the default. */
  predicate SetDefaultOffered(a: Address)
  {
    !a.isDefault
  }

  /** The ids the "Set as Default" buttons pass to `setDefaultAddress`, in list order. */
  function SetDefaultTargets(addresses: seq<Address>): (r: seq<AddressId>)
    ensures forall id :: id in r <==> exists a :: a in addresses && SetDefaultOffered(a) && a.id == id
    decreases |addresses|
  {
    if addresses == [] then []
    else
      var rest := SetDefaultTargets(addresses[1..]);
      assert forall a :: a in addresses <==> a == addresses[0] || a in addresses[1..];
      if SetDefaultOffered(addresses[0]) then [addresses[0].id] + rest else rest
  }

  /**
   * A user with no rows who submits the pre-ticked add dialog unchanged, with both
   * writes accepted, reads back exactly the new row, marked default.
   */
  lemma FirstAddressBecomesDefault(t: seq<Address>, u: UserId, newId: AddressId)
    requires Listing(t, u) == []
    ensures var input := InputOf(AddDialogForm([]));
      && input.isDefault
      && Listing(AddWrites(t, u, input, newId, true, true), u) == [NewRow(newId, u, input)]
  {
    var input := InputOf(AddDialogForm([]));
    var row := NewRow(newId, u, input);
    var c := ClearDefaults(t, u);
    var owned := Filter(t, OwnedBy(u));
    FilterKeepsNone(t, OwnedBy(u));
    FilterKeepsNone(c, OwnedBy(u));
    FilterAppend(c, [row], OwnedBy(u));
    FilterCons(row, [], OwnedBy(u));
    assert [row] + [] == [row];
    assert Filter(c + [row], OwnedBy(u)) == [row];
    FilterCons(row, [], IsDefault);
    FilterCons(row, [], NotDefault);
  }

  /** The dialog state of the page: whether it is open and which row it edits. */
  class AddressDialog {
    var open: bool
    var editing: Option<Address>
    var form: FormValues

    constructor ()
      ensures !open && editing.None? && form == BlankForm
    {
      open := false;
      editing := None;
      form := BlankForm;
    }

    method OpenAddDialog(addresses: seq<Address>)
      modifies this
      ensures open && editing.None? && form == AddDialogForm(addresses)
    {
      form := AddDialogForm(addresses);
      editing := None;
      open := true;
    }

    method OpenEditDialog(a: Address)
      modifies this
      ensures open && editing == Some(a) && form == EditDialogForm(a)
    {
      form := EditDialogForm(a);
      editing := Some(a);
      open := true;
    }

    /**
     * `handleSubmit`: update the edited row with every form value, or add a new
     * row; then close the dialog whatever the outcome.
     */
    method HandleSubmit(book: AddressBook, values: FormValues, newId: AddressId,
                        clearOk: bool, writeOk: bool, readOk: bool) returns (report: Report)
      requires book.Valid()
      requires editing.None? ==> forall i :: 0 <= i < |book.table| ==> book.table[i].id != newId
      modifies this`open, book`table, book`addresses, book`isLoading
      ensures !open && editing == old(editing) && form == old(form)
      ensures book.Valid()
      ensures book.user.None? ==> report == NoUser && book.table == old(book.table)
      ensures book.user.Some? && editing.Some? ==>
        book.table == UpdateWrites(old(book.table), book.user.value, editing.value.id, PatchOf(values), clearOk, writeOk)
      ensures book.user.Some? && editing.None? ==>
        book.table == AddWrites(old(book.table), book.user.value, InputOf(values), newId, clearOk, writeOk)
      ensures book.user.Some? ==> report == if writeOk then Succeeded else Failed
      ensures report == Succeeded ==> !book.isLoading
      ensures report == Succeeded ==>
        book.addresses == if readOk then Listing(book.table, book.user.value) else old(book.addresses)
      ensures report != Succeeded ==> book.addresses == old(book.addresses) && book.isLoading == old(book.isLoading)
    {
      if editing.Some? {
        report := book.UpdateAddress(editing.value.id, PatchOf(values), clearOk, writeOk, readOk);
      } else {
        report := book.AddAddress(InputOf(values), newId, clearOk, writeOk, readOk);
      }
      open := false;
    }

    /** `handleDelete`: the row is deleted only when the confirmation is accepted. */
    method HandleDelete(book: AddressBook, id: AddressId, confirmed: bool, deleteOk: bool, readOk: bool)
      returns (report: Option<Report>)
      requires book.Valid()
      modifies book`table, book`addresses, book`isLoading
      ensures book.Valid()
      ensures !confirmed ==> report.None? && book.table == old(book.table)
                             && book.addresses == old(book.addresses) && book.isLoading == old(book.isLoading)
      ensures confirmed && book.user.Some? ==> book.table == DeleteWrites(old(book.table), id, deleteOk)
      ensures confirmed && book.user.None? ==> book.table == old(book.table) && report == Some(NoUser)
      ensures confirmed && book.user.Some? ==> report == Some(if deleteOk then Succeeded else Failed)
      ensures report == Some(Succeeded) ==> !book.isLoading
      ensures report == Some(Succeeded) ==>
        book.addresses == if readOk then Listing(book.table, book.user.value) else old(book.addresses)
      ensures report != Some(Succeeded) ==> book.addresses == old(book.addresses) && book.isLoading == old(book.isLoading)
    {
      report := None;
      if confirmed {
        var r := book.DeleteAddress(id, deleteOk, readOk);
        report := Some(r);
      }
    }

    /** `handleSetDefault(id)`, reached from a "Set as Default" button (see `SetDefaultTargets`). */
    method HandleSetDefault(book: AddressBook, id: AddressId, clearOk: bool, setOk: bool, readOk: bool)
      returns (report: Report)
      requires book.Valid()
      modifies book`table, book`addresses, book`isLoading
      ensures book.Valid()
      ensures book.user.Some? ==> book.table == SetDefaultWrites(old(book.table), book.user.value, id, clearOk, setOk)
      ensures book.user.Some? ==> report == if setOk then Succeeded else Failed
      ensures book.user.None? ==> report == NoUser && book.table == old(book.table)
                                  && book.addresses == old(book.addresses) && book.isLoading == old(book.isLoading)
      ensures report == Succeeded ==> !book.isLoading
      ensures report == Succeeded ==>
        book.addresses == if readOk then Listing(book.table, book.user.value) else old(book.addresses)
      ensures report == Failed ==> book.addresses == old(book.addresses) && book.isLoading == old(book.isLoading)
    {
      report := book.SetDefaultAddress(id, clearOk, setOk, readOk);
    }
  }
}
