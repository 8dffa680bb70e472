/**
 * The address directory (`useAddresses`): the remote `addresses` table, shared
 * by every user, and the signed-in user's view of it. Each remote write is
 * accepted or rejected as a whole; which one happened is a parameter.
 */
module AddressDirectory {
  import opened Wrappers
  import opened Seqs

  type UserId = string
  type AddressId = string

  /** A row of the `addresses` table: the hook's `Address` plus its `user_id` column. */
  datatype Address = Address(
    id: AddressId,
    userId: UserId,
    name: string,
    street: string,
    city: string,
    state: string,
    zipCode: string,
    country: string,
    isDefault: bool)

  /** The argument of `addAddress`: every column except the id and the owner. */
  datatype AddressInput = AddressInput(
    name: string,
    street: string,
    city: string,
    state: string,
    zipCode: string,
    country: string,
    isDefault: bool)

  /** The argument of `updateAddress` and of `update(...)`: any subset of the columns. */
  datatype AddressPatch = AddressPatch(
    name: Option<string>,
    street: Option<string>,
    city: Option<string>,
    state: Option<string>,
    zipCode: Option<string>,
    country: Option<string>,
    isDefault: Option<bool>)

  /** The toast an operation ends with: none (no user), a success or a failure. */
  datatype Report = NoUser | Succeeded | Failed

  /** The row written by `insert({ ...address, user_id })` with the id the service assigns. */
  function NewRow(id: AddressId, owner: UserId, input: AddressInput): (r: Address)
    ensures r.id == id && r.userId == owner && r.isDefault == input.isDefault
  {
    Address(id, owner, input.name, input.street, input.city, input.state,
            input.zipCode, input.country, input.isDefault)
  }

  function Supplied<T>(o: Option<T>, current: T): T
  {
    if o.Some? then o.value else current
  }

  /** One row after `update(patch)`: supplied columns take the new value, the others keep theirs. */
  function Apply(a: Address, p: AddressPatch): (r: Address)
    ensures r.id == a.id && r.userId == a.userId
    ensures p.isDefault.Some? ==> r.isDefault == p.isDefault.value
    ensures p.isDefault.None? ==> r.isDefault == a.isDefault
  {
    Address(a.id, a.userId,
            Supplied(p.name, a.name), Supplied(p.street, a.street), Supplied(p.city, a.city),
            Supplied(p.state, a.state), Supplied(p.zipCode, a.zipCode),
            Supplied(p.country, a.country), Supplied(p.isDefault, a.isDefault))
  }

  const ClearPatch := AddressPatch(None, None, None, None, None, None, Some(false))
  const SetPatch := AddressPatch(None, None, None, None, None, None, Some(true))
  const EmptyPatch := AddressPatch(None, None, None, None, None, None, None)

  /** A patch that names no column leaves the row as it is. */
  lemma ApplyEmptyPatch(a: Address)
    ensures Apply(a, EmptyPatch) == a
  {
  }

  /** `update(patch).eq(column, value)`: every matching row is patched where it stands. */
  function UpdateWhere(t: seq<Address>, matches: Address -> bool, p: AddressPatch): (r: seq<Address>)
    ensures |r| == |t|
    ensures forall i :: 0 <= i < |t| ==> r[i] == if matches(t[i]) then Apply(t[i], p) else t[i]
  {
    seq(|t|, i requires 0 <= i < |t| => if matches(t[i]) then Apply(t[i], p) else t[i])
  }

  function OwnedBy(u: UserId): Address -> bool
  {
    (a: Address) => a.userId == u
  }

  function IdIs(id: AddressId): Address -> bool
  {
    (a: Address) => a.id == id
  }

  function OtherId(id: AddressId): Address -> bool
  {
    (a: Address) => a.id != id
  }

  predicate IsDefault(a: Address) { a.isDefault }

  predicate NotDefault(a: Address) { !a.isDefault }

  /** Row ids are the service's primary key. */
  predicate UniqueIds(t: seq<Address>)
  {
    forall i, j :: 0 <= i < j < |t| ==> t[i].id != t[j].id
  }

  /** The directory invariant: no user has two rows marked default. */
  predicate AtMostOneDefault(t: seq<Address>)
  {
    forall i, j :: 0 <= i < |t| && 0 <= j < |t| && i != j ==> !BothDefaultOfOneUser(t[i], t[j])
  }

  predicate BothDefaultOfOneUser(a: Address, b: Address)
  {
    a.isDefault && b.isDefault && a.userId == b.userId
  }

  /** Every row carrying `id` belongs to `u`. */
  predicate OwnsId(t: seq<Address>, u: UserId, id: AddressId)
  {
    forall i :: 0 <= i < |t| && t[i].id == id ==> t[i].userId == u
  }

  /** `update({ is_default: false }).eq("user_id", u)`. */
  function ClearDefaults(t: seq<Address>, u: UserId): seq<Address>
  {
    UpdateWhere(t, OwnedBy(u), ClearPatch)
  }

  /**
   * The writes of `addAddress`: an unchecked clear when the new row is default,
   * then the insert. An accepted insert appends the new row; an accepted clear
   * of a default row lowers the flag on every earlier row of the user; every
   * other row is untouched.
   */
  function AddWrites(t: seq<Address>, u: UserId, input: AddressInput, newId: AddressId,
                     clearOk: bool, insertOk: bool): (r: seq<Address>)
    ensures |r| == if insertOk then |t| + 1 else |t|
    ensures insertOk ==> r[|t|] == NewRow(newId, u, input)
    ensures forall i :: 0 <= i < |t| ==>
      r[i] == if input.isDefault && clearOk && t[i].userId == u then t[i].(isDefault := false) else t[i]
  {
    var cleared := if input.isDefault && clearOk then ClearDefaults(t, u) else t;
    if insertOk then cleared + [NewRow(newId, u, input)] else cleared
  }

  /**
   * The writes of `updateAddress`: an unchecked clear when the patch sets the
   * flag, then the update by id. No row moves or changes id or owner; other
   * users' rows with another id are untouched; an accepted update gives the
   * target the patch's flag.
   */
  function UpdateWrites(t: seq<Address>, u: UserId, id: AddressId, p: AddressPatch,
                        clearOk: bool, updateOk: bool): (r: seq<Address>)
    ensures |r| == |t|
    ensures forall i :: 0 <= i < |t| ==> r[i].id == t[i].id && r[i].userId == t[i].userId
    ensures forall i :: 0 <= i < |t| && t[i].userId != u && t[i].id != id ==> r[i] == t[i]
    ensures forall i :: 0 <= i < |t| && updateOk && t[i].id == id && p.isDefault.Some? ==>
      r[i].isDefault == p.isDefault.value
  {
    var cleared := if p.isDefault == Some(true) && clearOk then ClearDefaults(t, u) else t;
    if updateOk then UpdateWhere(cleared, IdIs(id), p) else cleared
  }

  /**
   * The write of `deleteAddress`: `delete().eq("id", id)`. An accepted delete
   * removes exactly the rows with that id and keeps the others in order.
   */
  function DeleteWrites(t: seq<Address>, id: AddressId, deleteOk: bool): (r: seq<Address>)
    ensures forall a :: a in r <==> a in t && (!deleteOk || a.id != id)
    ensures deleteOk ==> IsSubsequence(r, t)
    ensures !deleteOk ==> r == t
  {
    FilterIsSubsequence(t, OtherId(id));
    if deleteOk then Filter(t, OtherId(id)) else t
  }

  /**
   * The writes of `setDefaultAddress`: the unchecked clear, then the set by id.
   * No row moves or changes id or owner; an accepted set flags the target; an
   * accepted clear unflags the user's other rows; other users' rows with another
   * id are untouched.
   */
  function SetDefaultWrites(t: seq<Address>, u: UserId, id: AddressId,
                            clearOk: bool, setOk: bool): (r: seq<Address>)
    ensures |r| == |t|
    ensures forall i :: 0 <= i < |t| ==> r[i].id == t[i].id && r[i].userId == t[i].userId
    ensures forall i :: 0 <= i < |t| && setOk && t[i].id == id ==> r[i].isDefault
    ensures forall i :: 0 <= i < |t| && clearOk && t[i].userId == u && t[i].id != id ==> !r[i].isDefault
    ensures forall i :: 0 <= i < |t| && t[i].userId != u && t[i].id != id ==> r[i] == t[i]
  {
    var cleared := if clearOk then ClearDefaults(t, u) else t;
    if setOk then UpdateWhere(cleared, IdIs(id), SetPatch) else cleared
  }

  /**
   * `order("is_default", { ascending: false })`: a permutation of the rows with
   * every default row before every other row.
   */
  function DefaultsFirst(rows: seq<Address>): (r: seq<Address>)
    ensures multiset(r) == multiset(rows)
    ensures forall i, j :: 0 <= i < j < |r| && r[j].isDefault ==> r[i].isDefault
  {
    var d, n := Filter(rows, IsDefault), Filter(rows, NotDefault);
    FilterSplitMultiset(rows, IsDefault, NotDefault);
    var r := d + n;
    forall i, j | 0 <= i < j < |r|
      ensures r[j].isDefault ==> r[i].isDefault
    {
      if j >= |d| {
        assert r[j] == n[j - |d|];
        assert r[j] in n;
      } else {
        assert r[i] == d[i];
        assert r[i] in d;
      }
    }
    r
  }

  /**
   * What `fetchAddresses` reads for user `u`: exactly the user's rows, as a
   * permutation, with every default row before every other row.
   */
  function Listing(t: seq<Address>, u: UserId): (r: seq<Address>)
    ensures forall a :: a in r <==> a in t && a.userId == u
    ensures multiset(r) == multiset(Filter(t, OwnedBy(u)))
    ensures forall i, j :: 0 <= i < j < |r| && r[j].isDefault ==> r[i].isDefault
  {
    var r := DefaultsFirst(Filter(t, OwnedBy(u)));
    SameMultisetSameMembers(r, Filter(t, OwnedBy(u)));
    r
  }

  /** Deleting keeps ids unique, and any filter does. */
  lemma {:induction false} FilterKeepsUniqueIds(t: seq<Address>, p: Address -> bool)
    requires UniqueIds(t)
    ensures UniqueIds(Filter(t, p))
    decreases |t|
  {
    if t != [] {
      assert t == [t[0]] + t[1..];
      FilterCons(t[0], t[1..], p);
      FilterKeepsUniqueIds(t[1..], p);
      var rest := Filter(t[1..], p);
      if p(t[0]) {
        var r := [t[0]] + rest;
        forall i, j | 0 <= i < j < |r|
          ensures r[i].id != r[j].id
        {
          assert r[j] == rest[j - 1];
          if i == 0 {
            assert r[j] in t[1..];
            var k :| 0 <= k < |t[1..]| && t[1..][k] == r[j];
            assert t[k + 1] == r[j];
          } else {
            assert r[i] == rest[i - 1];
          }
        }
      }
    }
  }

  /** Dropping rows never creates a second default. */
  lemma {:induction false} FilterKeepsAtMostOneDefault(t: seq<Address>, p: Address -> bool)
    requires AtMostOneDefault(t)
    ensures AtMostOneDefault(Filter(t, p))
    decreases |t|
  {
    if t != [] {
      assert t == [t[0]] + t[1..];
      FilterCons(t[0], t[1..], p);
      assert AtMostOneDefault(t[1..]) by {
        forall i, j | 0 <= i < |t[1..]| && 0 <= j < |t[1..]| && i != j
          ensures !BothDefaultOfOneUser(t[1..][i], t[1..][j])
        {
          assert t[i + 1] == t[1..][i] && t[j + 1] == t[1..][j];
        }
      }
      FilterKeepsAtMostOneDefault(t[1..], p);
      var rest := Filter(t[1..], p);
      if p(t[0]) {
        var r := [t[0]] + rest;
        forall i, j | 0 <= i < |r| && 0 <= j < |r| && i != j
          ensures !BothDefaultOfOneUser(r[i], r[j])
        {
          if i == 0 {
            assert r[j] == rest[j - 1];
            assert r[j] in t[1..];
            var k :| 0 <= k < |t[1..]| && t[1..][k] == r[j];
            assert t[k + 1] == r[j];
          } else if j == 0 {
            assert r[i] == rest[i - 1];
            assert r[i] in t[1..];
            var k :| 0 <= k < |t[1..]| && t[1..][k] == r[i];
            assert t[k + 1] == r[i];
          } else {
            assert r[i] == rest[i - 1] && r[j] == rest[j - 1];
          }
        }
      }
    }
  }

  /** A write that keeps every row's owner and only ever lowers flags keeps the invariant. */
  lemma FlagsOnlyDrop(t: seq<Address>, r: seq<Address>)
    requires AtMostOneDefault(t)
    requires |r| == |t|
    requires forall i :: 0 <= i < |t| ==> r[i].userId == t[i].userId && (r[i].isDefault ==> t[i].isDefault)
    ensures AtMostOneDefault(r)
  {
  }

  /** Patching in place keeps ids unique: no patch names the id column. */
  lemma UpdateKeepsUniqueIds(t: seq<Address>, matches: Address -> bool, p: AddressPatch)
    requires UniqueIds(t)
    ensures UniqueIds(UpdateWhere(t, matches, p))
  {
  }

  /**
   * Both writes of `setDefaultAddress` accepted, on a row of the user: every row of
   * the user now has the flag exactly when it is the target, no other column
   * changes, and other users' rows are untouched.
   */
  lemma SetDefaultLeavesSoleDefault(t: seq<Address>, u: UserId, id: AddressId)
    requires OwnsId(t, u, id)
    ensures var r := SetDefaultWrites(t, u, id, true, true);
      && |r| == |t|
      && (forall i :: 0 <= i < |t| && t[i].userId != u ==> r[i] == t[i])
      && (forall i :: 0 <= i < |t| && t[i].userId == u ==> r[i] == t[i].(isDefault := t[i].id == id))
  {
    var c := ClearDefaults(t, u);
    var r := SetDefaultWrites(t, u, id, true, true);
    forall i | 0 <= i < |t|
      ensures r[i] == if t[i].userId == u then t[i].(isDefault := t[i].id == id) else t[i]
    {
      assert c[i] == if t[i].userId == u then Apply(t[i], ClearPatch) else t[i];
      assert r[i] == if c[i].id == id then Apply(c[i], SetPatch) else c[i];
    }
  }

  /**
   * `setDefaultAddress(id)` followed by a read: the user's listing has exactly one
   * default row, it is `id`, and it comes first.
   */
  lemma SetDefaultThenRead(t: seq<Address>, u: UserId, id: AddressId)
    requires UniqueIds(t) && OwnsId(t, u, id)
    requires exists i :: 0 <= i < |t| && t[i].id == id
    ensures var l := Listing(SetDefaultWrites(t, u, id, true, true), u);
      && |l| > 0 && l[0].id == id && l[0].isDefault
      && forall i :: 0 < i < |l| ==> !l[i].isDefault
  {
    var r := SetDefaultWrites(t, u, id, true, true);
    SetDefaultLeavesSoleDefault(t, u, id);
    UpdateKeepsUniqueIds(t, OwnedBy(u), ClearPatch);
    UpdateKeepsUniqueIds(ClearDefaults(t, u), IdIs(id), SetPatch);
    var k :| 0 <= k < |t| && t[k].id == id;
    assert r[k].userId == u && r[k].isDefault && r[k].id == id;
    SoleDefaultListsFirst(r, u, id, k);
  }

  /** The listing is the user's default rows followed by their other rows. */
  lemma ListingIsSplit(t: seq<Address>, u: UserId)
    ensures Listing(t, u) == Filter(Filter(t, OwnedBy(u)), IsDefault) + Filter(Filter(t, OwnedBy(u)), NotDefault)
  {
  }

  /** A listing whose only default row of the user is `id` shows `id` first and no other default. */
  lemma SoleDefaultListsFirst(r: seq<Address>, u: UserId, id: AddressId, k: int)
    requires UniqueIds(r)
    requires 0 <= k < |r| && r[k].userId == u && r[k].isDefault && r[k].id == id
    requires forall i :: 0 <= i < |r| && r[i].userId == u && r[i].isDefault ==> r[i].id == id
    ensures var l := Listing(r, u);
      && |l| > 0 && l[0].id == id && l[0].isDefault
      && forall i :: 0 < i < |l| ==> !l[i].isDefault
  {
    var owned := Filter(r, OwnedBy(u));
    FilterKeepsUniqueIds(r, OwnedBy(u));
    assert r[k] in owned;
    ListingIsSplit(r, u);
    SoleDefaultSplitsFirst(owned, id, r[k]);
  }

  /** Rows whose only default is `id`, split defaults first, start with `id` and hold no other default. */
  lemma SoleDefaultSplitsFirst(owned: seq<Address>, id: AddressId, x: Address)
    requires UniqueIds(owned)
    requires x in owned && x.isDefault && x.id == id
    requires forall a :: a in owned && a.isDefault ==> a.id == id
    ensures var l := Filter(owned, IsDefault) + Filter(owned, NotDefault);
      && |l| > 0 && l[0].id == id && l[0].isDefault
      && forall i :: 0 < i < |l| ==> !l[i].isDefault
  {
    var d := Filter(owned, IsDefault);
    var n := Filter(owned, NotDefault);
    FilterKeepsUniqueIds(owned, IsDefault);
    assert x in d;
    if |d| > 1 {
      FirstTwoAreMembers(d);
      assert false;
    }
    var l := d + n;
    assert l[0] == d[0] && d[0] in d;
    forall i | 0 < i < |l|
      ensures !l[i].isDefault
    {
      assert l[i] == n[i - 1];
      assert l[i] in n;
    }
  }

  /**
   * The clear step's result is never checked: if it is rejected and the set step
   * is accepted, the user ends with two default rows.
   */
  lemma ClearRejectedLeavesTwoDefaults()
    ensures var t := [Address("a", "u", "", "", "", "", "", "", true),
                      Address("b", "u", "", "", "", "", "", "", false)];
      && AtMostOneDefault(t) && OwnsId(t, "u", "b")
      && !AtMostOneDefault(SetDefaultWrites(t, "u", "b", false, true))
  {
    var t := [Address("a", "u", "", "", "", "", "", "", true),
              Address("b", "u", "", "", "", "", "", "", false)];
    var r := SetDefaultWrites(t, "u", "b", false, true);
    assert r[0].isDefault && r[1].isDefault && r[0].userId == r[1].userId;
  }

  /** The invariant survives `setDefaultAddress` unless the clear is rejected and the set accepted. */
  lemma SetDefaultKeepsInvariant(t: seq<Address>, u: UserId, id: AddressId, clearOk: bool, setOk: bool)
    requires UniqueIds(t) && AtMostOneDefault(t) && OwnsId(t, u, id)
    requires setOk ==> clearOk
    ensures AtMostOneDefault(SetDefaultWrites(t, u, id, clearOk, setOk))
  {
    var c := ClearDefaults(t, u);
    if clearOk {
      FlagsOnlyDrop(t, c);
    }
    if setOk {
      var r := SetDefaultWrites(t, u, id, true, true);
      SetDefaultLeavesSoleDefault(t, u, id);
      forall i, j | 0 <= i < |r| && 0 <= j < |r| && i != j
        ensures !BothDefaultOfOneUser(r[i], r[j])
      {
        assert !BothDefaultOfOneUser(t[i], t[j]);
        assert t[i].id != t[j].id;
      }
    }
  }

  /** The invariant survives `addAddress` unless a default row is inserted after a rejected clear. */
  lemma AddKeepsInvariant(t: seq<Address>, u: UserId, input: AddressInput, newId: AddressId,
                          clearOk: bool, insertOk: bool)
    requires AtMostOneDefault(t)
    requires input.isDefault && insertOk ==> clearOk
    ensures AtMostOneDefault(AddWrites(t, u, input, newId, clearOk, insertOk))
  {
    var c := if input.isDefault && clearOk then ClearDefaults(t, u) else t;
    FlagsOnlyDrop(t, c);
    if insertOk {
      var r := c + [NewRow(newId, u, input)];
      forall i, j | 0 <= i < |r| && 0 <= j < |r| && i != j
        ensures !BothDefaultOfOneUser(r[i], r[j])
      {
        if i < |c| && j < |c| {
          assert r[i] == c[i] && r[j] == c[j];
        } else if i < |c| {
          assert r[i] == c[i];
        } else if j < |c| {
          assert r[j] == c[j];
        }
      }
    }
  }

  /** Adding a row under a fresh id keeps ids unique. */
  lemma AddKeepsUniqueIds(t: seq<Address>, u: UserId, input: AddressInput, newId: AddressId,
                          clearOk: bool, insertOk: bool)
    requires UniqueIds(t)
    requires forall i :: 0 <= i < |t| ==> t[i].id != newId
    ensures UniqueIds(AddWrites(t, u, input, newId, clearOk, insertOk))
  {
    var c := if input.isDefault && clearOk then ClearDefaults(t, u) else t;
    UpdateKeepsUniqueIds(t, OwnedBy(u), ClearPatch);
    if insertOk {
      var r := c + [NewRow(newId, u, input)];
      forall i, j | 0 <= i < j < |r|
        ensures r[i].id != r[j].id
      {
        assert r[i] == c[i];
        if j < |c| {
          assert r[j] == c[j];
        }
      }
    }
  }

  /**
   * `updateAddress` with both writes accepted: the row with that id takes the
   * supplied columns; the user's other rows lose their flag exactly when the
   * patch sets it; every other row is untouched.
   */
  lemma UpdateWritesEffect(t: seq<Address>, u: UserId, id: AddressId, p: AddressPatch)
    requires OwnsId(t, u, id)
    ensures var r := UpdateWrites(t, u, id, p, true, true);
      && |r| == |t|
      && (forall i :: 0 <= i < |t| && t[i].id == id ==>
            r[i] == Apply(if p.isDefault == Some(true) then t[i].(isDefault := false) else t[i], p))
      && (forall i :: 0 <= i < |t| && t[i].id != id && t[i].userId == u ==>
            r[i] == if p.isDefault == Some(true) then t[i].(isDefault := false) else t[i])
      && forall i :: 0 <= i < |t| && t[i].userId != u ==> r[i] == t[i]
  {
    var c := if p.isDefault == Some(true) then ClearDefaults(t, u) else t;
    var r := UpdateWrites(t, u, id, p, true, true);
    forall i | 0 <= i < |t|
      ensures c[i] == if p.isDefault == Some(true) && t[i].userId == u then t[i].(isDefault := false) else t[i]
    {
    }
  }

  /** The invariant survives `updateAddress` unless the flag is set after a rejected clear. */
  lemma UpdateKeepsInvariant(t: seq<Address>, u: UserId, id: AddressId, p: AddressPatch,
                             clearOk: bool, updateOk: bool)
    requires UniqueIds(t) && AtMostOneDefault(t) && OwnsId(t, u, id)
    requires p.isDefault == Some(true) && updateOk ==> clearOk
    ensures AtMostOneDefault(UpdateWrites(t, u, id, p, clearOk, updateOk))
  {
    var c := if p.isDefault == Some(true) && clearOk then ClearDefaults(t, u) else t;
    FlagsOnlyDrop(t, c);
    if updateOk {
      var r := UpdateWhere(c, IdIs(id), p);
      if p.isDefault == Some(true) {
        UpdateWritesEffect(t, u, id, p);
        forall i, j | 0 <= i < |r| && 0 <= j < |r| && i != j
          ensures !BothDefaultOfOneUser(r[i], r[j])
        {
          assert !BothDefaultOfOneUser(t[i], t[j]);
          assert t[i].id != t[j].id;
        }
      } else {
        FlagsOnlyDrop(c, r);
      }
    }
  }

  /** Deleting keeps both ids unique and the invariant. */
  lemma DeleteKeepsInvariant(t: seq<Address>, id: AddressId, deleteOk: bool)
    requires UniqueIds(t) && AtMostOneDefault(t)
    ensures UniqueIds(DeleteWrites(t, id, deleteOk)) && AtMostOneDefault(DeleteWrites(t, id, deleteOk))
  {
    FilterKeepsUniqueIds(t, OtherId(id));
    FilterKeepsAtMostOneDefault(t, OtherId(id));
  }

  /**
   * The state of `useAddresses` together with the table it reads and writes.
   * `user` is the signed-in user from the authentication context.
   */
  class AddressBook {
    var table: seq<Address>
    var user: Option<UserId>
    var addresses: seq<Address>
    var isLoading: bool

    ghost predicate Valid()
      reads this
    {
      UniqueIds(table)
    }

    /** The hook's first render: no rows listed yet, loading. */
    constructor (rows: seq<Address>, signedIn: Option<UserId>)
      requires UniqueIds(rows)
      ensures Valid()
      ensures table == rows && user == signedIn && addresses == [] && isLoading
    {
      table := rows;
      user := signedIn;
      addresses := [];
      isLoading := true;
    }

    /** `fetchAddresses`: nothing without a user; a rejected read keeps the previous list. */
    method FetchAddresses(readOk: bool)
      modifies this`addresses, this`isLoading
      ensures user.None? ==> addresses == old(addresses) && isLoading == old(isLoading)
      ensures user.Some? ==> !isLoading
      ensures user.Some? ==> addresses == if readOk then Listing(table, user.value) else old(addresses)
    {
      if user.None? {
        return;
      }
      isLoading := true;
      if readOk {
        addresses := Listing(table, user.value);
      }
      isLoading := false;
    }

    /** The effect on `[user]`: fetch for a user, otherwise an empty list that is not loading. */
    method OnUserChanged(signedIn: Option<UserId>, readOk: bool)
      modifies this`user, this`addresses, this`isLoading
      ensures user == signedIn && !isLoading
      ensures signedIn.None? ==> addresses == []
      ensures signedIn.Some? ==> addresses == if readOk then Listing(table, signedIn.value) else old(addresses)
    {
      user := signedIn;
      if user.Some? {
        FetchAddresses(readOk);
      } else {
        addresses := [];
        isLoading := false;
      }
    }

    /** `addAddress`; `newId` is the id the service assigns to the inserted row. */
    method AddAddress(input: AddressInput, newId: AddressId, clearOk: bool, insertOk: bool, readOk: bool)
      returns (report: Report)
      requires Valid()
      requires forall i :: 0 <= i < |table| ==> table[i].id != newId
      modifies this`table, this`addresses, this`isLoading
      ensures Valid()
      ensures user.None? ==> report == NoUser && table == old(table)
                             && addresses == old(addresses) && isLoading == old(isLoading)
      ensures user.Some? ==> table == AddWrites(old(table), user.value, input, newId, clearOk, insertOk)
      ensures user.Some? ==> report == if insertOk then Succeeded else Failed
      ensures report == Succeeded ==> !isLoading
                                      && addresses == if readOk then Listing(table, user.value) else old(addresses)
      ensures report == Failed ==> addresses == old(addresses) && isLoading == old(isLoading)
      ensures AtMostOneDefault(old(table)) && (input.isDefault && insertOk ==> clearOk) ==> AtMostOneDefault(table)
    {
      if user.None? {
        return NoUser;
      }
      var u := user.value;
      AddKeepsUniqueIds(table, u, input, newId, clearOk, insertOk);
      if AtMostOneDefault(table) && (input.isDefault && insertOk ==> clearOk) {
        AddKeepsInvariant(table, u, input, newId, clearOk, insertOk);
      }
      if input.isDefault && clearOk {
        table := ClearDefaults(table, u);
      }
      if !insertOk {
        return Failed;
      }
      table := table + [NewRow(newId, u, input)];
      FetchAddresses(readOk);
      return Succeeded;
    }

    /** `updateAddress(id, patch)`. */
    method UpdateAddress(id: AddressId, p: AddressPatch, clearOk: bool, updateOk: bool, readOk: bool)
      returns (report: Report)
      requires Valid()
      modifies this`table, this`addresses, this`isLoading
      ensures Valid()
      ensures user.None? ==> report == NoUser && table == old(table)
                             && addresses == old(addresses) && isLoading == old(isLoading)
      ensures user.Some? ==> table == UpdateWrites(old(table), user.value, id, p, clearOk, updateOk)
      ensures user.Some? ==> report == if updateOk then Succeeded else Failed
      ensures report == Succeeded ==> !isLoading
                                      && addresses == if readOk then Listing(table, user.value) else old(addresses)
      ensures report == Failed ==> addresses == old(addresses) && isLoading == old(isLoading)
      ensures (&& user.Some? && AtMostOneDefault(old(table)) && OwnsId(old(table), user.value, id)
               && (p.isDefault == Some(true) && updateOk ==> clearOk)) ==> AtMostOneDefault(table)
    {
      if user.None? {
        return NoUser;
      }
      var u := user.value;
      UpdateKeepsUniqueIds(table, OwnedBy(u), ClearPatch);
      if AtMostOneDefault(table) && OwnsId(table, u, id) && (p.isDefault == Some(true) && updateOk ==> clearOk) {
        UpdateKeepsInvariant(table, u, id, p, clearOk, updateOk);
      }
      if p.isDefault == Some(true) && clearOk {
        table := ClearDefaults(table, u);
      }
      if !updateOk {
        return Failed;
      }
      UpdateKeepsUniqueIds(table, IdIs(id), p);
      table := UpdateWhere(table, IdIs(id), p);
      FetchAddresses(readOk);
      return Succeeded;
    }

    /** `deleteAddress(id)`. */
    method DeleteAddress(id: AddressId, deleteOk: bool, readOk: bool) returns (report: Report)
      requires Valid()
      modifies this`table, this`addresses, this`isLoading
      ensures Valid()
      ensures user.None? ==> report == NoUser && table == old(table)
                             && addresses == old(addresses) && isLoading == old(isLoading)
      ensures user.Some? ==> table == DeleteWrites(old(table), id, deleteOk)
      ensures user.Some? ==> report == if deleteOk then Succeeded else Failed
      ensures report == Succeeded ==> !isLoading
                                      && addresses == if readOk then Listing(table, user.value) else old(addresses)
      ensures report == Failed ==> addresses == old(addresses) && isLoading == old(isLoading)
      ensures AtMostOneDefault(old(table)) ==> AtMostOneDefault(table)
    {
      if user.None? {
        return NoUser;
      }
      if AtMostOneDefault(table) {
        DeleteKeepsInvariant(table, id, deleteOk);
      }
      FilterKeepsUniqueIds(table, OtherId(id));
      if !deleteOk {
        return Failed;
      }
      table := Filter(table, OtherId(id));
      FetchAddresses(readOk);
      return Succeeded;
    }

    /** `setDefaultAddress(id)`: the clear's outcome is ignored; only the set step decides the report. */
    method SetDefaultAddress(id: AddressId, clearOk: bool, setOk: bool, readOk: bool) returns (report: Report)
      requires Valid()
      modifies this`table, this`addresses, this`isLoading
      ensures Valid()
      ensures user.None? ==> report == NoUser && table == old(table)
                             && addresses == old(addresses) && isLoading == old(isLoading)
      ensures user.Some? ==> table == SetDefaultWrites(old(table), user.value, id, clearOk, setOk)
      ensures user.Some? ==> report == if setOk then Succeeded else Failed
      ensures report == Succeeded ==> !isLoading
                                      && addresses == if readOk then Listing(table, user.value) else old(addresses)
      ensures report == Failed ==> addresses == old(addresses) && isLoading == old(isLoading)
      ensures (&& user.Some? && AtMostOneDefault(old(table)) && OwnsId(old(table), user.value, id)
               && (setOk ==> clearOk)) ==> AtMostOneDefault(table)
    {
      if user.None? {
        return NoUser;
      }
      var u := user.value;
      UpdateKeepsUniqueIds(table, OwnedBy(u), ClearPatch);
      if AtMostOneDefault(table) && OwnsId(table, u, id) && (setOk ==> clearOk) {
        SetDefaultKeepsInvariant(table, u, id, clearOk, setOk);
      }
      if clearOk {
        table := ClearDefaults(table, u);
      }
      if !setOk {
        return Failed;
      }
      UpdateKeepsUniqueIds(table, IdIs(id), SetPatch);
      table := UpdateWhere(table, IdIs(id), SetPatch);
      FetchAddresses(readOk);
      return Succeeded;
    }
  }
}
