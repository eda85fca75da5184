/**
 The eight server methods as functions from the table (and the caller, the
 record id a create would receive, and the clock) to a Step: the outcome,
 the new table and the display-name propagation calls made.
 */
module FilterMethods {
  import opened FilterSchema
  import opened FilterAccess

  type Table = map<Id, Filter>

  /** The one error a method throws itself, and the schema's length rejection. */
  datatype Error = FilterNameAlreadyTaken | LengthExceeded

  datatype Outcome = Done | Failed(error: Error)

  /** One call that copies a filter's display name into the users' records. */
  datatype Propagation = Propagation(filterId: Id, displayName: string)

  datatype Step = Step(outcome: Outcome, table: Table, calls: seq<Propagation>)

  function NoChange(t: Table): Step {
    Step(Done, t, [])
  }

  /** The ids of the records whose short name is `name`. */
  function HoldersOf(t: Table, name: string): set<Id> {
    set id | id in t && t[id].shortName == Some(name)
  }

  predicate NameInUse(t: Table, name: string) {
    exists id :: id in t && t[id].shortName == Some(name)
  }

  /** Counting the holders of a name tells whether the name is in use. */
  lemma {:induction false} CountPositiveIffInUse(t: Table, name: string)
    ensures |HoldersOf(t, name)| > 0 <==> NameInUse(t, name)
  {
    if NameInUse(t, name) {
      var id :| id in t && t[id].shortName == Some(name);
      assert id in HoldersOf(t, name);
    } else {
      assert HoldersOf(t, name) == {};
    }
  }

  /**
   The body shared by both create methods: count the records holding the short
   name, throw if there is one, otherwise insert the five values as record `id`
   (an insert the schema rejects when a value is too long). An insert never
   overwrites: `id` is the fresh id Mongo generates for the new document.
   */
  function Create(t: Table, id: Id, f: Fields, now: nat): (s: Step)
    requires id !in t
    ensures s.calls == []
    ensures s.outcome == Failed(FilterNameAlreadyTaken) <==> NameInUse(t, f.shortName)
    ensures s.outcome == Failed(LengthExceeded) <==> !NameInUse(t, f.shortName) && !WithinLimits(AllKeys(f))
    ensures s.outcome.Failed? ==> s.table == t
    ensures s.outcome.Done? ==> s.table.Keys == t.Keys + {id} && s.table[id] == Inserted(AllKeys(f), now)
    ensures s.outcome.Done? ==> forall k :: k in t && k != id ==> s.table[k] == t[k]
  {
    CountPositiveIffInUse(t, f.shortName);
    var n := |HoldersOf(t, f.shortName)|;
    if n > 0 then Step(Failed(FilterNameAlreadyTaken), t, [])
    else if !WithinLimits(AllKeys(f)) then Step(Failed(LengthExceeded), t, [])
    else Step(Done, t[id := Inserted(AllKeys(f), now)], [])
  }

  /**
   The body shared by every setter: `Filter.update(selector, {$set: p})`,
   with the selector resolved to the id `id`. An over-long value makes the
   update throw before anything is written; an id that matches no record
   writes nothing.
   */
  function Update(t: Table, id: Id, p: Patch, now: nat): (s: Step)
    ensures s.calls == []
    ensures s.outcome.Done? <==> WithinLimits(p)
    ensures s.outcome.Failed? ==> s.outcome.error == LengthExceeded && s.table == t
    ensures s.table.Keys == t.Keys
    ensures forall k :: k in t && k != id ==> s.table[k] == t[k]
    ensures s.outcome.Done? && id in t ==> s.table[id] == Updated(t[id], p, now)
  {
    if !WithinLimits(p) then Step(Failed(LengthExceeded), t, [])
    else if id in t then Step(Done, t[id := Updated(t[id], p, now)], [])
    else NoChange(t)
  }

  /** `Meteor.call('setUsersFiltersFilterDisplayName', id, name)`, reached only when the update did not throw. */
  function ThenPropagate(s: Step, id: Id, name: string): Step {
    if s.outcome.Done? then s.(calls := s.calls + [Propagation(id, name)]) else s
  }

  // ---- the eight methods ----

  function SetCreateFilter(caller: Option<User>, t: Table, id: Id, f: Fields, now: nat): (s: Step)
    requires id !in t
    ensures s.calls == []
    ensures s.outcome == Failed(FilterNameAlreadyTaken) <==> IsAdmin(caller) && NameInUse(t, f.shortName)
    ensures s.outcome.Done? && s.table != t <==>
              IsAdmin(caller) && !NameInUse(t, f.shortName) && WithinLimits(AllKeys(f))
  {
    if IsAdmin(caller) then Create(t, id, f, now) else NoChange(t)
  }

  function SetCreateFilterFromOidc(t: Table, id: Id, f: Fields, now: nat): (s: Step)
    requires id !in t
    ensures s.calls == []
    ensures s.outcome == Failed(FilterNameAlreadyTaken) <==> NameInUse(t, f.shortName)
    ensures s.outcome.Done? <==> !NameInUse(t, f.shortName) && WithinLimits(AllKeys(f))
  {
    Create(t, id, f, now)
  }

  function SetFilterDisplayName(caller: Option<User>, t: Table, id: Id, name: string, now: nat): (s: Step)
    ensures s.outcome == Done && s.table.Keys == t.Keys
    ensures IsAdmin(caller) ==> s.calls == [Propagation(id, name)]
    ensures IsAdmin(caller) && id in t ==> s.table[id].displayName == Some(name)
  {
    if IsAdmin(caller) then ThenPropagate(Update(t, id, NoKeys.(displayName := Some(name)), now), id, name)
    else NoChange(t)
  }

  function SetFilterDesc(caller: Option<User>, t: Table, id: Id, desc: string, now: nat): (s: Step)
    ensures s.calls == [] && s.table.Keys == t.Keys
    ensures s.outcome.Done? <==> !IsAdmin(caller) || Utf16Length(desc) <= MaxDescLength
    ensures IsAdmin(caller) && s.outcome.Done? && id in t ==> s.table[id].desc == Some(desc)
  {
    if IsAdmin(caller) then Update(t, id, NoKeys.(desc := Some(desc)), now) else NoChange(t)
  }

  function SetFilterShortName(caller: Option<User>, t: Table, id: Id, name: string, now: nat): (s: Step)
    ensures s.calls == [] && s.table.Keys == t.Keys
    ensures s.outcome.Done? <==> !IsAdmin(caller) || Utf16Length(name) <= MaxShortNameLength
    ensures IsAdmin(caller) && s.outcome.Done? && id in t ==> s.table[id].shortName == Some(name)
  {
    if IsAdmin(caller) then Update(t, id, NoKeys.(shortName := Some(name)), now) else NoChange(t)
  }

  function SetFilterIsActive(caller: Option<User>, t: Table, id: Id, active: bool, now: nat): (s: Step)
    ensures s.outcome == Done && s.calls == [] && s.table.Keys == t.Keys
    ensures IsAdmin(caller) && id in t ==> s.table[id].isActive == Some(active)
  {
    if IsAdmin(caller) then Update(t, id, NoKeys.(isActive := Some(active)), now) else NoChange(t)
  }

  function SetFilterAllFieldsFromOidc(t: Table, id: Id, f: Fields, now: nat): (s: Step)
    ensures s.table.Keys == t.Keys
    ensures s.outcome.Done? <==> WithinLimits(AllKeys(f))
    ensures s.calls == if s.outcome.Done? then [Propagation(id, f.displayName)] else []
  {
    ThenPropagate(Update(t, id, AllKeys(f), now), id, f.displayName)
  }

  function SetFilterAllFields(caller: Option<User>, t: Table, id: Id, f: Fields, now: nat): (s: Step)
    ensures IsAdmin(caller) ==> s == SetFilterAllFieldsFromOidc(t, id, f, now)
  {
    if IsAdmin(caller) then ThenPropagate(Update(t, id, AllKeys(f), now), id, f.displayName)
    else NoChange(t)
  }

  // ---- properties ----

  /** Every admin-gated method, called by a non-admin, changes nothing, propagates nothing and throws nothing. */
  lemma NonAdminCallsChangeNothing(caller: Option<User>, t: Table, newId: Id, id: Id, f: Fields, s: string, b: bool, now: nat)
    requires !IsAdmin(caller) && newId !in t
    ensures SetCreateFilter(caller, t, newId, f, now) == NoChange(t)
    ensures SetFilterDisplayName(caller, t, id, s, now) == NoChange(t)
    ensures SetFilterDesc(caller, t, id, s, now) == NoChange(t)
    ensures SetFilterShortName(caller, t, id, s, now) == NoChange(t)
    ensures SetFilterIsActive(caller, t, id, b, now) == NoChange(t)
    ensures SetFilterAllFields(caller, t, id, f, now) == NoChange(t)
  {
  }

  /**
   The provider-path create needs no admin: it does what the admin create does
   for an admin, and for a caller the gated create ignores it still inserts.
   */
  lemma OidcCreateIsUngatedCreate(caller: Option<User>, admin: Option<User>, t: Table, id: Id, f: Fields, now: nat)
    requires IsAdmin(admin) && id !in t
    ensures SetCreateFilterFromOidc(t, id, f, now) == SetCreateFilter(admin, t, id, f, now)
    ensures !IsAdmin(caller) && !NameInUse(t, f.shortName) && WithinLimits(AllKeys(f)) ==>
              id in SetCreateFilterFromOidc(t, id, f, now).table && SetCreateFilter(caller, t, id, f, now).table == t
  {
  }

  /** A create with an unused short name and a fresh id adds exactly one record and keeps every other one. */
  lemma CreateAddsExactlyOne(t: Table, id: Id, f: Fields, now: nat)
    requires id !in t && !NameInUse(t, f.shortName) && WithinLimits(AllKeys(f))
    ensures var s := Create(t, id, f, now);
      && s.outcome == Done
      && |s.table| == |t| + 1
      && s.table[id].displayName == Some(f.displayName) && s.table[id].desc == Some(f.desc)
      && s.table[id].shortName == Some(f.shortName) && s.table[id].website == Some(f.website)
      && s.table[id].isActive == Some(f.isActive)
      && s.table[id].createdAt == now == s.table[id].modifiedAt
      && forall k :: k in t ==> k in s.table && s.table[k] == t[k]
  {
    var s := Create(t, id, f, now);
    assert s.table.Keys == t.Keys + {id};
    assert |s.table.Keys| == |t.Keys| + 1;
  }

  /** Two creates with the same short name: once the first has succeeded, the second throws and adds nothing. */
  lemma {:induction false} SecondCreateWithSameNameFails(t: Table, id1: Id, id2: Id, f: Fields, g: Fields, now1: nat, now2: nat)
    requires id1 !in t && id2 !in t && id1 != id2 && g.shortName == f.shortName
    requires Create(t, id1, f, now1).outcome.Done?
    ensures var t1 := Create(t, id1, f, now1).table;
      Create(t1, id2, g, now2) == Step(Failed(FilterNameAlreadyTaken), t1, [])
  {
    var t1 := Create(t, id1, f, now1).table;
    assert id1 in t1 && t1[id1].shortName == Some(g.shortName);
    assert NameInUse(t1, g.shortName);
  }

  /** No two records share a short name. */
  predicate UniqueShortNames(t: Table) {
    forall a, b :: a in t && b in t && a != b && t[a].shortName.Some? ==> t[a].shortName != t[b].shortName
  }

  /** Creation keeps short names unique. */
  lemma {:induction false} CreateKeepsNamesUnique(t: Table, id: Id, f: Fields, now: nat)
    requires UniqueShortNames(t) && id !in t
    ensures UniqueShortNames(Create(t, id, f, now).table)
  {
    var s := Create(t, id, f, now);
    if s.outcome.Done? {
      forall a, b | a in s.table && b in s.table && a != b && s.table[a].shortName.Some?
        ensures s.table[a].shortName != s.table[b].shortName
      {
        if a == id {
          assert !NameInUse(t, f.shortName);
          assert b in t;
        } else if b == id {
          assert !NameInUse(t, f.shortName);
          assert a in t;
        }
      }
    }
  }

  /**
   Setting a short name consults no other record: two admin calls giving two
   existing records the same short name both succeed, and the table then
   holds that name twice.
   */
  lemma {:induction false} ShortNameSetterAllowsDuplicates(caller: Option<User>, t: Table, a: Id, b: Id, name: string, now1: nat, now2: nat)
    requires IsAdmin(caller) && a in t && b in t && a != b && Utf16Length(name) <= MaxShortNameLength
    ensures var s1 := SetFilterShortName(caller, t, a, name, now1);
      var s2 := SetFilterShortName(caller, s1.table, b, name, now2);
      && s1.outcome == Done && s2.outcome == Done
      && s2.table[a].shortName == Some(name) && s2.table[b].shortName == Some(name)
      && !UniqueShortNames(s2.table)
  {
    var s1 := SetFilterShortName(caller, t, a, name, now1);
    var s2 := SetFilterShortName(caller, s1.table, b, name, now2);
    assert s2.table[a] == s1.table[a];
    assert s2.table[a].shortName == Some(name) && s2.table[b].shortName == Some(name);
  }

  /** What renaming does: one field, both timestamps as the schema says, one propagation call. */
  lemma RenameUpdatesAndPropagates(caller: Option<User>, t: Table, id: Id, name: string, now: nat)
    requires IsAdmin(caller) && id in t
    ensures var s := SetFilterDisplayName(caller, t, id, name, now);
      && s.outcome == Done
      && s.calls == [Propagation(id, name)]
      && s.table.Keys == t.Keys
      && s.table[id] == t[id].(displayName := Some(name), modifiedAt := now)
      && forall k :: k in t && k != id ==> s.table[k] == t[k]
  {
  }

  /**
   Which methods propagate: the display-name setter and both bulk setters make
   exactly one call with the selected id and the new name (when they do not
   throw); the other setters and both creates make none.
   */
  lemma PropagationCalls(caller: Option<User>, t: Table, newId: Id, id: Id, f: Fields, s: string, b: bool, now: nat)
    requires IsAdmin(caller) && newId !in t
    ensures SetFilterDisplayName(caller, t, id, s, now).calls == [Propagation(id, s)]
    ensures WithinLimits(AllKeys(f)) ==> SetFilterAllFields(caller, t, id, f, now).calls == [Propagation(id, f.displayName)]
    ensures !WithinLimits(AllKeys(f)) ==> SetFilterAllFields(caller, t, id, f, now).calls == []
    ensures WithinLimits(AllKeys(f)) ==> SetFilterAllFieldsFromOidc(t, id, f, now).calls == [Propagation(id, f.displayName)]
    ensures !WithinLimits(AllKeys(f)) ==> SetFilterAllFieldsFromOidc(t, id, f, now).calls == []
    ensures SetFilterDesc(caller, t, id, s, now).calls == []
    ensures SetFilterShortName(caller, t, id, s, now).calls == []
    ensures SetFilterIsActive(caller, t, id, b, now).calls == []
    ensures SetCreateFilter(caller, t, newId, f, now).calls == []
    ensures SetCreateFilterFromOidc(t, newId, f, now).calls == []
  {
  }

  /** Each single-field setter changes only its own key (and `modifiedAt`) on the selected record. */
  lemma SingleFieldSettersChangeOneKey(caller: Option<User>, t: Table, id: Id, s: string, b: bool, now: nat)
    requires IsAdmin(caller) && id in t
    ensures Utf16Length(s) <= MaxDescLength ==>
      SetFilterDesc(caller, t, id, s, now).table == t[id := t[id].(desc := Some(s), modifiedAt := now)]
    ensures Utf16Length(s) > MaxDescLength ==> SetFilterDesc(caller, t, id, s, now) == Step(Failed(LengthExceeded), t, [])
    ensures Utf16Length(s) <= MaxShortNameLength ==>
      SetFilterShortName(caller, t, id, s, now).table == t[id := t[id].(shortName := Some(s), modifiedAt := now)]
    ensures Utf16Length(s) > MaxShortNameLength ==> SetFilterShortName(caller, t, id, s, now) == Step(Failed(LengthExceeded), t, [])
    ensures SetFilterIsActive(caller, t, id, b, now).table == t[id := t[id].(isActive := Some(b), modifiedAt := now)]
  {
  }

  /**
   Lengths are JavaScript lengths: a description of more than 95 characters,
   all outside the Basic Multilingual Plane, is over the cap in UTF-16 code
   units even when it has at most 190 characters, and the setter rejects it.
   */
  lemma {:induction false} AstralDescriptionRejected(caller: Option<User>, t: Table, id: Id, d: string, now: nat)
    requires IsAdmin(caller) && 2 * |d| > MaxDescLength
    requires forall i :: 0 <= i < |d| ==> d[i] as int > 0xFFFF
    ensures SetFilterDesc(caller, t, id, d, now) == Step(Failed(LengthExceeded), t, [])
  {
    Utf16LengthBounds(d);
  }

  /** A bulk setter overwrites all five keys of the selected record and keeps its creation time. */
  lemma BulkSettersChangeAllKeys(caller: Option<User>, t: Table, id: Id, f: Fields, now: nat)
    requires id in t && WithinLimits(AllKeys(f))
    ensures var r := Inserted(AllKeys(f), now).(createdAt := t[id].createdAt);
      && SetFilterAllFieldsFromOidc(t, id, f, now).table == t[id := r]
      && (IsAdmin(caller) ==> SetFilterAllFields(caller, t, id, f, now).table == t[id := r])
  {
  }

  /** A selector that matches no record leaves the table as it is. */
  lemma UnmatchedSelectorWritesNothing(caller: Option<User>, t: Table, id: Id, f: Fields, s: string, b: bool, now: nat)
    requires id !in t
    ensures SetFilterDisplayName(caller, t, id, s, now).table == t
    ensures SetFilterDesc(caller, t, id, s, now).table == t
    ensures SetFilterShortName(caller, t, id, s, now).table == t
    ensures SetFilterIsActive(caller, t, id, b, now).table == t
    ensures SetFilterAllFields(caller, t, id, f, now).table == t
    ensures SetFilterAllFieldsFromOidc(t, id, f, now).table == t
  {
  }

  /** Every record is within the length caps and its timestamps are ordered and not in the future. */
  predicate TableWellFormed(t: Table, now: nat) {
    forall id :: id in t ==> WellFormed(t[id], now)
  }

  /** Every step of every method keeps the table well formed. */
  lemma {:induction false} MethodsKeepTableWellFormed(caller: Option<User>, t: Table, newId: Id, id: Id, f: Fields, s: string, b: bool, now: nat)
    requires TableWellFormed(t, now) && newId !in t
    ensures TableWellFormed(SetCreateFilter(caller, t, newId, f, now).table, now)
    ensures TableWellFormed(SetCreateFilterFromOidc(t, newId, f, now).table, now)
    ensures TableWellFormed(SetFilterDisplayName(caller, t, id, s, now).table, now)
    ensures TableWellFormed(SetFilterDesc(caller, t, id, s, now).table, now)
    ensures TableWellFormed(SetFilterShortName(caller, t, id, s, now).table, now)
    ensures TableWellFormed(SetFilterIsActive(caller, t, id, b, now).table, now)
    ensures TableWellFormed(SetFilterAllFields(caller, t, id, f, now).table, now)
    ensures TableWellFormed(SetFilterAllFieldsFromOidc(t, id, f, now).table, now)
  {
    CreateKeepsWellFormed(t, newId, f, now);
    UpdateKeepsWellFormed(t, id, NoKeys.(displayName := Some(s)), now);
    UpdateKeepsWellFormed(t, id, NoKeys.(desc := Some(s)), now);
    UpdateKeepsWellFormed(t, id, NoKeys.(shortName := Some(s)), now);
    UpdateKeepsWellFormed(t, id, NoKeys.(isActive := Some(b)), now);
    UpdateKeepsWellFormed(t, id, AllKeys(f), now);
  }

  lemma {:induction false} CreateKeepsWellFormed(t: Table, id: Id, f: Fields, now: nat)
    requires TableWellFormed(t, now) && id !in t
    ensures TableWellFormed(Create(t, id, f, now).table, now)
  {
    var s := Create(t, id, f, now);
    forall k | k in s.table ensures WellFormed(s.table[k], now) {
      if s.outcome.Done? && k == id {
        assert s.table[k] == Inserted(AllKeys(f), now);
      } else {
        assert k in t;
      }
    }
  }

  lemma {:induction false} UpdateKeepsWellFormed(t: Table, id: Id, p: Patch, now: nat)
    requires TableWellFormed(t, now)
    ensures TableWellFormed(Update(t, id, p, now).table, now)
  {
    var s := Update(t, id, p, now);
    forall k | k in s.table ensures WellFormed(s.table[k], now) {
      assert WellFormed(t[k], now);
    }
  }

  /** As the clock advances, a well-formed table stays well formed. */
  lemma {:induction false} WellFormedAsTimePasses(t: Table, now: nat, later: nat)
    requires TableWellFormed(t, now) && now <= later
    ensures TableWellFormed(t, later)
  {
    forall k | k in t ensures WellFormed(t[k], later) {
      assert WellFormed(t[k], now);
    }
  }
}
