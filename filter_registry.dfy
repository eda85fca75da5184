/**
 The Filter collection as server state: the table of records, the id
 generator, the clock that `new Date()` reads, and a ghost log of the
 display-name propagation calls made so far. Each server method updates
 this state in place and is proved to do what its step function says.
 */
module FilterRegistry {
  import opened FilterSchema
  import opened FilterAccess
  import opened FilterMethods

  class Registry {
    var filters: Table
    /** The id the next insert receives; every stored id is below it. */
    var nextId: Id
    /** The current time. */
    var now: nat
    /** Every `setUsersFiltersFilterDisplayName` call made, in order. */
    ghost var propagated: seq<Propagation>

    ghost predicate Valid()
      reads this
    {
      && (forall id :: id in filters ==> id < nextId)
      && TableWellFormed(filters, now)
    }

    constructor ()
      ensures Valid()
      ensures filters == map[] && nextId == 0 && now == 0 && propagated == []
    {
      filters := map[];
      nextId := 0;
      now := 0;
      propagated := [];
    }

    /** Time passes; nothing stored changes. */
    method AdvanceClock(t: nat)
      requires Valid() && now <= t
      modifies this
      ensures Valid()
      ensures now == t
      ensures filters == old(filters) && nextId == old(nextId) && propagated == old(propagated)
    {
      WellFormedAsTimePasses(filters, now, t);
      now := t;
    }

    /** `Filter.find({ filterShortName: name }).count()`. */
    method CountByShortName(name: string) returns (n: nat)
      ensures n == |HoldersOf(filters, name)|
      ensures n > 0 <==> NameInUse(filters, name)
    {
      var rest := filters.Keys;
      ghost var seen: set<Id> := {};
      n := 0;
      while rest != {}
        invariant rest !! seen && rest + seen == filters.Keys
        invariant n == |HoldersOf(filters, name) * seen|
        decreases |rest|
      {
        var id :| id in rest;
        var holders := HoldersOf(filters, name);
        if filters[id].shortName == Some(name) {
          assert holders * (seen + {id}) == holders * seen + {id};
          n := n + 1;
        } else {
          assert holders * (seen + {id}) == holders * seen;
        }
        rest := rest - {id};
        seen := seen + {id};
      }
      assert HoldersOf(filters, name) * seen == HoldersOf(filters, name);
      CountPositiveIffInUse(filters, name);
    }

    /**
     The count-then-insert both create methods share. The new record gets the
     id `nextId`; `r` fails when the short name is taken or a value is too long.
     */
    method Create(f: Fields) returns (r: Outcome)
      requires Valid()
      modifies this
      ensures Valid()
      ensures Step(r, filters, []) == FilterMethods.Create(old(filters), old(nextId), f, old(now))
      ensures nextId == if r.Done? then old(nextId) + 1 else old(nextId)
      ensures now == old(now) && propagated == old(propagated)
    {
      var n := CountByShortName(f.shortName);
      if n > 0 {
        r := Failed(FilterNameAlreadyTaken);
      } else if !WithinLimits(AllKeys(f)) {
        r := Failed(LengthExceeded);
      } else {
        CreateKeepsWellFormed(filters, nextId, f, now);
        filters := filters[nextId := Inserted(AllKeys(f), now)];
        nextId := nextId + 1;
        r := Done;
      }
    }

    /** `Filter.update(selector, { $set: p })`, the selector resolved to the id `id`. */
    method Update(id: Id, p: Patch) returns (r: Outcome)
      requires Valid()
      modifies this
      ensures Valid()
      ensures Step(r, filters, []) == FilterMethods.Update(old(filters), id, p, old(now))
      ensures nextId == old(nextId) && now == old(now) && propagated == old(propagated)
    {
      if !WithinLimits(p) {
        r := Failed(LengthExceeded);
        return;
      }
      UpdateKeepsWellFormed(filters, id, p, now);
      if id in filters {
        filters := filters[id := Updated(filters[id], p, now)];
      }
      r := Done;
    }

    method SetCreateFilter(caller: Option<User>, f: Fields) returns (r: Outcome)
      requires Valid()
      modifies this
      ensures Valid()
      ensures var s := FilterMethods.SetCreateFilter(caller, old(filters), old(nextId), f, old(now));
        r == s.outcome && filters == s.table && propagated == old(propagated) + s.calls
      ensures nextId == if old(nextId) in filters then old(nextId) + 1 else old(nextId)
      ensures now == old(now)
    {
      r := Done;
      if IsAdmin(caller) {
        r := Create(f);
      }
    }

    method SetCreateFilterFromOidc(f: Fields) returns (r: Outcome)
      requires Valid()
      modifies this
      ensures Valid()
      ensures var s := FilterMethods.SetCreateFilterFromOidc(old(filters), old(nextId), f, old(now));
        r == s.outcome && filters == s.table && propagated == old(propagated) + s.calls
      ensures nextId == if old(nextId) in filters then old(nextId) + 1 else old(nextId)
      ensures now == old(now)
    {
      r := Create(f);
    }

    method SetFilterDisplayName(caller: Option<User>, id: Id, name: string) returns (r: Outcome)
      requires Valid()
      modifies this
      ensures Valid()
      ensures var s := FilterMethods.SetFilterDisplayName(caller, old(filters), id, name, old(now));
        r == s.outcome && filters == s.table && propagated == old(propagated) + s.calls
      ensures now == old(now) && nextId == old(nextId)
    {
      r := Done;
      if IsAdmin(caller) {
        r := Update(id, NoKeys.(displayName := Some(name)));
        if r.Done? {
          propagated := propagated + [Propagation(id, name)];
        }
      }
    }

    method SetFilterDesc(caller: Option<User>, id: Id, desc: string) returns (r: Outcome)
      requires Valid()
      modifies this
      ensures Valid()
      ensures var s := FilterMethods.SetFilterDesc(caller, old(filters), id, desc, old(now));
        r == s.outcome && filters == s.table && propagated == old(propagated) + s.calls
      ensures now == old(now) && nextId == old(nextId)
    {
      r := Done;
      if IsAdmin(caller) {
        r := Update(id, NoKeys.(desc := Some(desc)));
      }
    }

    method SetFilterShortName(caller: Option<User>, id: Id, name: string) returns (r: Outcome)
      requires Valid()
      modifies this
      ensures Valid()
      ensures var s := FilterMethods.SetFilterShortName(caller, old(filters), id, name, old(now));
        r == s.outcome && filters == s.table && propagated == old(propagated) + s.calls
      ensures now == old(now) && nextId == old(nextId)
    {
      r := Done;
      if IsAdmin(caller) {
        r := Update(id, NoKeys.(shortName := Some(name)));
      }
    }

    method SetFilterIsActive(caller: Option<User>, id: Id, active: bool) returns (r: Outcome)
      requires Valid()
      modifies this
      ensures Valid()
      ensures var s := FilterMethods.SetFilterIsActive(caller, old(filters), id, active, old(now));
        r == s.outcome && filters == s.table && propagated == old(propagated) + s.calls
      ensures now == old(now) && nextId == old(nextId)
    {
      r := Done;
      if IsAdmin(caller) {
        r := Update(id, NoKeys.(isActive := Some(active)));
      }
    }

    method SetFilterAllFieldsFromOidc(id: Id, f: Fields) returns (r: Outcome)
      requires Valid()
      modifies this
      ensures Valid()
      ensures var s := FilterMethods.SetFilterAllFieldsFromOidc(old(filters), id, f, old(now));
        r == s.outcome && filters == s.table && propagated == old(propagated) + s.calls
      ensures now == old(now) && nextId == old(nextId)
    {
      r := Update(id, AllKeys(f));
      if r.Done? {
        propagated := propagated + [Propagation(id, f.displayName)];
      }
    }

    method SetFilterAllFields(caller: Option<User>, id: Id, f: Fields) returns (r: Outcome)
      requires Valid()
      modifies this
      ensures Valid()
      ensures var s := FilterMethods.SetFilterAllFields(caller, old(filters), id, f, old(now));
        r == s.outcome && filters == s.table && propagated == old(propagated) + s.calls
      ensures now == old(now) && nextId == old(nextId)
    {
      r := Done;
      if IsAdmin(caller) {
        r := Update(id, AllKeys(f));
        if r.Done? {
          propagated := propagated + [Propagation(id, f.displayName)];
        }
      }
    }
  }
}
