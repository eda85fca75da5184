# Filter registry

A Dafny model of WeKan's Filter collection (`models/filter.js`). A Filter is an
admin-curated record used to group users. It has five optional keys: display
name, description, short name, website and active flag. It also has two
timestamps that the schema fills in itself.

The model has four modules:

- `FilterSchema` (`filter_schema.dfy`) holds the stored record. It has the
  schema's maximum lengths (description 190, short name 255, website 255),
  measured as JavaScript measures a string: in UTF-16 code units. It
  has the two `autoValue` rules for `createdAt` and `modifiedAt`. It also says
  what an insert stores and what an update with a `$set` modifier leaves behind.
- `FilterAccess` (`filter_access.dfy`) holds the client write rule. The
  server installs it as `Filter.allow` for insert, update and remove.
- `FilterMethods` (`filter_methods.dfy`) models each of the eight server
  methods as a function. Its inputs are the caller, the table, the selected
  record id (or the id a create would assign) and the clock. It returns a
  `Step`: the outcome, the new table and the display-name propagation calls
  made. The lemmas about these functions state the properties below.
- `FilterRegistry` (`filter_registry.dfy`) holds the class `Registry`. It is the
  collection as mutable server state: a map from id to record, an id
  generator, an integer clock and a ghost log of propagation calls. Each server
  method updates this state in place. Its postcondition equates the new state
  with the step function of the old state. `Valid()` is kept by every method.
  It says that every stored record is within the length caps, that
  `createdAt <= modifiedAt <= now`, and that every id is below the next id.
  `CountByShortName` is the `find({filterShortName}).count()` query, written as
  a loop over the table.

Control flow follows the code:

- The admin-gated methods test `Meteor.user() && Meteor.user().isAdmin` first.
  When a non-admin calls one, it returns with no error and changes nothing.
- The two creates count the records holding the short name first. A count
  above zero throws `filtername-already-taken` (`FilterNameAlreadyTaken`).
- Only after that does the insert run the schema. A value over its maximum
  length is rejected (`LengthExceeded`) and nothing is stored.
- In the setters, a rejected modifier throws before the propagation call, so
  no call is made.
- A selector that matches no record writes nothing. The propagation call
  still happens, because the code makes it unconditionally after the update.

Inputs from outside the collection are parameters. The current user is an
`Option<User>`. The clock is the field `now`, moved forward by `AdvanceClock`.
The id of a new document comes from the counter `nextId`; it stands for
Mongo's id generator, and any fresh id would serve.

The model also follows the code on these points:

- A non-admin call to a gated method is a silent no-op, not an authorization
  error.
- The admin test comes before the type checks.
- The client write rule also allows a write when the session's current user
  (`Meteor.user()`) is an admin, even if the lookup by `userId` found no user.

## Model

| member | source | states |
|---|---|---|
| FilterSchema.CreatedAtAutoValue | models/filter.js:48-62 | `createdAt` is given the current time exactly on an insert; any other write leaves it out |
| FilterSchema.ModifiedAtAutoValue | models/filter.js:64-75 | `modifiedAt` is given the current time on every insert and every update |
| FilterSchema.Inserted | models/filter.js:136-142 | an inserted record holds exactly the written keys, has `createdAt == modifiedAt == now`, and is well formed when the write is within the length caps |
| FilterSchema.Updated | models/filter.js:175-177 | a `$set` overwrites exactly the keys it names, keeps every other key and `createdAt`, sets `modifiedAt` to now, and keeps the record well formed when within the caps |
| FilterSchema.Utf16LengthBounds | models/filter.js:23 | the JavaScript length the `max` rules compare lies between the character count and twice it, equal to the count exactly when all characters are in the Basic Multilingual Plane and to twice it exactly when none are |
| FilterAccess.Allow | models/filter.js:80-113 | the rule each of the three identical callbacks (insert, update, remove) runs: allowed when either user lookup is an admin; otherwise denied when the user is not found; otherwise allowed exactly when the document id equals the caller's id |
| FilterAccess.NonAdminWritesOnlyOwnId | models/filter.js:87-90 | a non-admin may write exactly the document whose id is its own, and only when its user record exists |
| FilterMethods.CountPositiveIffInUse | models/filter.js:132-133 | the count is positive exactly when some record holds the short name |
| FilterMethods.Create | models/filter.js:132-142 | for a fresh id, throws `filtername-already-taken` exactly when the short name is in use, is rejected by the schema exactly when it is free and a value is too long, leaves the table unchanged on failure, and on success adds the one new record and keeps all others |
| FilterMethods.Update | models/filter.js:175-177 | succeeds exactly when the modifier is within the caps; changes only the selected record, and only as `Updated` says; a failure changes nothing |
| FilterMethods.SetCreateFilter | models/filter.js:118-145 | makes no propagation call; throws `filtername-already-taken` exactly when the caller is an admin and the short name is in use; inserts a record exactly when the caller is an admin, the name is free and the values fit |
| FilterMethods.SetCreateFilterFromOidc | models/filter.js:146-170 | makes no propagation call; throws `filtername-already-taken` exactly when the short name is in use; succeeds exactly when the name is free and the values fit |
| FilterMethods.SetFilterDisplayName | models/filter.js:171-180 | never fails and never adds or removes records; for an admin, the selected record gets the new name and exactly the call `(id, name)` is made |
| FilterMethods.SetFilterDesc | models/filter.js:182-190 | makes no call and keeps the set of ids; fails exactly when an admin gives a description over 190 UTF-16 units; on success the selected record holds the new description |
| FilterMethods.SetFilterShortName | models/filter.js:192-200 | makes no call and keeps the set of ids; fails exactly when an admin gives a short name over 255 UTF-16 units; on success the selected record holds the new short name |
| FilterMethods.SetFilterIsActive | models/filter.js:202-210 | never fails, makes no call, keeps the set of ids; for an admin the selected record holds the new flag |
| FilterMethods.SetFilterAllFieldsFromOidc | models/filter.js:211-235 | keeps the set of ids; succeeds exactly when all five values fit; makes exactly the call `(id, displayName)` when it succeeds and none otherwise |
| FilterMethods.SetFilterAllFields | models/filter.js:236-262 | for an admin, does exactly what the ungated bulk setter does |
| FilterMethods.NonAdminCallsChangeNothing | models/filter.js:125 | each of the six admin-gated methods, called by a non-admin, returns without error with the table unchanged and no propagation |
| FilterMethods.OidcCreateIsUngatedCreate | models/filter.js:146-170 | the provider-path create does what the admin create does for an admin, and inserts for a non-admin caller whose gated create would change nothing |
| FilterMethods.CreateAddsExactlyOne | models/filter.js:136-142 | a create with a free name adds exactly one record holding the five given values with both timestamps at now, and keeps every existing record |
| FilterMethods.SecondCreateWithSameNameFails | models/filter.js:158-160 | once a create has succeeded, a second create with the same short name throws and adds nothing |
| FilterMethods.CreateKeepsNamesUnique | models/filter.js:132-142 | creation keeps short names unique across the table |
| FilterMethods.ShortNameSetterAllowsDuplicates | models/filter.js:192-200 | two admin calls can give two records the same short name; both succeed and the table loses uniqueness |
| FilterMethods.RenameUpdatesAndPropagates | models/filter.js:171-180 | renaming sets only the display name and `modifiedAt`, keeps `createdAt` and all other records, and makes exactly one propagation call `(id, name)` |
| FilterMethods.PropagationCalls | models/filter.js:171-262 | the display-name setter and both bulk setters make exactly one propagation call when they do not throw; the other setters and both creates make none |
| FilterMethods.SingleFieldSettersChangeOneKey | models/filter.js:182-210 | the description, short-name and active setters change only their own key and `modifiedAt` on the selected record, or are rejected with the table unchanged when the value is too long |
| FilterMethods.AstralDescriptionRejected | models/filter.js:23 | a description of more than 95 characters all outside the Basic Multilingual Plane is rejected, since the cap counts UTF-16 code units |
| FilterMethods.BulkSettersChangeAllKeys | models/filter.js:211-262 | both bulk setters overwrite all five keys of the selected record, keep its `createdAt`, set `modifiedAt` to now and change nothing else |
| FilterMethods.UnmatchedSelectorWritesNothing | models/filter.js:175 | a selector that matches no record leaves the table unchanged in every setter |
| FilterMethods.MethodsKeepTableWellFormed | models/filter.js:8-77 | every method keeps every record within the length caps with `createdAt <= modifiedAt <= now` |
| FilterMethods.CreateKeepsWellFormed | models/filter.js:136-142 | an insert keeps every record within the caps and its timestamps ordered |
| FilterMethods.UpdateKeepsWellFormed | models/filter.js:251-259 | an update keeps every record within the caps and its timestamps ordered |
| FilterMethods.WellFormedAsTimePasses | models/filter.js:54-74 | timestamps never lie in the future as the clock advances |
| FilterRegistry.Registry.constructor | models/filter.js:1 | the collection starts empty with no propagation calls |
| FilterRegistry.Registry.AdvanceClock | models/filter.js:54-74 | the clock that the timestamp rules read moves to a later time; nothing stored changes and every record stays well formed |
| FilterRegistry.Registry.CountByShortName | models/filter.js:132 | returns the number of records holding the short name, positive exactly when the name is in use |
| FilterRegistry.Registry.Create | models/filter.js:132-142 | counts, then throws or inserts under a fresh id, as `FilterMethods.Create` says |
| FilterRegistry.Registry.Update | models/filter.js:196-198 | applies the modifier to the selected record in place, as `FilterMethods.Update` says |
| FilterRegistry.Registry.SetCreateFilter | models/filter.js:118-145 | the new table, outcome and propagation log are those of the admin-gated create |
| FilterRegistry.Registry.SetCreateFilterFromOidc | models/filter.js:146-170 | the new table, outcome and propagation log are those of the ungated create |
| FilterRegistry.Registry.SetFilterDisplayName | models/filter.js:171-180 | updates the display name in place and appends the propagation call to the log |
| FilterRegistry.Registry.SetFilterDesc | models/filter.js:182-190 | updates the description in place, with no propagation |
| FilterRegistry.Registry.SetFilterShortName | models/filter.js:192-200 | updates the short name in place without consulting other records |
| FilterRegistry.Registry.SetFilterIsActive | models/filter.js:202-210 | updates the active flag in place, with no propagation |
| FilterRegistry.Registry.SetFilterAllFieldsFromOidc | models/filter.js:211-235 | overwrites all five keys with no admin check and appends the propagation call |
| FilterRegistry.Registry.SetFilterAllFields | models/filter.js:236-262 | overwrites all five keys for an admin and appends the propagation call |

## Left out

- The Mongo collection and its general selector matching. The selector passed to a setter is modelled as the id of the record it picks.
- The display-name index created at startup (models/filter.js:266-271). It affects lookup speed, not contents.
- The user lookups (`Users.findOne`, `Meteor.user()`). They are inputs.
- What `setUsersFiltersFilterDisplayName` does in the users' records. It belongs to another subsystem; the model only logs that the call was made.
- The runtime `check(..., String/Boolean/Object)` tests. Dafny's static types already guarantee them.
- Real `Date` values. The clock is a natural number.
- The upsert branch of both `autoValue` rules (models/filter.js:57-58). No method here upserts.
- The cleaning the schema package does before validating: trimming strings, removing empty strings, converting types. It lives in the schema library, not in this file, so the model stores values as given.
- The race between the count and the insert when two creates run concurrently. The model is sequential.
- Client-side writes through the allow rule. Only the rule itself is modelled; no client insert, update or remove operation is part of this model.
- Which key a length rejection reports. The model reports only that the write was rejected.
- FilterMethods.SecondCreateWithSameNameFails: holds only for short names the schema stores unchanged (non-empty, no leading or trailing whitespace). With the schema library's default cleaning, the count queries the raw name while the trimmed name is stored, so "abc " can be created twice; and "" is never stored, so it can be created any number of times.
- FilterMethods.CreateKeepsNamesUnique: holds only for short names the schema stores unchanged, for the same reason.
- FilterSchema.Inserted: both timestamps take one clock reading. The code calls `new Date()` separately for `createdAt` and `modifiedAt` (models/filter.js:56,70), so in the code the two may differ by the time between the calls; `createdAt == modifiedAt` at insert holds of the model's single reading.
- FilterRegistry.Registry.AdvanceClock: assumes the clock never goes back. `new Date()` does not promise that; the `createdAt <= modifiedAt <= now` part of `Valid()` depends on this assumption.
