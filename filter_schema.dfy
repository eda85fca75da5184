/**
 The shape of one Filter record: five optional fields, the two timestamps
 the schema fills in itself, and the maximum lengths it enforces on strings.
 */
module FilterSchema {

  datatype Option<+T> = None | Some(value: T)

  /** Record and user identifiers. Ids are compared only for equality. */
  type Id = nat

  const MaxDescLength: nat := 190
  const MaxShortNameLength: nat := 255
  const MaxWebsiteLength: nat := 255

  /** A stored Filter document. */
  datatype Filter = Filter(
    displayName: Option<string>,
    desc: Option<string>,
    shortName: Option<string>,
    website: Option<string>,
    isActive: Option<bool>,
    createdAt: nat,
    modifiedAt: nat)

  /** The five values a caller supplies to a create or a bulk setter. */
  datatype Fields = Fields(
    displayName: string,
    desc: string,
    shortName: string,
    website: string,
    isActive: bool)

  /**
   The user-supplied part of a write: for an insert, the document; for an
   update, the `$set` modifier. `None` means the write does not name that key.
   */
  datatype Patch = Patch(
    displayName: Option<string>,
    desc: Option<string>,
    shortName: Option<string>,
    website: Option<string>,
    isActive: Option<bool>)

  const NoKeys := Patch(None, None, None, None, None)

  /** The write that names all five keys, with the given values. */
  function AllKeys(f: Fields): Patch {
    Patch(Some(f.displayName), Some(f.desc), Some(f.shortName), Some(f.website), Some(f.isActive))
  }

  /** The number of UTF-16 code units that encode `c`: two for a character outside the Basic Multilingual Plane. */
  function Utf16Units(c: char): nat {
    if c as int > 0xFFFF then 2 else 1
  }

  /** The length JavaScript reports for `s` (its count of UTF-16 code units), which the schema's `max` compares. */
  function Utf16Length(s: string): nat {
    if s == [] then 0 else Utf16Units(s[0]) + Utf16Length(s[1..])
  }

  /**
   A string's JavaScript length lies between its character count and twice
   that; it equals the character count exactly when every character is in the
   Basic Multilingual Plane, and twice it exactly when none is.
   */
  lemma {:induction false} Utf16LengthBounds(s: string)
    ensures |s| <= Utf16Length(s) <= 2 * |s|
    ensures Utf16Length(s) == |s| <==> forall i :: 0 <= i < |s| ==> s[i] as int <= 0xFFFF
    ensures Utf16Length(s) == 2 * |s| <==> forall i :: 0 <= i < |s| ==> s[i] as int > 0xFFFF
  {
    if s != [] {
      var rest := s[1..];
      Utf16LengthBounds(rest);
      assert forall i :: 1 <= i < |s| ==> s[i] == rest[i - 1];
      assert forall i :: 0 <= i < |rest| ==> rest[i] == s[i + 1];
    }
  }

  predicate FitsMax(v: Option<string>, max: nat) {
    v.None? || Utf16Length(v.value) <= max
  }

  /** The `max` rules of the schema, applied to the keys a write names, on JavaScript string lengths. */
  predicate WithinLimits(p: Patch) {
    && FitsMax(p.desc, MaxDescLength)
    && FitsMax(p.shortName, MaxShortNameLength)
    && FitsMax(p.website, MaxWebsiteLength)
  }

  /** The `max` rules of the schema, holding of a stored record. */
  predicate RecordWithinLimits(r: Filter) {
    && FitsMax(r.desc, MaxDescLength)
    && FitsMax(r.shortName, MaxShortNameLength)
    && FitsMax(r.website, MaxWebsiteLength)
  }

  /** A stored record as the schema keeps it at time `now`. */
  predicate WellFormed(r: Filter, now: nat) {
    RecordWithinLimits(r) && r.createdAt <= r.modifiedAt <= now
  }

  /** What kind of write the schema is cleaning when it computes auto-values. */
  datatype WriteKind = InsertWrite | UpdateWrite | OtherWrite

  /** What an `autoValue` function decides: store a time, or leave the key out of the write. */
  datatype AutoValue = SetTo(time: nat) | Unset

  /** `createdAt`: stamped on insert only; any other write leaves it out. */
  function CreatedAtAutoValue(kind: WriteKind, now: nat): (v: AutoValue)
    ensures v.SetTo? <==> kind == InsertWrite
    ensures v.SetTo? ==> v.time == now
  {
    if kind == InsertWrite then SetTo(now) else Unset
  }

  /** `modifiedAt`: stamped on every insert and every update. */
  function ModifiedAtAutoValue(kind: WriteKind, now: nat): (v: AutoValue)
    ensures v.SetTo? <==> kind == InsertWrite || kind == UpdateWrite
    ensures v.SetTo? ==> v.time == now
  {
    if kind == InsertWrite || kind == UpdateWrite then SetTo(now) else Unset
  }

  /** The value a key holds after a write whose auto-value is `v`. */
  function Stamp(current: nat, v: AutoValue): nat {
    match v
    case SetTo(t) => t
    case Unset => current
  }

  /** The value a key holds after a write that names it (`Some`) or not (`None`). */
  function Override<T>(current: Option<T>, written: Option<T>): Option<T> {
    if written.Some? then written else current
  }

  /** The document an insert of `p` stores at time `now`. */
  function Inserted(p: Patch, now: nat): (r: Filter)
    ensures r.displayName == p.displayName && r.desc == p.desc && r.shortName == p.shortName
    ensures r.website == p.website && r.isActive == p.isActive
    ensures r.createdAt == now && r.modifiedAt == now
    ensures WithinLimits(p) ==> WellFormed(r, now)
  {
    Filter(p.displayName, p.desc, p.shortName, p.website, p.isActive,
           CreatedAtAutoValue(InsertWrite, now).time, ModifiedAtAutoValue(InsertWrite, now).time)
  }

  /** The document an update with `$set: p` leaves behind at time `now`. */
  function Updated(r: Filter, p: Patch, now: nat): (r': Filter)
    ensures p.displayName.Some? ==> r'.displayName == p.displayName
    ensures p.displayName.None? ==> r'.displayName == r.displayName
    ensures p.desc.Some? ==> r'.desc == p.desc
    ensures p.desc.None? ==> r'.desc == r.desc
    ensures p.shortName.Some? ==> r'.shortName == p.shortName
    ensures p.shortName.None? ==> r'.shortName == r.shortName
    ensures p.website.Some? ==> r'.website == p.website
    ensures p.website.None? ==> r'.website == r.website
    ensures p.isActive.Some? ==> r'.isActive == p.isActive
    ensures p.isActive.None? ==> r'.isActive == r.isActive
    ensures r'.createdAt == r.createdAt && r'.modifiedAt == now
    ensures r.createdAt <= now && RecordWithinLimits(r) && WithinLimits(p) ==> WellFormed(r', now)
  {
    Filter(Override(r.displayName, p.displayName),
           Override(r.desc, p.desc),
           Override(r.shortName, p.shortName),
           Override(r.website, p.website),
           Override(r.isActive, p.isActive),
           Stamp(r.createdAt, CreatedAtAutoValue(UpdateWrite, now)),
           Stamp(r.modifiedAt, ModifiedAtAutoValue(UpdateWrite, now)))
  }
}
