/** `useCompanyStorage` (src/hooks/useCompanyStorage.ts): the list of companies and the set of
    hidden ids, kept in the browser's `localStorage` under two keys. The hook's React state
    becomes the fields of `CompanyStore`; `localStorage` becomes a map from key to the document
    stored there, and every write to it may fail (quota, private mode), which the caller says
    with a `writeOk` flag. The clock (`Date.now()`, `new Date().toISOString()`) is passed in. */
module CompanyStorage {
  import opened Wrappers
  import opened Text
  import opened Lists
  import opened Companies

  const StorageKey: string := "eu-valley-companies"
  const HiddenKey: string := "eu-valley-hidden-companies"

  const DuplicateNameMessage: string := "A company with this name already exists"

  /** What `localStorage.getItem(key)` yields, as the hook reads it: nothing or the empty
      string (both falsy), text that `JSON.parse` rejects or that has the wrong shape, a list
      of companies, or a list of ids (read into a set). */
  datatype Doc = Empty | Malformed | CompanyList(companies: seq<Company>) | IdList(ids: set<string>)

  type Storage = map<string, Doc>

  function Lookup(storage: Storage, key: string): Doc {
    if key in storage then storage[key] else Empty
  }

  // ---------------------------------------------------------------------------------------
  // Loading (src/hooks/useCompanyStorage.ts:20-48)

  /** A default company as written to storage on first load: created and updated `now`,
      an alternative to nothing. */
  function Stamp(c: Company, now: string): Company {
    c.(createdAt := Some(now), updatedAt := Some(now), alternativeFor := Some([]))
  }

  function Migrate(defaults: seq<Company>, now: string): seq<Company> {
    seq(|defaults|, i requires 0 <= i < |defaults| => Stamp(defaults[i], now))
  }

  /** The outcome of the loading effect: the list shown, the hidden ids if they were read
      (otherwise the set already in state stays), and the storage afterwards. */
  datatype Loaded = Loaded(companies: seq<Company>, hidden: Option<set<string>>, storage: Storage)

  /** The loading effect: a stored list is taken as it is; no list means a first load, which
      stamps the defaults and writes them; any exception (unreadable list, failed write,
      unreadable hidden ids) falls back to plain copies of the defaults and leaves the
      hidden ids as they were. */
  function LoadFrom(storage: Storage, defaults: seq<Company>, now: string, writeOk: bool): Loaded {
    var stored := Lookup(storage, StorageKey);
    var hidden := Lookup(storage, HiddenKey);
    if stored.Empty? then
      if writeOk then
        var migrated := Migrate(defaults, now);
        ReadHidden(hidden, migrated, defaults, storage[StorageKey := CompanyList(migrated)])
      else Loaded(defaults, None, storage)
    else if stored.CompanyList? then ReadHidden(hidden, stored.companies, defaults, storage)
    else Loaded(defaults, None, storage)
  }

  /** The second half of the loading effect, once the list `cs` has been set. */
  function ReadHidden(hidden: Doc, cs: seq<Company>, defaults: seq<Company>, storage: Storage): Loaded {
    if hidden.Empty? then Loaded(cs, None, storage)
    else if hidden.IdList? then Loaded(cs, Some(hidden.ids), storage)
    else Loaded(defaults, None, storage)
  }

  /** The hidden-ids entry does not make loading fail: it is absent, empty or a list of ids. */
  predicate HiddenReadable(storage: Storage) {
    Lookup(storage, HiddenKey).Empty? || Lookup(storage, HiddenKey).IdList?
  }

  /** A stored list is shown as it is and storage is not written. */
  lemma LoadUsesStoredList(storage: Storage, defaults: seq<Company>, now: string, writeOk: bool)
    requires Lookup(storage, StorageKey).CompanyList? && HiddenReadable(storage)
    ensures LoadFrom(storage, defaults, now, writeOk).companies == Lookup(storage, StorageKey).companies
    ensures LoadFrom(storage, defaults, now, writeOk).storage == storage
  {
  }

  /** On a first load whose write succeeds, every default company is stored and shown with
      `createdAt` and `updatedAt` set to `now` and no alternatives, everything else as in
      the defaults. */
  lemma FirstLoadMigrates(storage: Storage, defaults: seq<Company>, now: string)
    requires Lookup(storage, StorageKey).Empty? && HiddenReadable(storage)
    ensures var l := LoadFrom(storage, defaults, now, true);
      && |l.companies| == |defaults|
      && Lookup(l.storage, StorageKey) == CompanyList(l.companies)
      && Lookup(l.storage, HiddenKey) == Lookup(storage, HiddenKey)
      && forall i :: 0 <= i < |defaults| ==>
           && l.companies[i].createdAt == Some(now)
           && l.companies[i].updatedAt == Some(now)
           && l.companies[i].alternativeFor == Some([])
           && forall f :: f !in {CreatedAt, UpdatedAt, AlternativeFor} ==> SameOn(l.companies[i], defaults[i], f)
  {
  }

  /** Whatever throws inside the effect leaves the defaults, without stamps, on screen and
      the hidden ids untouched. */
  lemma LoadFallsBack(storage: Storage, defaults: seq<Company>, now: string, writeOk: bool)
    requires || Lookup(storage, StorageKey).Malformed?
             || Lookup(storage, StorageKey).IdList?
             || (Lookup(storage, StorageKey).Empty? && !writeOk)
             || !HiddenReadable(storage)
    ensures LoadFrom(storage, defaults, now, writeOk).companies == defaults
    ensures LoadFrom(storage, defaults, now, writeOk).hidden == None
  {
  }

  /** Loading again after a successful load shows the same list, whatever the clock says
      and whether or not writes succeed: the first load's migration is not repeated. */
  lemma ReloadShowsSameList(storage: Storage, defaults: seq<Company>, now: string, now': string, writeOk': bool)
    requires HiddenReadable(storage)
    requires Lookup(storage, StorageKey).CompanyList? || Lookup(storage, StorageKey).Empty?
    ensures var first := LoadFrom(storage, defaults, now, true);
      LoadFrom(first.storage, defaults, now', writeOk').companies == first.companies
  {
    var first := LoadFrom(storage, defaults, now, true);
    assert Lookup(first.storage, HiddenKey) == Lookup(storage, HiddenKey);
  }

  /** What `saveCompanies` writes is what the next load shows. */
  lemma SavedListReloads(storage: Storage, cs: seq<Company>, defaults: seq<Company>, now: string, writeOk: bool)
    requires HiddenReadable(storage)
    ensures LoadFrom(storage[StorageKey := CompanyList(cs)], defaults, now, writeOk).companies == cs
  {
    var s := storage[StorageKey := CompanyList(cs)];
    assert Lookup(s, HiddenKey) == Lookup(storage, HiddenKey);
  }

  /** What `saveHiddenIds` writes is what the next load reads, when the list loads. */
  lemma SavedHiddenReloads(storage: Storage, ids: set<string>, defaults: seq<Company>, now: string)
    requires Lookup(storage, StorageKey).CompanyList? || Lookup(storage, StorageKey).Empty?
    ensures LoadFrom(storage[HiddenKey := IdList(ids)], defaults, now, true).hidden == Some(ids)
  {
    var s := storage[HiddenKey := IdList(ids)];
    assert Lookup(s, StorageKey) == Lookup(storage, StorageKey);
  }

  // ---------------------------------------------------------------------------------------
  // Ids of new companies (src/hooks/useCompanyStorage.ts:72)

  /** One character of `name.toLowerCase().replace(/[^a-z0-9]/g, '-')`. */
  function SlugChar(c: char): char {
    var l := LowerChar(c);
    if IsLowerLetter(l) || IsDigit(l) then l else '-'
  }

  function Slug(name: string): string {
    seq(|name|, i requires 0 <= i < |name| => SlugChar(name[i]))
  }

  function DigitChar(d: nat): char
    requires d < 10
  {
    ('0' as int + d) as char
  }

  /** `String(n)` for a non-negative integer: its decimal digits. */
  function DecimalString(n: nat): (s: string)
    ensures |s| >= 1 && forall i :: 0 <= i < |s| ==> IsDigit(s[i])
    decreases n
  {
    if n < 10 then [DigitChar(n)] else DecimalString(n / 10) + [DigitChar(n % 10)]
  }

  /** The number a string of decimal digits denotes. */
  function DecimalValue(s: string): nat
    requires forall i :: 0 <= i < |s| ==> IsDigit(s[i])
    decreases |s|
  {
    if s == [] then 0
    else
      var last := s[|s| - 1];
      assert IsDigit(last);
      DecimalValue(s[..|s| - 1]) * 10 + (last as int - '0' as int)
  }

  /** The id `addCompany` gives a company: the slug of its name, a dash, and the time in
      milliseconds. */
  function NewCompanyId(name: string, clockMs: nat): string {
    Slug(name) + "-" + DecimalString(clockMs)
  }

  /** A slug has the name's length: upper-case ASCII letters become lower-case, lower-case
      letters and digits are kept, and every other character becomes a dash. */
  lemma SlugShape(name: string)
    ensures |Slug(name)| == |name|
    ensures forall i :: 0 <= i < |name| ==>
      var c := Slug(name)[i]; IsLowerLetter(c) || IsDigit(c) || c == '-'
    ensures forall i :: 0 <= i < |name| ==> (IsLowerLetter(name[i]) || IsDigit(name[i]) ==> Slug(name)[i] == name[i])
    ensures forall i :: 0 <= i < |name| ==>
      Slug(name)[i] == (if IsUpper(name[i]) then LowerChar(name[i])
                        else if IsLowerLetter(name[i]) || IsDigit(name[i]) then name[i]
                        else '-')
    ensures forall i :: 0 <= i < |name| ==> (IsUpper(name[i]) ==> IsLowerLetter(Slug(name)[i]))
  {
  }

  lemma {:induction false} DecimalRoundTrip(n: nat)
    ensures DecimalValue(DecimalString(n)) == n
    decreases n
  {
    if n >= 10 {
      DecimalRoundTrip(n / 10);
      var s := DecimalString(n);
      assert s[..|s| - 1] == DecimalString(n / 10);
    }
  }

  /** Two companies of the same name get different ids unless they are added in the same
      millisecond. */
  lemma SameNameIdsDifferInTime(name: string, t1: nat, t2: nat)
    requires NewCompanyId(name, t1) == NewCompanyId(name, t2)
    ensures t1 == t2
  {
    var prefix := Slug(name) + "-";
    assert NewCompanyId(name, t1) == prefix + DecimalString(t1);
    assert DecimalString(t1) == NewCompanyId(name, t1)[|prefix|..];
    assert DecimalString(t2) == NewCompanyId(name, t2)[|prefix|..];
    DecimalRoundTrip(t1);
    DecimalRoundTrip(t2);
  }

  /** Ids are not unique: different names added in the same millisecond can share one. */
  lemma DifferentNamesCanShareId(t: nat)
    ensures NewCompanyId("A&B", t) == NewCompanyId("a b", t)
  {
    assert Slug("A&B") == "a-b" == Slug("a b");
  }

  // ---------------------------------------------------------------------------------------
  // Pure forms of the list and set operations

  /** `companies.some(c => c.name.toLowerCase() === name.toLowerCase())` */
  predicate NameTaken(cs: seq<Company>, name: string) {
    exists i :: 0 <= i < |cs| && Lower(cs[i].name) == Lower(name)
  }

  /** The record `addCompany` builds: the given fields, then the new id, the timestamps and
      the alternatives (an empty list when none are given). */
  function NewRecord(fields: Company, id: string, now: string): Company {
    fields.(id := id, createdAt := Some(now), updatedAt := Some(now),
            alternativeFor := Some(fields.alternativeFor.GetOr([])))
  }

  /** `companies.filter(c => c.id !== id)` */
  function RemoveId(cs: seq<Company>, id: string): seq<Company> {
    Filter(cs, (c: Company) => c.id != id)
  }

  /** `editDetails || \`Updated: ${Object.keys(updates).join(', ')}\``: an absent or empty
      note is replaced by the list of the patch's keys. */
  function EditNote(p: Patch, editDetails: Option<string>): string {
    if editDetails.Some? && editDetails.value != "" then editDetails.value
    else "Updated: " + KeyList(p)
  }

  /** `{ ...c, ...updates, updatedAt: now, lastEditDetails: note }` */
  function UpdatedRecord(c: Company, p: Patch, editDetails: Option<string>, now: string): Company {
    ApplyPatch(c, p).(updatedAt := Some(now), lastEditDetails := Some(EditNote(p, editDetails)))
  }

  /** `companies.map(c => c.id === id ? UpdatedRecord(c) : c)` */
  function UpdateId(cs: seq<Company>, id: string, p: Patch, editDetails: Option<string>, now: string): seq<Company> {
    seq(|cs|, i requires 0 <= i < |cs| => if cs[i].id == id then UpdatedRecord(cs[i], p, editDetails, now) else cs[i])
  }

  /** The hidden set after `toggleVisibility(id)`. */
  function Toggled(hidden: set<string>, id: string): set<string> {
    if id in hidden then hidden - {id} else hidden + {id}
  }

  /** `companies.filter(c => !hiddenIds.has(c.id))` */
  function Visible(cs: seq<Company>, hidden: set<string>): seq<Company> {
    Filter(cs, (c: Company) => c.id !in hidden)
  }

  // ---------------------------------------------------------------------------------------
  // Properties of the operations

  /** The new record has the computed id and timestamps; every other field is as given. */
  lemma NewRecordFields(fields: Company, clockMs: nat, now: string)
    ensures var r := NewRecord(fields, NewCompanyId(fields.name, clockMs), now);
      && r.id == Slug(fields.name) + "-" + DecimalString(clockMs)
      && r.createdAt == r.updatedAt == Some(now)
      && (fields.alternativeFor.Some? ==> r.alternativeFor == fields.alternativeFor)
      && (fields.alternativeFor.None? ==> r.alternativeFor == Some([]))
      && forall f :: f !in {Id, CreatedAt, UpdatedAt, AlternativeFor} ==> SameOn(r, fields, f)
  {
  }

  /** The duplicate check ignores case. */
  lemma NameTakenIgnoresCase(cs: seq<Company>, name: string)
    ensures NameTaken(cs, name) <==> NameTaken(cs, Lower(name))
  {
    LowerIdempotent(name);
  }

  /** Once a company is added, adding another of the same name in any letter case fails. */
  lemma AddedNameIsTaken(cs: seq<Company>, record: Company, name: string)
    requires Lower(name) == Lower(record.name)
    ensures NameTaken(cs + [record], name)
  {
    assert (cs + [record])[|cs|] == record;
  }

  /** Removing keeps, in order, exactly the records with another id: every record sharing
      the id goes, and an unknown id changes nothing. */
  lemma RemoveIdEffect(cs: seq<Company>, id: string) returns (idx: seq<nat>)
    ensures SelectedBy(RemoveId(cs, id), cs, (c: Company) => c.id != id, idx)
    ensures forall c :: c in RemoveId(cs, id) <==> c in cs && c.id != id
    ensures (forall i :: 0 <= i < |cs| ==> cs[i].id != id) ==> RemoveId(cs, id) == cs
  {
    var keep := (c: Company) => c.id != id;
    idx := FilterSelects(cs, keep);
    forall c ensures c in RemoveId(cs, id) <==> c in cs && c.id != id {
      FilterMembership(cs, keep, c);
    }
    if forall i :: 0 <= i < |cs| ==> cs[i].id != id {
      FilterKeepsAll(cs, keep);
    }
  }

  /** Hiding and removing commute: the visible list after removing an id is the visible
      list with that id removed. */
  lemma {:induction false} RemoveCommutesWithVisible(cs: seq<Company>, hidden: set<string>, id: string)
    ensures Visible(RemoveId(cs, id), hidden) == RemoveId(Visible(cs, hidden), id)
    decreases |cs|
  {
    if cs != [] {
      RemoveCommutesWithVisible(cs[1..], hidden, id);
      var removedHead := if cs[0].id != id then [cs[0]] else [];
      assert RemoveId(cs, id) == removedHead + RemoveId(cs[1..], id);
      FilterAppend(removedHead, RemoveId(cs[1..], id), (c: Company) => c.id !in hidden);
      var shownHead := if cs[0].id !in hidden then [cs[0]] else [];
      assert Visible(cs, hidden) == shownHead + Visible(cs[1..], hidden);
      FilterAppend(shownHead, Visible(cs[1..], hidden), (c: Company) => c.id != id);
    }
  }

  /** The edited record carries every patched value (except the two audit fields the update
      always writes), keeps every field the patch does not name, and records `now` and the
      edit note. */
  lemma UpdatedRecordEffect(c: Company, p: Patch, editDetails: Option<string>, now: string)
    requires DistinctKeys(p)
    ensures var r := UpdatedRecord(c, p, editDetails, now);
      && r.updatedAt == Some(now)
      && r.lastEditDetails == Some(EditNote(p, editDetails))
      && (forall i :: 0 <= i < |p| && p[i].Key() !in {UpdatedAt, LastEditDetails} ==> Carries(r, p[i]))
      && (forall f :: f !in Keys(p) && f !in {UpdatedAt, LastEditDetails} ==> SameOn(r, c, f))
  {
    ApplyPatchEffect(c, p);
    var a := ApplyPatch(c, p);
    var r := UpdatedRecord(c, p, editDetails, now);
    forall i | 0 <= i < |p| && p[i].Key() !in {UpdatedAt, LastEditDetails} ensures Carries(r, p[i]) {
      assert Carries(a, p[i]);
    }
    forall f | f !in Keys(p) && f !in {UpdatedAt, LastEditDetails} ensures SameOn(r, c, f) {
      assert SameOn(a, c, f);
    }
  }

  /** Examples of the edit note: the keys of the patch, in order, when no note or an empty
      one is given, and the given note otherwise. */
  lemma EditNoteExample()
    ensures EditNote([SetName("Acme"), SetCity("Delft")], None) == "Updated: name, city"
    ensures EditNote([SetName("Acme"), SetCity("Delft")], Some("")) == "Updated: name, city"
    ensures EditNote([SetName("Acme")], Some("Renamed")) == "Renamed"
  {
    var p := [SetName("Acme"), SetCity("Delft")];
    var names := seq(|p|, i requires 0 <= i < |p| => FieldName(p[i].Key()));
    assert names == ["name", "city"];
    assert Lists.Join(["city"], ", ") == "city";
    assert KeyList(p) == Lists.Join(["name", "city"], ", ") == "name, city";
  }

  /** Updating changes only the records with the id, keeps the list's length and order, and
      changes nothing when no record has the id. */
  lemma UpdateIdEffect(cs: seq<Company>, id: string, p: Patch, editDetails: Option<string>, now: string)
    ensures |UpdateId(cs, id, p, editDetails, now)| == |cs|
    ensures forall i :: 0 <= i < |cs| && cs[i].id != id ==> UpdateId(cs, id, p, editDetails, now)[i] == cs[i]
    ensures forall i :: 0 <= i < |cs| && cs[i].id == id ==>
      UpdateId(cs, id, p, editDetails, now)[i].updatedAt == Some(now)
    ensures (forall i :: 0 <= i < |cs| ==> cs[i].id != id) ==> UpdateId(cs, id, p, editDetails, now) == cs
  {
  }

  /** A patch naming `id` renames the record: the update does not protect the id. */
  lemma UpdateCanChangeId(c: Company, newId: string, editDetails: Option<string>, now: string)
    ensures UpdateId([c], c.id, [SetId(newId)], editDetails, now)[0].id == newId
  {
    var p := [SetId(newId)];
    assert p[1..] == [];
    assert ApplyPatch(c, p) == c.(id := newId);
  }

  /** Toggling twice restores the hidden set. */
  lemma ToggleTwice(hidden: set<string>, id: string)
    ensures Toggled(Toggled(hidden, id), id) == hidden
  {
  }

  /** Toggling flips exactly the one id. */
  lemma ToggleFlips(hidden: set<string>, id: string)
    ensures id in Toggled(hidden, id) <==> id !in hidden
    ensures forall x :: x != id ==> (x in Toggled(hidden, id) <==> x in hidden)
  {
  }

  /** The visible companies are, in order, exactly those whose id is not hidden. */
  lemma VisibleSelects(cs: seq<Company>, hidden: set<string>) returns (idx: seq<nat>)
    ensures SelectedBy(Visible(cs, hidden), cs, (c: Company) => c.id !in hidden, idx)
  {
    idx := FilterSelects(cs, (c: Company) => c.id !in hidden);
  }

  /** A company is visible exactly when it is in the list and its id is not hidden. */
  lemma VisibleMembership(cs: seq<Company>, hidden: set<string>)
    ensures forall c :: c in Visible(cs, hidden) <==> c in cs && c.id !in hidden
  {
    forall c ensures c in Visible(cs, hidden) <==> c in cs && c.id !in hidden {
      FilterMembership(cs, (c: Company) => c.id !in hidden, c);
    }
  }

  // ---------------------------------------------------------------------------------------
  // The hook's state

  class CompanyStore {
    var companies: seq<Company>
    var hiddenIds: set<string>
    var isLoaded: bool
    var storage: Storage

    /** The state before the loading effect has run. */
    constructor (storage: Storage)
      ensures companies == [] && hiddenIds == {} && !isLoaded && this.storage == storage
    {
      companies := [];
      hiddenIds := {};
      isLoaded := false;
      this.storage := storage;
    }

    /** The loading effect (src/hooks/useCompanyStorage.ts:20-48). */
    method Load(defaults: seq<Company>, now: string, writeOk: bool)
      modifies this`companies, this`hiddenIds, this`isLoaded, this`storage
      ensures var l := LoadFrom(old(storage), defaults, now, writeOk);
        && companies == l.companies
        && hiddenIds == l.hidden.GetOr(old(hiddenIds))
        && storage == l.storage
        && isLoaded
    {
      var stored := Lookup(storage, StorageKey);
      var hidden := Lookup(storage, HiddenKey);
      var failed := false;
      if !stored.Empty? {
        if stored.CompanyList? {
          companies := stored.companies;
        } else {
          failed := true;
        }
      } else {
        var migrated := Migrate(defaults, now);
        if writeOk {
          storage := storage[StorageKey := CompanyList(migrated)];
          companies := migrated;
        } else {
          failed := true;
        }
      }
      if !failed && !hidden.Empty? {
        if hidden.IdList? {
          hiddenIds := hidden.ids;
        } else {
          failed := true;
        }
      }
      if failed {
        companies := defaults;
      }
      isLoaded := true;
    }

    /** `saveCompanies`: the list changes only when it has been written. */
    method SaveCompanies(updated: seq<Company>, writeOk: bool)
      modifies this`companies, this`storage
      ensures writeOk ==> companies == updated && storage == old(storage)[StorageKey := CompanyList(updated)]
      ensures !writeOk ==> companies == old(companies) && storage == old(storage)
    {
      if writeOk {
        storage := storage[StorageKey := CompanyList(updated)];
        companies := updated;
      }
    }

    /** `saveHiddenIds`: the set changes only when it has been written. */
    method SaveHiddenIds(ids: set<string>, writeOk: bool)
      modifies this`hiddenIds, this`storage
      ensures writeOk ==> hiddenIds == ids && storage == old(storage)[HiddenKey := IdList(ids)]
      ensures !writeOk ==> hiddenIds == old(hiddenIds) && storage == old(storage)
    {
      if writeOk {
        storage := storage[HiddenKey := IdList(ids)];
        hiddenIds := ids;
      }
    }

    /** `addCompany`: refuses a name already present in any letter case, leaving everything
        as it was; otherwise appends the new record and returns it, even when the write
        fails and the list stays as it was. */
    method AddCompany(fields: Company, clockMs: nat, now: string, writeOk: bool) returns (r: Result<Company, string>)
      modifies this`companies, this`storage
      ensures NameTaken(old(companies), fields.name) ==>
        r == Err(DuplicateNameMessage) && companies == old(companies) && storage == old(storage)
      ensures !NameTaken(old(companies), fields.name) ==>
        && r == Ok(NewRecord(fields, NewCompanyId(fields.name, clockMs), now))
        && (writeOk ==> companies == old(companies) + [r.value]
                        && storage == old(storage)[StorageKey := CompanyList(companies)])
        && (!writeOk ==> companies == old(companies) && storage == old(storage))
    {
      var id := NewCompanyId(fields.name, clockMs);
      var record := NewRecord(fields, id, now);
      if NameTaken(companies, fields.name) {
        return Err(DuplicateNameMessage);
      }
      SaveCompanies(companies + [record], writeOk);
      return Ok(record);
    }

    /** `removeCompany`: drops every record with the id; the hidden ids are not touched. */
    method RemoveCompany(id: string, writeOk: bool)
      modifies this`companies, this`storage
      ensures writeOk ==> companies == RemoveId(old(companies), id)
                          && storage == old(storage)[StorageKey := CompanyList(companies)]
      ensures !writeOk ==> companies == old(companies) && storage == old(storage)
    {
      SaveCompanies(RemoveId(companies, id), writeOk);
    }

    /** `updateCompany`: merges the patch into every record with the id and stamps it. */
    method UpdateCompany(id: string, p: Patch, editDetails: Option<string>, now: string, writeOk: bool)
      modifies this`companies, this`storage
      ensures writeOk ==> companies == UpdateId(old(companies), id, p, editDetails, now)
                          && storage == old(storage)[StorageKey := CompanyList(companies)]
      ensures !writeOk ==> companies == old(companies) && storage == old(storage)
    {
      SaveCompanies(UpdateId(companies, id, p, editDetails, now), writeOk);
    }

    /** `toggleVisibility`: hides a shown id or shows a hidden one. */
    method ToggleVisibility(id: string, writeOk: bool)
      modifies this`hiddenIds, this`storage
      ensures writeOk ==> hiddenIds == Toggled(old(hiddenIds), id)
                          && storage == old(storage)[HiddenKey := IdList(hiddenIds)]
      ensures writeOk ==> (IsVisible(id) <==> !old(IsVisible(id)))
      ensures !writeOk ==> hiddenIds == old(hiddenIds) && storage == old(storage)
    {
      var newHidden := Toggled(hiddenIds, id);
      SaveHiddenIds(newHidden, writeOk);
    }

    /** `isVisible(id)` */
    function IsVisible(id: string): bool
      reads this
    {
      id !in hiddenIds
    }

    /** `visibleCompanies`: the records whose id `IsVisible` accepts, in order. */
    function VisibleCompanies(): (r: seq<Company>)
      reads this
      ensures forall c :: c in r <==> c in companies && IsVisible(c.id)
    {
      VisibleMembership(companies, hiddenIds);
      Visible(companies, hiddenIds)
    }
  }
}
