/** The company record (`Company` from the data module, extended by `StoredCompany` in
    src/hooks/useCompanyStorage.ts:7-12) and the partial updates merged into it. */
module Companies {
  import opened Wrappers
  import Lists

  /** One company. Coordinates are kept as opaque numbers; the audit fields are optional,
      as in `StoredCompany`. */
  datatype Company = Company(
    id: string,
    name: string,
    category: string,
    country: string,
    countryCode: string,
    city: string,
    street: string,
    state: string,
    latitude: real,
    longitude: real,
    description: string,
    website: string,
    logoUrl: string,
    createdAt: Option<string>,
    updatedAt: Option<string>,
    lastEditDetails: Option<string>,
    alternativeFor: Option<seq<string>>)

  /** The keys of a `StoredCompany`. */
  datatype Field =
    | Id | Name | Category | Country | CountryCode | City | Street | State
    | Latitude | Longitude | Description | Website | LogoUrl
    | CreatedAt | UpdatedAt | LastEditDetails | AlternativeFor

  /** The property name JavaScript reports for a key (what `Object.keys` lists). */
  function FieldName(f: Field): string {
    match f
    case Id => "id"
    case Name => "name"
    case Category => "category"
    case Country => "country"
    case CountryCode => "countryCode"
    case City => "city"
    case Street => "street"
    case State => "state"
    case Latitude => "latitude"
    case Longitude => "longitude"
    case Description => "description"
    case Website => "website"
    case LogoUrl => "logoUrl"
    case CreatedAt => "createdAt"
    case UpdatedAt => "updatedAt"
    case LastEditDetails => "lastEditDetails"
    case AlternativeFor => "alternativeFor"
  }

  /** One property of a `Partial<StoredCompany>` object: a key and the value it carries. */
  datatype Update =
    | SetId(id: string)
    | SetName(name: string)
    | SetCategory(category: string)
    | SetCountry(country: string)
    | SetCountryCode(countryCode: string)
    | SetCity(city: string)
    | SetStreet(street: string)
    | SetState(state: string)
    | SetLatitude(latitude: real)
    | SetLongitude(longitude: real)
    | SetDescription(description: string)
    | SetWebsite(website: string)
    | SetLogoUrl(logoUrl: string)
    | SetCreatedAt(createdAt: string)
    | SetUpdatedAt(updatedAt: string)
    | SetLastEditDetails(lastEditDetails: string)
    | SetAlternativeFor(alternativeFor: seq<string>)
  {
    function Key(): Field {
      match this
      case SetId(_) => Id
      case SetName(_) => Name
      case SetCategory(_) => Category
      case SetCountry(_) => Country
      case SetCountryCode(_) => CountryCode
      case SetCity(_) => City
      case SetStreet(_) => Street
      case SetState(_) => State
      case SetLatitude(_) => Latitude
      case SetLongitude(_) => Longitude
      case SetDescription(_) => Description
      case SetWebsite(_) => Website
      case SetLogoUrl(_) => LogoUrl
      case SetCreatedAt(_) => CreatedAt
      case SetUpdatedAt(_) => UpdatedAt
      case SetLastEditDetails(_) => LastEditDetails
      case SetAlternativeFor(_) => AlternativeFor
    }
  }

  /** A `Partial<StoredCompany>` object: its properties in `Object.keys` order. */
  type Patch = seq<Update>

  /** An object literal never has the same key twice. */
  predicate DistinctKeys(p: Patch) {
    forall i, j :: 0 <= i < j < |p| ==> p[i].Key() != p[j].Key()
  }

  /** The keys of a patch, in order. */
  function Keys(p: Patch): seq<Field> {
    seq(|p|, i requires 0 <= i < |p| => p[i].Key())
  }

  /** `Object.keys(p).join(', ')` */
  function KeyList(p: Patch): string {
    Lists.Join(seq(|p|, i requires 0 <= i < |p| => FieldName(p[i].Key())), ", ")
  }

  /** The record with one property overwritten. */
  function ApplyUpdate(c: Company, u: Update): Company {
    match u
    case SetId(v) => c.(id := v)
    case SetName(v) => c.(name := v)
    case SetCategory(v) => c.(category := v)
    case SetCountry(v) => c.(country := v)
    case SetCountryCode(v) => c.(countryCode := v)
    case SetCity(v) => c.(city := v)
    case SetStreet(v) => c.(street := v)
    case SetState(v) => c.(state := v)
    case SetLatitude(v) => c.(latitude := v)
    case SetLongitude(v) => c.(longitude := v)
    case SetDescription(v) => c.(description := v)
    case SetWebsite(v) => c.(website := v)
    case SetLogoUrl(v) => c.(logoUrl := v)
    case SetCreatedAt(v) => c.(createdAt := Some(v))
    case SetUpdatedAt(v) => c.(updatedAt := Some(v))
    case SetLastEditDetails(v) => c.(lastEditDetails := Some(v))
    case SetAlternativeFor(v) => c.(alternativeFor := Some(v))
  }

  /** `{ ...c, ...p }`: the properties of the patch overwrite those of the record, in order. */
  function ApplyPatch(c: Company, p: Patch): Company
    decreases |p|
  {
    if p == [] then c else ApplyPatch(ApplyUpdate(c, p[0]), p[1..])
  }

  /** The record carries the value the update writes. */
  predicate Carries(c: Company, u: Update) {
    match u
    case SetId(v) => c.id == v
    case SetName(v) => c.name == v
    case SetCategory(v) => c.category == v
    case SetCountry(v) => c.country == v
    case SetCountryCode(v) => c.countryCode == v
    case SetCity(v) => c.city == v
    case SetStreet(v) => c.street == v
    case SetState(v) => c.state == v
    case SetLatitude(v) => c.latitude == v
    case SetLongitude(v) => c.longitude == v
    case SetDescription(v) => c.description == v
    case SetWebsite(v) => c.website == v
    case SetLogoUrl(v) => c.logoUrl == v
    case SetCreatedAt(v) => c.createdAt == Some(v)
    case SetUpdatedAt(v) => c.updatedAt == Some(v)
    case SetLastEditDetails(v) => c.lastEditDetails == Some(v)
    case SetAlternativeFor(v) => c.alternativeFor == Some(v)
  }

  /** The two records agree on field `f`. */
  predicate SameOn(c: Company, d: Company, f: Field) {
    match f
    case Id => c.id == d.id
    case Name => c.name == d.name
    case Category => c.category == d.category
    case Country => c.country == d.country
    case CountryCode => c.countryCode == d.countryCode
    case City => c.city == d.city
    case Street => c.street == d.street
    case State => c.state == d.state
    case Latitude => c.latitude == d.latitude
    case Longitude => c.longitude == d.longitude
    case Description => c.description == d.description
    case Website => c.website == d.website
    case LogoUrl => c.logoUrl == d.logoUrl
    case CreatedAt => c.createdAt == d.createdAt
    case UpdatedAt => c.updatedAt == d.updatedAt
    case LastEditDetails => c.lastEditDetails == d.lastEditDetails
    case AlternativeFor => c.alternativeFor == d.alternativeFor
  }

  /** Records that agree on every field are equal. */
  lemma SameOnAllFields(c: Company, d: Company)
    requires forall f :: SameOn(c, d, f)
    ensures c == d
  {
    assert SameOn(c, d, Id) && SameOn(c, d, Name) && SameOn(c, d, Category) && SameOn(c, d, Country);
    assert SameOn(c, d, CountryCode) && SameOn(c, d, City) && SameOn(c, d, Street) && SameOn(c, d, State);
    assert SameOn(c, d, Latitude) && SameOn(c, d, Longitude) && SameOn(c, d, Description);
    assert SameOn(c, d, Website) && SameOn(c, d, LogoUrl) && SameOn(c, d, CreatedAt);
    assert SameOn(c, d, UpdatedAt) && SameOn(c, d, LastEditDetails) && SameOn(c, d, AlternativeFor);
  }

  /** One update writes its own field and leaves every other field alone. */
  lemma ApplyUpdateEffect(c: Company, u: Update)
    ensures Carries(ApplyUpdate(c, u), u)
    ensures forall f :: f != u.Key() ==> SameOn(ApplyUpdate(c, u), c, f)
  {
  }

  /** An update of another field does not disturb a value the record carries. */
  lemma CarriesKept(c: Company, u: Update, v: Update)
    requires Carries(c, u) && u.Key() != v.Key()
    ensures Carries(ApplyUpdate(c, v), u)
  {
    ApplyUpdateEffect(c, v);
  }

  /** The merge `{ ...c, ...p }`: the result carries every property of the patch, and agrees
      with `c` on every field the patch does not name. */
  lemma {:induction false} ApplyPatchEffect(c: Company, p: Patch)
    requires DistinctKeys(p)
    ensures forall i :: 0 <= i < |p| ==> Carries(ApplyPatch(c, p), p[i])
    ensures forall f :: f !in Keys(p) ==> SameOn(ApplyPatch(c, p), c, f)
    decreases |p|
  {
    if p != [] {
      var c' := ApplyUpdate(c, p[0]);
      var rest := p[1..];
      ApplyPatchEffect(c', rest);
      ApplyUpdateEffect(c, p[0]);
      var r := ApplyPatch(c, p);
      assert r == ApplyPatch(c', rest);
      forall i | 0 <= i < |p| ensures Carries(r, p[i]) {
        if i == 0 {
          assert forall j :: 0 <= j < |rest| ==> rest[j].Key() != p[0].Key();
          PatchKeepsOthers(c', rest, p[0]);
        } else {
          assert p[i] == rest[i - 1];
        }
      }
      forall f | f !in Keys(p) ensures SameOn(r, c, f) {
        assert f != p[0].Key() by { assert Keys(p)[0] == p[0].Key(); }
        assert f !in Keys(rest) by {
          forall j | 0 <= j < |rest| ensures Keys(rest)[j] != f {
            assert Keys(rest)[j] == Keys(p)[j + 1];
          }
        }
      }
    }
  }

  /** Two records carrying the value of one update agree on its field. */
  lemma CarriesSameOn(c: Company, d: Company, u: Update)
    requires Carries(c, u) && Carries(d, u)
    ensures SameOn(c, d, u.Key())
  {
  }

  /** Merging the same patch a second time changes nothing: `{ ...{ ...c, ...p }, ...p }`
      is `{ ...c, ...p }`. */
  lemma ApplyPatchIdempotent(c: Company, p: Patch)
    requires DistinctKeys(p)
    ensures ApplyPatch(ApplyPatch(c, p), p) == ApplyPatch(c, p)
  {
    var once := ApplyPatch(c, p);
    var twice := ApplyPatch(once, p);
    ApplyPatchEffect(c, p);
    ApplyPatchEffect(once, p);
    forall f ensures SameOn(twice, once, f) {
      if f in Keys(p) {
        var i :| 0 <= i < |p| && Keys(p)[i] == f;
        CarriesSameOn(twice, once, p[i]);
      }
    }
    SameOnAllFields(twice, once);
  }

  /** A patch that does not name the key of `u` keeps the value `u` wrote. */
  lemma {:induction false} PatchKeepsOthers(c: Company, p: Patch, u: Update)
    requires Carries(c, u)
    requires forall j :: 0 <= j < |p| ==> p[j].Key() != u.Key()
    ensures Carries(ApplyPatch(c, p), u)
    decreases |p|
  {
    if p != [] {
      CarriesKept(c, u, p[0]);
      PatchKeepsOthers(ApplyUpdate(c, p[0]), p[1..], u);
    }
  }
}
