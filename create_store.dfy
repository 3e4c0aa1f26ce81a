/** The store-creation form: the four chained location pickers (region, province,
    city/municipality, barangay) with the lists that feed them, and the validation that
    runs before a store is created. */
module CreateStore {
  import opened Common
  import opened JsText
  import opened LocationOrder
  import opened LocationService

  /** The keys `handleLocationChange` is called with. */
  datatype LocationField = Region | Province | City | Barangay | StreetAddress | ZipCode

  /** `storeData.location` */
  datatype StoreLocation = StoreLocation(region: string, province: string, city: string, barangay: string,
                                         streetAddress: string, zipCode: string)

  /** The part of `storeData` the validation reads, plus the location. */
  datatype StoreForm = StoreForm(name: string, description: string, category: string,
                                 location: StoreLocation, contactNumber: string, email: string)

  /** Which list a location change asks to load, for which parent code. */
  datatype LoadRequest = ProvincesOf(regionCode: string) | CitiesOf(provinceCode: string) | BarangaysOf(cityCode: string)

  function Get(loc: StoreLocation, field: LocationField): string
  {
    match field
    case Region => loc.region
    case Province => loc.province
    case City => loc.city
    case Barangay => loc.barangay
    case StreetAddress => loc.streetAddress
    case ZipCode => loc.zipCode
  }

  /** Position in the region > province > city > barangay chain; the two text fields are
      outside it. */
  function Depth(field: LocationField): Option<nat>
  {
    match field
    case Region => Some(0)
    case Province => Some(1)
    case City => Some(2)
    case Barangay => Some(3)
    case _ => None
  }

  /** `g` lies strictly below `f` in the chain, so a change of `f` clears it. */
  predicate DependsOn(g: LocationField, f: LocationField)
  {
    Depth(f).Some? && Depth(g).Some? && Depth(f).value < Depth(g).value
  }

  /** The location after `handleLocationChange(field, value)`. */
  function NewLocation(loc: StoreLocation, field: LocationField, value: string): StoreLocation
  {
    match field
    case Region => loc.(region := value, province := "", city := "", barangay := "")
    case Province => loc.(province := value, city := "", barangay := "")
    case City => loc.(city := value, barangay := "")
    case Barangay => loc.(barangay := value)
    case StreetAddress => loc.(streetAddress := value)
    case ZipCode => loc.(zipCode := value)
  }

  /** The loader `handleLocationChange` starts: the next level's list, for a non-empty
      region, province or city. */
  function LoadFor(field: LocationField, value: string): Option<LoadRequest>
  {
    if value == "" then None
    else match field
      case Region => Some(ProvincesOf(value))
      case Province => Some(CitiesOf(value))
      case City => Some(BarangaysOf(value))
      case _ => None
  }

  /** `handleLocationChange`: copies the location, writes the field, then blanks the fields
      that depend on it one assignment at a time, and names the list to load. */
  method ChangeLocation(loc: StoreLocation, field: LocationField, value: string)
    returns (newLocation: StoreLocation, load: Option<LoadRequest>)
    ensures newLocation == NewLocation(loc, field, value)
    ensures load == LoadFor(field, value)
  {
    newLocation := match field
      case Region => loc.(region := value)
      case Province => loc.(province := value)
      case City => loc.(city := value)
      case Barangay => loc.(barangay := value)
      case StreetAddress => loc.(streetAddress := value)
      case ZipCode => loc.(zipCode := value);
    load := None;
    if field == Region {
      newLocation := newLocation.(province := "");
      newLocation := newLocation.(city := "");
      newLocation := newLocation.(barangay := "");
      if value != "" {
        load := Some(ProvincesOf(value));
      }
    } else if field == Province {
      newLocation := newLocation.(city := "");
      newLocation := newLocation.(barangay := "");
      if value != "" {
        load := Some(CitiesOf(value));
      }
    } else if field == City {
      newLocation := newLocation.(barangay := "");
      if value != "" {
        load := Some(BarangaysOf(value));
      }
    }
  }

  /** The changed field takes the value, every field below it in the chain is blanked,
      and every other field keeps its value. */
  lemma NewLocationFieldwise(loc: StoreLocation, field: LocationField, value: string, g: LocationField)
    ensures Get(NewLocation(loc, field, value), g) ==
              if g == field then value else if DependsOn(g, field) then "" else Get(loc, g)
  {
  }

  /** A loader starts exactly for a non-empty region, province or city, and it loads the
      level right below the changed one for the chosen code. */
  lemma LoadForSpec(field: LocationField, value: string)
    ensures LoadFor(field, value).Some? <==> value != "" && field in {Region, Province, City}
    ensures LoadFor(field, value) == Some(ProvincesOf(value)) <==> value != "" && field == Region
    ensures LoadFor(field, value) == Some(CitiesOf(value)) <==> value != "" && field == Province
    ensures LoadFor(field, value) == Some(BarangaysOf(value)) <==> value != "" && field == City
  {
  }

  /** A lower level is filled in only under a filled-in parent. */
  predicate Chained(loc: StoreLocation)
  {
    && (loc.province != "" ==> loc.region != "")
    && (loc.city != "" ==> loc.province != "")
    && (loc.barangay != "" ==> loc.city != "")
  }

  /** A picker is enabled unless its parent is empty (`disabled={!storeData.location.…}`). */
  predicate Enabled(loc: StoreLocation, field: LocationField)
  {
    match field
    case Province => loc.region != ""
    case City => loc.province != ""
    case Barangay => loc.city != ""
    case _ => true
  }

  /** Changes made through enabled pickers keep the location chained. */
  lemma ChangeKeepsChain(loc: StoreLocation, field: LocationField, value: string)
    requires Chained(loc) && Enabled(loc, field)
    ensures Chained(NewLocation(loc, field, value))
  {
  }

  /** The validation alerts of `handleCreateStore`, in the order they are checked. */
  datatype StoreError =
    | NameRequired | CategoryRequired | RegionRequired | ProvinceRequired
    | CityRequired | BarangayRequired | StreetAddressRequired | ContactNumberRequired

  function Message(e: StoreError): string
  {
    match e
    case NameRequired => "Store name is required"
    case CategoryRequired => "Please select a store category"
    case RegionRequired => "Please select a region"
    case ProvinceRequired => "Please select a province"
    case CityRequired => "Please select a city"
    case BarangayRequired => "Please select a barangay"
    case StreetAddressRequired => "Street address is required"
    case ContactNumberRequired => "Contact number is required"
  }

  /** Where each check stands in the order the code runs them. */
  function Rank(e: StoreError): nat
  {
    match e
    case NameRequired => 0
    case CategoryRequired => 1
    case RegionRequired => 2
    case ProvinceRequired => 3
    case CityRequired => 4
    case BarangayRequired => 5
    case StreetAddressRequired => 6
    case ContactNumberRequired => 7
  }

  /** When each check fails: the name, street address and contact number must be
      non-blank after `trim`, the other five non-empty. */
  predicate Fails(form: StoreForm, e: StoreError)
  {
    match e
    case NameRequired => IsBlank(form.name)
    case CategoryRequired => form.category == ""
    case RegionRequired => form.location.region == ""
    case ProvinceRequired => form.location.province == ""
    case CityRequired => form.location.city == ""
    case BarangayRequired => form.location.barangay == ""
    case StreetAddressRequired => IsBlank(form.location.streetAddress)
    case ContactNumberRequired => IsBlank(form.contactNumber)
  }

  /** The first check, in the order `handleCreateStore` makes them, that the form fails. */
  function FirstFailure(form: StoreForm): Option<StoreError>
  {
    if IsBlank(form.name) then Some(NameRequired)
    else if form.category == "" then Some(CategoryRequired)
    else if form.location.region == "" then Some(RegionRequired)
    else if form.location.province == "" then Some(ProvinceRequired)
    else if form.location.city == "" then Some(CityRequired)
    else if form.location.barangay == "" then Some(BarangayRequired)
    else if IsBlank(form.location.streetAddress) then Some(StreetAddressRequired)
    else if IsBlank(form.contactNumber) then Some(ContactNumberRequired)
    else None
  }

  /** The error reported is a check the form fails with every earlier check passing, and
      none is reported only when every check passes. */
  lemma FirstFailureSpec(form: StoreForm)
    ensures FirstFailure(form).None? <==> forall e :: !Fails(form, e)
    ensures FirstFailure(form).Some? ==> Fails(form, FirstFailure(form).value)
    ensures FirstFailure(form).Some? ==> forall e :: Rank(e) < Rank(FirstFailure(form).value) ==> !Fails(form, e)
  {
    var r := FirstFailure(form);
    forall e | r.Some? && Rank(e) < Rank(r.value) ensures !Fails(form, e) {
      match e
      case NameRequired =>
      case CategoryRequired =>
      case RegionRequired =>
      case ProvinceRequired =>
      case CityRequired =>
      case BarangayRequired =>
      case StreetAddressRequired =>
      case ContactNumberRequired =>
    }
    if r.Some? {
      assert Fails(form, r.value);
    } else {
      forall e ensures !Fails(form, e) {
        match e
        case NameRequired =>
        case CategoryRequired =>
        case RegionRequired =>
        case ProvinceRequired =>
        case CityRequired =>
        case BarangayRequired =>
        case StreetAddressRequired =>
        case ContactNumberRequired =>
      }
    }
  }

  /** The validation chain of `handleCreateStore`: the checks in order, stopping at the
      first that fails. This is the early-return form of `FirstFailure`, which specifies
      it. */
  method ValidateStore(form: StoreForm) returns (error: Option<StoreError>)
    ensures error == FirstFailure(form)
    ensures error.None? <==> forall e :: !Fails(form, e)
    ensures error.Some? ==> Fails(form, error.value)
    ensures error.Some? ==> forall e :: Rank(e) < Rank(error.value) ==> !Fails(form, e)
  {
    FirstFailureSpec(form);
    if IsBlank(form.name) {
      return Some(NameRequired);
    }
    if form.category == "" {
      return Some(CategoryRequired);
    }
    if form.location.region == "" {
      return Some(RegionRequired);
    }
    if form.location.province == "" {
      return Some(ProvinceRequired);
    }
    if form.location.city == "" {
      return Some(CityRequired);
    }
    if form.location.barangay == "" {
      return Some(BarangayRequired);
    }
    if IsBlank(form.location.streetAddress) {
      return Some(StreetAddressRequired);
    }
    if IsBlank(form.contactNumber) {
      return Some(ContactNumberRequired);
    }
    return None;
  }

  /** A store that passes validation has a fully chained location and non-blank texts. */
  lemma ValidStoreIsComplete(form: StoreForm)
    requires forall e :: !Fails(form, e)
    ensures Chained(form.location)
    ensures !IsBlank(form.name) && !IsBlank(form.location.streetAddress) && !IsBlank(form.contactNumber)
    ensures form.location.barangay != "" && form.category != ""
  {
    assert !Fails(form, NameRequired) && !Fails(form, CategoryRequired);
    assert !Fails(form, RegionRequired) && !Fails(form, ProvinceRequired);
    assert !Fails(form, CityRequired) && !Fails(form, BarangayRequired);
    assert !Fails(form, StreetAddressRequired) && !Fails(form, ContactNumberRequired);
  }

  /** The screen's state: the store being filled in, the four option lists, and the
      location service that fills them. */
  class CreateStoreScreen {
    var store: StoreForm
    var regions: seq<Location>
    var provinces: seq<Location>
    var cities: seq<Location>
    var barangays: seq<Location>
    var service: LocationService

    constructor (service: LocationService, email: string)
      ensures this.service == service
      ensures store == StoreForm("", "", "", StoreLocation("", "", "", "", "", ""), "", email)
      ensures regions == [] && provinces == [] && cities == [] && barangays == []
    {
      this.service := service;
      store := StoreForm("", "", "", StoreLocation("", "", "", "", "", ""), "", email);
      regions, provinces, cities, barangays := [], [], [], [];
    }

    /** `loadRegions` */
    method LoadRegions(env: Env, fetch: FetchOutcome)
      modifies this, service
      ensures service == old(service) && store == old(store)
      ensures var r := Resolve(Level.Regions, "", old(service.storage), env, fetch);
              regions == r.result && service.storage == r.storage
      ensures provinces == old(provinces) && cities == old(cities) && barangays == old(barangays)
    {
      var list, _ := service.GetRegions(env, fetch);
      regions := list;
    }

    /** `loadProvinces`: empties the three lists below regions, then fills the provinces. */
    method LoadProvinces(regionCode: string, env: Env, fetch: FetchOutcome)
      modifies this, service
      ensures service == old(service) && store == old(store) && regions == old(regions)
      ensures var r := Resolve(Level.Provinces, regionCode, old(service.storage), env, fetch);
              provinces == r.result && service.storage == r.storage
      ensures cities == [] && barangays == []
    {
      provinces, cities, barangays := [], [], [];
      var list, _ := service.GetProvinces(regionCode, env, fetch);
      provinces := list;
    }

    /** `loadCities`: empties cities and barangays, then fills the cities. */
    method LoadCities(provinceCode: string, env: Env, fetch: FetchOutcome)
      modifies this, service
      ensures service == old(service) && store == old(store)
      ensures regions == old(regions) && provinces == old(provinces)
      ensures var r := Resolve(Level.Cities, provinceCode, old(service.storage), env, fetch);
              cities == r.result && service.storage == r.storage
      ensures barangays == []
    {
      cities, barangays := [], [];
      var list, _ := service.GetCities(provinceCode, env, fetch);
      cities := list;
    }

    /** `loadBarangays`: empties barangays, then fills them. */
    method LoadBarangays(cityCode: string, env: Env, fetch: FetchOutcome)
      modifies this, service
      ensures service == old(service) && store == old(store)
      ensures regions == old(regions) && provinces == old(provinces) && cities == old(cities)
      ensures var r := Resolve(Level.Barangays, cityCode, old(service.storage), env, fetch);
              barangays == r.result && service.storage == r.storage
    {
      barangays := [];
      var list, _ := service.GetBarangays(cityCode, env, fetch);
      barangays := list;
    }

    /** `handleLocationChange` with the loader it starts run to completion: the location
        changes as `NewLocation` says, and a loader, when started, refreshes its list and
        empties the lists below it. */
    method HandleLocationChange(field: LocationField, value: string, env: Env, fetch: FetchOutcome)
      modifies this, service
      ensures service == old(service) && regions == old(regions)
      ensures store == old(store).(location := NewLocation(old(store.location), field, value))
      ensures LoadFor(field, value).None? ==>
                provinces == old(provinces) && cities == old(cities) && barangays == old(barangays)
                && service.storage == old(service.storage)
      ensures LoadFor(field, value) == Some(ProvincesOf(value)) ==>
                provinces == Resolve(Level.Provinces, value, old(service.storage), env, fetch).result
                && service.storage == Resolve(Level.Provinces, value, old(service.storage), env, fetch).storage
                && cities == [] && barangays == []
      ensures LoadFor(field, value) == Some(CitiesOf(value)) ==>
                provinces == old(provinces)
                && cities == Resolve(Level.Cities, value, old(service.storage), env, fetch).result
                && service.storage == Resolve(Level.Cities, value, old(service.storage), env, fetch).storage
                && barangays == []
      ensures LoadFor(field, value) == Some(BarangaysOf(value)) ==>
                provinces == old(provinces) && cities == old(cities)
                && barangays == Resolve(Level.Barangays, value, old(service.storage), env, fetch).result
                && service.storage == Resolve(Level.Barangays, value, old(service.storage), env, fetch).storage
    {
      var newLocation, load := ChangeLocation(store.location, field, value);
      store := store.(location := newLocation);
      match load {
        case None =>
        case Some(ProvincesOf(code)) => LoadProvinces(code, env, fetch);
        case Some(CitiesOf(code)) => LoadCities(code, env, fetch);
        case Some(BarangaysOf(code)) => LoadBarangays(code, env, fetch);
      }
    }

    /** `handleCreateStore` up to the simulated creation: the validation's verdict. */
    method HandleCreateStore() returns (error: Option<StoreError>)
      ensures error.None? <==> forall e :: !Fails(store, e)
      ensures error.Some? ==> Fails(store, error.value)
      ensures error.Some? ==> forall e :: Rank(e) < Rank(error.value) ==> !Fails(store, e)
    {
      error := ValidateStore(store);
    }
  }
}
