/**
  Reverse geocoding: the first result of the geocoding service is flattened
  into a map from each address component's first type to its long name,
  leaving out the excluded types (a later component with the same first type
  overwrites an earlier one); the coordinates are then written under
  "coords", and the caller's extra attributes are merged on top.

  The service answer is a parameter: the list of results for one query, or
  the exception the client raised.
 */
module Geocoding {

  import opened Remote
  import Credentials
  import Fixed4

  datatype AddressComponent = AddressComponent(longName: string, types: seq<string>)

  datatype GeocodeResult = GeocodeResult(addressComponents: seq<AddressComponent>)

  /** A value of the flattened map: a component's long name, the rendered coordinates, or what a caller supplies. */
  datatype Value = Text(text: string) | Coordinates(lon: string, lat: string)

  /**
    What reverse_geocode can raise: the client's own exception, passed on
    unchanged; or one of the two IndexErrors of the flattening, for no result
    at all or for a component without types.
   */
  datatype GeocodeError = ServiceError(message: string) | EmptyResponse | ComponentWithoutTypes(index: nat)

  const DefaultExclusions: seq<string> := ["street_number", "route", "postal_code"]
  const CoordsKey: string := "coords"

  predicate Typed(cs: seq<AddressComponent>)
  {
    forall i :: 0 <= i < |cs| ==> |cs[i].types| > 0
  }

  /** The position of the first component without types, or |cs| if there is none. */
  function FirstUntyped(cs: seq<AddressComponent>): (k: nat)
    ensures k <= |cs|
    ensures forall i :: 0 <= i < k ==> |cs[i].types| > 0
    ensures k < |cs| ==> cs[k].types == []
  {
    if cs == [] then 0
    else if cs[0].types == [] then 0
    else 1 + FirstUntyped(cs[1..])
  }

  /** The first types of the components that are not excluded. */
  ghost function KeptTypes(cs: seq<AddressComponent>, exclude: seq<string>): set<string>
    requires Typed(cs)
  {
    set i | 0 <= i < |cs| && cs[i].types[0] !in exclude :: cs[i].types[0]
  }

  lemma KeptTypesSnoc(cs: seq<AddressComponent>, exclude: seq<string>)
    requires Typed(cs) && cs != []
    ensures var init, c := cs[..|cs| - 1], cs[|cs| - 1];
      KeptTypes(cs, exclude) == KeptTypes(init, exclude) + (if c.types[0] in exclude then {} else {c.types[0]})
  {
    var init, c := cs[..|cs| - 1], cs[|cs| - 1];
    forall k | k in KeptTypes(cs, exclude)
      ensures k in KeptTypes(init, exclude) + (if c.types[0] in exclude then {} else {c.types[0]})
    {
      var i :| 0 <= i < |cs| && cs[i].types[0] !in exclude && cs[i].types[0] == k;
      if i < |cs| - 1 {
        assert init[i] == cs[i];
      }
    }
    forall k | k in KeptTypes(init, exclude)
      ensures k in KeptTypes(cs, exclude)
    {
      var i :| 0 <= i < |init| && init[i].types[0] !in exclude && init[i].types[0] == k;
      assert cs[i] == init[i];
    }
  }

  /**
    The dict comprehension over the address components, in order: every kept
    component writes its long name under its first type.
   */
  function Flatten(cs: seq<AddressComponent>, exclude: seq<string>): (m: map<string, Value>)
    requires Typed(cs)
    ensures m.Keys == KeptTypes(cs, exclude)
    ensures forall k :: k in m ==> k !in exclude
  {
    if cs == [] then map[]
    else
      var init, c := cs[..|cs| - 1], cs[|cs| - 1];
      KeptTypesSnoc(cs, exclude);
      var m := Flatten(init, exclude);
      if c.types[0] in exclude then m else m[c.types[0] := Text(c.longName)]
  }

  /** A kept component that no later component shares its first type with supplies that key's value. */
  lemma {:induction false} FlattenLastWins(cs: seq<AddressComponent>, exclude: seq<string>, i: nat)
    requires Typed(cs) && i < |cs| && cs[i].types[0] !in exclude
    requires forall j :: i < j < |cs| ==> cs[j].types[0] != cs[i].types[0]
    ensures cs[i].types[0] in Flatten(cs, exclude)
    ensures Flatten(cs, exclude)[cs[i].types[0]] == Text(cs[i].longName)
  {
    var init := cs[..|cs| - 1];
    if i < |cs| - 1 {
      assert init[i] == cs[i];
      FlattenLastWins(init, exclude, i);
    }
  }

  /** The position of the last component whose first type is k, or -1 if there is none. */
  function LastWith(cs: seq<AddressComponent>, k: string): (i: int)
    requires Typed(cs)
    ensures -1 <= i < |cs|
    ensures i >= 0 ==> cs[i].types[0] == k
    ensures forall j :: i < j < |cs| && j >= 0 ==> cs[j].types[0] != k
  {
    if cs == [] then -1
    else if cs[|cs| - 1].types[0] == k then |cs| - 1
    else
      var init := cs[..|cs| - 1];
      assert forall j :: 0 <= j < |init| ==> init[j] == cs[j];
      LastWith(init, k)
  }

  /** Conversely, every value of the map is the long name of the last component with that first type. */
  lemma {:induction false} FlattenValueSource(cs: seq<AddressComponent>, exclude: seq<string>, k: string)
    requires Typed(cs) && k in Flatten(cs, exclude)
    ensures LastWith(cs, k) >= 0
    ensures Flatten(cs, exclude)[k] == Text(cs[LastWith(cs, k)].longName)
  {
    var init, c := cs[..|cs| - 1], cs[|cs| - 1];
    if c.types[0] != k {
      FlattenValueSource(init, exclude, k);
      assert cs[LastWith(init, k)] == init[LastWith(init, k)];
    }
  }

  function ExtraOf(extraAttrs: Option<map<string, Value>>): map<string, Value>
  {
    if extraAttrs.Some? then extraAttrs.value else map[]
  }

  class Geocoder {
    var apiKey: string

    /** The key is resolved through the credential convention. */
    constructor (fs: Credentials.FileSystem, apiKey: string)
      ensures this.apiKey == Credentials.Resolve(fs, apiKey)
    {
      this.apiKey := apiKey;
      new;
      if this.apiKey in fs {
        this.apiKey := Credentials.Strip(fs[this.apiKey]);
      }
    }

    /**
      reverse_geocode with return_as_xml false: an exception of the client
      is passed on; otherwise only the first result is
      used; the keys are the kept first types, "coords" and the extra keys;
      an extra attribute overrides everything, "coords" overrides a
      component, and every other key keeps the flattened value.
     */
    method ReverseGeocode(lat: real, lon: real, response: Result<seq<GeocodeResult>, string>,
                          extraAttrs: Option<map<string, Value>>, exclude: seq<string>)
      returns (result: Result<map<string, Value>, GeocodeError>)
      ensures response.Failure? ==> result == Failure(ServiceError(response.error))
      ensures response.Success? && |response.value| == 0 ==> result == Failure(EmptyResponse)
      ensures response.Success? && |response.value| > 0 ==>
        var cs := response.value[0].addressComponents;
        && (result.Success? <==> Typed(cs))
        && (result.Failure? ==> result.error == ComponentWithoutTypes(FirstUntyped(cs)))
        && (result.Success? ==>
              var r, extra := result.value, ExtraOf(extraAttrs);
              && r.Keys == KeptTypes(cs, exclude) + {CoordsKey} + extra.Keys
              && (forall k :: k in extra ==> r[k] == extra[k])
              && (CoordsKey !in extra ==> r[CoordsKey] == Coordinates(Fixed4.Format(lon), Fixed4.Format(lat)))
              && (forall k :: k in r && k !in extra && k != CoordsKey ==> r[k] == Flatten(cs, exclude)[k]))
    {
      if response.Failure? {
        return Failure(ServiceError(response.error));
      }
      if |response.value| == 0 {
        return Failure(EmptyResponse);
      }
      var cs := response.value[0].addressComponents;
      var bad := FirstUntyped(cs);
      if bad < |cs| {
        return Failure(ComponentWithoutTypes(bad));
      }
      var r := Flatten(cs, exclude);
      r := r[CoordsKey := Coordinates(Fixed4.Format(lon), Fixed4.Format(lat))];
      if extraAttrs.Some? {
        r := r + extraAttrs.value;
      }
      return Success(r);
    }
  }
}
