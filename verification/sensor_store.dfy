/** Record selection of the sensor-event handler (IotEventHandler/getActuators.go):
    finding the sensor a detector event names, and listing the actuators linked
    to it through its integration. Store responses arrive already decoded. */
module SensorStore {
  import opened Wrappers
  import opened Granularity
  import opened Actuators

  datatype Sensor = Sensor(id: string, name: string, thingName: string)

  /** One item of `listSensors`; `deleted` is the nullable `_deleted` flag. */
  datatype SensorItem = SensorItem(id: string, name: string, thingName: string, deleted: Option<bool>)

  /** One item of an integration's `Actuators`. */
  datatype ActuatorItem = ActuatorItem(
    id: string,
    value: int,
    unit: string,
    expiration: Option<string>,
    version: int,
    deleted: Option<bool>)

  /** A null `_deleted` counts as not deleted. */
  predicate IsDeleted(deleted: Option<bool>) {
    deleted == Some(true)
  }

  /** An item `getSensor` would return for `thingName`. */
  predicate Selectable(item: SensorItem, thingName: string) {
    item.thingName == thingName && !IsDeleted(item.deleted)
  }

  function ToSensor(item: SensorItem): Sensor {
    Sensor(item.id, item.name, item.thingName)
  }

  /** The scan of `getSensor`: the first item whose thing name matches and that
      is not deleted. */
  function FirstSelectable(items: seq<SensorItem>, thingName: string): (r: Result<Sensor>)
    ensures r.Success? <==> exists i :: 0 <= i < |items| && Selectable(items[i], thingName)
    ensures r.Success? ==>
      exists i :: 0 <= i < |items| && Selectable(items[i], thingName) && r.value == ToSensor(items[i]) &&
        forall j :: 0 <= j < i ==> !Selectable(items[j], thingName)
    ensures r.Failure? ==> r.error == "sensor not found"
  {
    if |items| == 0 then Failure("sensor not found")
    else if Selectable(items[0], thingName) then Success(ToSensor(items[0]))
    else
      var r := FirstSelectable(items[1..], thingName);
      assert forall i :: 1 <= i < |items| ==> items[i] == items[1..][i - 1];
      if r.Success? then
        var k :| 0 <= k < |items[1..]| && Selectable(items[1..][k], thingName) && r.value == ToSensor(items[1..][k]) &&
          forall j :: 0 <= j < k ==> !Selectable(items[1..][j], thingName);
        assert Selectable(items[k + 1], thingName);
        r
      else
        r
  }

  /** `getSensor`: a failed `listSensors` query is returned as is; otherwise the scan. */
  function GetSensor(listing: Result<seq<SensorItem>>, thingName: string): (r: Result<Sensor>)
    ensures listing.Failure? ==> r == Failure(listing.error)
    ensures listing.Success? ==> r == FirstSelectable(listing.value, thingName)
  {
    var items :- listing;
    FirstSelectable(items, thingName)
  }

  function ToActuator(item: ActuatorItem): Actuator {
    Actuator(item.id, item.value, item.unit, item.expiration, item.version)
  }

  /** The item loop of `getActuatorList`: the list is as long as `items`; a
      deleted item leaves the zero actuator in its slot. */
  function ActuatorList(items: seq<ActuatorItem>): (r: seq<Actuator>)
    ensures |r| == |items|
    ensures forall i :: 0 <= i < |items| && IsDeleted(items[i].deleted) ==> r[i] == ZeroActuator
    ensures forall i :: 0 <= i < |items| && !IsDeleted(items[i].deleted) ==>
      r[i].id == items[i].id && r[i].value == items[i].value && r[i].unit == items[i].unit &&
      r[i].version == items[i].version && r[i].expiration == items[i].expiration
  {
    seq(|items|, i requires 0 <= i < |items| =>
      if IsDeleted(items[i].deleted) then ZeroActuator else ToActuator(items[i]))
  }

  /** `getActuatorList`: a failed query is returned as is and a null
      `getIntegration` is an error; otherwise the item loop's list. */
  function GetActuatorList(response: Response<seq<ActuatorItem>>): (r: Result<seq<Actuator>>)
    ensures response.HttpError? ==> r == Failure(response.message)
    ensures response.Null? ==> r == Failure("getIntegration is nil")
    ensures response.Found? ==> r == Success(ActuatorList(response.data))
  {
    match response
    case HttpError(m) => Failure(m)
    case Null => Failure("getIntegration is nil")
    case Found(items) => Success(ActuatorList(items))
  }

  /** `getIntegrationId`: a null `getSensor` is an error. */
  function GetIntegrationId(response: Response<string>): (r: Result<string>)
    ensures r.Success? <==> response.Found?
    ensures response.Found? ==> r.value == response.data
    ensures response.Null? ==> r.error == "getSensor is nil"
    ensures response.HttpError? ==> r.error == response.message
  {
    match response
    case HttpError(m) => Failure(m)
    case Null => Failure("getSensor is nil")
    case Found(id) => Success(id)
  }

  /** `getActuators`: resolve the sensor's integration, then list its actuators.
      `integration` and `listing` stand for the two store queries. */
  function GetActuators(
    sensorId: string,
    integration: string -> Response<string>,
    listing: string -> Response<seq<ActuatorItem>>): (r: Result<seq<Actuator>>)
    ensures !integration(sensorId).Found? ==> r.Failure? && r.error == GetIntegrationId(integration(sensorId)).error
    ensures integration(sensorId).Found? ==> r == GetActuatorList(listing(integration(sensorId).data))
  {
    var integrationId :- GetIntegrationId(integration(sensorId));
    GetActuatorList(listing(integrationId))
  }

  /** When the integration lookup fails, the actuator listing is never consulted:
      any two listings give the same failure. */
  lemma GetActuatorsSkipsListingOnFailure(
    sensorId: string,
    integration: string -> Response<string>,
    listing1: string -> Response<seq<ActuatorItem>>,
    listing2: string -> Response<seq<ActuatorItem>>)
    requires !integration(sensorId).Found?
    ensures GetActuators(sensorId, integration, listing1).Failure?
    ensures GetActuators(sensorId, integration, listing1) == GetActuators(sensorId, integration, listing2)
  {
  }
}
