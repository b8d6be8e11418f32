/** The six state slots of the App component and the three routines that fill them on mount
    (src/App.js:21-26, 30-79), with the status text rendered from them (src/App.js:172-174).
    Fetch results arrive already decoded: None stands for a request or a JSON parse that threw. */
module Dashboard {
  import opened Wrappers
  import opened Decimal
  import Conversion
  import History

  /** A decoded JSON value, as the `/doorStatus` reply is consumed: whole and opaque. */
  datatype Json =
    | JNull
    | JBool(b: bool)
    | JNumber(n: real)
    | JString(s: string)
    | JArray(items: seq<Json>)
    | JObject(members: map<string, Json>)

  /** JavaScript truthiness of a JSON value (NaN cannot occur in JSON). */
  predicate Truthy(v: Json)
    ensures !Truthy(v) <==> v in {JNull, JBool(false), JNumber(0.0), JString("")}
  {
    match v
    case JNull => false
    case JBool(b) => b
    case JNumber(n) => n != 0.0
    case JString(s) => s != ""
    case JArray(_) => true
    case JObject(_) => true
  }

  /** `/history`: `{ results: [...] }`. */
  datatype HistoryReply = HistoryReply(results: seq<History.HistoryPoint>)

  /** The three fields of a vehicle the status panel shows. */
  datatype VehicleRecord = VehicleRecord(year: int, make: string, model: string)

  /** `/vehicles`: `{ data: [...] }`. */
  datatype VehicleReply = VehicleReply(data: seq<VehicleRecord>)

  datatype AmbientSensor = AmbientSensor(ambientTemperature: real)

  /** `/temperature`: `{ sensors: [{ ambientTemperature }] }`, in millidegrees Celsius. */
  datatype TemperatureReply = TemperatureReply(sensors: seq<AmbientSensor>)

  datatype HumiditySensor = HumiditySensor(humidity: real)

  /** `/humidity`: `{ sensors: [{ humidity }] }`, in percent. */
  datatype HumidityReply = HumidityReply(sensors: seq<HumiditySensor>)

  /** `temperatureData.sensors[0].ambientTemperature`: reading a field of the undefined `sensors[0]` of an
      empty array throws, exactly as a failed fetch does. */
  function AmbientTemperature(reply: Option<TemperatureReply>): (r: Option<real>)
    ensures r.Some? <==> reply.Some? && |reply.value.sensors| > 0
    ensures r.Some? ==> r.value == reply.value.sensors[0].ambientTemperature
  {
    match reply
    case None => None
    case Some(body) => if |body.sensors| == 0 then None else Some(body.sensors[0].ambientTemperature)
  }

  /** `humidityData.sensors[0].humidity`, failing the same way. */
  function CurrentHumidity(reply: Option<HumidityReply>): (r: Option<real>)
    ensures r.Some? <==> reply.Some? && |reply.value.sensors| > 0
    ensures r.Some? ==> r.value == reply.value.sensors[0].humidity
  {
    match reply
    case None => None
    case Some(body) => if |body.sensors| == 0 then None else Some(body.sensors[0].humidity)
  }

  /** The values of the six slots. `None` is the slots' initial `null`; `doorStatus` holds whatever JSON the
      door endpoint sent, so it starts as `JNull`. */
  datatype Slots = Slots(
    vehicleData: seq<VehicleRecord>,
    sensorHistory: seq<History.HistoryPoint>,
    humidity: Option<real>,
    temperature: Option<real>,
    doorStatus: Json,
    currentTime: Option<string>)

  /** The `useState` initial values (src/App.js:21-26). */
  const INITIAL := Slots([], [], None, None, JNull, None)

  /** getSensorHistory: publish the results, or leave the slot as it was when the request threw. */
  function AfterHistory(s: Slots, reply: Option<HistoryReply>): (r: Slots)
    ensures r.(sensorHistory := s.sensorHistory) == s
    ensures r.sensorHistory == if reply.Some? then reply.value.results else s.sensorHistory
  {
    match reply
    case None => s
    case Some(body) => s.(sensorHistory := body.results)
  }

  /** getVehicleData: publish the vehicle list, or leave the slot as it was. */
  function AfterVehicles(s: Slots, reply: Option<VehicleReply>): (r: Slots)
    ensures r.(vehicleData := s.vehicleData) == s
    ensures r.vehicleData == if reply.Some? then reply.value.data else s.vehicleData
  {
    match reply
    case None => s
    case Some(body) => s.(vehicleData := body.data)
  }

  /** fetchLiveData, step by step: door, temperature (converted), humidity, time; the first step that throws
      ends the routine and the writes already made stay. */
  function AfterLive(s: Slots, door: Option<Json>, temperatureReply: Option<TemperatureReply>,
                     humidityReply: Option<HumidityReply>, clock: string): (r: Slots)
    ensures r.vehicleData == s.vehicleData && r.sensorHistory == s.sensorHistory
    ensures door.None? ==> r == s
    ensures door.Some? ==> r.doorStatus == door.value
    ensures door.Some? && AmbientTemperature(temperatureReply).Some? ==>
      r.temperature == Some(Conversion.MillidegreeCelsiusToFahrenheit(AmbientTemperature(temperatureReply).value))
    ensures r.temperature != s.temperature ==> door.Some? && AmbientTemperature(temperatureReply).Some?
    ensures r.humidity != s.humidity ==>
      AmbientTemperature(temperatureReply).Some? && r.humidity == CurrentHumidity(humidityReply)
      && r.temperature == Some(Conversion.MillidegreeCelsiusToFahrenheit(AmbientTemperature(temperatureReply).value))
    ensures r.currentTime != s.currentTime ==> r.currentTime == Some(clock) && r.humidity == CurrentHumidity(humidityReply)
    ensures door.None? || AmbientTemperature(temperatureReply).None? || CurrentHumidity(humidityReply).None? ==>
      r.humidity == s.humidity && r.currentTime == s.currentTime
    ensures door.Some? && AmbientTemperature(temperatureReply).Some? && CurrentHumidity(humidityReply).Some? ==>
      r.humidity == CurrentHumidity(humidityReply) && r.currentTime == Some(clock)
  {
    match door
    case None => s
    case Some(d) =>
      var s1 := s.(doorStatus := d);
      match AmbientTemperature(temperatureReply)
      case None => s1
      case Some(m) =>
        var s2 := s1.(temperature := Some(Conversion.MillidegreeCelsiusToFahrenheit(m)));
        match CurrentHumidity(humidityReply)
        case None => s2
        case Some(h) =>
          var s3 := s2.(humidity := Some(h));
          s3.(currentTime := Some(clock))
  }

  /** How many of fetchLiveData's four writes happen: the steps before the first that throws. Reading the
      clock never throws, so 3 is impossible. */
  function LiveProgress(door: Option<Json>, temperatureReply: Option<TemperatureReply>,
                        humidityReply: Option<HumidityReply>): (k: nat)
    ensures k <= 4 && k != 3
  {
    if door.None? then 0
    else if AmbientTemperature(temperatureReply).None? then 1
    else if CurrentHumidity(humidityReply).None? then 2
    else 4
  }

  /** The three mount-time routines, run to their ends in the order the effect starts them
      (src/App.js:82-84). Each slot ends as its own routine alone leaves it. */
  function AfterMount(s: Slots, history: Option<HistoryReply>, vehicles: Option<VehicleReply>, door: Option<Json>,
                      temperatureReply: Option<TemperatureReply>, humidityReply: Option<HumidityReply>,
                      clock: string): (r: Slots)
    ensures r.sensorHistory == AfterHistory(s, history).sensorHistory
    ensures r.vehicleData == AfterVehicles(s, vehicles).vehicleData
    ensures var live := AfterLive(s, door, temperatureReply, humidityReply, clock);
      r.doorStatus == live.doorStatus && r.temperature == live.temperature
      && r.humidity == live.humidity && r.currentTime == live.currentTime
  {
    var r := AfterLive(AfterVehicles(AfterHistory(s, history), vehicles), door, temperatureReply, humidityReply, clock);
    LiveWritesPrefix(AfterVehicles(AfterHistory(s, history), vehicles), door, temperatureReply, humidityReply, clock);
    LiveWritesPrefix(s, door, temperatureReply, humidityReply, clock);
    r
  }

  // ---------------------------------------------------------------------------------------------------
  // Rendered status text

  /** `doorStatus ? "Closed" : "Open"` (src/App.js:174). */
  function DoorText(doorStatus: Json): (text: string)
    ensures text == "Closed" <==> Truthy(doorStatus)
    ensures text == "Open" <==> !Truthy(doorStatus)
  {
    if Truthy(doorStatus) then "Closed" else "Open"
  }

  /** `${vehicleData[0]?.year}` and its siblings: the field, or "undefined" when there is no first record. */
  function FirstYear(vehicleData: seq<VehicleRecord>): (text: string)
    ensures text == "undefined" <==> vehicleData == []
    ensures vehicleData != [] ==> text == IntString(vehicleData[0].year)
  {
    if vehicleData == [] then "undefined" else IntString(vehicleData[0].year)
  }

  function FirstMake(vehicleData: seq<VehicleRecord>): (text: string)
    ensures vehicleData == [] ==> text == "undefined"
    ensures vehicleData != [] ==> text == vehicleData[0].make
  {
    if vehicleData == [] then "undefined" else vehicleData[0].make
  }

  function FirstModel(vehicleData: seq<VehicleRecord>): (text: string)
    ensures vehicleData == [] ==> text == "undefined"
    ensures vehicleData != [] ==> text == vehicleData[0].model
  {
    if vehicleData == [] then "undefined" else vehicleData[0].model
  }

  /** The vehicle heading as written (src/App.js:172): `vehicleData` is always an array, and every array is
      truthy, so the template branch is always taken. */
  function VehicleHeadingAsWritten(vehicleData: seq<VehicleRecord>): (heading: string)
    ensures heading != ""
    ensures vehicleData == [] ==> heading == "undefined undefined undefined"
  {
    FirstYear(vehicleData) + " " + FirstMake(vehicleData) + " " + FirstModel(vehicleData)
  }

  /** The vehicle heading as the guard intends it: blank until there is a vehicle to describe. */
  function VehicleHeading(vehicleData: seq<VehicleRecord>): (heading: string)
    ensures heading == "" <==> vehicleData == []
    ensures vehicleData != [] ==>
      heading == IntString(vehicleData[0].year) + " " + vehicleData[0].make + " " + vehicleData[0].model
  {
    if vehicleData == [] then "" else VehicleHeadingAsWritten(vehicleData)
  }

  // ---------------------------------------------------------------------------------------------------
  // The component's state

  class App {
    var vehicleData: seq<VehicleRecord>
    var sensorHistory: seq<History.HistoryPoint>
    var humidity: Option<real>
    var temperature: Option<real>
    var doorStatus: Json
    var currentTime: Option<string>

    function Snapshot(): Slots
      reads this
    {
      Slots(vehicleData, sensorHistory, humidity, temperature, doorStatus, currentTime)
    }

    /** The slots as `useState` creates them. */
    constructor ()
      ensures Snapshot() == INITIAL
    {
      vehicleData, sensorHistory := [], [];
      humidity, temperature := None, None;
      doorStatus, currentTime := JNull, None;
    }

    /** getSensorHistory (src/App.js:30-38). */
    method GetSensorHistory(reply: Option<HistoryReply>)
      modifies this`sensorHistory
      ensures Snapshot() == AfterHistory(old(Snapshot()), reply)
    {
      match reply
      case None =>
      case Some(body) => sensorHistory := body.results;
    }

    /** getVehicleData (src/App.js:41-49). */
    method GetVehicleData(reply: Option<VehicleReply>)
      modifies this`vehicleData
      ensures Snapshot() == AfterVehicles(old(Snapshot()), reply)
    {
      match reply
      case None =>
      case Some(body) => vehicleData := body.data;
    }

    /** fetchLiveData (src/App.js:52-79): four sequential writes, abandoned at the first throw. The clock
        reading `new Date().toLocaleTimeString()` is the parameter `clock`. */
    method FetchLiveData(door: Option<Json>, temperatureReply: Option<TemperatureReply>,
                         humidityReply: Option<HumidityReply>, clock: string)
      modifies this`doorStatus, this`temperature, this`humidity, this`currentTime
      ensures Snapshot() == AfterLive(old(Snapshot()), door, temperatureReply, humidityReply, clock)
    {
      if door.None? {
        return;
      }
      doorStatus := door.value;

      var ambient := AmbientTemperature(temperatureReply);
      if ambient.None? {
        return;
      }
      temperature := Some(Conversion.MillidegreeCelsiusToFahrenheit(ambient.value));

      var reading := CurrentHumidity(humidityReply);
      if reading.None? {
        return;
      }
      humidity := Some(reading.value);

      currentTime := Some(clock);
    }

    /** The mount effect (src/App.js:81-84), each routine run to its end in turn; since the routines write
        disjoint slots, RoutinesCommute shows any other completion order ends in the same slots. */
    method Mount(history: Option<HistoryReply>, vehicles: Option<VehicleReply>, door: Option<Json>,
                 temperatureReply: Option<TemperatureReply>, humidityReply: Option<HumidityReply>, clock: string)
      modifies this
      ensures Snapshot() == AfterMount(old(Snapshot()), history, vehicles, door, temperatureReply, humidityReply, clock)
    {
      GetSensorHistory(history);
      GetVehicleData(vehicles);
      FetchLiveData(door, temperatureReply, humidityReply, clock);
    }

    /** The door line of the status panel. */
    function DoorStatusText(): (text: string)
      reads this
      ensures text == "Closed" <==> Truthy(doorStatus)
      ensures text == "Open" <==> !Truthy(doorStatus)
    {
      DoorText(doorStatus)
    }

    /** The vehicle line of the status panel as src/App.js:172 renders it: never blank. */
    function VehicleTextAsWritten(): (text: string)
      reads this
      ensures text != ""
      ensures vehicleData == [] ==> text == "undefined undefined undefined"
      ensures vehicleData != [] ==>
        text == IntString(vehicleData[0].year) + " " + vehicleData[0].make + " " + vehicleData[0].model
    {
      VehicleHeadingAsWritten(vehicleData)
    }

    /** The vehicle line of the status panel, with the guard corrected. */
    function CorrectedVehicleText(): (text: string)
      reads this
      ensures text == "" <==> vehicleData == []
      ensures vehicleData != [] ==>
        text == IntString(vehicleData[0].year) + " " + vehicleData[0].make + " " + vehicleData[0].model
    {
      VehicleHeading(vehicleData)
    }
  }

  // ---------------------------------------------------------------------------------------------------
  // Properties

  /** fetchLiveData writes a prefix of its four slots: with k steps completed, each of door, temperature,
      humidity and time holds its new value when its position is below k and its prior value otherwise;
      the history and vehicle slots are never touched. */
  lemma LiveWritesPrefix(s: Slots, door: Option<Json>, temperatureReply: Option<TemperatureReply>,
                         humidityReply: Option<HumidityReply>, clock: string)
    ensures var t, k := AfterLive(s, door, temperatureReply, humidityReply, clock), LiveProgress(door, temperatureReply, humidityReply);
      && t.vehicleData == s.vehicleData && t.sensorHistory == s.sensorHistory
      && (if 0 < k then t.doorStatus == door.value else t.doorStatus == s.doorStatus)
      && (if 1 < k then t.temperature == Some(Conversion.MillidegreeCelsiusToFahrenheit(temperatureReply.value.sensors[0].ambientTemperature))
          else t.temperature == s.temperature)
      && (if 2 < k then t.humidity == Some(humidityReply.value.sensors[0].humidity) else t.humidity == s.humidity)
      && (if 3 < k then t.currentTime == Some(clock) else t.currentTime == s.currentTime)
  {
  }

  /** Which step stops fetchLiveData: the door fetch, then an empty or failed temperature reply, then an empty
      or failed humidity reply; all four writes happen exactly when all three replies are usable. */
  lemma LiveProgressCases(door: Option<Json>, temperatureReply: Option<TemperatureReply>, humidityReply: Option<HumidityReply>)
    ensures LiveProgress(door, temperatureReply, humidityReply) == 0 <==> door.None?
    ensures LiveProgress(door, temperatureReply, humidityReply) == 4 <==>
      door.Some? && temperatureReply.Some? && |temperatureReply.value.sensors| > 0
      && humidityReply.Some? && |humidityReply.value.sensors| > 0
  {
  }

  /** Replaying the same replies changes nothing further. */
  lemma LiveIdempotent(s: Slots, door: Option<Json>, temperatureReply: Option<TemperatureReply>,
                       humidityReply: Option<HumidityReply>, clock: string)
    ensures var once := AfterLive(s, door, temperatureReply, humidityReply, clock);
      AfterLive(once, door, temperatureReply, humidityReply, clock) == once
  {
  }

  /** The routines write disjoint slots, so the order in which they complete does not matter. */
  lemma RoutinesCommute(s: Slots, history: Option<HistoryReply>, vehicles: Option<VehicleReply>, door: Option<Json>,
                        temperatureReply: Option<TemperatureReply>, humidityReply: Option<HumidityReply>, clock: string)
    ensures AfterVehicles(AfterHistory(s, history), vehicles) == AfterHistory(AfterVehicles(s, vehicles), history)
    ensures AfterLive(AfterHistory(s, history), door, temperatureReply, humidityReply, clock)
         == AfterHistory(AfterLive(s, door, temperatureReply, humidityReply, clock), history)
    ensures AfterLive(AfterVehicles(s, vehicles), door, temperatureReply, humidityReply, clock)
         == AfterVehicles(AfterLive(s, door, temperatureReply, humidityReply, clock), vehicles)
  {
  }

  /** Partial completion is a normal end state: history arrives while the vehicle request fails, so the
      charts fill in and the vehicle slot keeps its initial empty list. */
  lemma HistoryWithoutVehicles(results: seq<History.HistoryPoint>, door: Option<Json>,
                               temperatureReply: Option<TemperatureReply>, humidityReply: Option<HumidityReply>,
                               clock: string)
    ensures var s := AfterMount(INITIAL, Some(HistoryReply(results)), None, door, temperatureReply, humidityReply, clock);
      s.sensorHistory == results && s.vehicleData == []
      && History.CombinedChart(s.sensorHistory).labels == History.Labels(results)
  {
    LiveWritesPrefix(AfterVehicles(AfterHistory(INITIAL, Some(HistoryReply(results))), None),
                     door, temperatureReply, humidityReply, clock);
  }

  /** A reply of 23000 millidegrees Celsius shows 73.4 Fahrenheit; a failed humidity request then leaves
      humidity and time unset; a door reply of `true` reads "Closed". */
  lemma LiveTemperatureExample(clock: string)
    ensures var s := AfterLive(INITIAL, Some(JBool(true)), Some(TemperatureReply([AmbientSensor(23000.0)])), None, clock);
      s.temperature == Some(73.4) && s.humidity == None && s.currentTime == None && DoorText(s.doorStatus) == "Closed"
  {
    Conversion.ConversionFixedPoints();
  }

  /** The door line reads "Closed" exactly for a truthy slot; the initial `null`, and a door request that
      fails before any reply, read "Open". */
  lemma DoorTextCases(v: Json)
    ensures DoorText(v) == "Closed" <==> Truthy(v)
    ensures DoorText(v) == "Open" <==> !Truthy(v)
    ensures DoorText(INITIAL.doorStatus) == "Open"
    ensures DoorText(AfterLive(INITIAL, None, None, None, "").doorStatus) == "Open"
  {
  }

  /** As written, the vehicle guard never blanks the heading: before any vehicle arrives (or when the
      vehicle request fails) it reads "undefined undefined undefined"; the intended heading is blank. */
  lemma VehicleHeadingBeforeData()
    ensures VehicleHeadingAsWritten(INITIAL.vehicleData) == "undefined undefined undefined"
    ensures VehicleHeading(INITIAL.vehicleData) == ""
  {
  }

  /** Once a vehicle is known both headings agree: year, make and model separated by single spaces. */
  lemma VehicleHeadingWithData(vehicleData: seq<VehicleRecord>)
    requires vehicleData != []
    ensures VehicleHeading(vehicleData) == VehicleHeadingAsWritten(vehicleData)
    ensures VehicleHeadingAsWritten(vehicleData)
         == IntString(vehicleData[0].year) + " " + vehicleData[0].make + " " + vehicleData[0].model
  {
  }
}
