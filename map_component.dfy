/**
 The map component (src/MapComponent.tsx): two state cells, the list of
 placed markers and the description being typed. A click on the map appends
 a marker carrying the clicked point and the current description, then clears
 the description; every state change redraws one pin per marker, its popup
 numbered by the marker's position in the list.

 The map library is not modelled: a drawn pin is a value holding the point,
 the popup number and the issue text.
 */
module MapComponent {

  /** A clicked point. The numbers are carried along, never computed with. */
  datatype LatLng = LatLng(lat: real, lng: real)

  /** One placed marker: where it was clicked and the description typed before. */
  datatype MarkerData = MarkerData(coords: LatLng, issue: string)

  /** One pin on the map: its point and its popup, headed "Issue <number>"
      and showing the issue text. */
  datatype MapPin = MapPin(coords: LatLng, number: nat, issue: string)

  /** The pin drawn for the marker at list index `index`. */
  function PinFor(m: MarkerData, index: nat): MapPin
  {
    MapPin(m.coords, index + 1, m.issue)
  }

  /** The pins the effect draws for a marker list, in list order. */
  function Pins(markers: seq<MarkerData>): seq<MapPin>
  {
    seq(|markers|, i requires 0 <= i < |markers| => PinFor(markers[i], i))
  }

  /** The pin the click handler draws at once equals the last pin of the
      redraw that follows it: the map shows the same pins before and after the
      state change. */
  lemma {:induction false} ClickPinMatchesRedraw(markers: seq<MarkerData>, m: MarkerData)
    ensures Pins(markers + [m]) == Pins(markers) + [MapPin(m.coords, |markers + [m]|, m.issue)]
  {
    var before, after := Pins(markers), Pins(markers + [m]);
    assert |after| == |before| + 1;
    forall i | 0 <= i < |after| ensures after[i] == (before + [MapPin(m.coords, |markers + [m]|, m.issue)])[i] {
      if i < |markers| {
        assert (markers + [m])[i] == markers[i];
      }
    }
  }

  /** The popup numbers of the pins, in list order. */
  function PinNumbers(pins: seq<MapPin>): seq<nat>
  {
    seq(|pins|, i requires 0 <= i < |pins| => pins[i].number)
  }

  /** The popup numbers run 1, 2, ..., n in increasing order: every number in
      that range labels exactly one pin, and no other number occurs. */
  lemma {:induction false} PinNumbersAreConsecutive(markers: seq<MarkerData>)
    ensures forall n :: n in PinNumbers(Pins(markers)) <==> 1 <= n <= |markers|
    ensures forall i, j :: 0 <= i < j < |markers| ==> PinNumbers(Pins(markers))[i] < PinNumbers(Pins(markers))[j]
  {
    var numbers := PinNumbers(Pins(markers));
    forall n | 1 <= n <= |markers| ensures n in numbers {
      assert numbers[n - 1] == n;
    }
  }

  class MapComponent {
    /** `markers`: the placed markers, in the order they were placed. */
    var markers: seq<MarkerData>
    /** `issueDescription`: the text field's current value. */
    var issueDescription: string

    /** The two `useState` cells start empty. */
    constructor ()
      ensures markers == [] && issueDescription == ""
    {
      markers := [];
      issueDescription := "";
    }

    /** The text field's `onChange`: replaces the draft, nothing else. */
    method OnDescriptionChange(value: string)
      modifies this
      ensures issueDescription == value
      ensures markers == old(markers)
    {
      issueDescription := value;
    }

    /** The map's click handler: appends one marker at the clicked point
      carrying the current draft, empty or not, clears the draft, and returns
      the pin it draws at once, numbered by the new list's length. */
    method OnMapClick(lat: real, lng: real) returns (pin: MapPin)
      modifies this
      ensures markers == old(markers) + [MarkerData(LatLng(lat, lng), old(issueDescription))]
      ensures issueDescription == ""
      ensures pin == MapPin(LatLng(lat, lng), |markers|, old(issueDescription))
      ensures Pins(markers) == Pins(old(markers)) + [pin]
    {
      var newMarkers := markers + [MarkerData(LatLng(lat, lng), issueDescription)];
      ClickPinMatchesRedraw(markers, MarkerData(LatLng(lat, lng), issueDescription));
      pin := MapPin(LatLng(lat, lng), |newMarkers|, issueDescription);
      markers := newMarkers;
      issueDescription := "";
    }

    /** The `markers.forEach` of the effect: one pin per marker, in list
      order, the marker at index i numbered i + 1. */
    method DrawMarkers() returns (pins: seq<MapPin>)
      ensures pins == Pins(markers)
    {
      pins := [];
      for i := 0 to |markers|
        invariant |pins| == i
        invariant forall j :: 0 <= j < i ==> pins[j] == PinFor(markers[j], j)
      {
        pins := pins + [PinFor(markers[i], i)];
      }
    }
  }
}
