/**
 * The custom-geolocation list of the emulation settings
 * (emulation/GeolocationsSettingsTab.js): the validators of the edit form and
 * the edits of the stored list.
 *
 * The stored setting is the list of location objects; editing an existing
 * location updates that object in place, so the list sees the change. The
 * number conversions `Number` and `parseFloat` are parameters.
 */
module Geolocations {
  import opened JsString

  /** A JavaScript number as far as the validators compare it. */
  datatype JsNumber = NaN | Finite(value: real) | PositiveInfinity | NegativeInfinity

  /** `x < bound`; false for NaN. */
  predicate Below(x: JsNumber, bound: real) {
    match x
    case NaN => false
    case Finite(v) => v < bound
    case PositiveInfinity => false
    case NegativeInfinity => true
  }

  /** `x > bound`; false for NaN. */
  predicate Above(x: JsNumber, bound: real) {
    match x
    case NaN => false
    case Finite(v) => v > bound
    case PositiveInfinity => true
    case NegativeInfinity => false
  }

  datatype ValidatorResult = Valid | Invalid(errorMessage: string)

  const MaxTitleLength: nat := 50

  /** `titleValidator`: the trimmed title must have between 1 and 50 UTF-16 code units. */
  function TitleValidator(input: string): (r: ValidatorResult)
    ensures r == Invalid("Location name cannot be empty") <==> Trim(input) == []
    ensures r == Invalid("Location name must be less than 50 characters") <==> Utf16Length(Trim(input)) > MaxTitleLength
    ensures r.Valid? <==> 1 <= Utf16Length(Trim(input)) <= MaxTitleLength
    ensures r.Valid? || r == Invalid("Location name cannot be empty") || r == Invalid("Location name must be less than 50 characters")
  {
    var value := Trim(input);
    var length := Utf16Length(value);
    if length == 0 then Invalid("Location name cannot be empty")
    else if length > MaxTitleLength then Invalid("Location name must be less than 50 characters")
    else Valid
  }

  /** The boundary of the title check: exactly 50 plain characters pass, 51 do not. */
  lemma TitleLengthBoundary(title: string)
    requires Trim(title) == title && (forall k :: 0 <= k < |title| ==> title[k] as int <= 0xFFFF)
    ensures |title| == 50 ==> TitleValidator(title).Valid?
    ensures |title| == 51 ==> !TitleValidator(title).Valid?
  {
  }

  /** The test `/[a-zA-Z]/`. */
  function HasAsciiLetter(s: string): (r: bool)
    ensures r <==> exists k :: 0 <= k < |s| && IsAsciiLetter(s[k])
  {
    if s == [] then false
    else if IsAsciiLetter(s[0]) then true
    else
      assert forall k :: 1 <= k < |s| ==> s[k] == s[1..][k - 1];
      HasAsciiLetter(s[1..])
  }

  /** `timezoneIdValidator`: the trimmed id must be empty (no override) or contain an ASCII letter. */
  function TimezoneIdValidator(input: string): (r: ValidatorResult)
    ensures r.Valid? <==> var value := Trim(input);
      value == [] || exists k :: 0 <= k < |value| && IsAsciiLetter(value[k])
    ensures !r.Valid? ==> r == Invalid("Timezone ID must contain alphabet letters")
  {
    var value := Trim(input);
    if value == [] || HasAsciiLetter(value) then Valid
    else Invalid("Timezone ID must contain alphabet letters")
  }

  /** The messages of one coordinate's validator. */
  datatype CoordinateMessages = CoordinateMessages(notANumber: string, tooSmall: string, tooLarge: string)

  /**
   * The shared shape of `latValidator` and `longValidator`: an empty trimmed
   * value is accepted; otherwise `Number` must not give NaN and `parseFloat`
   * must lie within the bounds.
   */
  function CoordinateValidator(
    input: string, min: real, max: real, messages: CoordinateMessages,
    toNumber: string -> JsNumber, parseFloat: string -> JsNumber): (r: ValidatorResult)
    ensures Trim(input) == [] ==> r.Valid?
    ensures r.Valid? <==> var value := Trim(input);
      value == [] || (toNumber(value) != NaN && !Below(parseFloat(value), min) && !Above(parseFloat(value), max))
    ensures !r.Valid? ==> r.errorMessage in {messages.notANumber, messages.tooSmall, messages.tooLarge}
  {
    var value := Trim(input);
    var parsedValue := toNumber(value);
    if value == [] then Valid
    else if parsedValue == NaN then Invalid(messages.notANumber)
    else if Below(parseFloat(value), min) then Invalid(messages.tooSmall)
    else if Above(parseFloat(value), max) then Invalid(messages.tooLarge)
    else Valid
  }

  const LatitudeMessages := CoordinateMessages(
    "Latitude must be a number",
    "Latitude must be greater than or equal to -90",
    "Latitude must be less than or equal to 90")

  const LongitudeMessages := CoordinateMessages(
    "Longitude must be a number",
    "Longitude must be greater than or equal to -180",
    "Longitude must be less than or equal to 180")

  /** `latValidator`: bounds -90 and 90. */
  function LatValidator(input: string, toNumber: string -> JsNumber, parseFloat: string -> JsNumber): (r: ValidatorResult)
    ensures Trim(input) == [] ==> r.Valid?
    ensures r.Valid? <==> var value := Trim(input);
      value == [] || (toNumber(value) != NaN && !Below(parseFloat(value), -90.0) && !Above(parseFloat(value), 90.0))
  {
    CoordinateValidator(input, -90.0, 90.0, LatitudeMessages, toNumber, parseFloat)
  }

  /** `longValidator`: bounds -180 and 180. */
  function LongValidator(input: string, toNumber: string -> JsNumber, parseFloat: string -> JsNumber): (r: ValidatorResult)
    ensures Trim(input) == [] ==> r.Valid?
    ensures r.Valid? <==> var value := Trim(input);
      value == [] || (toNumber(value) != NaN && !Below(parseFloat(value), -180.0) && !Above(parseFloat(value), 180.0))
  {
    CoordinateValidator(input, -180.0, 180.0, LongitudeMessages, toNumber, parseFloat)
  }

  /** What `commitEdit` stores for a coordinate input: `parseFloat` of the trimmed value, or 0 when it is empty. */
  function StoredCoordinate(input: string, parseFloat: string -> JsNumber): JsNumber {
    StoredValue(Trim(input), parseFloat)
  }

  /** `value ? parseFloat(value) : 0` on a trimmed input. */
  function StoredValue(value: string, parseFloat: string -> JsNumber): JsNumber {
    if |value| > 0 then parseFloat(value) else Finite(0.0)
  }

  /**
   * A coordinate that passed its validator is stored as a finite number within
   * the validator's bounds. This rests on how the two conversions relate in
   * JavaScript: a string that is not all white space and that `Number` reads
   * as a number is a numeric literal between white space, so `parseFloat`,
   * which skips the leading white space, does not give NaN on it.
   */
  lemma ValidCoordinateStoredInBounds(
    input: string, min: real, max: real, messages: CoordinateMessages,
    toNumber: string -> JsNumber, parseFloat: string -> JsNumber)
    requires min <= 0.0 <= max
    requires forall v :: Trim(v) != [] && toNumber(v) != NaN ==> parseFloat(v) != NaN
    requires CoordinateValidator(input, min, max, messages, toNumber, parseFloat).Valid?
    ensures var stored := StoredCoordinate(input, parseFloat);
      stored.Finite? && min <= stored.value <= max
  {
    var value := Trim(input);
    if value != [] {
      TrimIdempotent(input);
      assert Trim(value) != [] && toNumber(value) != NaN;
    }
  }

  /** `list.splice(index, 1)`: removes the element at `index`, counted from the end when negative. */
  function Splice1<T>(list: seq<T>, index: int): (r: seq<T>)
    ensures 0 <= index < |list| ==> r == list[..index] + list[index + 1..]
    ensures -|list| <= index < 0 ==> r == list[..|list| + index] + list[|list| + index + 1..]
    ensures index >= |list| ==> r == list
    ensures index < -|list| && list != [] ==> r == list[1..]
  {
    var start := if index < 0 then (if |list| + index < 0 then 0 else |list| + index)
                 else (if index > |list| then |list| else index);
    if start < |list| then list[..start] + list[start + 1..] else list
  }

  /** Removing a valid index drops exactly that element and keeps the others in order. */
  lemma Splice1RemovesOne<T>(list: seq<T>, index: int)
    requires 0 <= index < |list|
    ensures var r := Splice1(list, index);
      |r| == |list| - 1 &&
      (forall j :: 0 <= j < index ==> r[j] == list[j]) &&
      (forall j :: index <= j < |r| ==> r[j] == list[j + 1])
  {
  }

  /** `control.value.trim()`. */
  method TrimmedInput(value: string) returns (r: string)
    ensures r == Trim(value)
  {
    r := Trim(value);
  }

  /** A custom location. */
  class Item {
    var title: string
    var lat: JsNumber
    var long: JsNumber
    var timezoneId: string

    constructor (title: string, lat: JsNumber, long: JsNumber, timezoneId: string)
      ensures this.title == title && this.lat == lat && this.long == long && this.timezoneId == timezoneId
    {
      this.title := title;
      this.lat := lat;
      this.long := long;
      this.timezoneId := timezoneId;
    }
  }

  class GeolocationsSettingsTab {
    /** The stored `emulation.geolocations` setting. */
    var customSetting: seq<Item>

    constructor (stored: seq<Item>)
      ensures customSetting == stored
    {
      customSetting := stored;
    }

    /** `_addButtonClicked`: proposes a blank location, to be inserted at the end. */
    method AddButtonClicked() returns (index: nat, item: Item)
      ensures index == |customSetting|
      ensures fresh(item)
      ensures item.title == "" && item.lat == Finite(0.0) && item.long == Finite(0.0) && item.timezoneId == ""
    {
      index := |customSetting|;
      item := new Item("", Finite(0.0), Finite(0.0), "");
    }

    /** `removeItemRequested`. */
    method RemoveItemRequested(item: Item, index: int)
      modifies this
      ensures customSetting == Splice1(old(customSetting), index)
    {
      var list := customSetting;
      list := Splice1(list, index);
      customSetting := list;
    }

    /**
     * `commitEdit`: stores the trimmed form values into the location and
     * appends it when it is new; an edited location already in the list is
     * changed in place.
     */
    method CommitEdit(item: Item, title: string, lat: string, long: string, timezoneId: string, isNew: bool, parseFloat: string -> JsNumber)
      modifies this, item
      ensures item.title == Trim(title) && item.timezoneId == Trim(timezoneId)
      ensures item.lat == StoredCoordinate(lat, parseFloat) && item.long == StoredCoordinate(long, parseFloat)
      ensures customSetting == if isNew then old(customSetting) + [item] else old(customSetting)
    {
      var titleValue := TrimmedInput(title);
      var latValue := TrimmedInput(lat);
      var longValue := TrimmedInput(long);
      var timezoneIdValue := TrimmedInput(timezoneId);
      item.title := titleValue;
      item.lat := StoredValue(latValue, parseFloat);
      item.long := StoredValue(longValue, parseFloat);
      item.timezoneId := timezoneIdValue;
      var list := customSetting;
      if isNew {
        list := list + [item];
      }
      customSetting := list;
    }
  }

  /**
   * Adding a location through the form: the proposed index is the old length,
   * and after the commit the list is one longer with the location at that index.
   */
  method AddLocation(tab: GeolocationsSettingsTab, title: string, lat: string, long: string, timezoneId: string, parseFloat: string -> JsNumber)
    returns (item: Item)
    modifies tab
    ensures |tab.customSetting| == |old(tab.customSetting)| + 1
    ensures tab.customSetting[|old(tab.customSetting)|] == item && fresh(item)
    ensures tab.customSetting[..|old(tab.customSetting)|] == old(tab.customSetting)
    ensures item.title == Trim(title) && item.timezoneId == Trim(timezoneId)
  {
    var index;
    index, item := tab.AddButtonClicked();
    tab.CommitEdit(item, title, lat, long, timezoneId, true, parseFloat);
    assert index == |old(tab.customSetting)|;
  }
}
