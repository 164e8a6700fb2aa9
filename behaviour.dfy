/**
 * The `pinMap` Drupal behaviour: one map whose pins come from the page
 * settings, a search form that accepts only the postal codes of those pins
 * and geocodes them within the configured region, and an info window for
 * every pin.
 */
module PinMapBehaviour {
  import opened Wrappers
  import opened Text
  import opened Geo
  import opened Markup

  /** The locality of a pin, as resolved by the backend. */
  datatype Locality = Locality(formattedAddress: string, placeId: string, location: LatLng)

  /**
   * One entry of `settings.pins`. Text that is absent or undefined is the
   * empty string (both are falsy).
   */
  datatype Pin = Pin(
    organisationName: string,
    postalCode: string,
    phoneNumber: string,
    locality: Locality,
    information: string)

  /** `settings.map.region`: where postal codes are searched. */
  datatype Region = Region(formattedAddress: string, location: LatLng)

  /** One entry of the `results` of a geocoding response. */
  datatype GeocodeResult = GeocodeResult(location: LatLng)

  /** A geocoding response; `status` may be missing. */
  datatype Response = Response(status: Option<string>, results: seq<GeocodeResult>)

  /** What submitting the search form does. */
  datatype SubmitAction = Ignore | Query(address: string) | NotFound

  /** What the page does in response to a submission, in order. */
  datatype Effect = Queried(address: string) | ShowNotFound

  /** What the response callback does with a response. */
  datatype ResponseOutcome = Dropped | Centred(location: LatLng) | NoResults

  /** The postal codes of the pins. */
  function PostalCodeSet(pins: seq<Pin>): set<string>
  {
    set i | 0 <= i < |pins| :: pins[i].postalCode
  }

  /** The geocoding query of a postal code: the code and the region's address, joined by a comma. */
  function SearchAddress(postalCode: string, region: Region): (q: string)
    ensures q == postalCode + ", " + region.formattedAddress
  {
    JoinTwo(postalCode, region.formattedAddress, ", ");
    Join([postalCode, region.formattedAddress], ", ")
  }

  /** The submit handler's decision for the value of the search input. */
  function SubmitDecision(input: string, postalCodes: map<string, string>, region: Region): (a: SubmitAction)
    ensures a == Ignore <==> input == ""
    ensures a.Query? <==> input != "" && input in postalCodes
    ensures a.Query? ==> a.address == input + ", " + region.formattedAddress
    ensures a == NotFound <==> input != "" && input !in postalCodes
  {
    if "" != input then
      if input in postalCodes then Query(SearchAddress(input, region))
      else NotFound
    else Ignore
  }

  /** The effects of a decision. */
  function EffectsOf(a: SubmitAction): seq<Effect>
  {
    match a
    case Ignore => []
    case Query(address) => [Queried(address)]
    case NotFound => [ShowNotFound]
  }

  /** `apiQuery`'s filter: the response handed to the callback, if any. */
  function ApiQuery(response: Response): (r: Option<Response>)
    ensures r.Some? <==> response.status.Some? && response.status.value in {"ok", "oK", "Ok", "OK"}
    ensures r.Some? ==> r.value == response
  {
    if response.status.None? then None
    else
      var status := response.status.value;
      LowerIsOk(status);
      if Lower(status) == "ok" then Some(response) else None
  }

  /** The information line as the script builds it: the value is passed under '@phone'. */
  function InformationLineAsWritten(information: string): string
  {
    Translate("Information: @info", "@phone", information)
  }

  /** The information line with the value passed under the template's own placeholder. */
  function InformationLine(information: string): string
  {
    Translate("Information: @info", "@info", information)
  }

  /**
   * The lines of a pin's info window as the script builds them, the last
   * one empty when there is no information.
   */
  function PinLines(pin: Pin): seq<string>
  {
    [Strong(pin.organisationName), pin.locality.formattedAddress, PhoneLine(pin.phoneNumber),
     if pin.information != "" then InformationLineAsWritten(pin.information) else ""]
  }

  /** The lines of a pin's info window with the corrected information line. */
  function PinLinesIntended(pin: Pin): seq<string>
  {
    [Strong(pin.organisationName), pin.locality.formattedAddress, PhoneLine(pin.phoneNumber),
     if pin.information != "" then InformationLine(pin.information) else ""]
  }

  // ---------------------------------------------------------------------
  // Properties

  /** As written, the information line never shows the information: the placeholder stays. */
  lemma InformationLineDropsValue(information: string)
    ensures InformationLineAsWritten(information) == "Information: @info"
  {
    FreeWhenKeyStartLate("Information: ", "@info", "@phone");
    assert "Information: " + "@info" == "Information: @info";
    ReplaceFirstFree("Information: @info", "@phone", information);
  }

  /** Corrected, the information line reads "Information: " followed by the information. */
  lemma InformationLineText(information: string)
    ensures InformationLine(information) == "Information: " + information
  {
    DelimitsWithoutFirstChar("Information: ", "@info");
    ReplaceFirstDelimited("Information: ", "@info", information, "");
    assert "Information: " + "@info" + "" == "Information: @info";
  }

  /** Submitting the postal code of any pin issues a query for it within the region. */
  lemma KnownCodeIsQueried(pins: seq<Pin>, postalCodes: map<string, string>, region: Region, k: nat)
    requires postalCodes.Keys == PostalCodeSet(pins)
    requires k < |pins| && pins[k].postalCode != ""
    ensures SubmitDecision(pins[k].postalCode, postalCodes, region)
            == Query(pins[k].postalCode + ", " + region.formattedAddress)
  {
  }

  /**
   * When the pin's name, address and phone number contain no markup,
   * splitting its info window on "<br>" gives back the name, the address,
   * the phone line and the information line as written (empty when there is
   * no information). The information itself never reaches the window.
   */
  lemma PinInfoLinesReadBack(pin: Pin)
    requires Plain(pin.organisationName) && Plain(pin.locality.formattedAddress)
    requires Plain(pin.phoneNumber)
    ensures Split(Join(PinLines(pin), Br), Br) == PinLines(pin)
  {
    var lines := PinLines(pin);
    SafeLines(pin.organisationName, pin.phoneNumber);
    AsWrittenLineDelimits(pin.information);
    NoBreakTagDelimits(lines[0]);
    NoBreakTagDelimits(lines[1]);
    NoBreakTagDelimits(lines[2]);
    assert forall k | 0 <= k < |lines| :: Delimits(lines[k], Br);
    SplitJoin(lines, Br);
  }

  /** The information line as written cannot be mistaken for the separator. */
  lemma AsWrittenLineDelimits(information: string)
    ensures Delimits(InformationLineAsWritten(information), Br)
  {
    InformationLineDropsValue(information);
    var heading, placeholder := "Information: ", "@info";
    assert Plain(heading) && Plain(placeholder);
    assert heading + placeholder == InformationLineAsWritten(information);
    DelimitsWithoutFirstChar(heading + placeholder, Br);
  }

  /**
   * With the corrected information line, and no markup in any of the pin's
   * texts, splitting the info window on "<br>" gives back its four lines.
   */
  lemma PinInfoIntendedLinesReadBack(pin: Pin)
    requires Plain(pin.organisationName) && Plain(pin.locality.formattedAddress)
    requires Plain(pin.phoneNumber) && Plain(pin.information)
    ensures Split(Join(PinLinesIntended(pin), Br), Br) == PinLinesIntended(pin)
  {
    var lines := PinLinesIntended(pin);
    SafeLines(pin.organisationName, pin.phoneNumber);
    IntendedLineDelimits(pin.information);
    NoBreakTagDelimits(lines[0]);
    NoBreakTagDelimits(lines[1]);
    NoBreakTagDelimits(lines[2]);
    assert forall k | 0 <= k < |lines| :: Delimits(lines[k], Br);
    SplitJoin(lines, Br);
  }

  /** The corrected information line of plain information cannot be mistaken for the separator. */
  lemma IntendedLineDelimits(information: string)
    requires Plain(information)
    ensures Delimits(InformationLine(information), Br)
  {
    InformationLineText(information);
    var heading := "Information: ";
    assert Plain(heading);
    assert Plain(heading + information);
    DelimitsWithoutFirstChar(heading + information, Br);
  }

  /**
   * The window as written and the corrected one share the name, address
   * and phone lines; they differ in the last line exactly when the pin has
   * information, which only the corrected window shows.
   */
  lemma PinLinesVersusIntended(pin: Pin)
    ensures PinLines(pin)[..3] == PinLinesIntended(pin)[..3]
    ensures PinLines(pin)[3] == if pin.information != "" then "Information: @info" else ""
    ensures PinLinesIntended(pin)[3] == if pin.information != "" then "Information: " + pin.information else ""
    ensures PinLines(pin) == PinLinesIntended(pin) <==> pin.information == "" || pin.information == "@info"
  {
    var written, intended := PinLines(pin), PinLinesIntended(pin);
    assert written[..3] == intended[..3];
    SameFront(written, intended);
    if pin.information != "" {
      InformationLineDropsValue(pin.information);
      InformationLineText(pin.information);
      InformationLinesAgree(pin.information);
    }
  }

  /** Two sequences of four lines that share their first three are equal exactly when their last lines are. */
  lemma SameFront(xs: seq<string>, ys: seq<string>)
    requires |xs| == |ys| == 4 && xs[..3] == ys[..3]
    ensures xs == ys <==> xs[3] == ys[3]
  {
    if xs[3] == ys[3] {
      assert forall i :: 0 <= i < 3 ==> xs[i] == xs[..3][i] == ys[..3][i] == ys[i];
    }
  }

  /** The two information lines coincide only for the information "@info" itself. */
  lemma InformationLinesAgree(information: string)
    ensures InformationLineAsWritten(information) == InformationLine(information) <==> information == "@info"
  {
    InformationLineDropsValue(information);
    InformationLineText(information);
    var written, intended := "Information: " + "@info", "Information: " + information;
    assert written[13..] == "@info";
    assert intended[13..] == information;
    assert written == "Information: @info";
  }

  // ---------------------------------------------------------------------
  // The behaviour

  /** Collects the postal codes of the pins, each under itself. */
  method CollectPostalCodes(pins: seq<Pin>) returns (postalCodes: map<string, string>)
    ensures postalCodes.Keys == PostalCodeSet(pins)
    ensures forall c :: c in postalCodes ==> postalCodes[c] == c
  {
    postalCodes := map[];
    var i := 0;
    while i < |pins|
      invariant 0 <= i <= |pins|
      invariant postalCodes.Keys == PostalCodeSet(pins[..i])
      invariant forall c :: c in postalCodes ==> postalCodes[c] == c
    {
      assert PostalCodeSet(pins[..i + 1]) == PostalCodeSet(pins[..i]) + {pins[i].postalCode} by {
        assert forall j :: 0 <= j < i ==> pins[..i + 1][j] == pins[..i][j];
        assert pins[..i + 1][i] == pins[i];
      }
      postalCodes := postalCodes[pins[i].postalCode := pins[i].postalCode];
      i := i + 1;
    }
    assert pins[..|pins|] == pins;
  }

  /** The info-window content of a pin, accumulated piece by piece. */
  method PinInfoHtml(pin: Pin) returns (html: string)
    ensures html == Join(PinLines(pin), Br)
  {
    var place := pin.locality;
    html := "";
    html := html + Strong(pin.organisationName);
    html := html + "<br>";
    html := html + place.formattedAddress;
    html := html + "<br>";
    html := html + PhoneLine(pin.phoneNumber);
    html := html + "<br>";
    var last := "";
    if pin.information != "" {
      last := InformationLineAsWritten(pin.information);
      html := html + last;
    } else {
      assert html + last == html;
    }
    PinContent(pin, last);
    assert "" + Strong(pin.organisationName) == Strong(pin.organisationName);
  }

  /** The joined lines of a pin's window, spelled out with their separators. */
  lemma PinContent(pin: Pin, last: string)
    requires last == PinLines(pin)[3]
    ensures Join(PinLines(pin), Br)
            == Strong(pin.organisationName) + Br + pin.locality.formattedAddress + Br + PhoneLine(pin.phoneNumber) + Br + last
  {
    var lines := PinLines(pin);
    assert lines == [lines[0], lines[1], lines[2], lines[3]];
    JoinFour(lines[0], lines[1], lines[2], lines[3], Br);
  }

  /** The info-window contents of the pins, in order: each pin's lines joined with "<br>". */
  function PinContents(pins: seq<Pin>): seq<string>
  {
    seq(|pins|, i requires 0 <= i < |pins| => Join(PinLines(pins[i]), Br))
  }

  /** The behaviour attached to one map. */
  class Behaviour {
    const pins: seq<Pin>
    const region: Region
    var postalCodes: map<string, string>
    var mapCenter: Option<LatLng>
    /** The queries issued and the messages shown, in order. */
    var effects: seq<Effect>
    /** The info-window content of every pin. */
    var infoContents: seq<string>

    /** Collects the postal codes, centres the map on the region and builds the info windows. */
    constructor (pins: seq<Pin>, region: Region)
      ensures this.pins == pins && this.region == region
      ensures postalCodes.Keys == PostalCodeSet(pins)
      ensures forall c :: c in postalCodes ==> postalCodes[c] == c
      ensures mapCenter == Some(region.location)
      ensures effects == []
      ensures |infoContents| == |pins|
      ensures forall i :: 0 <= i < |pins| ==> infoContents[i] == Join(PinLines(pins[i]), Br)
    {
      this.pins := pins;
      this.region := region;
      var codes := CollectPostalCodes(pins);
      postalCodes := codes;
      mapCenter := Some(region.location);
      effects := [];
      var contents: seq<string> := [];
      var i := 0;
      while i < |pins|
        invariant 0 <= i <= |pins|
        invariant contents == PinContents(pins[..i])
      {
        var html := PinInfoHtml(pins[i]);
        assert PinContents(pins[..i + 1]) == contents + [html] by {
          forall j | 0 <= j <= i
            ensures PinContents(pins[..i + 1])[j] == (contents + [html])[j]
          {
            assert pins[..i + 1][j] == pins[j];
            if j < i {
              assert pins[..i][j] == pins[j];
            }
          }
        }
        contents := contents + [html];
        i := i + 1;
      }
      assert pins[..i] == pins;
      infoContents := contents;
    }

    /** The input's 'search' event: centre the map on the region again. */
    method ResetCenter()
      modifies this`mapCenter
      ensures mapCenter == Some(region.location)
    {
      mapCenter := Some(region.location);
    }

    /** The submit handler: ignore an empty input, query a known postal code, else show the message. */
    method Submit(input: string)
      modifies this`effects
      ensures effects == old(effects) + EffectsOf(SubmitDecision(input, postalCodes, region))
    {
      if "" != input {
        if input in postalCodes {
          effects := effects + [Queried(SearchAddress(input, region))];
        } else {
          effects := effects + [ShowNotFound];
        }
      }
    }

    /** A response to a query: centre the map on its first result when the status is ok. */
    method Respond(response: Response) returns (outcome: ResponseOutcome)
      modifies this`mapCenter
      ensures ApiQuery(response).None? ==> outcome == Dropped && mapCenter == old(mapCenter)
      ensures ApiQuery(response).Some? && response.results == [] ==> outcome == NoResults && mapCenter == old(mapCenter)
      ensures ApiQuery(response).Some? && response.results != [] ==>
                outcome == Centred(response.results[0].location) && mapCenter == Some(response.results[0].location)
    {
      var accepted := ApiQuery(response);
      if accepted.Some? {
        if |accepted.value.results| == 0 {
          outcome := NoResults;
        } else {
          mapCenter := Some(accepted.value.results[0].location);
          outcome := Centred(accepted.value.results[0].location);
        }
      } else {
        outcome := Dropped;
      }
    }
  }
}
