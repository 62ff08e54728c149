/**
 * Clients of the controller, replaying the demo page's setup
 * (pages/index.tsx: the locations endpoint and the name filter, items shown
 * by their `name`). Each scenario drives the class through its handlers and
 * asserts what the user sees.
 */
module Scenarios {
  import opened Wrappers
  import opened AutoComplete

  datatype Location = Location(name: string)

  function LocationName(l: Location): string { l.name }

  const Endpoint: string := "https://rickandmortyapi.com/api/location"
  const Filter: string := "/?name="

  /** Typing "Earth", receiving one result and pressing Enter commits it. */
  method EarthIsFoundAndCommitted() {
    var c := new Controller<Location>("locations", Endpoint, Filter, LocationName, false);
    c.HandleKeyUp(Other, "Earth");
    assert c.show && c.selectedOption == 0;
    assert c.pending == Some(Endpoint + Filter + "Earth");
    c.HandleTimerFires(Results([Location("Earth C-137")]));
    assert c.suggestion == [Location("Earth C-137")];
    assert c.requests == [Endpoint + Filter + "Earth"];
    c.HandleKeyDown(Enter, NoResults);
    assert c.search == "Earth C-137" && !c.show && c.selectedOption == -1;
    assert c.selections == ["Earth C-137"];
  }

  /** A 404 empties the list and stores the error text. */
  method NotFoundShowsError() {
    var c := new Controller<Location>("locations", Endpoint, Filter, LocationName, false);
    c.HandleKeyUp(Other, "Zzz");
    c.HandleTimerFires(NotFound);
    assert c.suggestion == [] && c.error == NotFoundMessage;
    assert c.queryCache == map[];
  }

  /** Clicking outside the open panel clears the field and closes the panel. */
  method OutsideClickClears() {
    var c := new Controller<Location>("locations", Endpoint, Filter, LocationName, false);
    c.HandleKeyUp(Other, "Ea");
    assert c.show;
    c.HandleOutsideClick();
    assert c.search == "" && !c.show && c.selectedOption == -1;
  }

  /**
   * Typing a cached query again sends nothing; the fetch scheduled for the
   * keystroke before it is left pending, since a cache hit cancels nothing.
   */
  method RepeatedQueryIsServedFromCache() {
    var c := new Controller<Location>("locations", Endpoint, Filter, LocationName, false);
    c.HandleKeyUp(Other, "Earth");
    c.HandleTimerFires(Results([Location("Earth C-137")]));
    c.HandleKeyUp(Other, "Eart");
    assert c.pending == Some(Endpoint + Filter + "Eart");
    c.HandleKeyUp(Other, "Earth");
    assert c.suggestion == [Location("Earth C-137")];
    assert c.requests == [Endpoint + Filter + "Earth"];
    assert c.pending == Some(Endpoint + Filter + "Eart");
  }
}
