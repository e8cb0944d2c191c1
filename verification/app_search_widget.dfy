/**
 * The search box that lists installed applications as the user types, keeps a selected
 * row and asks for the selected application to be launched.
 */
module AppSearch {
  import opened Wrappers
  import opened Text
  import opened AppScanner

  /** The `app_launch_requested` signal: path, name and extra arguments. */
  datatype LaunchRequest = LaunchRequest(path: string, name: string, args: seq<string>)

  /**
   * `move_selection` on a non-empty list of `count` rows: one step, wrapping from before
   * the first row to the last and from after the last to the first.
   */
  function MovedIndex(index: int, direction: int, count: nat): (r: int)
    requires count > 0
    ensures 0 <= r < count
    ensures 0 <= index + direction < count ==> r == index + direction
    ensures index + direction < 0 ==> r == count - 1
    ensures index + direction >= count ==> r == 0
  {
    var next := index + direction;
    if next < 0 then count - 1 else if next > count - 1 then 0 else next
  }

  /** `get_app_args`: PowerShell, but not PowerShell Core, is kept open with `-NoExit`. */
  function AppArgs(app: SystemApp): (r: seq<string>)
    ensures r == [] || r == ["-NoExit"]
    ensures r != [] <==> Contains(Lower(app.name), "powershell") && !Contains(Lower(app.name), "core")
  {
    var name := Lower(app.name);
    if Contains(name, "powershell") && !Contains(name, "core") then ["-NoExit"] else []
  }

  class AppSearchWidget {
    /** The applications the scanner searches. */
    var scannedApps: seq<SystemApp>
    var filteredApps: seq<SystemApp>
    var selectedIndex: int
    var searchText: string
    /** Every `app_launch_requested` emitted, oldest first. */
    var launches: seq<LaunchRequest>

    /**
     * The selection is a row of the list, or -1 with no list; an empty search box shows
     * no list.
     */
    ghost predicate Valid()
      reads this
    {
      && (0 <= selectedIndex < |filteredApps| || (selectedIndex == -1 && filteredApps == []))
      && (searchText == "" ==> filteredApps == [])
    }

    constructor(scannedApps: seq<SystemApp>)
      ensures Valid()
      ensures this.scannedApps == scannedApps && filteredApps == [] && selectedIndex == -1
      ensures searchText == "" && launches == []
    {
      this.scannedApps := scannedApps;
      filteredApps := [];
      selectedIndex := -1;
      searchText := "";
      launches := [];
    }

    /** `move_selection`: nothing happens without results. */
    method MoveSelection(direction: int)
      requires Valid()
      modifies this
      ensures Valid()
      ensures old(filteredApps) == [] ==> selectedIndex == old(selectedIndex)
      ensures old(filteredApps) != [] ==> selectedIndex == MovedIndex(old(selectedIndex), direction, |old(filteredApps)|)
      ensures 0 <= selectedIndex < |filteredApps| || filteredApps == []
      ensures filteredApps == old(filteredApps) && searchText == old(searchText)
      ensures scannedApps == old(scannedApps) && launches == old(launches)
    {
      if filteredApps == [] {
        return;
      }
      selectedIndex := MovedIndex(selectedIndex, direction, |filteredApps|);
    }

    /**
     * `on_search_changed`: blank text clears the results, other text lists what the
     * scanner finds for it; the first row is selected when there is one.
     */
    method OnSearchChanged(text: string)
      modifies this
      ensures Valid()
      ensures IsBlank(text) ==> filteredApps == []
      ensures !IsBlank(text) ==> filteredApps == SearchResult(scannedApps, Strip(text))
      ensures selectedIndex == (if filteredApps != [] then 0 else -1)
      ensures searchText == text
      ensures scannedApps == old(scannedApps) && launches == old(launches)
    {
      searchText := text;
      StripEmptyIffBlank(text);
      if IsBlank(text) {
        filteredApps := [];
        selectedIndex := -1;
      } else {
        var found := SearchApps(scannedApps, Strip(text));
        filteredApps := found;
        selectedIndex := if found != [] then 0 else -1;
      }
    }

    /**
     * `launch_selected_app`: with a selected row, emit its path, name and arguments, then
     * clear the search box (which runs `OnSearchChanged` with no text) and the results.
     */
    method LaunchSelectedApp()
      requires Valid()
      modifies this
      ensures Valid()
      ensures !(0 <= old(selectedIndex) < |old(filteredApps)|) ==>
                launches == old(launches) && filteredApps == old(filteredApps) && selectedIndex == old(selectedIndex)
                && searchText == old(searchText)
      ensures 0 <= old(selectedIndex) < |old(filteredApps)| ==>
                var app := old(filteredApps)[old(selectedIndex)];
                && launches == old(launches) + [LaunchRequest(app.path, app.name, AppArgs(app))]
                && filteredApps == [] && selectedIndex == -1 && searchText == ""
      ensures scannedApps == old(scannedApps)
    {
      if selectedIndex < 0 || selectedIndex >= |filteredApps| {
        return;
      }
      var app := filteredApps[selectedIndex];
      launches := launches + [LaunchRequest(app.path, app.name, AppArgs(app))];
      if searchText != "" {
        OnSearchChanged("");
      }
      filteredApps := [];
    }

    /** `get_current_app` */
    function CurrentApp(): (r: Option<SystemApp>)
      reads this
      ensures r == None <==> !(0 <= selectedIndex < |filteredApps|)
      ensures r != None ==> r.value == filteredApps[selectedIndex] && r.value in filteredApps
    {
      if selectedIndex < 0 || selectedIndex >= |filteredApps| then None else Some(filteredApps[selectedIndex])
    }
  }
}
