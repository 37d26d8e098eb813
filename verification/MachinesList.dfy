/**
 * The machines list view: the list of the company's machines as tiles, a
 * detail view of one machine's data or of all machines' data, the loading
 * and error flags of both requests, and which screen is shown.
 *
 * Each handler of the component is a method of `MachinesListView` that
 * changes the same fields in the same order; a request's completion is a
 * separate method, called with the reply whenever it arrives.
 */
module MachinesList {
  import opened Wrappers

  const CompanyId: int := 1

  /** The messages thrown when a request answers with a non-success status. */
  const MachinesErrorMessage: string := "Błąd podczas pobierania danych maszyn"
  const MachineDetailErrorMessage: string := "Błąd podczas pobierania szczegółów maszyny"
  const AllDataErrorMessage: string := "Błąd podczas pobierania wszystkich danych maszyn"

  datatype Machine = Machine(id: int, name: string)

  /** One row of machine data, as the detail table lists it. */
  datatype Row = Row(
    timestamp: string, cycleCompleted: int, hasError: bool, isRunning: bool,
    machineId: int, tag1: int, tag2: int, tag3: int, tag4: int)

  /** The three requests the view issues. */
  datatype Request =
    | MachinesOfCompany(companyId: int)
    | MachineData(machineId: int)
    | AllMachineData

  /**
   * What a request yields: a rejected request with its message, or an HTTP
   * reply whose body either parses (`Ok`) or fails to parse (`Err`).
   */
  datatype HttpReply<T> =
    | NetworkFailure(reason: string)
    | Response(ok: bool, body: Result<T>)

  /**
   * The settled promise of `fetch(...).then(check status, parse body)`: a
   * non-success status becomes a rejection with the request's own message.
   */
  function Settle<T>(reply: HttpReply<T>, notOkMessage: string): (r: Result<T>)
    ensures reply.NetworkFailure? ==> r == Err(reply.reason)
    ensures reply.Response? && !reply.ok ==> r == Err(notOkMessage)
    ensures reply.Response? && reply.ok ==> r == reply.body
  {
    match reply
    case NetworkFailure(reason) => Err(reason)
    case Response(ok, body) => if ok then body else Err(notOkMessage)
  }

  /** The message a detail request rejects with on a non-success status. */
  function DetailErrorMessage(req: Request): string {
    if req.AllMachineData? then AllDataErrorMessage else MachineDetailErrorMessage
  }

  /** JavaScript truthiness of an error message: null and "" are falsy. */
  predicate HasMessage(s: Option<string>) {
    s.Some? && s.value != ""
  }

  /** JavaScript truthiness of the selected id: null and 0 are falsy. */
  predicate IsSelected(id: Option<int>) {
    id.Some? && id.value != 0
  }

  // ---------------------------------------------------------------------------
  // Screens
  // ---------------------------------------------------------------------------

  datatype Heading = AllMachinesHeading | MachineHeading(id: int)

  /** What the detail view shows under its heading. */
  datatype DetailBody =
    | DetailLoading
    | DetailError(message: string)
    | NoData                  // "Brak danych"
    | Table(rows: seq<Row>)

  datatype Screen =
    | LoadingScreen
    | ErrorScreen(message: string)
    | DetailScreen(heading: Heading, body: DetailBody)
    | TileScreen(machines: seq<Machine>)   // followed by the "all machines" tile

  class MachinesListView {
    var machines: seq<Machine>
    var loading: bool
    var error: Option<string>
    var selectedMachineId: Option<int>
    var machineData: seq<Row>
    var loadingMachineData: bool
    var machineDataError: Option<string>
    var showAllData: bool

    /** A machine is never selected while the all-data mode is on. */
    ghost predicate Valid()
      reads this
    {
      !(selectedMachineId.Some? && showAllData)
    }

    constructor ()
      ensures Valid()
      ensures machines == [] && loading && error == None
      ensures selectedMachineId == None && machineData == [] && !loadingMachineData
      ensures machineDataError == None && !showAllData
    {
      machines := [];
      loading := true;
      error := None;
      selectedMachineId := None;
      machineData := [];
      loadingMachineData := false;
      machineDataError := None;
      showAllData := false;
    }

    /** The mount effect: raises `loading` and asks for the company's machines. */
    method LoadMachines() returns (req: Request)
      requires Valid()
      modifies this
      ensures Valid() && req == MachinesOfCompany(CompanyId)
      ensures loading
      ensures machines == old(machines) && error == old(error)
      ensures selectedMachineId == old(selectedMachineId) && showAllData == old(showAllData)
      ensures machineData == old(machineData) && loadingMachineData == old(loadingMachineData)
      ensures machineDataError == old(machineDataError)
    {
      loading := true;
      req := MachinesOfCompany(CompanyId);
    }

    /** The machines request settles: store the machines or the message, and stop loading. */
    method MachinesLoaded(reply: HttpReply<seq<Machine>>)
      requires Valid()
      modifies this
      ensures Valid() && !loading
      ensures Settle(reply, MachinesErrorMessage).Ok? ==>
        machines == Settle(reply, MachinesErrorMessage).value && error == old(error)
      ensures Settle(reply, MachinesErrorMessage).Err? ==>
        machines == old(machines) && error == Some(Settle(reply, MachinesErrorMessage).message)
      ensures selectedMachineId == old(selectedMachineId) && showAllData == old(showAllData)
      ensures machineData == old(machineData) && loadingMachineData == old(loadingMachineData)
      ensures machineDataError == old(machineDataError)
    {
      match Settle(reply, MachinesErrorMessage) {
        case Ok(data) =>
          machines := data;
          loading := false;
        case Err(message) =>
          error := Some(message);
          loading := false;
      }
    }

    /** A click on a machine's tile: select it, leave the all-data mode, and ask for its data. */
    method CardClick(id: int) returns (req: Request)
      requires Valid()
      modifies this
      ensures Valid() && req == MachineData(id)
      ensures selectedMachineId == Some(id) && !showAllData
      ensures loadingMachineData && machineDataError == None
      ensures machineData == old(machineData)
      ensures machines == old(machines) && loading == old(loading) && error == old(error)
      ensures !loading && !HasMessage(error) && id != 0 ==>
        CurrentScreen() == DetailScreen(MachineHeading(id), DetailLoading)
      ensures !loading && !HasMessage(error) && id == 0 ==>
        CurrentScreen() == TileScreen(machines)
    {
      selectedMachineId := Some(id);
      showAllData := false;
      loadingMachineData := true;
      machineDataError := None;
      req := MachineData(id);
    }

    /** A click on the "all machines" tile: clear the selection, enter the all-data mode, ask for everything. */
    method AllDataClick() returns (req: Request)
      requires Valid()
      modifies this
      ensures Valid() && req == AllMachineData
      ensures selectedMachineId == None && showAllData
      ensures loadingMachineData && machineDataError == None
      ensures machineData == old(machineData)
      ensures machines == old(machines) && loading == old(loading) && error == old(error)
      ensures !loading && !HasMessage(error) ==>
        CurrentScreen() == DetailScreen(AllMachinesHeading, DetailLoading)
    {
      selectedMachineId := None;
      showAllData := true;
      loadingMachineData := true;
      machineDataError := None;
      req := AllMachineData;
    }

    /**
     * A detail request (one machine's or all machines') settles. The reply is
     * stored whatever is selected by then: nothing ties it to the request
     * that is current.
     */
    method MachineDataLoaded(req: Request, reply: HttpReply<seq<Row>>)
      requires Valid() && !req.MachinesOfCompany?
      modifies this
      ensures Valid() && !loadingMachineData
      ensures Settle(reply, DetailErrorMessage(req)).Ok? ==>
        machineData == Settle(reply, DetailErrorMessage(req)).value
        && machineDataError == old(machineDataError)
      ensures Settle(reply, DetailErrorMessage(req)).Err? ==>
        machineData == [] && machineDataError == Some(Settle(reply, DetailErrorMessage(req)).message)
      ensures selectedMachineId == old(selectedMachineId) && showAllData == old(showAllData)
      ensures machines == old(machines) && loading == old(loading) && error == old(error)
    {
      match Settle(reply, DetailErrorMessage(req)) {
        case Ok(data) =>
          machineData := data;
          loadingMachineData := false;
        case Err(message) =>
          machineData := [];
          machineDataError := Some(message);
          loadingMachineData := false;
      }
    }

    /** The back button: clear selection, mode, data and error; the detail-loading flag is left as it is. */
    method BackClick()
      requires Valid()
      modifies this
      ensures Valid()
      ensures selectedMachineId == None && !showAllData
      ensures machineData == [] && machineDataError == None
      ensures loadingMachineData == old(loadingMachineData)
      ensures machines == old(machines) && loading == old(loading) && error == old(error)
      ensures !loading && !HasMessage(error) ==> CurrentScreen() == TileScreen(machines)
    {
      selectedMachineId := None;
      showAllData := false;
      machineData := [];
      machineDataError := None;
    }

    /** The body of the detail view: loading, then error, then "no data", then the table. */
    function DetailContent(): (b: DetailBody)
      reads this
      ensures b.DetailLoading? <==> loadingMachineData
      ensures b.DetailError? <==> !loadingMachineData && HasMessage(machineDataError)
      ensures b.DetailError? ==> b.message == machineDataError.value
      ensures b.NoData? <==> !loadingMachineData && !HasMessage(machineDataError) && machineData == []
      ensures b.Table? ==> b.rows == machineData && machineData != []
    {
      if loadingMachineData then DetailLoading
      else if HasMessage(machineDataError) then DetailError(machineDataError.value)
      else if |machineData| == 0 then NoData
      else Table(machineData)
    }

    /**
     * The screen: loading, then error, then the detail view when a machine is
     * selected (with a truthy id) or the all-data mode is on, then the tiles.
     */
    function CurrentScreen(): (s: Screen)
      reads this
      ensures s.LoadingScreen? <==> loading
      ensures s.ErrorScreen? <==> !loading && HasMessage(error)
      ensures s.ErrorScreen? ==> s.message == error.value
      ensures s.DetailScreen? <==>
        !loading && !HasMessage(error) && (IsSelected(selectedMachineId) || showAllData)
      ensures s.DetailScreen? ==> s.body == DetailContent()
      ensures s.DetailScreen? && showAllData ==> s.heading == AllMachinesHeading
      ensures s.DetailScreen? && !showAllData ==> s.heading == MachineHeading(selectedMachineId.value)
      ensures s.TileScreen? ==> s.machines == machines
    {
      if loading then LoadingScreen
      else if HasMessage(error) then ErrorScreen(error.value)
      else if IsSelected(selectedMachineId) || showAllData then
        DetailScreen(
          if showAllData then AllMachinesHeading else MachineHeading(selectedMachineId.value),
          DetailContent())
      else TileScreen(machines)
    }
  }

  /**
   * A click on machine `first`, the back button, then a click on machine
   * `second` (the detail view hides the tiles, so a second card click needs
   * Back first), with the first machine's data arriving after the second
   * click: the first machine's rows are shown under the second machine's heading.
   */
  method StaleDetailShown(first: int, second: int, rows: seq<Row>) returns (screen: Screen)
    requires first != 0 && second != 0 && first != second && rows != []
    ensures screen == DetailScreen(MachineHeading(second), Table(rows))
  {
    var view := new MachinesListView();
    view.MachinesLoaded(Response(true, Ok([Machine(first, "M1"), Machine(second, "M2")])));
    var firstRequest := view.CardClick(first);
    assert view.CurrentScreen() == DetailScreen(MachineHeading(first), DetailLoading);
    view.BackClick();
    assert view.CurrentScreen() == TileScreen(view.machines);
    var secondRequest := view.CardClick(second);
    view.MachineDataLoaded(firstRequest, Response(true, Ok(rows)));
    screen := view.CurrentScreen();
  }
}
