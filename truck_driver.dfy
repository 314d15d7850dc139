/**
 * The truck driver's page
 * (frontend/src/pages/dashboards/transporter/TruckDriverDashboard.jsx): the
 * ten duties of a driver, the search over them and the detail modal.
 */
module TruckDriver {
  import opened Wrappers
  import opened JsStrings
  import opened ListView

  /** One duty card: its id, title, one-line summary and full description. */
  datatype Duty = Duty(id: string, title: string, short: string, details: string)

  /** `ROLES_DATA`, in written order. */
  const RolesData: seq<Duty> := [
    Duty("transport", "Transporting Export Goods",
      "Pick up goods and deliver to port/CFS/airport on time.",
      "Drive the truck to pick up export goods from the warehouse or "
        + "supplier and deliver them safely to seaports, airports, CFS "
        + "(Container Freight Stations), or ICDs. Monitor timing against "
        + "vessel/flight cut-offs and communicate ETA to the export team."),
    Duty("loading", "Loading & Unloading Assistance",
      "Assist/supervise loading; secure cargo to prevent damage.",
      "Help or supervise loading of export cargo. Ensure goods are placed "
        + "properly to avoid damage, confirm load is balanced and tied "
        + "properly, and check that weight limits and safety rules are "
        + "followed."),
    Duty("documents", "Document Handling",
      "Carry and submit required export documents.",
      "Handle documents such as Delivery Challan, Invoice copies, Packing "
        + "List, E-Way Bill, Gate Pass, LR/Consignment Note and submit as "
        + "required."),
    Duty("coordination", "Coordination With Team",
      "Communicate arrival times, delays and follow logistics instructions.",
      "Communicate arrival times, delays or issues to the transport or "
        + "export team. Follow route instructions and relay incidents."),
    Duty("maintenance", "Vehicle Maintenance & Safety",
      "Daily vehicle checks and reporting of mechanical issues.",
      "Daily routine checks (fuel, brakes, lights, tyre condition), "
        + "report mechanical problems, and ensure compliance."),
    Duty("compliance", "Compliance & Legal Requirements",
      "Carry valid documents and permits.",
      "Carry Driving License, RC, Insurance, Pollution certificate and "
        + "any state permits."),
    Duty("timely", "Timely Delivery",
      "Deliver on-time to avoid missing vessel/flight cut-offs.",
      "Ensure on-time movement to CFS/ICD, airport cargo terminal or port "
        + "stuffing point."),
    Duty("safety", "Cargo Safety & Security",
      "Protect cargo from damage, tampering and theft.",
      "Maintain safe driving practices to protect goods, ensure container "
        + "seals are intact, and report issues."),
    Duty("logs", "Keeping Trip Logs",
      "Record trip data: distance, fuel, gate in/out, incidents.",
      "Record distance traveled, fuel usage, time in/out and incidents."),
    Duty("customs", "Supporting Customs Procedures",
      "Support weighing, inspections and CHA coordination.",
      "At CFS/Port, get containers weighed, submit documents and "
        + "coordinate with CHA.")]

  /** The ten duty ids are distinct, so each card has its own key. */
  lemma DutyIdsDistinct()
    ensures |RolesData| == 10
    ensures forall i, j | 0 <= i < j < |RolesData| :: RolesData[i].id != RolesData[j].id
  {
  }

  function DutyFields(d: Duty): seq<string> {
    [d.title, d.short, d.details]
  }

  /** `filtered`: every duty for a blank query, otherwise those whose title, summary or description contains it. */
  function Filtered(query: string): (r: seq<Duty>)
    ensures Query(query) == "" ==> r == RolesData
    ensures forall d :: d in r <==> d in RolesData && (Query(query) == "" || FieldsMatch(DutyFields(d), Query(query)))
  {
    Search(RolesData, query, DutyFields)
  }

  /** What the main area shows: the no-match message, or the cards of the filtered duties. */
  datatype MainArea = NoMatch | Cards(duties: seq<Duty>)

  function Main(query: string): (m: MainArea)
    ensures m == NoMatch <==> Filtered(query) == []
    ensures m.Cards? ==> m.duties == Filtered(query) && m.duties != []
  {
    if |Filtered(query)| == 0 then NoMatch else Cards(Filtered(query))
  }

  /** A blank search shows all ten cards, never the no-match message. */
  lemma BlankQueryShowsAll(query: string)
    requires AllSpace(query)
    ensures Main(query) == Cards(RolesData)
  {
  }

  /** The detail modal's state: the duty it shows and whether it is open. */
  class Modal {
    var selectedRole: Option<Duty>
    var isModalOpen: bool

    /** Open and selected go together. */
    predicate Valid()
      reads this
    {
      isModalOpen <==> selectedRole.Some?
    }

    /** The modal is drawn only when it is open and a duty is selected. */
    predicate Renders()
      reads this
    {
      isModalOpen && selectedRole.Some?
    }

    constructor()
      ensures selectedRole == None && !isModalOpen
      ensures Valid() && !Renders()
    {
      selectedRole := None;
      isModalOpen := false;
    }

    /** `openRole`: selects the duty and opens the modal. */
    method OpenRole(role: Duty)
      modifies this
      ensures selectedRole == Some(role) && isModalOpen
      ensures Valid() && Renders()
    {
      selectedRole := Some(role);
      isModalOpen := true;
    }

    /** `closeModal`: closes the modal and clears the selection. */
    method CloseModal()
      modifies this
      ensures selectedRole == None && !isModalOpen
      ensures Valid() && !Renders()
    {
      isModalOpen := false;
      selectedRole := None;
    }

    /** While the two fields move together the modal is drawn exactly when it is open. */
    lemma RendersWhenOpen()
      requires Valid()
      ensures Renders() <==> isModalOpen
    {
    }
  }
}
