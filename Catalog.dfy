/**
  The checklist catalog: the two fixed, ordered phase lists of the app
  (buyer and seller), each phase a name and an ordered list of tasks.
  Icons and colour classes are presentation and are not modelled.
 */
module Catalog {

  datatype Option<T> = None | Some(value: T)

  /** One checklist item: its title (the `task` field), guidance note and optional resource link. */
  datatype Task = Task(title: string, note: string, link: Option<string>)

  /** An ordered stage of a transaction. */
  datatype Phase = Phase(name: string, tasks: seq<Task>)

  /** The two values `transactionType` ever takes: "buyer" and "seller". */
  datatype TransactionType = Buyer | Seller

  const BuyerPhases: seq<Phase> := [
    Phase("Pre-Contract", [
      Task("Client Qualification",
           "Verify pre-approval or proof of funds before showings.",
           Some("https://www.consumerfinance.gov/owning-a-home/loan-options/")),
      Task("Representation Agreement",
           "Ensure buyer signs exclusive representation agreement.", None),
      Task("Property Search",
           "Set up MLS alerts and refine search criteria.", None),
      Task("Showing Coordination",
           "Schedule showings, confirm availability, track feedback.", None)
    ]),
    Phase("Under Contract", [
      Task("Offer Submission",
           "Confirm offer completeness, signatures, and timelines.", None),
      Task("Home Inspection",
           "Schedule inspection within contract deadlines.",
           Some("https://www.homeinspector.org/")),
      Task("Appraisal",
           "Coordinate lender appraisal; verify value supports offer.", None),
      Task("Title Review",
           "Ensure title report is reviewed; confirm no encumbrances.", None),
      Task("Repair Negotiations",
           "Submit repair addenda within contingency deadlines.", None)
    ]),
    Phase("Closing", [
      Task("Closing Disclosure Review",
           "Buyer must receive at least 3 days before closing.",
           Some("https://www.consumerfinance.gov/owning-a-home/closing-disclosure/")),
      Task("Wire Transfer Verification",
           "Confirm wiring instructions directly with title company.", None),
      Task("Final Walkthrough",
           "Confirm property condition and repairs before settlement.", None),
      Task("Document Signing & Key Delivery",
           "Coordinate signing appointment and key exchange.", None)
    ])
  ]

  const SellerPhases: seq<Phase> := [
    Phase("Pre-Listing", [
      Task("Listing Agreement",
           "Ensure seller signs exclusive right-to-sell agreement.", None),
      Task("Comparative Market Analysis (CMA)",
           "Prepare pricing strategy and review with seller.", None),
      Task("Staging & Photography",
           "Coordinate prep, photography, and media materials.", None),
      Task("Seller Disclosures",
           "Provide and review required property disclosure forms.", None),
      Task("Lockbox & Sign Setup",
           "Install signage and secure property access.", None)
    ]),
    Phase("Active Marketing", [
      Task("MLS Listing Activation",
           "Verify accuracy of all listing details and upload media.", None),
      Task("Virtual Tours & Social Media",
           "Promote across channels to maximize exposure.", None),
      Task("Open Houses",
           "Plan and host; collect visitor feedback.", None),
      Task("Feedback Collection",
           "Share buyer/agent feedback with seller weekly.", None)
    ]),
    Phase("Under Contract", [
      Task("Offer Review & Negotiation",
           "Present offers promptly; discuss pros/cons with seller.", None),
      Task("Inspection Coordination",
           "Schedule and manage buyer inspections per contract.", None),
      Task("HOA / Condo Docs",
           "Provide association documents to buyer timely.", None),
      Task("Move-Out Planning",
           "Coordinate timing with closing and possession.", None)
    ]),
    Phase("Closing", [
      Task("Settlement Review",
           "Verify final settlement statement with seller.", None),
      Task("Closing Appointment",
           "Confirm signing date/time and ID requirements.", None),
      Task("Utilities & Keys",
           "Ensure utilities transferred and keys/remotes provided.", None),
      Task("Proceeds Confirmation",
           "Confirm wire receipt or check delivery post-closing.", None)
    ])
  ]

  /**
    The active phase list: `transactionType === "buyer" ? buyerPhases : sellerPhases`.
    Its phase names are distinct and it holds 13 tasks for a buyer, 17 for a seller.
   */
  function PhasesFor(t: TransactionType): (ps: seq<Phase>)
    ensures DistinctNames(ps)
    ensures TaskCount(ps) == if t == Buyer then 13 else 17
  {
    if t == Buyer then BuyerPhases else SellerPhases
  }

  /**
    `phases.reduce((acc, phase) => acc + phase.tasks.length, acc)`: a left fold, which adds
    exactly the number of tasks of the phase list to its accumulator.
   */
  function Reduce(acc: nat, phases: seq<Phase>): (r: nat)
    ensures r == acc + TaskCount(phases)
    decreases |phases|
  {
    if phases == [] then acc else Reduce(acc + |phases[0].tasks|, phases[1..])
  }

  /** `totalTasks`: the fold started at 0, i.e. the sum of `tasks.length` over the phases. */
  function TotalTasks(phases: seq<Phase>): (n: nat)
    ensures n == TaskCount(phases)
  {
    Reduce(0, phases)
  }

  /** Reference definition: the number of tasks, phase by phase from the right. */
  function TaskCount(phases: seq<Phase>): nat
  {
    if phases == [] then 0 else |phases[0].tasks| + TaskCount(phases[1..])
  }

  /** Counting tasks is additive over concatenation of phase lists. */
  lemma {:induction false} TaskCountConcat(ps: seq<Phase>, qs: seq<Phase>)
    ensures TaskCount(ps + qs) == TaskCount(ps) + TaskCount(qs)
    decreases |ps|
  {
    if ps == [] {
      assert ps + qs == qs;
    } else {
      assert (ps + qs)[1..] == ps[1..] + qs;
      TaskCountConcat(ps[1..], qs);
    }
  }

  /** `totalTasks` is additive over concatenation of phase lists. */
  lemma TotalTasksConcat(ps: seq<Phase>, qs: seq<Phase>)
    ensures TotalTasks(ps + qs) == TotalTasks(ps) + TotalTasks(qs)
  {
    TaskCountConcat(ps, qs);
  }

  /** Names of the phases, in order. */
  function Names(phases: seq<Phase>): seq<string>
  {
    seq(|phases|, j requires 0 <= j < |phases| => phases[j].name)
  }

  /** Task counts of the phases, in order. */
  function Counts(phases: seq<Phase>): seq<nat>
  {
    seq(|phases|, j requires 0 <= j < |phases| => |phases[j].tasks|)
  }

  /** No two phases of the list have the same name. */
  predicate DistinctNames(phases: seq<Phase>)
  {
    forall i, j :: 0 <= i < j < |phases| ==> phases[i].name != phases[j].name
  }

  /** The shape of both catalogs: phase names in authored order and their task counts. */
  lemma CatalogShape()
    ensures Names(PhasesFor(Buyer)) == ["Pre-Contract", "Under Contract", "Closing"]
    ensures Counts(PhasesFor(Buyer)) == [4, 5, 4]
    ensures Names(PhasesFor(Seller)) == ["Pre-Listing", "Active Marketing", "Under Contract", "Closing"]
    ensures Counts(PhasesFor(Seller)) == [5, 4, 4, 4]
  {
  }

  /** The two catalogs share exactly the phase names "Under Contract" and "Closing". */
  lemma SharedPhaseNames()
    ensures forall i, j :: 0 <= i < |BuyerPhases| && 0 <= j < |SellerPhases| && BuyerPhases[i].name == SellerPhases[j].name
              ==> BuyerPhases[i].name in {"Under Contract", "Closing"}
    ensures BuyerPhases[1].name == SellerPhases[2].name == "Under Contract"
    ensures BuyerPhases[2].name == SellerPhases[3].name == "Closing"
  {
  }
}
