/** The commercial tables a vendor claim lives in, and the folds every bound is stated over.

    A bill is its row, its versions and its certificates; a purchase-order line is its frozen terms
    and the evidence recorded under it. A row's identity is its position or its `Id`. */
module Claims {
  import opened Sums

  type Id = nat

  datatype Kind = Material | Labour

  /** A purchase-order line, named the way both owners are addressed: by kind and id. */
  datatype Target = Target(kind: Kind, poLineId: Id)

  datatype Status =
    | Draft | Submitted | UnderVerification | Verified
    | Disputed | Resolved | Rejected
    | Certified | ApprovedForPayment | PartPaid | Paid

  predicate IsLive(status: Status) {
    status != Draft && status != Rejected && status != Disputed && status != Resolved
  }

  predicate PastCertification(status: Status) {
    status == Certified || status == ApprovedForPayment || status == PartPaid || status == Paid
  }

  datatype ClaimLine = ClaimLine(target: Target, quantity: real, amount: real)

  datatype Version = Version(number: nat, createdAt: nat, superseded: bool, lines: seq<ClaimLine>)

  /** One frozen `(row, consumedQty)` pair of a certificate. */
  datatype Draw = Draw(target: Target, row: Id, quantity: real)

  datatype Certificate = Certificate(
    version: nat, amount: real, superseded: bool, draws: seq<Draw>, withheld: real, approved: real)

  datatype Bill = Bill(status: Status, versions: seq<Version>, certificates: seq<Certificate>, paid: real)

  /** One evidence row. An original carries its own quantity; a correction (a signed measurement
      delta, or the reversal of an acceptance) is addressed to the original it adjusts. */
  datatype Entry = Entry(id: Id, quantity: real, corrects: Option<Id>, activity: Id)

  /** One purchase-order line: `live` and `closedShort` come from its version's status, `received`
      is the received quantity (committed shifts for labour). */
  datatype Order = Order(
    live: bool, closedShort: bool, qty: real, overage: real, rate: real, tax: real, freight: real,
    received: real, entries: seq<Entry>)

  datatype State = State(bills: seq<Bill>, orders: map<Target, Order>)

  // ── the billed folds ─────────────────────────────────────────────────────────────────────────

  function QtyOf(t: Target): ClaimLine -> real {
    (l: ClaimLine) => if l.target == t then l.quantity else 0.0
  }

  function LineQty(lines: seq<ClaimLine>, t: Target): real { Sum(lines, QtyOf(t)) }

  function VersionOn(t: Target): Version -> real {
    (v: Version) => if v.superseded then 0.0 else LineQty(v.lines, t)
  }

  /** What one bill contributes to the billed quantity of a line. */
  function BillOn(t: Target): Bill -> real {
    (b: Bill) => if IsLive(b.status) then Sum(b.versions, VersionOn(t)) else 0.0
  }

  /** BILLED_QTY(line): live versions of live bills. */
  function Billed(bills: seq<Bill>, t: Target): real { Sum(bills, BillOn(t)) }

  function Current(b: Bill): Version
    requires |b.versions| > 0
  {
    b.versions[|b.versions| - 1]
  }

  predicate LinesPositive(lines: seq<ClaimLine>) {
    forall i :: 0 <= i < |lines| ==> lines[i].quantity > 0.0 && lines[i].amount >= 0.0
  }

  /** A bill has exactly one current version, its last, and claims only positive quantities. */
  predicate VersionsOk(b: Bill) {
    && |b.versions| > 0
    && !Current(b).superseded
    && (forall i :: 0 <= i < |b.versions| - 1 ==> b.versions[i].superseded)
    && (forall i :: 0 <= i < |b.versions| ==> LinesPositive(b.versions[i].lines))
  }

  lemma CurrentQty(b: Bill, t: Target)
    requires VersionsOk(b)
    ensures Sum(b.versions, VersionOn(t)) == LineQty(Current(b).lines, t) >= 0.0
  {
    SumOnly(b.versions, |b.versions| - 1, VersionOn(t));
    SumNonneg(Current(b).lines, QtyOf(t));
  }

  /** A claim with a line on `t` claims a positive quantity of it. */
  lemma ClaimedPositive(lines: seq<ClaimLine>, k: nat)
    requires LinesPositive(lines) && k < |lines|
    ensures LineQty(lines, lines[k].target) >= lines[k].quantity > 0.0
  {
    SumTerm(lines, k, QtyOf(lines[k].target));
  }

  predicate Touches(lines: seq<ClaimLine>, t: Target) {
    exists i :: 0 <= i < |lines| && lines[i].target == t
  }

  lemma UntouchedQty(lines: seq<ClaimLine>, t: Target)
    requires !Touches(lines, t)
    ensures LineQty(lines, t) == 0.0
  {
    SumZero(lines, QtyOf(t));
  }

  // ── the evidence folds ───────────────────────────────────────────────────────────────────────

  function QuantityOf(): Entry -> real { (e: Entry) => e.quantity }

  /** ACCEPTED(line) or MEASURED(line): the signed fold over every row. */
  function Evidence(entries: seq<Entry>): real { Sum(entries, QuantityOf()) }

  function Key(e: Entry): Id { if e.corrects.Some? then e.corrects.value else e.id }

  function ForRow(row: Id): Entry -> real {
    (e: Entry) => if Key(e) == row then e.quantity else 0.0
  }

  /** What one original still contributes: itself and every correction addressed to it. */
  function NetOf(entries: seq<Entry>, row: Id): real { Sum(entries, ForRow(row)) }

  function IsOriginal(): Entry -> bool { (e: Entry) => e.corrects.None? }

  function Originals(entries: seq<Entry>): seq<Entry> { Filter(entries, IsOriginal()) }

  predicate HasOriginal(entries: seq<Entry>, row: Id) {
    exists i :: 0 <= i < |entries| && entries[i].corrects.None? && entries[i].id == row
  }

  /** Rows ascend by id and corrections form one level: each addresses an original on its line. */
  predicate EntriesOk(entries: seq<Entry>) {
    && (forall i, j :: 0 <= i < j < |entries| ==> entries[i].id < entries[j].id)
    && (forall i :: 0 <= i < |entries| && entries[i].corrects.Some? ==> HasOriginal(entries, entries[i].corrects.value))
    && (forall i :: 0 <= i < |entries| && entries[i].corrects.None? ==> NetOf(entries, entries[i].id) >= 0.0)
  }

  // ── what live certificates consume ───────────────────────────────────────────────────────────

  /** The draws of the certificates that still stand: a superseded one keeps its rows as history
      but no fold reads them. */
  function LiveDraws(certificates: seq<Certificate>): seq<Draw> {
    if |certificates| == 0 then [] else
    var last := certificates[|certificates| - 1];
    LiveDraws(certificates[..|certificates| - 1]) + if last.superseded then [] else last.draws
  }

  function DrawOn(t: Target): Draw -> real {
    (d: Draw) => if d.target == t then d.quantity else 0.0
  }

  function DrawOnRow(t: Target, row: Id): Draw -> real {
    (d: Draw) => if d.target == t && d.row == row then d.quantity else 0.0
  }

  /** What one bill's live certificate freezes on a line. */
  function FrozenOn(t: Target): Bill -> real {
    (b: Bill) => Sum(LiveDraws(b.certificates), DrawOn(t))
  }

  function FrozenOnRow(t: Target, row: Id): Bill -> real {
    (b: Bill) => Sum(LiveDraws(b.certificates), DrawOnRow(t, row))
  }

  /** The quantity of one evidence row that live certificates already rest on. */
  function Consumed(bills: seq<Bill>, t: Target, row: Id): real { Sum(bills, FrozenOnRow(t, row)) }

  function Frozen(bills: seq<Bill>, t: Target): real { Sum(bills, FrozenOn(t)) }
}
